/** Length-prefixed frames on a byte stream (src/armour-api/src/lib.rs:34-63).
    Serialization itself is a pair of functions, one undoing the other. */
module Codec {
  import opened Prelude

  type byte = x: int | 0 <= x < 256

  const LIMIT: nat := 0x1_0000

  // ----- frames -----

  /** The length as a big-endian 16-bit number: longer payloads wrap around. */
  function Header(n: nat): (h: seq<byte>) { [n % LIMIT / 256, n % 256] }

  function Frame(payload: seq<byte>): seq<byte> { Header(|payload|) + payload }

  function Frames(ps: seq<seq<byte>>): seq<byte> {
    if ps == [] then [] else Frame(ps[0]) + Frames(ps[1..])
  }

  function ReadLength(b: seq<byte>): nat
    requires |b| >= 2
  {
    var hi: nat, lo: nat := b[0], b[1];
    hi * 256 + lo
  }

  /** A whole frame has arrived. */
  predicate Complete(b: seq<byte>) { |b| >= 2 && |b| >= ReadLength(b) + 2 }

  function Payload(b: seq<byte>): seq<byte>
    requires Complete(b)
  {
    b[2..ReadLength(b) + 2]
  }

  function Remaining(b: seq<byte>): seq<byte>
    requires Complete(b)
  {
    b[ReadLength(b) + 2..]
  }

  /** The payloads of all complete frames, and the bytes left over. */
  function Drain(b: seq<byte>): (r: (seq<seq<byte>>, seq<byte>))
    ensures !Complete(r.1)
    decreases |b|
  {
    if !Complete(b) then ([], b)
    else var (ps, rest) := Drain(Remaining(b)); ([Payload(b)] + ps, rest)
  }

  // ----- the stream -----

  /** The messages are what the payloads parse to. */
  ghost predicate Parsed<T>(parse: seq<byte> -> Option<T>, ps: seq<seq<byte>>, out: seq<T>) {
    |out| == |ps| && forall i :: 0 <= i < |out| ==> parse(ps[i]) == Some(out[i])
  }

  ghost predicate AllParse<T>(parse: seq<byte> -> Option<T>, ps: seq<seq<byte>>) {
    forall i :: 0 <= i < |ps| ==> parse(ps[i]).Some?
  }

  lemma ParsedMore<T>(parse: seq<byte> -> Option<T>, ps: seq<seq<byte>>, out: seq<T>, qs: seq<seq<byte>>, more: seq<T>)
    requires Parsed(parse, ps, out) && Parsed(parse, qs, more)
    ensures Parsed(parse, ps + qs, out + more)
  {}

  lemma AllParsePart<T>(parse: seq<byte> -> Option<T>, ps: seq<seq<byte>>, qs: seq<seq<byte>>)
    requires !AllParse(parse, qs)
    ensures !AllParse(parse, ps + qs)
  {
    var i :| 0 <= i < |qs| && parse(qs[i]).None?;
    assert (ps + qs)[|ps| + i] == qs[i];
  }

  class Stream<T> {
    const parse: seq<byte> -> Option<T>
    var buffer: seq<byte>

    constructor (parse: seq<byte> -> Option<T>)
      ensures this.parse == parse && buffer == []
    {
      this.parse := parse;
      buffer := [];
    }

    /** The source's `deserialize_decode`: nothing yet, a message, or an error; the
        frame is consumed even when it does not parse. */
    method Decode() returns (r: Result<Option<T>>)
      modifies this
      ensures !Complete(old(buffer)) ==> r == Ok(None) && buffer == old(buffer)
      ensures Complete(old(buffer)) ==> buffer == Remaining(old(buffer))
      ensures Complete(old(buffer)) ==>
        r == match parse(Payload(old(buffer))) case Some(x) => Ok(Some(x)) case None => Err(Failed)
    {
      if |buffer| < 2 { return Ok(None); }
      var size := ReadLength(buffer);
      if |buffer| < size + 2 { return Ok(None); }
      var bytes := buffer[2..];
      buffer := bytes[size..];
      assert bytes[..size] == Payload(old(buffer));
      match parse(bytes[..size]) {
        case Some(x) => return Ok(Some(x));
        case None => return Err(Failed);
      }
    }

    /** The source's `serialize_encode` on serialized bytes. */
    method Encode(payload: seq<byte>)
      modifies this
      ensures buffer == old(buffer) + Frame(payload)
    {
      buffer := buffer + Header(|payload|);
      buffer := buffer + payload;
    }

    /** One chunk arrives and messages are decoded until there is none. */
    method Feed(chunk: seq<byte>) returns (out: seq<T>, ok: bool)
      modifies this
      ensures var d := Drain(old(buffer) + chunk);
        (ok <==> AllParse(parse, d.0)) && (ok ==> buffer == d.1 && Parsed(parse, d.0, out))
      ensures var d := Drain(old(buffer) + chunk);
        !ok ==> |out| < |d.0| && Parsed(parse, d.0[..|out|], out) && parse(d.0[|out|]).None?
    {
      ghost var all := Drain(buffer + chunk);
      buffer := buffer + chunk;
      out := [];
      ghost var done: seq<seq<byte>> := [];
      while true
        invariant all.0 == done + Drain(buffer).0 && all.1 == Drain(buffer).1
        invariant Parsed(parse, done, out)
        decreases |buffer|
      {
        ghost var before := buffer;
        var r := Decode();
        match r {
          case Ok(None) =>
            assert Drain(before).0 == [];
            return out, true;
          case Ok(Some(x)) =>
            done := done + [Payload(before)];
            out := out + [x];
          case Err(_) =>
            assert all.0[|done|] == Payload(before) && all.0[..|done|] == done;
            return out, false;
        }
      }
    }

    /** All chunks of a connection, one after the other. */
    method FeedAll(chunks: seq<seq<byte>>) returns (out: seq<T>, ok: bool)
      requires buffer == []
      modifies this
      ensures var d := Drain(Concat(chunks));
        (ok <==> AllParse(parse, d.0)) && (ok ==> buffer == d.1 && Parsed(parse, d.0, out))
    {
      out := [];
      var i := 0;
      assert Concat(chunks[..0]) == [];
      while i < |chunks|
        invariant 0 <= i <= |chunks|
        invariant Drain(Concat(chunks[..i])).1 == buffer && Parsed(parse, Drain(Concat(chunks[..i])).0, out)
      {
        ghost var seen, d, e := Concat(chunks[..i]), Drain(Concat(chunks[..i])), Drain(buffer + chunks[i]);
        ghost var before := out;
        DrainMore(seen, chunks[i]);
        ConcatNext(chunks, i);
        assert Drain(Concat(chunks[..i + 1])) == (d.0 + e.0, e.1);
        var more, fine := Feed(chunks[i]);
        if !fine {
          AllParsePart(parse, d.0, e.0);
          Rest(parse, chunks, i + 1);
          return out, false;
        }
        ParsedMore(parse, d.0, before, e.0, more);
        out := out + more;
        i := i + 1;
      }
      assert chunks[..i] == chunks;
      return out, true;
    }
  }

  /** A message that does not parse stays one. */
  lemma Rest<T>(parse: seq<byte> -> Option<T>, chunks: seq<seq<byte>>, i: nat)
    requires i <= |chunks| && !AllParse(parse, Drain(Concat(chunks[..i])).0)
    ensures !AllParse(parse, Drain(Concat(chunks)).0)
  {
    ConcatPrefix(chunks, i);
    DrainMore(Concat(chunks[..i]), Concat(chunks[i..]));
    var ps := Drain(Concat(chunks[..i])).0;
    var k :| 0 <= k < |ps| && parse(ps[k]).None?;
    assert Drain(Concat(chunks)).0[k] == ps[k];
  }

  function Concat(chunks: seq<seq<byte>>): seq<byte> {
    if chunks == [] then [] else chunks[0] + Concat(chunks[1..])
  }

  lemma ConcatNext(chunks: seq<seq<byte>>, i: nat)
    requires i < |chunks|
    ensures Concat(chunks[..i + 1]) == Concat(chunks[..i]) + chunks[i]
    decreases i
  {
    if i == 0 {
      assert chunks[..1] == [chunks[0]] && Concat([]) == [];
      assert Concat(chunks[..1]) == chunks[0] + Concat([]);
    } else {
      ConcatNext(chunks[1..], i - 1);
      assert chunks[..i + 1][1..] == chunks[1..][..i] && chunks[..i][1..] == chunks[1..][..i - 1];
    }
  }

  lemma ConcatPrefix(chunks: seq<seq<byte>>, i: nat)
    requires i <= |chunks|
    ensures Concat(chunks) == Concat(chunks[..i]) + Concat(chunks[i..])
    decreases i
  {
    if i == 0 {
      assert chunks[0..] == chunks;
    } else {
      ConcatPrefix(chunks[1..], i - 1);
      assert chunks[..i][1..] == chunks[1..][..i - 1] && chunks[1..][i - 1..] == chunks[i..];
    }
  }

  // ----- what draining does -----

  lemma CompleteMore(a: seq<byte>, b: seq<byte>)
    requires Complete(a)
    ensures Complete(a + b) && Payload(a + b) == Payload(a) && Remaining(a + b) == Remaining(a) + b
  {}

  /** More bytes do not change the frames already complete. */
  lemma {:induction false} DrainMore(a: seq<byte>, b: seq<byte>)
    ensures var (ps, rest) := Drain(a);
      var (qs, rest') := Drain(rest + b);
      Drain(a + b) == (ps + qs, rest')
    decreases |a|
  {
    hide Complete, Payload, Remaining;
    if Complete(a) {
      CompleteMore(a, b);
      RemainingShorter(a);
      DrainMore(Remaining(a), b);
      var p, ps, qs := Payload(a), Drain(Remaining(a)).0, Drain(Drain(a).1 + b).0;
      assert [p] + (ps + qs) == ([p] + ps) + qs;
    } else {
      assert [] + Drain(a + b).0 == Drain(a + b).0;
    }
  }

  lemma RemainingShorter(a: seq<byte>)
    requires Complete(a)
    ensures |Remaining(a)| < |a|
  {}

  predicate Fits(payload: seq<byte>) { |payload| < LIMIT }

  lemma HeaderParts(n: nat)
    ensures n % LIMIT / 256 * 256 + n % 256 == n % LIMIT
  {
    var q, m := n / LIMIT, n % LIMIT;
    var hi, lo := m / 256, m % 256;
    assert n == (256 * q + hi) * 256 + lo;
    LowByte(n, 256 * q + hi, lo);
  }

  lemma LowByte(n: nat, q: nat, lo: nat)
    requires n == q * 256 + lo && lo < 256
    ensures n % 256 == lo
  {}

  lemma FrameLength(payload: seq<byte>, rest: seq<byte>)
    ensures ReadLength(Frame(payload) + rest) == |payload| % LIMIT
  {
    var n, f := |payload|, Frame(payload) + rest;
    assert f[0] == n % LIMIT / 256 && f[1] == n % 256;
    HeaderParts(n);
  }

  lemma FrameDrains(payload: seq<byte>, rest: seq<byte>)
    requires Fits(payload)
    ensures Complete(Frame(payload) + rest) && Payload(Frame(payload) + rest) == payload
        && Remaining(Frame(payload) + rest) == rest
  {
    FrameLength(payload, rest);
  }

  /** On the wire: two bytes, high byte first, that are the length of the payload, or
      what is left of it modulo 2^16, and then the payload. */
  lemma FrameBytes(payload: seq<byte>)
    ensures var f := Frame(payload);
      && |f| == 2 + |payload| && f[2..] == payload
      && (f[0] as int) * 256 + f[1] == |payload| % 65536
  {
    HeaderParts(|payload|);
  }

  /** A whole frame is there when so many bytes are, and taking it off leaves the rest. */
  lemma CompleteExactly(b: seq<byte>)
    ensures Complete(b) <==> |b| >= 2 && |b| - 2 >= (b[0] as int) * 256 + b[1]
    ensures Complete(b) ==> b == b[..2] + Payload(b) + Remaining(b) && |Payload(b)| == (b[0] as int) * 256 + b[1]
  {}

  /** Draining the frames of short enough payloads gives those payloads. */
  lemma {:induction false} DrainFrames(ps: seq<seq<byte>>)
    requires forall i :: 0 <= i < |ps| ==> |ps[i]| < 65536
    ensures Drain(Frames(ps)) == (ps, [])
    decreases |ps|
  {
    if ps != [] {
      FrameDrains(ps[0], Frames(ps[1..]));
      DrainFrames(ps[1..]);
      assert [ps[0]] + ps[1..] == ps;
    }
  }

  /** A frame round-trips exactly when its payload has fewer than 65536 bytes: the
      length of a longer one is truncated and a shorter payload is read. */
  lemma FrameExactly(payload: seq<byte>)
    ensures Drain(Frame(payload)) == ([payload], []) <==> |payload| < 65536
  {
    if Fits(payload) {
      FrameDrains(payload, []);
      assert Frame(payload) + [] == Frame(payload);
      assert Drain([]) == ([], []);
      assert Drain(Frame(payload)) == ([payload] + Drain([]).0, Drain([]).1);
      assert [payload] + Drain([]).0 == [payload];
    } else {
      FrameLength(payload, []);
      assert Frame(payload) + [] == Frame(payload);
      assert Complete(Frame(payload)) && |Payload(Frame(payload))| < LIMIT;
      assert Drain(Frame(payload)).0[0] == Payload(Frame(payload));
    }
  }

  predicate ProperPrefix(a: seq<byte>, b: seq<byte>) { |a| < |b| && a == b[..|a|] }

  lemma PartOfFrame(payload: seq<byte>, b: seq<byte>)
    requires Fits(payload) && ProperPrefix(b, Frame(payload))
    ensures !Complete(b)
  {
    FrameLength(payload, []);
    if |b| >= 2 { assert b[0] == (Frame(payload) + [])[0] && b[1] == (Frame(payload) + [])[1]; }
  }

  /** Everything before the next frame has been delivered. */
  predicate Progressed(ps: seq<seq<byte>>, done: seq<seq<byte>>, rest: seq<byte>) {
    && |done| <= |ps| && done == ps[..|done|]
    && if |done| == |ps| then rest == [] else ProperPrefix(rest, Frame(ps[|done|]))
  }

  lemma ProgressedMore(ps: seq<seq<byte>>, done: seq<seq<byte>>, rest: seq<byte>)
    requires ps != [] && Progressed(ps[1..], done, rest)
    ensures Progressed(ps, [ps[0]] + done, rest)
  {}

  /** After any prefix of a stream of frames, the frames that are complete have
      been delivered and the buffer holds a proper prefix of the next. */
  lemma {:induction false} DrainPrefix(ps: seq<seq<byte>>, b: seq<byte>)
    requires (forall i :: 0 <= i < |ps| ==> |ps[i]| < 65536) && |b| <= |Frames(ps)| && b == Frames(ps)[..|b|]
    ensures Progressed(ps, Drain(b).0, Drain(b).1)
    decreases |ps|
  {
    hide Progressed, Complete, Frame;
    if ps == [] {
      PrefixOfNothing(b);
    } else {
      var f, more := Frame(ps[0]), Frames(ps[1..]);
      if |b| < |f| {
        assert b == f[..|b|];
        PartOfFrame(ps[0], b);
        PartProgressed(ps, b);
      } else {
        var b' := b[|f|..];
        assert b == f + b';
        FrameDrains(ps[0], b');
        DrainPrefix(ps[1..], b');
        ProgressedMore(ps, Drain(b').0, Drain(b').1);
      }
    }
  }

  lemma PrefixOfNothing(b: seq<byte>)
    requires |b| == 0
    ensures Progressed([], Drain(b).0, Drain(b).1)
  {}

  lemma PartProgressed(ps: seq<seq<byte>>, b: seq<byte>)
    requires ps != [] && ProperPrefix(b, Frame(ps[0]))
    ensures Progressed(ps, [], b)
  {}

  /** Serialized messages, however the stream was cut into chunks, come out as
      they went in: the payloads are the ones framed, so parsing undoes
      serializing. */
  lemma StreamRoundTrip<T>(xs: seq<T>, serialize: T -> seq<byte>, parse: seq<byte> -> Option<T>,
                           chunks: seq<seq<byte>>, out: seq<T>)
    requires forall i :: 0 <= i < |xs| ==> |serialize(xs[i])| < 65536 && parse(serialize(xs[i])) == Some(xs[i])
    requires Concat(chunks) == Frames(seq(|xs|, i requires 0 <= i < |xs| => serialize(xs[i])))
    requires Parsed(parse, Drain(Concat(chunks)).0, out)
    ensures out == xs && Drain(Concat(chunks)).1 == []
  {
    DrainFrames(seq(|xs|, i requires 0 <= i < |xs| => serialize(xs[i])));
  }

  /** The whole journey on one connection. */
  method Transfer<T>(xs: seq<T>, serialize: T -> seq<byte>, parse: seq<byte> -> Option<T>, chunks: seq<seq<byte>>)
    returns (out: seq<T>, ok: bool)
    requires forall i :: 0 <= i < |xs| ==> |serialize(xs[i])| < 65536 && parse(serialize(xs[i])) == Some(xs[i])
    requires Concat(chunks) == Frames(seq(|xs|, i requires 0 <= i < |xs| => serialize(xs[i])))
    ensures ok && out == xs
  {
    ghost var ps := seq(|xs|, i requires 0 <= i < |xs| => serialize(xs[i]));
    DrainFrames(ps);
    var stream := new Stream(parse);
    out, ok := stream.FeedAll(chunks);
    assert forall i :: 0 <= i < |ps| ==> parse(ps[i]) == Some(xs[i]);
    if ok { StreamRoundTrip(xs, serialize, parse, chunks, out); }
  }
}
