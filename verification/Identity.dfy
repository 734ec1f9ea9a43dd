/** The label store of a proxy and the caches of the IDs derived from it
    (src/armour-proxy/src/policy.rs:216-363, 557-604). */
module Identity {
  import opened Prelude
  import opened Labels

  datatype Ip = Ip(v4: bool, text: string)

  /** A URI's host and the port it names or its scheme implies. */
  datatype Uri = Uri(host: Option<string>, port: Option<nat>)

  datatype Peer = AtUri(uri: Uri) | AtSocket(ip: Ip, port: nat) | Anonymous

  datatype Id = Id(hosts: set<string>, ips: set<Ip>, port: Option<nat>, labels: set<Label>)

  const NO_ID: Id := Id({}, {}, None, {})

  /** Name resolution, taken to answer the same all the time. */
  datatype Dns = Dns(hostIps: string -> Option<set<Ip>>, addrHost: Ip -> Option<string>)

  /** The labels of hosts and of addresses. */
  datatype Store = Store(hosts: map<string, set<Label>>, ips: map<Ip, set<Label>>)

  const EMPTY_STORE: Store := Store(map[], map[])

  // ----- IDs without caches -----

  function LabelsOf<K>(m: map<K, set<Label>>, k: K): set<Label> { if k in m then m[k] else {} }

  function V4(ips: set<Ip>): set<Ip> { set ip | ip in ips && ip.v4 }

  /** The labels of several keys. */
  function AllLabels<K>(m: map<K, set<Label>>, ks: set<K>): set<Label> {
    set k, l | k in ks && l in LabelsOf(m, k) :: l
  }

  lemma AllLabelsMore<K>(m: map<K, set<Label>>, ks: set<K>, k: K)
    ensures AllLabels(m, ks + {k}) == AllLabels(m, ks) + LabelsOf(m, k)
    ensures AllLabels(m, {}) == {} && AllLabels(m, {k}) == LabelsOf(m, k)
  {
    forall l | l in AllLabels(m, ks) + LabelsOf(m, k) ensures l in AllLabels(m, ks + {k}) {
      if l in LabelsOf(m, k) { assert k in ks + {k}; }
    }
  }

  lemma InAllLabels<K>(m: map<K, set<Label>>, ks: set<K>)
    ensures forall l :: l in AllLabels(m, ks) <==> exists k :: k in ks && k in m && l in m[k]
  {
    forall l | exists k :: k in ks && k in m && l in m[k] ensures l in AllLabels(m, ks) {
      var k :| k in ks && k in m && l in m[k];
      assert l in LabelsOf(m, k);
    }
  }

  function HostId(dns: Dns, s: Store, host: string, port: Option<nat>): Id {
    var ips := match dns.hostIps(host) case Some(found) => V4(found) case None => {};
    Id({host}, ips, port, LabelsOf(s.hosts, host) + AllLabels(s.ips, ips))
  }

  function AddressId(dns: Dns, s: Store, ip: Ip, port: nat): Id {
    var hosts := match dns.addrHost(ip) case Some(host) => {host} case None => {};
    Id(hosts, if ip.v4 then {ip} else {}, Some(port),
       AllLabels(s.hosts, hosts) + if ip.v4 then LabelsOf(s.ips, ip) else {})
  }

  function PeerId(dns: Dns, s: Store, peer: Peer): Id {
    match peer
    case Anonymous => NO_ID
    case AtUri(uri) => if uri.host.Some? then HostId(dns, s, uri.host.value, uri.port) else NO_ID.(port := uri.port)
    case AtSocket(ip, port) => AddressId(dns, s, ip, port)
  }

  // ----- what an ID is to hold -----

  /** Of a host: itself, the IPv4 addresses that resolution gives, and a label exactly
      if the store has it for the host or for one of these. Of a socket address: the
      host that looking it up gives, itself if it is IPv4, its port, and a label
      exactly if the store has it for that host or, the address being IPv4, for it. */
  ghost predicate IsId(dns: Dns, s: Store, peer: Peer, id: Id) {
    match peer
    case Anonymous => id.hosts == {} && id.ips == {} && id.labels == {} && id.port == None
    case AtUri(uri) =>
      (match uri.host
       case None => id.hosts == {} && id.ips == {} && id.labels == {} && id.port == uri.port
       case Some(host) =>
         && (forall h :: h in id.hosts <==> h == host)
         && (forall ip :: ip in id.ips <==> ip.v4 && dns.hostIps(host).Some? && ip in dns.hostIps(host).value)
         && (forall l :: l in id.labels <==>
               (host in s.hosts && l in s.hosts[host]) || exists ip :: ip in id.ips && ip in s.ips && l in s.ips[ip]))
    case AtSocket(ip, port) =>
      && id.port == Some(port)
      && (forall h :: h in id.hosts <==> dns.addrHost(ip) == Some(h))
      && (forall a :: a in id.ips <==> a == ip && ip.v4)
      && (forall l :: l in id.labels <==>
            (exists h :: h in id.hosts && h in s.hosts && l in s.hosts[h])
            || exists a :: a in id.ips && a in s.ips && l in s.ips[a])
  }

  lemma PeerIdIs(dns: Dns, s: Store, peer: Peer, port: Option<nat>)
    ensures IsId(dns, s, peer, PeerId(dns, s, peer))
    ensures peer.AtUri? && peer.uri.host.Some? ==> IsId(dns, s, peer, PeerId(dns, s, peer).(port := port))
  {
    match peer
    case Anonymous =>
    case AtUri(uri) => if uri.host.Some? { HostIdIs(dns, s, uri.host.value, uri.port); }
    case AtSocket(ip, p) => AddressIdIs(dns, s, ip, p);
  }

  lemma HostIdIs(dns: Dns, s: Store, host: string, port: Option<nat>)
    ensures IsId(dns, s, AtUri(Uri(Some(host), port)), HostId(dns, s, host, port))
  {
    InAllLabels(s.ips, HostId(dns, s, host, port).ips);
  }

  lemma AddressIdIs(dns: Dns, s: Store, ip: Ip, port: nat)
    ensures IsId(dns, s, AtSocket(ip, port), AddressId(dns, s, ip, port))
  {
    InAllLabels(s.hosts, AddressId(dns, s, ip, port).hosts);
  }

  /** But for the port of a host there is only one such ID. */
  lemma IdUnique(dns: Dns, s: Store, peer: Peer, a: Id, b: Id)
    requires IsId(dns, s, peer, a) && IsId(dns, s, peer, b)
    ensures SameButPort(a, b) && (peer.AtSocket? ==> a == b)
  {
    assert a.ips == b.ips && a.hosts == b.hosts;
    assert a.labels == b.labels;
  }

  predicate SameButPort(a: Id, b: Id) { a == b.(port := a.port) }

  // ----- label operations -----

  function Added<K>(m: map<K, set<Label>>, k: K, l: Label): map<K, set<Label>> { m[k := LabelsOf(m, k) + {l}] }

  /** Without a lbl, all labels of the key go; a set that becomes empty goes too. */
  function Removed<K>(m: map<K, set<Label>>, k: K, l: Option<Label>): map<K, set<Label>> {
    if k !in m then m
    else if l.None? || m[k] == {l.value} then m - {k}
    else m[k := m[k] - {l.value}]
  }

  predicate NoEmpty<K>(m: map<K, set<Label>>) { forall k :: k in m ==> m[k] != {} }

  /** Removing a label that was new undoes adding it. */
  lemma RemoveUndoesAdd<K>(m: map<K, set<Label>>, k: K, l: Label)
    requires NoEmpty(m) && l !in LabelsOf(m, k)
    ensures Removed(Added(m, k, l), k, Some(l)) == m
  {
    var a := Added(m, k, l);
    if k in m {
      assert a[k] != {l} by { var x :| x in m[k]; assert x in a[k] && x != l; }
      assert a[k] - {l} == m[k];
    } else {
      assert a[k] == {l};
    }
  }

  lemma RemovedIs<K>(m: map<K, set<Label>>, k: K, l: Label)
    requires NoEmpty(m)
    ensures Removed(m, k, Some(l))
         == if k in m && l in m[k] then (if m[k] - {l} == {} then m - {k} else m[k := m[k] - {l}]) else m
    ensures NoEmpty(Removed(m, k, Some(l)))
  {
    if k in m {
      if l in m[k] {
        if m[k] - {l} == {} {
          forall x | x in m[k] ensures x == l { assert x !in m[k] - {l}; }
          assert m[k] == {l};
        }
      } else {
        assert m[k] - {l} == m[k];
      }
    }
  }

  /** The labels of every key afterwards. */
  lemma LabelsAfter<K>(m: map<K, set<Label>>, k: K, l: Label, x: K)
    ensures LabelsOf(Added(m, k, l), x) == LabelsOf(m, x) + if x == k then {l} else {}
    ensures LabelsOf(Removed(m, k, Some(l)), x) == LabelsOf(m, x) - if x == k then {l} else {}
    ensures LabelsOf(Removed(m, k, None), x) == if x == k then {} else LabelsOf(m, x)
    ensures NoEmpty(m) ==> NoEmpty(Added(m, k, l)) && NoEmpty(Removed(m, k, Some(l))) && NoEmpty(Removed(m, k, None))
  {}

  // ----- the store with its caches -----

  class Identities {
    const dns: Dns
    var hostLabels: map<string, set<Label>>
    var ipLabels: map<Ip, set<Label>>
    var hostCache: map<string, Id>
    var ipCache: map<Ip, Id>
    var connections: nat

    function Labels(): Store
      reads this
    {
      Store(hostLabels, ipLabels)
    }

    /** No label set is empty, and what is cached is what would be computed now,
        but for the port. */
    ghost predicate Valid()
      reads this
    {
      && NoEmpty(hostLabels) && NoEmpty(ipLabels)
      && (forall h :: h in hostCache ==> hostCache[h] == HostId(dns, Labels(), h, hostCache[h].port))
      && (forall ip :: ip in ipCache ==>
            ipCache[ip].port.Some? && ipCache[ip] == AddressId(dns, Labels(), ip, ipCache[ip].port.value))
    }

    constructor (dns: Dns)
      ensures Valid() && this.dns == dns && Labels() == EMPTY_STORE && hostCache == map[] && ipCache == map[]
          && connections == 0
    {
      this.dns := dns;
      hostLabels, ipLabels, hostCache, ipCache, connections := map[], map[], map[], map[], 0;
    }

    method ClearCaches()
      modifies this`hostCache, this`ipCache
      ensures hostCache == map[] && ipCache == map[]
    {
      hostCache, ipCache := map[], map[];
    }

    method ClearLabels()
      modifies this
      ensures Valid() && Labels() == EMPTY_STORE && connections == old(connections) && hostCache == map[]
    {
      hostLabels, ipLabels := map[], map[];
      ClearCaches();
    }

    method AddUri(uri: Uri, lbl: Label)
      requires Valid()
      modifies this
      ensures Valid() && connections == old(connections)
      ensures hostCache == if uri.host.Some? then map[] else old(hostCache)
      ensures Labels() == if uri.host.Some? then old(Labels()).(hosts := Added(old(hostLabels), uri.host.value, lbl))
          else old(Labels())
    {
      if uri.host.Some? {
        var host := uri.host.value;
        LabelsAfter(hostLabels, host, lbl, host);
        ghost var want := Added(hostLabels, host, lbl);
        hostLabels := if host in hostLabels then hostLabels[host := hostLabels[host] + {lbl}]
          else hostLabels[host := {lbl}];
        assert hostLabels[host] == want[host] && hostLabels == want;
        ClearCaches();
      }
    }

    method AddIp(ip: Ip, lbl: Label)
      requires Valid()
      modifies this
      ensures Valid() && connections == old(connections) && hostCache == map[]
      ensures Labels() == old(Labels()).(ips := Added(old(ipLabels), ip, lbl))
    {
      LabelsAfter(ipLabels, ip, lbl, ip);
      ghost var want := Added(ipLabels, ip, lbl);
      ipLabels := if ip in ipLabels then ipLabels[ip := ipLabels[ip] + {lbl}] else ipLabels[ip := {lbl}];
      assert ipLabels[ip] == want[ip] && ipLabels == want;
      ClearCaches();
    }

    method RemoveUri(uri: Uri, lbl: Option<Label>)
      requires Valid()
      modifies this
      ensures Valid() && connections == old(connections)
      ensures hostCache == if uri.host.Some? then map[] else old(hostCache)
      ensures Labels() == if uri.host.Some?
          then old(Labels()).(hosts := Removed(old(hostLabels), uri.host.value, lbl)) else old(Labels())
    {
      if uri.host.Some? {
        var host := uri.host.value;
        match lbl {
          case Some(l) =>
            RemovedIs(hostLabels, host, l);
            if host in hostLabels && l in hostLabels[host] {
              var rest := hostLabels[host] - {l};
              hostLabels := if rest == {} then hostLabels - {host} else hostLabels[host := rest];
            }
          case None => hostLabels := hostLabels - {host};
        }
        ClearCaches();
      }
    }

    method RemoveIp(ip: Ip, lbl: Option<Label>)
      requires Valid()
      modifies this
      ensures Valid() && connections == old(connections) && hostCache == map[]
      ensures Labels() == old(Labels()).(ips := Removed(old(ipLabels), ip, lbl))
    {
      match lbl {
        case Some(l) =>
          RemovedIs(ipLabels, ip, l);
          if ip in ipLabels && l in ipLabels[ip] {
            var rest := ipLabels[ip] - {l};
            ipLabels := if rest == {} then ipLabels - {ip} else ipLabels[ip := rest];
          }
        case None => ipLabels := ipLabels - {ip};
      }
      ClearCaches();
    }

    /** The ID of a peer, from the cache if it is there. The cache of hosts forgets
        the port: the first one asked for answers all later requests. */
    method IdOf(peer: Peer) returns (id: Id)
      requires Valid()
      modifies this`hostCache, this`ipCache
      ensures Valid()
      ensures id == if peer.AtUri? && peer.uri.host.Some? && peer.uri.host.value in old(hostCache)
                    then PeerId(dns, Labels(), peer).(port := old(hostCache)[peer.uri.host.value].port)
                    else PeerId(dns, Labels(), peer)
      ensures IsId(dns, Labels(), peer, id)
      ensures hostCache == if peer.AtUri? && peer.uri.host.Some? then old(hostCache)[peer.uri.host.value := id]
                           else old(hostCache)
    {
      ghost var cached := if peer.AtUri? && peer.uri.host.Some? && peer.uri.host.value in hostCache
        then hostCache[peer.uri.host.value].port else None;
      PeerIdIs(dns, Labels(), peer, cached);
      match peer {
        case Anonymous => return NO_ID;
        case AtUri(uri) =>
          if uri.host.None? { return NO_ID.(port := uri.port); }
          var host := uri.host.value;
          if host in hostCache { return hostCache[host]; }
          id := NewHostId(host, uri.port);
          hostCache := hostCache[host := id];
        case AtSocket(ip, port) =>
          if ip in ipCache { return ipCache[ip].(port := Some(port)); }
          id := NewAddressId(ip, port);
          ipCache := ipCache[ip := id];
      }
    }

    method NewHostId(host: string, port: Option<nat>) returns (id: Id)
      ensures id == HostId(dns, Labels(), host, port) && id.port == port
      ensures IsId(dns, Labels(), AtUri(Uri(Some(host), port)), id)
    {
      var labels: set<Label> := if host in hostLabels then hostLabels[host] else {};
      var ips: set<Ip> := {};
      var found := dns.hostIps(host);
      if found.Some? {
        var todo := V4(found.value);
        while todo != {}
          invariant todo <= V4(found.value) && ips == V4(found.value) - todo
          invariant labels == LabelsOf(hostLabels, host) + AllLabels(ipLabels, ips)
        {
          var ip :| ip in todo;
          AllLabelsMore(ipLabels, ips, ip);
          if ip in ipLabels { labels := labels + ipLabels[ip]; }
          ips := ips + {ip};
          todo := todo - {ip};
        }
      }
      HostIdIs(dns, Labels(), host, port);
      return Id({host}, ips, port, labels);
    }

    method NewAddressId(ip: Ip, port: nat) returns (id: Id)
      ensures id == AddressId(dns, Labels(), ip, port) && IsId(dns, Labels(), AtSocket(ip, port), id)
    {
      var labels: set<Label> := {};
      var hosts: set<string> := {};
      var host := dns.addrHost(ip);
      if host.Some? {
        AllLabelsMore(hostLabels, {}, host.value);
        labels := if host.value in hostLabels then hostLabels[host.value] else {};
        hosts := {host.value};
      }
      if ip.v4 && ip in ipLabels { labels := labels + ipLabels[ip]; }
      AddressIdIs(dns, Labels(), ip, port);
      return Id(hosts, if ip.v4 then {ip} else {}, Some(port), labels);
    }

    /** Numbers the connection and identifies both ends. */
    method Connection(from: Peer, to: Peer) returns (source: Id, target: Id, number: nat)
      requires Valid()
      modifies this
      ensures Valid() && Labels() == old(Labels())
      ensures number == old(connections) && connections == number + 1
      ensures IsId(dns, Labels(), from, source) && IsId(dns, Labels(), to, target)
    {
      number := connections;
      connections := connections + 1;
      source := IdOf(from);
      target := IdOf(to);
    }
  }

  // ----- whole runs -----

  datatype LabelOp =
    | AddUri(uri: Uri, lbl: Label)
    | AddIp(ip: Ip, lbl: Label)
    | RemoveUri(uri: Uri, which: Option<Label>)
    | RemoveIp(ip: Ip, which: Option<Label>)
    | Clear
    | Ask(peer: Peer)

  function Apply(s: Store, op: LabelOp): Store {
    match op
    case AddUri(uri, l) => if uri.host.Some? then s.(hosts := Added(s.hosts, uri.host.value, l)) else s
    case AddIp(ip, l) => s.(ips := Added(s.ips, ip, l))
    case RemoveUri(uri, l) => if uri.host.Some? then s.(hosts := Removed(s.hosts, uri.host.value, l)) else s
    case RemoveIp(ip, l) => s.(ips := Removed(s.ips, ip, l))
    case Clear => EMPTY_STORE
    case Ask(_) => s
  }

  /** The labels after some operations: no caches here. */
  function StoreAfter(ops: seq<LabelOp>): Store {
    if ops == [] then EMPTY_STORE else Apply(StoreAfter(ops[..|ops| - 1]), ops[|ops| - 1])
  }

  predicate ClearsCaches(op: LabelOp) {
    match op
    case AddUri(uri, _) => uri.host.Some?
    case RemoveUri(uri, _) => uri.host.Some?
    case Ask(_) => false
    case _ => true
  }

  predicate AsksFor(op: LabelOp, host: string) { op.Ask? && op.peer.AtUri? && op.peer.uri.host == Some(host) }

  /** The caches are cleared after `m` and before `n`. */
  predicate ClearedBetween(ops: seq<LabelOp>, m: int, n: int) {
    exists c :: 0 <= m < c < n <= |ops| && ClearsCaches(ops[c])
  }

  /** Request `j` is the first one for this host since the labels last changed,
      as seen from `i`. */
  predicate FirstAsked(ops: seq<LabelOp>, i: nat, j: int, host: string) {
    && 0 <= j <= i < |ops| && AsksFor(ops[j], host) && !ClearedBetween(ops, j, i)
    && forall m :: 0 <= m < j && AsksFor(ops[m], host) ==> ClearedBetween(ops, m, j)
  }

  /** Every answer along a run has the hosts, addresses and labels that the labels at
      that moment give, and the right port, but for a host that was asked for before
      since the labels last changed: then it has the port of the first such request. */
  ghost predicate Answers(dns: Dns, ops: seq<LabelOp>, answers: seq<Id>) {
    && |answers| == |ops|
    && RightUpTo(dns, ops, |ops|, answers)
  }

  ghost predicate RightUpTo(dns: Dns, ops: seq<LabelOp>, n: nat, answers: seq<Id>)
    requires n <= |ops| && n <= |answers|
  {
    forall i :: 0 <= i < n && ops[i].Ask? ==> RightAnswer(dns, ops, i, answers[i])
  }

  ghost predicate RightAnswer(dns: Dns, ops: seq<LabelOp>, i: nat, answer: Id)
    requires i < |ops| && ops[i].Ask?
  {
    && IsId(dns, StoreAfter(ops[..i]), ops[i].peer, answer)
    && FirstPort(ops, i, answer.port)
  }

  ghost predicate FirstPort(ops: seq<LabelOp>, i: nat, port: Option<nat>)
    requires i < |ops|
  {
    forall host :: AsksFor(ops[i], host) ==> exists j :: FirstAsked(ops, i, j, host) && port == ops[j].peer.uri.port
  }

  /** What the cache of hosts holds after these operations. */
  ghost predicate CacheTells(ops: seq<LabelOp>, n: nat, cache: map<string, Id>)
    requires n <= |ops|
  {
    && (forall host :: host in cache ==> exists j :: CachedAt(ops, n, j, host, cache[host].port))
    && (forall host, m :: host !in cache && 0 <= m < n && AsksFor(ops[m], host) ==> ClearedBetween(ops, m, n))
  }

  predicate CachedAt(ops: seq<LabelOp>, n: nat, j: int, host: string, port: Option<nat>)
    requires n <= |ops|
  {
    && 0 <= j < n && AsksFor(ops[j], host) && port == ops[j].peer.uri.port && !ClearedBetween(ops, j, n)
    && forall m :: 0 <= m < j && AsksFor(ops[m], host) ==> ClearedBetween(ops, m, j)
  }

  lemma ClearedMore(ops: seq<LabelOp>, m: int, n: nat)
    requires n < |ops| && 0 <= m < n
    ensures ClearedBetween(ops, m, n + 1) <==> ClearedBetween(ops, m, n) || ClearsCaches(ops[n])
  {
    if ClearsCaches(ops[n]) { assert 0 <= m < n < n + 1 <= |ops|; }
  }

  /** What the cache of hosts is after one more operation. */
  function CacheAfter(cache: map<string, Id>, op: LabelOp, answer: Id): map<string, Id> {
    if ClearsCaches(op) then map[]
    else if op.Ask? && op.peer.AtUri? && op.peer.uri.host.Some? then cache[op.peer.uri.host.value := answer]
    else cache
  }

  lemma CacheKeeps(ops: seq<LabelOp>, n: nat, cache: map<string, Id>, answer: Id)
    requires n < |ops| && CacheTells(ops, n, cache)
    requires forall host :: AsksFor(ops[n], host) ==>
      answer.port == if host in cache then cache[host].port else ops[n].peer.uri.port
    ensures CacheTells(ops, n + 1, CacheAfter(cache, ops[n], answer))
    ensures FirstPort(ops, n, answer.port)
  {
    var after, next: nat := CacheAfter(cache, ops[n], answer), n + 1;
    forall m | 0 <= m < n ensures ClearedBetween(ops, m, n + 1) <==> ClearedBetween(ops, m, n) || ClearsCaches(ops[n]) {
      ClearedMore(ops, m, n);
    }
    forall host | host in after ensures exists j :: CachedAt(ops, next, j, host, after[host].port) {
      if host in cache {
        var j :| CachedAt(ops, n, j, host, cache[host].port);
        assert CachedAt(ops, next, j, host, after[host].port);
      } else {
        assert CachedAt(ops, next, n, host, after[host].port);
      }
    }
    forall host | AsksFor(ops[n], host)
      ensures exists j :: FirstAsked(ops, n, j, host) && answer.port == ops[j].peer.uri.port
    {
      if host in cache {
        var j :| CachedAt(ops, n, j, host, cache[host].port);
        assert FirstAsked(ops, n, j, host);
      } else {
        assert FirstAsked(ops, n, n, host);
      }
    }
  }

  /** Cache coherence over any sequence of operations and requests. */
  method Serve(dns: Dns, ops: seq<LabelOp>) returns (answers: seq<Id>)
    ensures Answers(dns, ops, answers)
  {
    hide IsId, RightUpTo, CacheTells;
    var ids := new Identities(dns);
    NothingYet(dns, ops);
    answers := [];
    var i := 0;
    while i < |ops|
      invariant 0 <= i <= |ops| && fresh(ids) && ids.Valid() && ids.dns == dns && ids.Labels() == StoreAfter(ops[..i])
      invariant CacheTells(ops, i, ids.hostCache)
      invariant |answers| == i && RightUpTo(dns, ops, i, answers)
    {
      assert ops[..i + 1][..i] == ops[..i];
      ghost var cache := ids.hostCache;
      var answer := NO_ID;
      match ops[i] {
        case AddUri(uri, l) => ids.AddUri(uri, l);
        case AddIp(ip, l) => ids.AddIp(ip, l);
        case RemoveUri(uri, l) => ids.RemoveUri(uri, l);
        case RemoveIp(ip, l) => ids.RemoveIp(ip, l);
        case Clear => ids.ClearLabels();
        case Ask(peer) => answer := ids.IdOf(peer);
      }
      assert ids.hostCache == CacheAfter(cache, ops[i], answer);
      ServeStep(dns, ops, i, cache, answers, answer);
      answers := answers + [answer];
      i := i + 1;
    }
  }

  lemma NothingYet(dns: Dns, ops: seq<LabelOp>)
    ensures RightUpTo(dns, ops, 0, []) && CacheTells(ops, 0, map[])
  {}

  lemma ServeStep(dns: Dns, ops: seq<LabelOp>, i: nat, cache: map<string, Id>, answers: seq<Id>, answer: Id)
    requires i < |ops| && |answers| == i && RightUpTo(dns, ops, i, answers) && CacheTells(ops, i, cache)
    requires ops[i].Ask? ==> IsId(dns, StoreAfter(ops[..i]), ops[i].peer, answer)
    requires forall host :: AsksFor(ops[i], host) ==>
      answer.port == if host in cache then cache[host].port else ops[i].peer.uri.port
    ensures RightUpTo(dns, ops, i + 1, answers + [answer])
    ensures CacheTells(ops, i + 1, CacheAfter(cache, ops[i], answer))
  {
    hide IsId, CacheTells, RightUpTo, StoreAfter;
    CacheKeeps(ops, i, cache, answer);
    hide FirstPort;
    RightMore(dns, ops, i, answers, answer);
  }

  lemma RightMore(dns: Dns, ops: seq<LabelOp>, i: nat, answers: seq<Id>, answer: Id)
    requires i < |ops| && |answers| == i && RightUpTo(dns, ops, i, answers)
    requires ops[i].Ask? ==> RightAnswer(dns, ops, i, answer)
    ensures RightUpTo(dns, ops, i + 1, answers + [answer])
  {
    hide RightAnswer;
  }
}
