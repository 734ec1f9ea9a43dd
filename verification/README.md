# Armour: a verified model

A Dafny model of the Armour policy language, its specializer and its proxy, with
proofs of what they promise. `dafny verify dfyconfig.toml` checks all of it.

## What is modelled

| module | part of Armour |
|---|---|
| `Syntax`, `Terms`, `TermLaws`, `TermProps` | core expressions, locally nameless: indices, substitution, binding, fixing a parameter |
| `Interpret`, `Operators`, `Loops` | the big-step interpreter with early `return`, iteration and user functions |
| `Meaning` | what programs mean as written, and that elaboration and evaluation keep it |
| `Scope`, `Simulation`, `Progress`, `Shapes` | what holds of every evaluation: agreement of programs, no free variable, no endless recursion, where `return` can surface |
| `Specialize`, `Fuel`, `Safety`, `Residual`, `ResidualScope`, `Soundness` | the online partial evaluator and when its result means the same |
| `Failing`, `Ground`, `Inlining` | when partial evaluation can fail, what it computes, and what it leaves |
| `Unsound`, `Steps`, `Failures`, `LeftCall` | exactly when its doubtful rules are right, and an input for each guard, with the single steps to run it |
| `Compile`, `Straight`, `DataPlane`, `Pipeline` | global policy to per-service policy to data plane to enforcement |
| `CallGraph`, `Elaborate` | loading a program: elaboration, cycle check, cutting unreachable functions |
| `Labels`, `LabelLaws`, `LabelText` | label patterns: matching, equality, printing and parsing |
| `Pratt` | operator precedence parser and pretty printer |
| `Codec` | length-prefixed frames on a byte stream |
| `Identity`, `Enforcement` | the proxy's label store with its ID caches, and request enforcement interleaved with policy updates |

Expressions. One constructor `Node(tag, subs)` stands for all constructs that
bind nothing; the operations on indices treat them alike. Vectors of
sub-expressions are cons lists, so that recursion over them is structural.
Nodes with a number of sub-expressions that no construct has are errors.

Evaluation. `Eval` takes a bound on the nesting of user calls; the theorems on
accepted programs show that it is never reached and does not matter. Builtins,
external functions, metadata and pattern matching are deterministic partial
functions of the environment: the clock stands still during one evaluation. A
panic of the source (a test of `filter` that is no bool, the overflowing
quotient, `at_depth` below zero) is the error `Failed`.
Integers are 64 bits and wrap around, as in a release build. `!b` gives b back,
as the source does (src/armour-lang/src/interpret.rs:226); its own syntax
promises a negation.

`Meaning` evaluates the parsed syntax directly, over names and scopes, and is the
reference for elaboration, binding and evaluation; the operator tables it shares
with the interpreter, and their laws are in `Operators`.

Partial evaluation. The specializer does not preserve meaning on every input.
`Safety.Safe` replays a partial evaluation and says that none of the guards of
its unsound rules holds; it can be decided before a policy is compiled, but for
one guard: builtins that are run at compile time must give the same when the
policy is asked, so the theorems take the builtins twice, as they are at compile
time and at run time. Of the rest of the program only the absence of dangling
indices is asked, which elaboration provides (`Elaborate.DeclIsScoped`). For
policies of a simple kind no guard can fail (`Straight`).

`Unsound` proves exactly when each doubtful rule is right; only for folds over a
list that is not known it gives one direction, and `Failures.ReturnHarmless` shows
that the other fails. `Failures` has for each guard an input that is specialized
wrongly without it (`Unsound` for three algebraic rules and for builtins that
change), with three exceptions: in `OpenReturnClaimed` the residual is right and
its flag is wrong, and `StrayAccumulator` and `ClosureDangles` are core terms that
no text elaborates to, so no inputs of the source. `LeftCall` has a policy that
needs the remaining condition of compiling, that no user function is called.

Some guards ask that an expression *settles*, that is, contains no `return` and
calls, directly or not, no function that nests a `return` in another one or in
what a fold starts from; `Failures.NestedReturn` and `Failures.NestedStart` show
why. The partial evaluator's recursion carries fuel; the theorems hold for any
amount, and more fuel changes no result.

The source's loops are methods whose contracts equate them with the functions
that the theorems are about. `CallGraph.PreProgram`, `Codec.Stream`,
`Identity.Identities` and `Enforcement.HttpPolicy` are classes with the source's
fields, updated in place.

## Main results

- A compiled, converted policy answers as the global policy does
  (`Pipeline.ShippedPolicyAgrees`, by `Compile.CompiledPolicyAgrees`,
  `Soundness.PEvalPreservesMeaning` and
  `DataPlane.ConversionCommutesWithEvaluation`).
- Such a policy is what a proxy enforces (`Pipeline.ShippedPolicyEnforced`), and
  what it computes is what the policy means as written (`Meaning.CompiledMeans`);
  policies of a simple kind need no side condition (`Straight.StraightPolicyAgrees`).
- Partial evaluation fails only for listed reasons (`Failing.Fails`), computes what
  can be computed (`Ground.GroundIsKnown`) and unfolds all calls but those listed
  (`Inlining.NoCallsLeft`).
- Elaboration and evaluation give programs the meaning that scopes and names give
  them (`Meaning.Means`, `Meaning.ProgramMeans`).
- Accepted programs terminate and never meet a free variable
  (`Elaborate.AcceptedProgramsRun`); the cycle check is exact
  (`CallGraph.PreProgram.CheckForCycles`); cutting unreachable functions changes
  nothing (`CallGraph.CutPreservesEvaluation`).
- Label matching, label equality and their composition, each with the exact
  condition under which they behave (`LabelLaws`).
- The parser inverts the printer exactly on trees without one kind of operand
  (`Pratt.RoundTripExactly`).
- Enforcement is fail-closed over all interleavings (`Enforcement.FailClosed`),
  ID caches are coherent over all runs (`Identity.Serve`), and the framing codec
  round-trips under any chunking (`Codec.Transfer`).

## Model

| member | source | states |
|---|---|---|
| `Pipeline.ShippedPolicyAgrees` | src/armour-control/src/specialize.rs:773-898 | What a proxy computes with the compiled policy of its service, converted to the data plane, on a request is what the global policy, run at that moment, answers for this service's ID, the peer's ID read from that request and the request itself; the answer is a data-plane value. Needs what `CompiledPolicyAgrees` needs. |
| `Pipeline.ShippedPolicyEnforced` | src/armour-proxy/src/http_proxy.rs:83-172 | With that policy installed at a proxy, an undisturbed HTTP request is forwarded, in however many chunks it comes, if and only if the global policy is true of this service, that peer, that request and its bytes (for policies that have a value there). |
| `Compile.CompiledPolicyAgrees` | src/armour-control/src/specialize.rs:773-898 | For HTTP requests, HTTP responses and TCP connections, egress and ingress, any request and any policy program: whenever the global function called with (own ID, peer ID, request...) has a value at request time, the compiled function called with (request...) has the same value then, whatever the builtins did when it was compiled. Its new header, recorded arity and number of parameters are those of the function's header in the language, given as literals, without the two IDs. Needs `Trusted`: a safe partial evaluation, no second `return` under a stripped one, and a residual that reads the peer's ID under no binder and calls no user function; `Straight.StraightIsTrusted` and `Inlining.CompiledCallsNone` say of which policies that is always so. |
| `Straight.StraightPolicyAgrees` | src/armour-control/src/specialize.rs:773-898 | The same without `Trusted`, for policies without `return`, `let`, iterations, `if let`, `if match`, `!=`, infix `-` and `/`, whose helper functions are of the same kind, take at most two parameters and are called with all of them, and not in the arguments of an external call, when builtins do not change between compiling and asking. |
| `Straight.StraightIsTrusted` | src/armour-control/src/specialize.rs:773-898 | Such policies meet all conditions of compiling, whatever partial evaluation does with them. |
| `Straight.StraightIsSafe` | src/armour-control/src/specialize.rs:157-686 | Partial evaluation of such code is always safe, and its residual is of the same kind and calls no user function. |
| `Meaning.CompiledMeans` | src/armour-control/src/specialize.rs:773-898 | What the declared function means as written, evaluated over names, for this service, that peer and that request, is what the compiled policy computes (under the conditions of `CompiledPolicyAgrees`). |
| `Compile.HeaderExactly` | src/armour-control/src/specialize.rs:699-741 | A function is compiled only if it is one of the four and has exactly the parameters and result listed for it. |
| `Compile.CompilesExactly` | src/armour-control/src/specialize.rs:788-812 | Compiling succeeds if and only if the header is accepted, the code has as many closures as it says, and partial evaluation of the body succeeds. |
| `Failing.CompileFails` | src/armour-control/src/specialize.rs:788-812 | Otherwise compiling a function with the right header fails only for a reason of `Failing.Fails`. |
| `Compile.DisconnectNeverEvaluates` | src/armour-control/src/specialize.rs:845-878 | The fourth policy function is never usable: every compiled `on_tcp_disconnect`, called with the three arguments of its header, ends in an error. |
| `Compile.TooFewArguments` | src/armour-lang/src/interpret.rs:1185-1203 | A call with fewer arguments than the function has parameters ends in an error. |
| `Compile.PEvaluatePreservesMeaning` | src/armour-control/src/specialize.rs:688-696 | Partial evaluation as the specializer calls it (stripping one outer `return`) keeps the value of a call, which strips one too, if it is safe and no `return` can come out from under the stripped one. |
| `Compile.PreparedOpens` | src/armour-control/src/specialize.rs:796-811 | Putting this service's ID in yields a body that still depends on the peer's ID and the request only, and opened with those it is the global body opened with all arguments in the order the direction (egress or ingress) calls for. |
| `Compile.SpliceAt` | src/armour-control/src/specialize.rs:814-840 | Replacing the peer's variable by an unshifted call that reads it from the request gives the intended term if and only if the variable occurs under no closure (for pairwise different arguments). |
| `Compile.SameProgram` | src/armour-control/src/specialize.rs:742-772 | Code that calls no user function evaluates in the compiled one-function program as in the whole one. |
| `Compile.UserCallIsGone` | src/armour-control/src/specialize.rs:742-772 | In the compiled one-function program a call of another user function has no value, unless an argument returns. |
| `Inlining.NoCallsLeft` | src/armour-control/src/specialize.rs:629-680 | If no user function is called inside an iteration, an `if match` or the arguments of an external call, anywhere in the program, no residual calls one: everything else is unfolded. |
| `Inlining.CompiledCallsNone` | src/armour-control/src/specialize.rs:742-772 | So the compiled function of such a program calls no user function. |
| `LeftCall.LeftCallLost` | src/armour-control/src/specialize.rs:432-442 | With `fn g(c) { c.number() == 1 }`, the policy `any x in [1] { g(c) }` meets all that `Trusted` asks but one: its residual is the iteration as it was, with the call of g. The compiled policy has no value, the global one has. |
| `Compile.CallOpens` | src/armour-lang/src/interpret.rs:1185-1203 | A call of a user function is its body, opened with the arguments, one call deeper, with one `return` stripped. |
| `Compile.CompileAll` | src/armour-control/src/specialize.rs:773-786 | The loop over protocols compiles exactly those that define the function, each independently of the others, and fails exactly if one of them fails. |
| `Soundness.PEvalPreservesMeaning` | src/armour-control/src/specialize.rs:157-686 | For every expression, every program without dangling indices, all literal values of the expression's dangling variables, and all builtins at compile time and at run time: if partial evaluation is safe and succeeds and the expression evaluates to v at run time, its residual evaluates to v, and a residual flagged as known is v. When it succeeds is said by `Failing.Fails`, what it leaves by `Ground.GroundIsKnown` and `Inlining.NoCallsLeft`. Covers all constructs: prefix, infix, blocks, tuples, lists, `if`, `if let`, `if match`, `let`, every iteration, builtin, external and inlined user calls, early `return`, also inside folds. A `return` nested in another one matters only where `Safe` asks that an expression settles. |
| `Failing.Fails` | src/armour-control/src/specialize.rs:157-686 | If a safe partial evaluation fails, then among the expressions it looks at there is one that has no value whatever literals its variables stand for, or a node no text has (with a missing part, say), or one of five things it refuses: a quotient by a literal zero, a literal that is no bool on the right of `&&` or the `or` operator, a list or tuple with an element that is not known, a `let` with a `_`, an `if match` on or giving something not known. |
| `Ground.GroundIsKnown` | src/armour-control/src/specialize.rs:157-686 | Code without free variables that calls declared functions and builtins only is computed: if its partial evaluation is safe and succeeds, the result is flagged as known. |
| `Ground.GroundIsEvaluated` | src/armour-control/src/specialize.rs:157-686 | And it is the value that evaluation gives. |
| `Ground.IntUnits` | src/armour-control/src/specialize.rs:101-153 | With 0 or 1 on either side of something that is neither a literal nor a `return`, nothing is left of a sum, difference, product or quotient, but for `0 - x`, `1 / x`, `0 / x` and `x / 0`. |
| `Ground.FloatUnits` | src/armour-control/src/specialize.rs:101-153 | The same for floats. |
| `Ground.BoolUnits` | src/armour-control/src/specialize.rs:101-153 | With true or false on either side nothing is left of `&&` and the `or` operator, and equal sides make `==` true. |
| `Soundness.Sound` | src/armour-control/src/specialize.rs:157-686 | The same for one run, by induction over partial evaluation. |
| `Soundness.SimplifySound` | src/armour-control/src/specialize.rs:101-153 | Algebraic simplification keeps the value of every operator but the two that short-circuit, outside the three wrong rules, if no operand that it drops can return. |
| `Soundness.ShortSound` | src/armour-control/src/specialize.rs:189-207 | For `&&` and the `or` operator, which evaluation short-circuits and partial evaluation does not, the result is still the short-circuit value if the left operand gives a literal. |
| `Residual.SpliceableResidual` | src/armour-control/src/specialize.rs:209-262 | A residual is never a list block, a tuple block or an empty block (also under `return`s), which is what makes splicing the rest of a statement block sound. |
| `ResidualScope.TightResidual` | src/armour-control/src/specialize.rs:157-686 | A safe partial evaluation leaves no variable dangling that did not dangle before, and a residual flagged as known has no dangling index at all and is a value. |
| `ResidualScope.KnownIsValue` | src/armour-control/src/specialize.rs:157-686 | In a safe partial evaluation the flag is honest: a residual flagged as known is a literal under any number of `return`s. |
| `Fuel.MoreFuel` | src/armour-control/src/specialize.rs:157-686 | A result or error of the partial evaluator is unchanged by more fuel, so the bound on its recursion is not part of what it computes. |
| `Unsound.SimplifyExactly` | src/armour-control/src/specialize.rs:101-153 | On operands that are literals or unknown variables, simplification is right for all values of the variables if and only if it is not `!=` on two different operands that could be equal flat values, not `0 - y` and not `1 / y`. |
| `Unsound.RejectedHasNoValue` | src/armour-control/src/specialize.rs:120-131 | Where simplification gives up, on a quotient by a literal zero, there is no value to miss unless the left operand returns. |
| `Unsound.StaticIterationExactly` | src/armour-control/src/specialize.rs:399-432 | Iterating over a known list with known results gives the interpreter's value if and only if dropping all results makes no difference: no result for `map`, all tests false for `filter` and `any`, all true for `all`, nothing kept for `filter_map`, always for `foreach`. |
| `Unsound.DroppedBinder` | src/armour-control/src/specialize.rs:167-173 | A `let` with fewer closures left than variables has a value if and only if its right-hand side returns. |
| `Unsound.DeepSubstitution` | src/armour-lang/src/expressions.rs:531-561 | Substituting a variable below binders is right (for different values of the variables) if and only if no occurrence is under two or more binders, because `shift` adds one however deep it is. |
| `Unsound.UnderscoreExactly` | src/armour-control/src/specialize.rs:264-279 | With a known right-hand side that fits, partial evaluation of a `let` fails if one of the pattern's variables is `_`, and otherwise is that of the body applied to the values, or to dummies if it uses none. |
| `Unsound.UnusedLetExactly` | src/armour-control/src/specialize.rs:264-279 | The residual of an unused `let` is its body alone; it is right if and only if the right-hand side gives no `return`, or the body gives that very `return`. |
| `Unsound.EqualBranchesExactly` | src/armour-control/src/specialize.rs:462-470 | Equal branches under a condition that is not known and gives w, their common residual giving u: dropping the test is right if and only if w is no `return` or is u. |
| `Unsound.EqualOpenedExactly` | src/armour-control/src/specialize.rs:505-520 | The same for `if let Some(z)` whose branch does not use z. |
| `Unsound.DroppedOperandExactly` | src/armour-control/src/specialize.rs:101-153 | Outside the three wrong rules, and for operands of any form: a simplified form is right if and only if it is the rebuilt operation, or the operand that it drops does not return where evaluation would see it (the left one does not return, or the same as the right one; the right one does not return unless the left one does). |
| `Unsound.DroppedShortExactly` | src/armour-control/src/specialize.rs:189-207 | For `&&` and the `or` operator with no `return` on the right, a simplified form is right if and only if it is the rebuilt operation, the left operand, or the left operand does not return. |
| `Unsound.FirstReturnExactly` | src/armour-control/src/specialize.rs:250-251 | Of several residuals, one of which is a `return`, the first such is right if and only if no value before it is a `return`, or the first that is equals the value there. |
| `Unsound.GroupExactly` | src/armour-control/src/specialize.rs:240-262 | So the residual of a list or tuple is right if and only if it has no residual `return` among its elements or the first one is right in that sense. |
| `Unsound.ArgumentReturnExactly` | src/armour-control/src/specialize.rs:629-635 | The same for a call one of whose residual arguments is a `return`. |
| `Unsound.ArgumentLostExactly` | src/armour-control/src/specialize.rs:661-672 | An inlined call whose residual gives u, without a residual `return` among its arguments and with the function's own guards: right if and only if no argument returns, or the first that does gives u. |
| `Unsound.LateReturnExactly` | src/armour-control/src/specialize.rs:373-398 | An iteration over a known list with a residual `return` among its results: right if and only if that is the first `return`, or the same. |
| `Unsound.OverlookedExactly` | src/armour-control/src/specialize.rs:327-398 | A fold over a known list whose residual gives u: right if and only if no result before the first residual `return` (none at all, if there is none) returns, or the first that does gives u. |
| `Unsound.DroppedLoopExactly` | src/armour-control/src/specialize.rs:318-326 | An iteration over a list that is not known and gives w, whose body is left with too few closures: right if and only if w is a `return` or the empty list. |
| `Unsound.DroppedFoldExactly` | src/armour-control/src/specialize.rs:318-326 | The same for folds. |
| `Unsound.UnknownFoldRight` | src/armour-control/src/specialize.rs:318-326 | A fold over a list that is not known keeps its value if what it starts from and all results but the last are literals. Only this direction: what a body makes of a `return` in the accumulator is not determined by the rule, see the next row. |
| `Failures.ReturnHarmless` | src/armour-control/src/specialize.rs:318-326 | `fold x in l { if x { return 9 } else { acc } } where acc = 0` on [true, false]: the first result returns, and the residual is right all the same. |
| `Unsound.ReturnRunsExactly` | src/armour-control/src/specialize.rs:189-207 | With `return l` on the right and a literal or unknown left operand, the residual of `&&` and of the `or` operator is right for all values of the variables if and only if the left operand is a literal that does not stop evaluation. |
| `Unsound.RightReturnExactly` | src/armour-control/src/specialize.rs:189-207 | The same for operands of any form: with a residual `return` on the right that gives v2, the residual is right if and only if it is the left operand, or the left operand lets the right one run, or gives that very v2. |
| `Unsound.InlinedExactly` | src/armour-control/src/specialize.rs:661-672 | An inlined call whose residual body p is not known and gives w: stripping one `return` from p is right if and only if p is that `return` or w is a literal. |
| `Unsound.StrippedExactly` | src/armour-control/src/specialize.rs:688-696 | A compiled body `return x`, left as x, gives what the global function gives if and only if x itself gives no further `return`. |
| `Unsound.FrozenBuiltinExactly` | src/armour-control/src/specialize.rs:643-648 | A builtin call on known arguments is run at compile time; its residual is right at run time if and only if the builtin then gives the same. |
| `Unsound.TimePolicyExactly` | src/armour-control/src/specialize.rs:643-648 | `fn allow_tcp_connection(from, to, c) { System::getCurrentTime() < 1893456000 }`: the compiled policy answers what was true when it was compiled, the global one what is true when it is asked, and they agree if and only if both times are on the same side of the limit. |
| `Failures.LeftDropped` | src/armour-control/src/specialize.rs:120-151 | `(if b { return 1 } else { 2 }) * 0` is specialized to 0; called with true the function gives 1. (Most rows of this module state `Misled`: the program is given as text that elaborates, and called with the given arguments, one outer `return` stripped, it has a value that its residual does not have.) |
| `Failures.RightDropped` | src/armour-control/src/specialize.rs:120-151 | The same for an operand on the right, `0 * (if b { return 1 } else { 2 })`. |
| `Failures.NeverRun` | src/armour-control/src/specialize.rs:196-206 | The `or` of `true` and `if true { return false } else { true }` is true; its residual is `return false`. |
| `Failures.TupleReturn` | src/armour-control/src/specialize.rs:240-251 | `(if b { return 1 } else { 2 }, if true { return 3 } else { 4 }); 5` is specialized to `return 3`; called with true it returns 1. |
| `Failures.UnusedLet` | src/armour-control/src/specialize.rs:264-279 | `let x = if true { return 1 } else { 2 }; 2` is specialized to 2; it returns 1. |
| `Failures.TestDropped` | src/armour-control/src/specialize.rs:462-470 | `if (if b { return 1 } else { true }) { 2 } else { 2 }` is specialized to 2; called with true it returns 1. |
| `Failures.SomeTestDropped` | src/armour-control/src/specialize.rs:505-520 | The same for `if let Some(x) = ...` with equal branches. |
| `Failures.LetBinderDropped` | src/armour-control/src/specialize.rs:167-173 | `let y = x; if true { 1 } else { y }` is specialized to a `let` without its closure, which has no value. |
| `Failures.LoopBinderDropped` | src/armour-control/src/specialize.rs:318-326 | The same for the body of an iteration over an unknown list. |
| `Failures.ArgumentLost` | src/armour-control/src/specialize.rs:661-672 | With `fn f(a) { 5 }`, the call `f(if b { return 1 } else { 2 })` is specialized to 5; called with true the caller returns 1. |
| `Failures.ArgumentReturn` | src/armour-control/src/specialize.rs:629-635 | `f(if b { return 1 } else { 2 }, if true { return 3 } else { 4 })` is specialized to `return 3`; called with true the caller returns 1. |
| `Failures.InlinedReturn` | src/armour-control/src/specialize.rs:661-672 | With `fn f(a) { if a { return 1 }; 2 }`, the residual of `f(b) + 1` returns 1 from the caller where the sum is 2. |
| `Failures.DeepArgument` | src/armour-control/src/specialize.rs:661-672 | With `fn f(a, b, c) { a }`, the residual of `f(x, y, z)` on unknown arguments is y. |
| `Failures.NestedReturn` | src/armour-control/src/specialize.rs:272-279 | An unused `let x = f()` is dropped although `fn f() { return if true { return 1 } else { 2 } }` makes its caller return 1: a call strips one `return` of two. |
| `Failures.NestedStart` | src/armour-control/src/specialize.rs:272-279 | The same with a fold whose accumulator starts with a `return` and whose body returns it. |
| `Failures.ResultsDropped` | src/armour-control/src/specialize.rs:399-432 | `map x in [1] { x }` is specialized to the empty list. |
| `Failures.ReturnOverlooked` | src/armour-control/src/specialize.rs:373-398 | A fold over a known list whose first result may be a `return`, unknown when it is specialized, goes on to the second. |
| `Failures.LateReturn` | src/armour-control/src/specialize.rs:373-398 | `map x in [true, false] { if x { if b { return 1 } else { 2 } } else { return 3 } }; 5` is specialized to `return 3`; called with true it returns 1. |
| `Failures.DeepAccumulator` | src/armour-control/src/specialize.rs:351-360 | In a fold over [true, false] whose first result is b and whose second is `{ let y = b; acc == y }`, the accumulator goes below two binders and turns into the list element: the residual compares b with false. |
| `Failures.OpenReturnClaimed` | src/armour-control/src/specialize.rs:316-317 | An iteration over `return x` is flagged as known although x is not; the residual itself is right. |
| `Failures.BodyReturnsLost` | src/armour-control/src/specialize.rs:318-326 | A fold over an unknown list whose body returns: specializing the body drops a `let` that passes the `return` in the accumulator on, and an error takes its place. |
| `Failures.StartReturnsLost` | src/armour-control/src/specialize.rs:318-326 | The same when the `return` is in what the fold starts from. |
| `Failures.StrayAccumulator` | src/armour-control/src/specialize.rs:327-399 | A core term no text elaborates to, a `map` with an accumulator, for which `Safe` would otherwise hold: the iteration that is left starts from the last accumulator. |
| `Failures.ClosureDangles` | src/armour-control/src/specialize.rs:167-173 | Nor is this an input of the code: a closure by itself loses its binder and its index dangles. |
| `Interpret.Eval` | src/armour-lang/src/interpret.rs:887-1240 | Evaluation ends for every expression and call depth (the measure is the pair of depth and size, a value counting as one) and yields a literal under any number of `return`s or an error. What it computes is tied to the meaning of programs as written by `Meaning.Means`, and that of the operators by the rows of `Operators`. |
| `Meaning.Means` | src/armour-lang/src/expressions.rs:800-1338 | Elaboration preserves meaning: an elaborated expression, with values put in for its names, evaluates to what the expression means as written, value or error. That meaning is an evaluation of its own, over named scopes, in which a later name hides an earlier one, a `return` stops a block and a `let` scopes over the statements after it. |
| `Meaning.MeansBlock` | src/armour-lang/src/expressions.rs:1340-1473 | The same for blocks of any length: each statement counts, in order, up to the first that returns. |
| `Meaning.Opened` | src/armour-lang/src/expressions.rs:497-530 | Applying the closures of several variables to literals is putting these into the scope, the last of equal names winning and `_` binding nothing. |
| `Meaning.ProgramMeans` | src/armour-lang/src/interpret.rs:887-1240 | Calling any function of an elaborated program gives what the declarations mean, value or error. |
| `Simulation.Simulate` | src/armour-lang/src/interpret.rs:887-1240 | Two programs that agree on the functions an expression can reach give it the same result or error, also when closed sub-terms are replaced by their values and the second has more call depth. |
| `Simulation.ValueFor` | src/armour-lang/src/interpret.rs:887-1240 | A closed expression may stand for the value it evaluates to anywhere in an expression, and a larger bound on nested calls changes no result. |
| `Shapes.EvalPlain` | src/armour-lang/src/interpret.rs:898-898 | Evaluation yields a literal or one `return` of a literal, and only a literal from return-free code, when neither the code nor a function it calls, directly or not, nests a `return` in another or in what a fold starts from. A `return` in the body of a fold is allowed. |
| `Progress.Progress` | src/armour-lang/src/interpret.rs:887-1240 | On a program with a topological order of its functions evaluation never runs out of call depth, and from scoped code it never reaches the "eval variable" error, in any construct. |
| `Operators.DivisionAndRemainder` | src/armour-lang/src/interpret.rs:241-245 | Quotient and remainder satisfy i = q*j + r with r smaller than j in magnitude and of the sign of i, and both fail exactly on a zero divisor and on the one quotient that does not fit 64 bits. |
| `Operators.MinusUndoesPlus` | src/armour-lang/src/interpret.rs:239-240 | Subtraction undoes addition for all 64-bit integers, overflow or not. |
| `Operators.NegateTwice` | src/armour-lang/src/interpret.rs:227-227 | Negation undoes itself, also on the smallest integer. |
| `Operators.MinusIsPlusNegated` | src/armour-lang/src/interpret.rs:227-240 | Subtracting is adding what prefix minus gives, overflow or not. |
| `Operators.RingLaws` | src/armour-lang/src/interpret.rs:239-244 | Addition and multiplication are commutative and associative with 0 and 1 as units, multiplication distributes over addition, and i - i is 0, overflow or not. |
| `Operators.TotalOrder` | src/armour-lang/src/interpret.rs:237-252 | The six comparisons of integers are answers of one total order: exactly one of `<`, `==` and exchanged `<` holds, `<` is transitive, `<=` is `<` or `==`, `>` and `>=` are `<` and `<=` exchanged, and i < i + 1 below the largest integer. |
| `Operators.EqualityLaws` | src/armour-lang/src/interpret.rs:237-238 | On all flat literals `==` is identity and `!=` its negation. |
| `Operators.BoolLaws` | src/armour-lang/src/interpret.rs:253-254 | Conjunction and disjunction of bools, dual to each other, and a type error on anything else. |
| `Operators.AppendStrings` | src/armour-lang/src/interpret.rs:254-256 | `++` adds lengths and has both strings in order as prefix and suffix. |
| `Operators.AppendLists` | src/armour-lang/src/interpret.rs:124-128 | `@` does the same for lists. |
| `Operators.InLaws` | src/armour-lang/src/interpret.rs:129-129 | `in` is false on the empty list, equality on lists of one, and membership in either on the concatenation of two lists. |
| `Operators.NotNeverNegates` | src/armour-lang/src/interpret.rs:226-226 | `!b` is b for both bools: prefix negation of the language never negates. |
| `Operators.FilterAppends` | src/armour-lang/src/interpret.rs:1071-1080 | `filter` distributes over splitting the list: it keeps elements in their order and looks at nothing else. |
| `Operators.FilterKeeps` | src/armour-lang/src/interpret.rs:1071-1080 | `filter` keeps exactly the elements whose test is true. |
| `Operators.FilterPanics` | src/armour-lang/src/interpret.rs:1071-1080 | `filter` has a value if and only if all tests are bools. |
| `Operators.FilterMapLaws` | src/armour-lang/src/interpret.rs:1081-1087 | `filter_map` keeps what stands under `Some`, drops `None`, and distributes over splitting the results. |
| `Operators.MapLaws` | src/armour-lang/src/interpret.rs:1069-1070 | `map` gives the results in order, `foreach` unit. |
| `Operators.AllAnyMean` | src/armour-lang/src/interpret.rs:1089-1090 | `all` is true if and only if all tests are true, and false if and only if there is a false test with only true ones before it, whatever follows; `any` is the dual; with bool tests both have a value. |
| `Loops.ApplyEach` | src/armour-lang/src/interpret.rs:1199-1201 | The loop that applies a function to its arguments one by one is full application. |
| `Loops.EvalEach` | src/armour-lang/src/interpret.rs:1190-1193 | The argument loop gives the values in order, or the first error. |
| `Loops.Iterate` | src/armour-lang/src/interpret.rs:1008-1058 | The iteration loop, with its accumulator, is the recursive definition that all theorems are about. |
| `Loops.PEvalEach` | src/armour-control/src/specialize.rs:629-634 | The same for the loop over residual arguments and its running flag. |
| `Loops.PIterate` | src/armour-control/src/specialize.rs:351-399 | The same for partial evaluation over a known list. |
| `TermLaws.ShiftClosed` | src/armour-lang/src/expressions.rs:531-561 | Shifting is the identity on locally closed terms. |
| `TermLaws.SubstFree` | src/armour-lang/src/expressions.rs:420-454 | When `is_free(i)` holds, what is substituted for index i does not matter. |
| `TermLaws.SubstInst` | src/armour-lang/src/expressions.rs:635-704 | Applying a partly opened closure to a closed argument opens it with one argument more. |
| `TermLaws.InstSubst` | src/armour-lang/src/expressions.rs:635-704 | Substituting an open argument and then opening is opening with the opened argument, if the argument is closed or the variable is under fewer than two binders. |
| `TermLaws.SizeSubst` | src/armour-lang/src/expressions.rs:635-704 | Applying to a value never makes a term larger. |
| `TermProps.AbsThenSubst` | src/armour-lang/src/expressions.rs:725-791 | Below any number of binders: turning a name into an index and substituting for the index is named substitution if and only if the term has no dangling index. |
| `TermProps.BindThenApply` | src/armour-lang/src/expressions.rs:705-798 | `e.closure_expr(v).apply(u)` is e with every free v replaced by u if and only if e is locally closed. |
| `TermProps.OpenedInOrder` | src/armour-lang/src/expressions.rs:497-530 | Opening the closures of several variables one after the other is simultaneous substitution. |
| `TermProps.LastWins` | src/armour-lang/src/expressions.rs:497-530 | Of several equal names the last one gets its literal. |
| `TermProps.LetExpr` | src/armour-lang/src/expressions.rs:497-511 | The loop over the variables from last to first nests one closure per variable other than `_`, the first outermost; a lone `_` gives a block. |
| `TermProps.IterExpr` | src/armour-lang/src/expressions.rs:512-530 | The same for iterations, the accumulator outside all variables. |
| `TermProps.SubstCommutes` | src/armour-lang/src/expressions.rs:635-704 | Closed substitutions at different indices commute, the larger index adjusted by one. |
| `TermProps.FreeExactly` | src/armour-lang/src/expressions.rs:420-454 | `is_free(i)` holds if and only if substituting two different literals for index i gives the same term. |
| `TermProps.ApplyLambda` | src/armour-lang/src/expressions.rs:705-710 | Full application opens the body with all arguments at once, the last one for index 0. |
| `TermProps.PropagateLambda` | src/armour-lang/src/expressions.rs:611-633 | `propagate_subst(i, k, u)` removes the k-th parameter and substitutes under all the others. |
| `TermProps.FixParameter` | src/armour-lang/src/expressions.rs:611-633 | For every arity n and position k, `propagate_subst(n-1-k, k, u)` is an (n-1)-ary function, and applied to the other arguments it is the original applied with u at position k. |
| `CallGraph.PreProgram.constructor` | src/armour-lang/src/lang.rs:77-81 | An empty program has an empty graph. |
| `CallGraph.PreProgram.AddFunction` | src/armour-lang/src/lang.rs:84-87 | A header adds a node and nothing else; a duplicate is reported. |
| `CallGraph.PreProgram.AddDecl` | src/armour-lang/src/lang.rs:190-209 | A body adds exactly the edges to the functions it calls other than builtins, and its code; it is rejected exactly if it or a function it calls is undeclared. |
| `CallGraph.PreProgram.Load` | src/armour-lang/src/lang.rs:239-291 | A program loads if and only if no name is declared twice, among externals and functions together, and every call is of a builtin or of something declared; it then has the code of all its declarations, and edges exactly for the calls between declared functions. |
| `CallGraph.PreProgram.LoadHeaders` | src/armour-lang/src/lang.rs:246-282 | The first pass succeeds if and only if the names are new and different. |
| `CallGraph.PreProgram.LoadBodies` | src/armour-lang/src/lang.rs:284-290 | The second pass, over the bodies, succeeds if and only if all callees are declared. |
| `CallGraph.PreProgram.CheckForCycles` | src/armour-lang/src/lang.rs:88-101 | The check succeeds if and only if no function calls itself directly or indirectly, and then there is an order with all callees first. |
| `CallGraph.OrderedIsAcyclic` | src/armour-lang/src/lang.rs:88-101 | A graph with a topological order has no cycle. |
| `CallGraph.StuckIsCyclic` | src/armour-lang/src/lang.rs:88-101 | If every node of a non-empty set calls into the set, some function calls itself indirectly. |
| `CallGraph.ReachableFrom` | src/armour-lang/src/lang.rs:102-116 | The search finds exactly the nodes at the end of a path from a top. |
| `CallGraph.PreProgram.Unreachable` | src/armour-lang/src/lang.rs:102-116 | Returns exactly the nodes no declared entry point has a path to. |
| `CallGraph.PreProgram.Program` | src/armour-lang/src/lang.rs:210-216 | Keeps exactly the reachable functions and headers, unchanged; without entry points everything. |
| `CallGraph.AcceptedTerminates` | src/armour-lang/src/lang.rs:217-221 | On a program that passes the cycle check nothing that is evaluated nests calls deeper than there are functions, and scoped code never meets a free variable. |
| `CallGraph.AcceptedIsDefinite` | src/armour-lang/src/lang.rs:217-221 | Then the result does not depend on the bound on nested calls. |
| `CallGraph.SelfCallNeverEnds` | src/armour-lang/src/lang.rs:88-101 | A function that calls itself, which the check rejects, exhausts every bound. |
| `CallGraph.CutPreservesEvaluation` | src/armour-lang/src/lang.rs:151-157 | Removing unreachable functions changes no result and no error of anything that only calls what is kept. |
| `CallGraph.CutIsGone` | src/armour-lang/src/lang.rs:151-157 | A call of a removed function has no value. |
| `DataPlane.LitToDp` | src/armour-lang/src/literals.rs:1422-1439 | Converting a literal changes nothing and panics exactly if a control-plane literal occurs in it, however deep. |
| `DataPlane.ConversionCommutes` | src/armour-lang/src/expressions.rs:331-396 | Converting after substituting is substituting in the converted terms, also as to failing. |
| `DataPlane.ConversionExactly` | src/armour-lang/src/expressions.rs:331-396 | Converting an expression changes nothing and panics exactly if it holds a control-plane literal. |
| `DataPlane.PlanesAgree` | src/armour-lang/src/interpret.rs:567-720 | The control plane's tables, which delegate on data-plane literals, and the data plane's cannot be told apart by data-plane code. |
| `DataPlane.ConversionCommutesWithEvaluation` | src/armour-lang/src/expressions.rs:331-396 | Converting and then evaluating on the data plane is evaluating on the control plane and then converting, value or error, and the value always converts. |
| `Elaborate.AcceptedExactly` | src/armour-lang/src/expressions.rs:800-1338 | An expression elaborates if and only if it is well shaped and all identifiers free in it are declared. |
| `Elaborate.AcceptedBlockExactly` | src/armour-lang/src/expressions.rs:1340-1473 | The same for statement blocks: nothing after `return`, semicolons between statements, `let` scoping over the rest. (What the block means is `Meaning.MeansBlock`.) |
| `Elaborate.ElabOpen` | src/armour-lang/src/expressions.rs:800-1338 | The elaborated term has only declared free variables and no dangling index. |
| `Elaborate.DeclIsScoped` | src/armour-lang/src/expressions.rs:1527-1543 | An accepted declaration gives a term with no free variable, no dangling index and exactly one closure per parameter, in their order. |
| `Elaborate.NoBareReturn` | src/armour-lang/src/expressions.rs:1340-1380 | No expression elaborates to a bare `return`: it always stands in a block. |
| `Elaborate.AcceptedProgramsRun` | src/armour-lang/src/lang.rs:217-291 | On a program of accepted declarations that passes the cycle check no call ever ends in "eval variable" or recurses without end. |
| `Labels.MatchWithLoop` | src/armour-lang/src/labels.rs:289-332 | The in-place matcher, which extends a copy of the pattern and updates the captures until the first mismatch, computes the matching function of the theorems below. |
| `LabelLaws.EqualExactly` | src/armour-lang/src/labels.rs:237-241 | Two labels are equal, that is, match each other, if and only if they have the same length, the same strings and wildcards opposite wildcards, and neither has `<x>` after a `<<x>>` that repeats x. |
| `LabelLaws.EqualIsEquivalence` | src/armour-lang/src/labels.rs:237-241 | Label equality is symmetric and transitive, and reflexive exactly on labels without such an `<x>`. |
| `LabelLaws.UnmixedIsSettled` | src/armour-lang/src/labels.rs:237-241 | Labels that share no name between `<x>` and `<<x>>` are of that kind. |
| `LabelLaws.NotReflexive` | src/armour-lang/src/labels.rs:237-241 | `<x>::<<x>>::<x>` is not equal to itself. |
| `LabelLaws.MatchSound` | src/armour-lang/src/labels.rs:289-332 | On a concrete label the matcher returns m exactly if m is an assignment that makes the pattern cover the label, a final `**` or `<<x>>` covering the non-empty rest. |
| `LabelLaws.MatchExactly` | src/armour-lang/src/labels.rs:289-332 | That holds for all concrete labels if and only if no `<<x>>` comes after another occurrence of x. |
| `LabelLaws.LateRecFails` | src/armour-lang/src/labels.rs:289-332 | On every other pattern there is a concrete label and an assignment covering it that the matcher does not return. |
| `LabelLaws.FitsUnique` | src/armour-lang/src/labels.rs:289-332 | The covering assignment is unique. |
| `LabelLaws.LinearMatches` | src/armour-lang/src/labels.rs:289-332 | A pattern that names nothing twice matches exactly the labels of the right length that have its strings in place. |
| `LabelLaws.ComposeExactly` | src/armour-lang/src/labels.rs:286-332 | On such patterns matching composes (p matches q, q matches l, so p matches l, for all l) if and only if p ends in `**` or q does not. |
| `LabelText.NodeRoundTripExactly` | src/armour-lang/src/labels.rs:45-90 | Parsing a printed node gives it back if and only if the node is valid. |
| `LabelText.JoinSplit` | src/armour-lang/src/labels.rs:186-193 | Joining the parts split at `::` gives the text back, whatever it is. |
| `LabelText.SplitJoin` | src/armour-lang/src/labels.rs:217-229 | Splitting joined parts gives the parts back if none has a colon. |
| `LabelText.PrintUndoesParse` | src/armour-lang/src/labels.rs:186-193 | Text that parses is printed as it was, and its label is non-empty with valid nodes. |
| `LabelText.ParseUndoesPrintExactly` | src/armour-lang/src/labels.rs:217-229 | Printed labels parse back to themselves if and only if they are non-empty and all nodes are valid. |
| `LabelText.NodeExactly` | src/armour-lang/src/labels.rs:33-90 | Which texts are nodes, by characters: `*`, `**`, `<x>` and `<<x>>` with x an ASCII letter followed by letters and digits, and texts of letters and digits with single separators (space, `_`, `+`, `-`) strictly between them. |
| `LabelText.LabelExactly` | src/armour-lang/src/labels.rs:186-193 | A text parses to a label if and only if it is the texts of the label's nodes, at least one, with `::` between them. |
| `Pratt.ClashExactly` | src/armour-lang/src/pretty.rs:410-434 | The only operators of one level that associate differently are `++`, `@` and `+`, `-`. |
| `Pratt.PrintParses` | src/armour-lang/src/pretty.rs:162-182 | A printed tree without clashes is parsed back, in any context whose next token does not bind tighter. |
| `Pratt.PrattPaid` | src/armour-lang/src/parser.rs:1300-1360 | Whatever tree the parser returns, it read at least as many tokens as printing that tree with all needed brackets takes, and it stops at a token that does not continue the expression. |
| `Pratt.RoundTripExactly` | src/armour-lang/src/parser.rs:1300-1360 | Parsing the printed form of an infix tree gives exactly that tree, with nothing left over, if and only if no `++` or `@` has a `+` or `-` as an operand. |
| `Pratt.Groups` | src/armour-lang/src/parser.rs:1020-1049 | `a p b q c` is read as `a p (b q c)` if q is tighter than p in the listed order of precedence, or as tight and not one of those that group to the left, and else as `(a p b) q c`; for all pairs of operators. |
| `Codec.Stream.constructor` | src/armour-api/src/lib.rs:34-51 | A new stream has read nothing. |
| `Codec.Stream.Decode` | src/armour-api/src/lib.rs:35-50 | Nothing and no change while a frame is incomplete; else the message of exactly that frame, or an error, the frame consumed either way. |
| `Codec.Stream.Encode` | src/armour-api/src/lib.rs:54-63 | Appends the frame of the payload and changes nothing before it. |
| `Codec.Stream.Feed` | src/armour-api/src/lib.rs:34-51 | After a chunk all complete frames have been delivered in order and the rest is kept; decoding stops exactly at the first frame that does not parse, with all before it delivered. |
| `Codec.Stream.FeedAll` | src/armour-api/src/lib.rs:34-51 | Feeding chunks one by one is decoding their concatenation. |
| `Codec.DrainMore` | src/armour-api/src/lib.rs:34-51 | Bytes that arrive later do not change the frames already complete. |
| `Codec.DrainFrames` | src/armour-api/src/lib.rs:34-63 | Draining the frames of payloads of fewer than 65536 bytes gives those payloads, with nothing left. |
| `Codec.FrameExactly` | src/armour-api/src/lib.rs:54-62 | A frame round-trips if and only if its payload has fewer than 65536 bytes: the length is truncated to 16 bits. |
| `Codec.FrameBytes` | src/armour-api/src/lib.rs:54-62 | A frame is two bytes, high byte first, that make up the payload's length modulo 65536, and the payload. |
| `Codec.CompleteExactly` | src/armour-api/src/lib.rs:35-45 | A frame is complete if and only if as many bytes follow the first two as these say, and is taken off exactly. |
| `Codec.DrainPrefix` | src/armour-api/src/lib.rs:34-51 | After any prefix of a stream of frames the buffer holds a proper prefix of the next frame and everything before it has been delivered. |
| `Codec.StreamRoundTrip` | src/armour-api/src/lib.rs:34-63 | Whatever is parsed from chunks that concatenate to the frames of serialized messages is those messages. |
| `Codec.Transfer` | src/armour-api/src/lib.rs:34-63 | Messages come out of a connection as they went in, however the stream is cut. |
| `Identity.Identities.constructor` | src/armour-proxy/src/policy.rs:296-303 | No labels, nothing cached. |
| `Identity.Identities.ClearLabels` | src/armour-proxy/src/policy.rs:310-314 | No labels and coherent caches, that of hosts empty. |
| `Identity.Identities.AddUri` | src/armour-proxy/src/policy.rs:315-326 | Adds the label to the URI's host, nothing without a host, and the caches stay coherent. |
| `Identity.Identities.AddIp` | src/armour-proxy/src/policy.rs:327-336 | Adds the label to the address, and the caches stay coherent. |
| `Identity.Identities.RemoveUri` | src/armour-proxy/src/policy.rs:337-350 | Removes one label or all labels of the host; no empty label set stays behind, and the caches stay coherent. |
| `Identity.Identities.RemoveIp` | src/armour-proxy/src/policy.rs:351-362 | The same for addresses. |
| `Identity.Identities.IdOf` | src/armour-proxy/src/policy.rs:216-282 | Cached or not, the ID has the hosts, addresses and labels that the current labels and name resolution give it, said by membership; a host already cached keeps the port it was first asked with; by socket address the port is right too. |
| `Identity.Identities.NewHostId` | src/armour-proxy/src/policy.rs:224-243 | An address is in the ID of a host if and only if resolution gives it and it is IPv4; a label is in it if and only if the store has it for that host or one of those addresses; it has that host only, and the port asked for. |
| `Identity.Identities.NewAddressId` | src/armour-proxy/src/policy.rs:259-279 | The ID of a socket address has the host that looking it up gives, the address if it is IPv4, the port, and a label if and only if the store has it for that host or, the address being IPv4, for it. |
| `Identity.Identities.Connection` | src/armour-proxy/src/policy.rs:286-292 | Connections are numbered consecutively and carry the IDs, in that sense, of both ends. |
| `Identity.RemoveUndoesAdd` | src/armour-proxy/src/policy.rs:315-362 | Removing a label that was new restores the label map exactly. |
| `Identity.LabelsAfter` | src/armour-proxy/src/policy.rs:315-362 | Adding or removing affects one key only, and no stored label set becomes empty. |
| `Identity.Serve` | src/armour-proxy/src/policy.rs:557-604 | After any sequence of label additions, removals, clears and ID requests every ID handed out has exactly the hosts, addresses and labels that the labels at that moment and name resolution give it, said by membership; by socket address it has the requested port, and by URI the port of the first request for that host since the labels last changed. |
| `Identity.IdUnique` | src/armour-proxy/src/policy.rs:216-282 | But for the port of a host there is only one such ID. |
| `Enforcement.HttpPolicy.constructor` | src/armour-proxy/src/http_policy.rs:144-155 | A new actor denies everything. |
| `Enforcement.HttpPolicy.SetPolicy` | src/armour-proxy/src/http_policy.rs:51-122 | Installing a policy changes environment and status with it and keeps the timeout; the status allows or asks for a call exactly if the policy has that rule for the function. |
| `Enforcement.HttpPolicy.SetTimeout` | src/armour-proxy/src/http_policy.rs:161-163 | Changes the timeout and nothing else. |
| `Enforcement.HttpPolicy.Get` | src/armour-proxy/src/http_policy.rs:158-207 | The snapshot is true of the policy installed at that moment; a function the policy does not mention is denied. |
| `Enforcement.HttpPolicy.EvalHttpFn` | src/armour-proxy/src/http_policy.rs:220-247 | The verdict is true if and only if the interpreter gives the literal true for the call in the policy installed at that moment, false if and only if it gives false, and an error for anything else. |
| `Enforcement.NextKeeps` | src/armour-proxy/src/http_proxy.rs:83-273 | Every step of every handler and every policy update keeps the invariant that ties handlers, installed policy and history together. |
| `Enforcement.ExecKeeps` | src/armour-proxy/src/http_proxy.rs:83-273 | So does every run. |
| `Enforcement.FailClosed` | src/armour-proxy/src/http_proxy.rs:83-273 | However requests and policy updates interleave: a request is forwarded at most once, with exactly the bytes read from the client, and only if the policy that was installed when the handler asked for it allows the function or, that policy asking for a call, the interpreter later gave true for it, about those very bytes if it takes them, in the policy installed when it was called; a response body is delivered at most once, only after the request was forwarded and only under the same condition for the response. |
| `Enforcement.RepliesAreDelivered` | src/armour-proxy/src/http_proxy.rs:83-273 | No client gets a body that was not delivered so. |
| `Enforcement.UndisturbedExactly` | src/armour-proxy/src/http_proxy.rs:83-172 | Without interference a request gets through, in however many chunks its body comes, if and only if the policy allows it or the interpreter gives true for its function, called with nothing, with the request, or with the request and the bytes, as the policy asks; what gets through is the chunks in order, and it is refused as unauthorized if and only if the policy denies it, has nothing for it, or its function gives false. |
| `Enforcement.ExchangeExactly` | src/armour-proxy/src/http_proxy.rs:83-273 | And the client gets the server's reply if and only if the policy lets both the request and the response through, in the same sense, and an error otherwise: unauthorized exactly if the policy denies the one or, having let it through, the other. |
| `Enforcement.SnapshotTells` | src/armour-proxy/src/http_policy.rs:158-207 | A handler is told the policy and the timeout that were set last, in whichever order. |
| `Enforcement.WrongEnds` | src/armour-proxy/src/http_proxy.rs:90-273 | Whatever goes wrong while a handler waits (the policy actor does not answer, the client or the server breaks off) ends it with an error, and nothing is forwarded or delivered. |
| `Enforcement.NoHostEnds` | src/armour-proxy/src/http_proxy.rs:83-99 | So does a request without a host. |
| `Enforcement.EndStays` | src/armour-proxy/src/http_proxy.rs:83-273 | A handler that has ended stays as it is in every run, and nothing more is forwarded or delivered for it. |
| `Enforcement.ArityChangeIsAnError` | src/armour-proxy/src/http_proxy.rs:103-118 | If the function installed by the time of the call takes another number of arguments, or is gone, the verdict is an error: an update in between never lets a request through. |

## Left out

- Compile.CompiledPolicyAgrees: does not cover the dead-code elimination that `compile_helper` runs afterwards; the compiled program here holds the compiled function alone, as the policy does that the elimination is given.
- Compile.CompileFunction: signatures are lists of type names; reading the policy and writing logs are not modelled.
- Specialize.PEval: the accumulator name, the `async` state and the fuel bound of the recursion are not part of the source's result.
- Elaborate.AcceptedExactly: types are not modelled, so an expression the source rejects for its types alone counts as accepted here; the name a method call resolves to and the `async` flag of a call are inputs.
- Elaborate.AcceptedBlockExactly: the same for statement blocks.
- Failures.StrayAccumulator: a core term that no text elaborates to; the guard it is about never fails on elaborated programs.
- Failures.ClosureDangles: the same.
- Failing.Fails: says nothing of partial evaluations that are not safe.
- Fuel.MoreFuel: does not say that accepted programs always have enough fuel.
- Soundness.PEvalPreservesMeaning: where a guard of `Safe` asks that an expression settles, a function that nests a `return` in another one, or in what a fold starts from, is not admitted among those it calls, even if no run reaches that `return`; `Compile.CompiledPolicyAgrees` and `Pipeline.ShippedPolicyAgrees` have this from it.
- Interpret.Eval: calls with `async` return at once and have no other effect; metadata, builtins and external calls are functions of their arguments during one evaluation; only between compiling and running may builtins change.
- Identity.Identities.IdOf: does not promise the requested port for a URI, because the cache of hosts keeps the first port asked for; `Identity.Serve` says which one it is.
- Identity.Serve: a label operation carries one label; the source's operations carry lists of them and parse URIs from text.
- Enforcement.FailClosed: header editing, metadata encryption and timeouts are not modelled; the request or response handed to the policy function is an arbitrary literal.
- Pratt.RoundTripExactly: prefix operators, method and function calls, tuples and layout are not modelled; an atom is one token.
- Labels inside expressions are opaque literals compared structurally; the interpreter compares them by mutual matching, which `LabelLaws` characterizes on its own.
- Float literals have no arithmetic, as in the interpreter; their equality is that of real numbers, without NaN.
- The regular expressions of `if match`, base64 and the HTTP and ID accessors are abstract functions.
- Type checking and type preservation: the checker gives a statement ending in `;` type unit whatever its value.
- `Program::deadcode_elim` re-adds nodes it has already created; `PreProgram::program` is modelled instead.
- The order in which hash maps are traversed: only results that do not depend on it are stated.
- The TCP proxy, database, REST handlers, starting and stopping the proxy, certificates, launch scripts and command-line tools, which are I/O.
- Lexing, error messages, source locations, colours and line widths.
