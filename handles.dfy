/** GPU objects as abstract handles in a ledger. The driver issues a fresh handle
    for every object it creates; an object may only be created from live
    objects, and may only be destroyed when no live object still depends on it.
    The ledger's log lists every creation and destruction in order.

    A sequence of driver calls is a script of `Op`s; `Run` replays a script
    against a ledger state and `Runs` says that every step of it is allowed
    where it happens. */
module Handles {

  /** An opaque 64-bit object handle; the ledger issues them from 1 upwards
      (see `Valid`), so no bound is needed here. */
  type Handle = int

  /** The null handle (VK_NULL_HANDLE); the ledger never issues it. */
  const NULL_HANDLE: Handle := 0

  datatype Kind =
    | Instance | Device | ShaderModule | DescriptorSetLayout | PipelineLayout | Pipeline
    | Buffer | DeviceMemory | DescriptorPool | CommandPool

  datatype Event = Created(handle: Handle, kind: Kind) | Destroyed(handle: Handle, kind: Kind)

  /** The driver's record of the objects of one instance. */
  datatype LedgerState = LedgerState(
    live: set<Handle>,               // objects that exist now
    kind: map<Handle, Kind>,         // what each issued handle is, live or destroyed
    deps: map<Handle, set<Handle>>,  // the objects each issued handle refers to and must not outlive
    next: Handle,                    // the next handle the driver issues
    log: seq<Event>)                 // every creation and destruction, oldest first
  {
    /** Issued handles lie in `1 .. next - 1`; every live object's dependencies
        are live, and no object depends on itself. */
    predicate Valid() {
      && NULL_HANDLE < next
      && (forall h :: h in kind ==> NULL_HANDLE < h < next)
      && deps.Keys == kind.Keys
      && live <= kind.Keys
      && (forall h :: h in live ==> deps[h] <= live && h !in deps[h])
    }

    /** Object `h` is live, is a `k`, and depends on exactly `on`. */
    predicate Holds(h: Handle, k: Kind, on: set<Handle>) {
      h in live && h in kind && h in deps && kind[h] == k && deps[h] == on
    }

    /** No live object depends on `h`. */
    predicate Unreferenced(h: Handle) {
      forall d :: d in live && d in deps ==> h !in deps[d]
    }
  }

  /** The ledger of an instance before anything is created. */
  const EMPTY_LEDGER := LedgerState({}, map[], map[], 1, [])

  /** One driver call as the ledger sees it: create an object of a kind that
      refers to some live objects; make a live object refer to more live objects
      (binding memory, writing a descriptor set, recording a command buffer); or
      destroy a live object of a known kind. */
  datatype Op =
    | Make(kind: Kind, on: set<Handle>)
    | Link(target: Handle, on: set<Handle>)
    | Free(target: Handle, kind: Kind)

  /** The call is allowed in state `s`. */
  predicate Enabled(s: LedgerState, op: Op) {
    match op
    case Make(_, on) => on <= s.live
    case Link(h, on) => h in s.live && h in s.deps && on <= s.live && h !in on
    case Free(h, k) => h in s.live && h in s.kind && s.kind[h] == k && s.Unreferenced(h)
  }

  /** The state after the call: a creation issues `next`, a link adds to the
      target's dependencies, a destruction retires the handle. */
  function Step(s: LedgerState, op: Op): LedgerState
  {
    match op
    case Make(k, on) =>
      LedgerState(s.live + {s.next}, s.kind[s.next := k], s.deps[s.next := on], s.next + 1,
                  s.log + [Created(s.next, k)])
    case Link(h, on) =>
      s.(deps := s.deps[h := (if h in s.deps then s.deps[h] else {}) + on])
    case Free(h, k) =>
      s.(live := s.live - {h}, log := s.log + [Destroyed(h, k)])
  }

  /** An allowed call keeps a valid ledger valid. */
  lemma StepKeepsValid(s: LedgerState, op: Op)
    requires s.Valid() && Enabled(s, op)
    ensures Step(s, op).Valid()
  {
  }

  /** The state after the whole script, first call first. */
  function Run(s: LedgerState, ops: seq<Op>): LedgerState {
    if ops == [] then s else Step(Run(s, ops[..|ops| - 1]), ops[|ops| - 1])
  }

  /** Every call of the script is allowed in the state the calls before it leave. */
  predicate Runs(s: LedgerState, ops: seq<Op>) {
    forall k {:trigger Enabled(Run(s, ops[..k]), ops[k])} :: 0 <= k < |ops| ==> Enabled(Run(s, ops[..k]), ops[k])
  }

  /** Running one more call of a script is one more step. */
  lemma RunNext(s: LedgerState, ops: seq<Op>, k: nat)
    requires k < |ops|
    ensures Run(s, ops[..k + 1]) == Step(Run(s, ops[..k]), ops[k])
  {
    assert ops[..k + 1][..k] == ops[..k];
  }

  /** Running a script and then another is running them joined. */
  lemma {:induction false} RunAppend(s: LedgerState, a: seq<Op>, b: seq<Op>)
    ensures Run(s, a + b) == Run(Run(s, a), b)
    decreases |b|
  {
    if b == [] {
      assert a + b == a;
    } else {
      var b' := b[..|b| - 1];
      RunAppend(s, a, b');
      assert (a + b)[..|a + b| - 1] == a + b';
    }
  }

  /** The joined script runs exactly when the first does and the second does
      after it. */
  lemma RunsAppend(s: LedgerState, a: seq<Op>, b: seq<Op>)
    ensures Runs(s, a + b) <==> Runs(s, a) && Runs(Run(s, a), b)
  {
    if Runs(s, a) && Runs(Run(s, a), b) {
      RunsJoin(s, a, b);
    }
    if Runs(s, a + b) {
      RunsSplit(s, a, b);
    }
  }

  lemma RunsJoin(s: LedgerState, a: seq<Op>, b: seq<Op>)
    requires Runs(s, a) && Runs(Run(s, a), b)
    ensures Runs(s, a + b)
  {
    forall k | 0 <= k < |a + b|
      ensures Enabled(Run(s, (a + b)[..k]), (a + b)[k])
    {
      JoinAt(s, a, b, k);
    }
  }

  /** Call `k` of `a + b` is allowed when `a` runs and `b` runs after it. */
  lemma JoinAt(s: LedgerState, a: seq<Op>, b: seq<Op>, k: nat)
    requires Runs(s, a) && Runs(Run(s, a), b) && k < |a + b|
    ensures Enabled(Run(s, (a + b)[..k]), (a + b)[k])
  {
    if k < |a| {
      AppendFront(a, b, k);
      assert Enabled(Run(s, a[..k]), a[k]);
    } else {
      AppendBack(s, a, b, k - |a|);
      assert Enabled(Run(Run(s, a), b[..k - |a|]), b[k - |a|]);
    }
  }


  lemma RunsSplit(s: LedgerState, a: seq<Op>, b: seq<Op>)
    requires Runs(s, a + b)
    ensures Runs(s, a) && Runs(Run(s, a), b)
  {
    forall k | 0 <= k < |a|
      ensures Enabled(Run(s, a[..k]), a[k])
    {
      AppendFront(a, b, k);
      assert Enabled(Run(s, (a + b)[..k]), (a + b)[k]);
    }
    forall j | 0 <= j < |b|
      ensures Enabled(Run(Run(s, a), b[..j]), b[j])
    {
      AppendBack(s, a, b, j);
      assert Enabled(Run(s, (a + b)[..|a| + j]), (a + b)[|a| + j]);
    }
  }


  /** Call `k` of `a + b`, for `k` inside `a`, is call `k` of `a`. */
  lemma AppendFront(a: seq<Op>, b: seq<Op>, k: nat)
    requires k < |a|
    ensures (a + b)[..k] == a[..k] && (a + b)[k] == a[k]
  {
  }

  /** Call `|a| + j` of `a + b` is call `j` of `b`, made after all of `a`. */
  lemma AppendBack(s: LedgerState, a: seq<Op>, b: seq<Op>, j: nat)
    requires j < |b|
    ensures (a + b)[|a| + j] == b[j]
    ensures Run(s, (a + b)[..|a| + j]) == Run(Run(s, a), b[..j])
  {
    assert (a + b)[..|a| + j] == a + b[..j];
    RunAppend(s, a, b[..j]);
  }


  /** A prefix of a script that runs also runs. */
  lemma RunsPrefix(s: LedgerState, ops: seq<Op>, n: nat)
    requires Runs(s, ops) && n <= |ops|
    ensures Runs(s, ops[..n])
  {
    forall k | 0 <= k < n
      ensures Enabled(Run(s, ops[..n][..k]), ops[..n][k])
    {
      assert ops[..n][..k] == ops[..k];
    }
  }

  /** A script of two calls is two steps. */
  lemma RunOfTwo(s: LedgerState, a: Op, b: Op)
    ensures Run(s, [a, b]) == Step(Step(s, a), b)
  {
    assert [a, b][..1] == [a];
    assert [a][..0] == [];
    assert Run(s, [a]) == Step(s, a);
  }

  /** A script of two calls runs when each step is allowed. */
  lemma RunsOfTwo(s: LedgerState, a: Op, b: Op)
    requires Enabled(s, a) && Enabled(Step(s, a), b)
    ensures Runs(s, [a, b])
  {
    assert [a, b][..1] == [a];
    assert [a, b][..0] == [];
    assert Run(s, [a]) == Step(s, a);
  }

  /** A script of three calls is three steps. */
  lemma RunOfThree(s: LedgerState, a: Op, b: Op, c: Op)
    ensures Run(s, [a, b, c]) == Step(Step(Step(s, a), b), c)
  {
    assert [a, b, c][..2] == [a, b];
    RunOfTwo(s, a, b);
  }

  /** A script of three calls runs when each step is allowed. */
  lemma RunsOfThree(s: LedgerState, a: Op, b: Op, c: Op)
    requires Enabled(s, a) && Enabled(Step(s, a), b) && Enabled(Step(Step(s, a), b), c)
    ensures Runs(s, [a, b, c])
  {
    assert [a, b, c][..2] == [a, b];
    RunOfTwo(s, a, b);
    assert [a, b, c][..1] == [a];
    assert [a, b, c][..0] == [];
    assert Run(s, [a]) == Step(s, a);
  }

  /** Two scripts that run one after the other run as one. */
  lemma RunsThen(s: LedgerState, a: seq<Op>, b: seq<Op>)
    requires Runs(s, a) && Runs(Run(s, a), b)
    ensures Runs(s, a + b)
    ensures Run(s, a + b) == Run(Run(s, a), b)
  {
    RunsAppend(s, a, b);
    RunAppend(s, a, b);
  }

  /** A script that runs from a valid state leaves a valid state. */
  lemma {:induction false} RunKeepsValid(s: LedgerState, ops: seq<Op>)
    requires s.Valid() && Runs(s, ops)
    ensures Run(s, ops).Valid()
  {
    if ops != [] {
      var init := ops[..|ops| - 1];
      RunsPrefix(s, ops, |ops| - 1);
      RunKeepsValid(s, init);
      StepKeepsValid(Run(s, init), ops[|ops| - 1]);
    }
  }

  /** The kinds a script creates, in order. */
  function MadeKinds(ops: seq<Op>): (kinds: seq<Kind>)
    ensures |kinds| <= |ops|
    ensures (forall k :: 0 <= k < |ops| ==> ops[k].Make?) ==>
      |kinds| == |ops| && forall k :: 0 <= k < |ops| ==> kinds[k] == ops[k].kind
  {
    if ops == [] then []
    else
      var init := MadeKinds(ops[..|ops| - 1]);
      if ops[|ops| - 1].Make? then init + [ops[|ops| - 1].kind] else init
  }

  /** The creations of `|kinds|` objects with consecutive handles from `first`. */
  function Creations(first: Handle, kinds: seq<Kind>): (events: seq<Event>)
    ensures |events| == |kinds|
  {
    if kinds == [] then []
    else Creations(first, kinds[..|kinds| - 1]) + [Created(first + |kinds| - 1, kinds[|kinds| - 1])]
  }

  /** The handles `first .. first + n - 1`. */
  function HandleRange(first: Handle, n: nat): set<Handle>
  {
    if n == 0 then {} else HandleRange(first, n - 1) + {first + n - 1}
  }

  /** Exactly the handles from `first` up to but not including `first + n`. */
  lemma {:induction false} HandleRangeMembers(first: Handle, n: nat)
    ensures forall h :: h in HandleRange(first, n) <==> first <= h < first + n
  {
    if n > 0 {
      HandleRangeMembers(first, n - 1);
    }
  }

  /** A script that destroys nothing issues consecutive handles from `next`,
      leaves them all live, logs their creations in order, and keeps what every
      earlier handle is. */
  lemma {:induction false} RunWithoutFrees(s: LedgerState, ops: seq<Op>)
    requires forall k :: 0 <= k < |ops| ==> !ops[k].Free?
    ensures Run(s, ops).next == s.next + |MadeKinds(ops)|
    ensures Run(s, ops).live == s.live + HandleRange(s.next, |MadeKinds(ops)|)
    ensures Run(s, ops).log == s.log + Creations(s.next, MadeKinds(ops))
    ensures forall h :: h in s.kind && h < s.next ==> h in Run(s, ops).kind && Run(s, ops).kind[h] == s.kind[h]
  {
    if ops != [] {
      var init, last := ops[..|ops| - 1], ops[|ops| - 1];
      forall k | 0 <= k < |init|
        ensures !init[k].Free?
      {
        assert init[k] == ops[k];
      }
      RunWithoutFrees(s, init);
      assert Run(s, ops) == Step(Run(s, init), last);
      var made := MadeKinds(init);
      if last.Make? {
        assert MadeKinds(ops) == made + [last.kind];
        assert (made + [last.kind])[..|made|] == made;
        assert Creations(s.next, made + [last.kind]) == Creations(s.next, made) + [Created(s.next + |made|, last.kind)];
      } else {
        assert MadeKinds(ops) == made;
      }
    }
  }

  /** A script that destroys nothing keeps every live object live. */
  lemma {:induction false} LiveGrows(s: LedgerState, ops: seq<Op>)
    requires forall k :: 0 <= k < |ops| ==> !ops[k].Free?
    ensures s.live <= Run(s, ops).live
  {
    if ops != [] {
      var init := ops[..|ops| - 1];
      forall k | 0 <= k < |init|
        ensures !init[k].Free?
      {
        assert init[k] == ops[k];
      }
      LiveGrows(s, init);
    }
  }

  /** Handles only ever grow what they refer to: a creation issues a fresh
      handle, a link adds to its target, a destruction leaves it be. */
  lemma {:induction false} RunGrowsDeps(s: LedgerState, ops: seq<Op>)
    ensures Run(s, ops).next >= s.next
    ensures forall h :: h in s.deps && h < s.next ==> h in Run(s, ops).deps && s.deps[h] <= Run(s, ops).deps[h]
  {
    if ops != [] {
      RunGrowsDeps(s, ops[..|ops| - 1]);
    }
  }

  /** Handles below `b` that no link of the script targets keep exactly what
      they refer to. */
  lemma {:induction false} RunKeepsOlderDeps(s: LedgerState, ops: seq<Op>, b: Handle)
    requires b <= s.next
    requires forall k :: 0 <= k < |ops| && ops[k].Link? ==> b <= ops[k].target
    ensures forall h :: h in s.deps && h < b ==> h in Run(s, ops).deps && Run(s, ops).deps[h] == s.deps[h]
  {
    if ops != [] {
      var init := ops[..|ops| - 1];
      forall k | 0 <= k < |init| && init[k].Link?
        ensures b <= init[k].target
      {
        assert init[k] == ops[k];
      }
      RunKeepsOlderDeps(s, init, b);
      RunGrowsDeps(s, init);
    }
  }

  /** A script that destroys nothing, and links only objects from `b` on,
      keeps every object below `b` as it is. */
  lemma KeepsOlder(s: LedgerState, ops: seq<Op>, b: Handle)
    requires b <= s.next
    requires forall k :: 0 <= k < |ops| ==> !ops[k].Free?
    requires forall k :: 0 <= k < |ops| && ops[k].Link? ==> b <= ops[k].target
    ensures forall h: Handle, k: Kind, on: set<Handle> :: h < b && s.Holds(h, k, on) ==> Run(s, ops).Holds(h, k, on)
  {
    RunWithoutFrees(s, ops);
    RunKeepsOlderDeps(s, ops, b);
  }

  /** The handles a script of destructions retires. */
  function Freed(ops: seq<Op>): set<Handle> {
    set j | 0 <= j < |ops| && ops[j].Free? :: ops[j].target
  }

  /** The log entries a script of destructions appends, in order. */
  function Destructions(ops: seq<Op>): (events: seq<Event>)
    requires forall k :: 0 <= k < |ops| ==> ops[k].Free?
    ensures |events| == |ops|
    ensures forall k :: 0 <= k < |ops| ==> events[k] == Destroyed(ops[k].target, ops[k].kind)
  {
    seq(|ops|, k requires 0 <= k < |ops| => Destroyed(ops[k].target, ops[k].kind))
  }

  /** A script made only of destructions retires exactly its targets, logs
      their destructions in order, and changes nothing else. */
  lemma {:induction false} RunOfFrees(s: LedgerState, ops: seq<Op>)
    requires forall k :: 0 <= k < |ops| ==> ops[k].Free?
    ensures Run(s, ops).live == s.live - Freed(ops)
    ensures Run(s, ops).log == s.log + Destructions(ops)
    ensures Run(s, ops).kind == s.kind && Run(s, ops).deps == s.deps && Run(s, ops).next == s.next
  {
    if ops != [] {
      var init := ops[..|ops| - 1];
      var last := ops[|ops| - 1];
      RunOfFrees(s, init);
      forall i | 0 <= i < |init|
        ensures init[i] == ops[i]
      {
      }
      assert Freed(ops) == Freed(init) + {last.target};
      assert Destructions(ops) == Destructions(init) + [Destroyed(last.target, last.kind)];
    }
  }

  /** After a script of destructions, live object `h` may be destroyed when the
      script did not already retire it and retired every object depending on it. */
  lemma FreeAfterFrees(s: LedgerState, init: seq<Op>, h: Handle, k: Kind)
    requires forall j :: 0 <= j < |init| ==> init[j].Free?
    requires h in s.live && h in s.kind && s.kind[h] == k
    requires forall j :: 0 <= j < |init| ==> init[j].target != h
    requires forall d :: d in s.live && d in s.deps && h in s.deps[d] ==> d in Freed(init)
    ensures Enabled(Run(s, init), Free(h, k))
  {
    RunOfFrees(s, init);
  }

  /** After a script of destructions, `h` may not be destroyed while a live
      object the script did not retire still depends on it. */
  lemma FreeBlocked(s: LedgerState, init: seq<Op>, h: Handle, k: Kind, d: Handle)
    requires forall j :: 0 <= j < |init| ==> init[j].Free?
    requires d in s.live && d in s.deps && h in s.deps[d] && d !in Freed(init)
    ensures !Enabled(Run(s, init), Free(h, k))
  {
    RunOfFrees(s, init);
  }

  /** A teardown order that may run: it destroys distinct live objects of the
      kinds it names, and every live object that depends on the `i`-th target
      is itself destroyed earlier, at position `order[d] < i`. */
  lemma {:induction false} TeardownRuns(s: LedgerState, ops: seq<Op>, order: map<Handle, nat>)
    requires forall k :: 0 <= k < |ops| ==> ops[k].Free?
    requires forall k :: 0 <= k < |ops| ==>
      ops[k].target in s.live && ops[k].target in s.kind && s.kind[ops[k].target] == ops[k].kind
    requires forall i, j :: 0 <= i < j < |ops| ==> ops[i].target != ops[j].target
    requires forall d, i :: d in s.live && d in s.deps && 0 <= i < |ops| && ops[i].target in s.deps[d] ==>
      d in order && order[d] < i && ops[order[d]].target == d
    ensures Runs(s, ops)
  {
    if ops != [] {
      var n := |ops| - 1;
      var init := ops[..n];
      var last := ops[n];
      forall i | 0 <= i < n
        ensures init[i] == ops[i]
      {
      }
      TeardownRuns(s, init, order);
      forall d | d in s.live && d in s.deps && last.target in s.deps[d]
        ensures d in Freed(init)
      {
        var j := order[d];
        assert init[j].target == d;
      }
      FreeAfterFrees(s, init, last.target, last.kind);
      assert ops == init + [last];
      RunsAppend(s, init, [last]);
      assert [last][..0] == [];
    }
  }

  class Ledger {
    /** The objects the driver knows about now. */
    var state: LedgerState

    constructor ()
      ensures state == EMPTY_LEDGER
    {
      state := LedgerState({}, map[], map[], 1, []);
    }

    /** The driver creates an object of kind `k` that refers to the live objects `on`. */
    method Create(k: Kind, on: set<Handle>) returns (h: Handle)
      requires Enabled(state, Make(k, on))
      modifies this
      ensures state == Step(old(state), Make(k, on))
      ensures h == old(state.next)
    {
      h := state.next;
      state := LedgerState(state.live + {h}, state.kind[h := k], state.deps[h := on], h + 1,
                           state.log + [Created(h, k)]);
    }

    /** Live object `h` comes to refer to the live objects `on` as well. */
    method Depend(h: Handle, on: set<Handle>)
      requires Enabled(state, Link(h, on))
      modifies this
      ensures state == Step(old(state), Link(h, on))
    {
      state := state.(deps := state.deps[h := state.deps[h] + on]);
    }

    /** The driver destroys live object `h`, a `k`, which no live object depends on. */
    method Destroy(h: Handle, k: Kind)
      requires Enabled(state, Free(h, k))
      modifies this
      ensures state == Step(old(state), Free(h, k))
    {
      state := state.(live := state.live - {h}, log := state.log + [Destroyed(h, k)]);
    }
  }
}
