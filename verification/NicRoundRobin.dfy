/** Choosing a network interface: a shared index advanced by compare-and-swap that may fail without
    reason, and the attempts to bind, starting from the interface the call read. */
module NicRoundRobin {
  import opened Types
  import opened Modulo

  /* ------------------------------- the step system ------------------------------------------ */

  datatype Pc =
    | Loading
    | Swapping(current: nat, next: nat)
    | Claimed(turn: nat)

  /** `start` is the index the call read and will bind from; `seen` is which value of the index
      that was (a ghost value). */
  datatype Call = Call(pc: Pc, start: nat, seen: nat)

  /** `history` is every value the index has had, the last one being its value; `turns` is which
      call made each change. The program keeps the last value only. */
  datatype State = State(n: nat, history: seq<nat>, turns: seq<nat>, calls: map<nat, Call>)

  /** A relaxed load, and a failed swap, may see any earlier value of the index. */
  datatype Step = Begin(w: nat) | Act(w: nat, seen: nat, spurious: bool)

  function Initial(n: nat): State {
    State(n, [0], [], map[])
  }

  predicate Enabled(s: State, st: Step) {
    match st
    case Begin(w) => w !in s.calls && s.n > 0
    case Act(w, seen, _) => w in s.calls && !s.calls[w].pc.Claimed? && seen < |s.history|
  }

  function Next(i: nat, n: nat): nat {
    if i + 1 < n then i + 1 else 0
  }

  function Index(s: State): nat {
    if s.history == [] then 0 else s.history[|s.history| - 1]
  }

  function Set(s: State, w: nat, c: Call): State {
    s.(calls := s.calls[w := c])
  }

  function DoLoad(s: State, w: nat, seen: nat): State
    requires seen < |s.history|
  {
    var start := s.history[seen];
    Set(s, w, Call(Swapping(start, Next(start, s.n)), start, seen))
  }

  function DoSwap(s: State, w: nat, seen: nat, spurious: bool): State
    requires w in s.calls && s.calls[w].pc.Swapping? && seen < |s.history|
  {
    var c := s.calls[w];
    if Index(s) == c.pc.current && !spurious then
      Set(s.(history := s.history + [c.pc.next], turns := s.turns + [w]), w, c.(pc := Claimed(|s.turns|)))
    else
      Set(s, w, c.(pc := Swapping(s.history[seen], Next(s.history[seen], s.n))))
  }

  function Apply(s: State, st: Step): State
    requires Enabled(s, st)
  {
    match st
    case Begin(w) => Set(s, w, Call(Loading, 0, 0))
    case Act(w, seen, spurious) =>
      if s.calls[w].pc.Loading? then DoLoad(s, w, seen) else DoSwap(s, w, seen, spurious)
  }

  ghost predicate Run(s: State, steps: seq<Step>, t: State)
    decreases |steps|
  {
    if steps == [] then s == t
    else Enabled(s, steps[0]) && Run(Apply(s, steps[0]), steps[1..], t)
  }

  ghost predicate Reaches(s: State, t: State) {
    exists steps :: Run(s, steps, t)
  }

  ghost predicate Reachable(s: State) {
    Reaches(Initial(s.n), s)
  }

  lemma ReachesSelf(s: State)
    ensures Reaches(s, s)
  {
    assert Run(s, [], s);
  }

  lemma {:induction false} RunAppend(s: State, steps: seq<Step>, t: State, st: Step)
    requires Run(s, steps, t) && Enabled(t, st)
    ensures Run(s, steps + [st], Apply(t, st))
    decreases |steps|
  {
    hide Enabled, Apply;
    if steps == [] {
      assert [] + [st] == [st] && [st][1..] == [];
    } else {
      RunAppend(Apply(s, steps[0]), steps[1..], t, st);
      assert (steps + [st])[1..] == steps[1..] + [st];
    }
  }

  lemma ReachesStep(s: State, t: State, st: Step)
    requires Reaches(s, t) && Enabled(t, st)
    ensures Reaches(s, Apply(t, st)) && Apply(t, st).n == t.n
  {
    hide Enabled, Run;
    var steps :| Run(s, steps, t);
    RunAppend(s, steps, t, st);
  }

  /* ------------------------------- the invariant -------------------------------------------- */

  predicate CallOk(s: State, w: nat)
    requires w in s.calls
  {
    var c := s.calls[w];
    match c.pc
    case Loading => true
    case Swapping(current, next) =>
      && current < s.n && next == Next(current, s.n)
      && c.seen < |s.history| && c.start == s.history[c.seen]
    case Claimed(turn) =>
      && turn < |s.turns| && s.turns[turn] == w
      && c.seen < |s.history| && c.start == s.history[c.seen]
  }

  predicate TurnOk(s: State, k: nat)
    requires k < |s.turns|
  {
    s.turns[k] in s.calls && s.calls[s.turns[k]].pc == Claimed(k)
  }

  predicate Inv(s: State) {
    && |s.history| == |s.turns| + 1
    && (s.n > 0 ==> forall k: nat :: k < |s.history| ==> s.history[k] == k % s.n)
    && (s.n == 0 ==> s.history == [0] && s.calls == map[])
    && (forall w :: w in s.calls ==> CallOk(s, w))
    && (forall k: nat :: k < |s.turns| ==> TurnOk(s, k))
  }

  lemma NextTurn(k: nat, n: nat)
    requires n > 0
    ensures Next(k % n, n) == (k + 1) % n
  {
    var q, r := k / n, k % n;
    assert k + 1 == q * n + (r + 1);
    if r + 1 < n {
      DivModUnique(q, r + 1, n);
    } else {
      assert (q + 1) * n == q * n + n;
      DivModUnique(q + 1, 0, n);
    }
  }

  lemma StepKeeps(s: State, st: Step)
    requires Inv(s) && Enabled(s, st)
    ensures Inv(Apply(s, st))
  {
    var t := Apply(s, st);
    assert t.n == s.n && s.n > 0;
    hide Next;
    forall k: nat | k < |t.history| ensures t.history[k] == k % t.n {
      if k == |s.history| {
        assert CallOk(s, st.w);
        NextTurn(|s.turns|, s.n);
      }
    }
    forall w | w in t.calls ensures CallOk(t, w) {
      assert w in s.calls ==> CallOk(s, w);
    }
    forall k: nat | k < |t.turns| ensures TurnOk(t, k) {
      if k < |s.turns| { assert TurnOk(s, k); }
    }
  }

  lemma {:induction false} RunKeeps(s: State, steps: seq<Step>, t: State)
    requires Inv(s) && Run(s, steps, t)
    ensures Inv(t) && t.n == s.n
    decreases |steps|
  {
    hide Inv;
    if steps != [] {
      StepKeeps(s, steps[0]);
      RunKeeps(Apply(s, steps[0]), steps[1..], t);
    }
  }

  lemma ReachableInv(s: State)
    requires Reachable(s)
    ensures Inv(s)
  {
    var steps :| Run(Initial(s.n), steps, s);
    RunKeeps(Initial(s.n), steps, s);
  }

  /* ------------------------------- theorems ------------------------------------------------- */

  /** The index stays within the list and is the number of successful swaps modulo its length. */
  lemma IndexCountsTurns(s: State)
    requires Reachable(s) && s.n > 0
    ensures Index(s) < s.n && Index(s) == |s.turns| % s.n
  {
    ReachableInv(s);
  }

  predicate HasTurn(s: State, w: nat) {
    w in s.calls && s.calls[w].pc.Claimed?
  }

  /** Every call that leaves the swap loop has made exactly one change, its turn, which no other
      call has, and every change is the turn of a call. */
  lemma OneTurnEach(s: State, k: nat)
    requires Reachable(s) && k < |s.turns|
    ensures HasTurn(s, s.turns[k]) && s.calls[s.turns[k]].pc.turn == k
    ensures forall w :: HasTurn(s, w) && s.calls[w].pc.turn == k ==> w == s.turns[k]
  {
    ReachableInv(s);
    assert TurnOk(s, k);
    assert forall w :: HasTurn(s, w) ==> CallOk(s, w);
  }

  /** The interface whose turn it was when the call's swap succeeded. */
  function TurnOf(s: State, w: nat): nat
    requires HasTurn(s, w) && s.n > 0
  {
    s.calls[w].pc.turn % s.n
  }

  /** A call binds from the interface it read first, even when other calls moved the index before
      its swap succeeded. It starts at the interface of its own turn exactly when the number of
      turns that went by since the value it read is a multiple of the list's length. */
  lemma StartsAtItsTurn(s: State, w: nat)
    requires Reachable(s) && HasTurn(s, w)
    ensures s.n > 0
    ensures s.calls[w].start == s.calls[w].seen % s.n
    ensures s.calls[w].start == TurnOf(s, w) <==> (s.calls[w].pc.turn - s.calls[w].seen) % s.n == 0
  {
    ReachableInv(s);
    assert CallOk(s, w);
    SameRemainder(s.calls[w].pc.turn, s.calls[w].seen, s.n);
  }

  /** Two calls can start at the same interface on neighbouring turns: both read the index before
      either swap, and the second one's first swap fails. */
  lemma NeighboursCanMeet(n: nat) returns (s: State)
    requires n > 1
    ensures Reachable(s) && s.n == n && HasTurn(s, 0) && HasTurn(s, 1)
    ensures s.calls[0].pc.turn == 0 && s.calls[1].pc.turn == 1
    ensures s.calls[0].start == s.calls[1].start == 0
  {
    var first := Initial(n);
    ReachesSelf(first);
    hide Run, Reaches;
    var s1 := Then(first, first, Begin(0));
    var s2 := Then(first, s1, Begin(1));
    var s3 := Then(first, s2, Act(0, 0, false));
    var s4 := Then(first, s3, Act(1, 0, false));
    var s5 := Then(first, s4, Act(0, 0, false));
    var s6 := Then(first, s5, Act(1, 1, false));
    s := Then(first, s6, Act(1, 1, false));
  }

  lemma Then(s: State, t: State, st: Step) returns (u: State)
    requires Reaches(s, t) && Enabled(t, st)
    ensures Reaches(s, u) && u == Apply(t, st)
  {
    ReachesStep(s, t, st);
    u := Apply(t, st);
  }

  /* ------------------------------- the bind loop -------------------------------------------- */

  function Attempt(start: nat, a: nat, n: nat): nat
    requires n > 0
  {
    (start + a) % n
  }

  /** The attempts visit the n interfaces, each once. */
  lemma AttemptsAreDistinct(start: nat, a: nat, b: nat, n: nat)
    requires a < b < n
    ensures Attempt(start, a, n) != Attempt(start, b, n)
  {
    SameRemainder(start + b, start + a, n);
    DivModUnique(0, b - a, n);
  }

  /** The attempts start at the index read and go up by one, wrapping at the end of the list. */
  lemma AttemptsGoUp(start: nat, a: nat, n: nat)
    requires start < n
    ensures Attempt(start, 0, n) == start
    ensures Attempt(start, a + 1, n) == if Attempt(start, a, n) == n - 1 then 0 else Attempt(start, a, n) + 1
  {
    DivModUnique(0, start, n);
    NextTurn(start + a, n);
  }

  /** Which attempt visits interface `i`. */
  lemma EveryInterfaceIsVisited(start: nat, i: nat, n: nat) returns (a: nat)
    requires i < n
    ensures a < n && Attempt(start, a, n) == i
  {
    a := (i - start) % n;
    assert a == (i - start) - ((i - start) / n) * n;
    SameRemainder(start + a, i, n);
    var q := (i - start) / n;
    assert start + a - i == (-q) * n;
    DivModUnique(-q, 0, n);
    DivModUnique(0, i, n);
  }

  /** `usable(i)` tells whether a socket can be made and bound to interface `i`. The result is the
      first usable interface in the order of the attempts; `None`, the fallback to an unbound
      socket, exactly when there is none. */
  ghost predicate IsFirstUsable(start: nat, n: nat, usable: nat -> bool, r: Option<nat>) {
    && (r.None? <==> forall i :: 0 <= i < n ==> !usable(i))
    && (r.Some? ==>
          && r.value < n && usable(r.value)
          && exists a: nat :: a < n && r.value == Attempt(start, a, n)
               && forall b: nat :: b < a ==> !usable(Attempt(start, b, n)))
  }

  method BindAny(start: nat, n: nat, usable: nat -> bool) returns (r: Option<nat>)
    ensures IsFirstUsable(start, n, usable, r)
  {
    var attempt := 0;
    while attempt < n
      invariant attempt <= n
      invariant n > 0 ==> forall b: nat :: b < attempt ==> !usable(Attempt(start, b, n))
    {
      var tryIndex := (start + attempt) % n;
      if usable(tryIndex) {
        assert tryIndex == Attempt(start, attempt, n);
        return Some(tryIndex);
      }
      attempt := attempt + 1;
    }
    forall i: nat | i < n ensures !usable(i) {
      var a := EveryInterfaceIsVisited(start, i, n);
    }
    return None;
  }

  /* ------------------------------- the callback --------------------------------------------- */

  /** What other calls do before each try of the swap, and what a failed try sees. */
  datatype Try = Try(others: seq<Step>, seen: nat, spurious: bool)

  function Others(s: State, w: nat, steps: seq<Step>): State
    decreases |steps|
  {
    if steps == [] then s
    else if steps[0].w != w && Enabled(s, steps[0]) then Others(Apply(s, steps[0]), w, steps[1..])
    else Others(s, w, steps[1..])
  }

  lemma {:induction false} OthersKeep(start: State, s: State, w: nat, steps: seq<Step>)
    requires Inv(s) && Reaches(start, s) && w in s.calls
    ensures var t := Others(s, w, steps);
            Inv(t) && Reaches(start, t) && w in t.calls && t.calls[w] == s.calls[w] && t.n == s.n
    decreases |steps|
  {
    hide Inv, Reaches;
    if steps != [] {
      if steps[0].w != w && Enabled(s, steps[0]) {
        StepKeeps(s, steps[0]);
        ReachesStep(start, s, steps[0]);
        OthersKeep(start, Apply(s, steps[0]), w, steps[1..]);
      } else {
        OthersKeep(start, s, w, steps[1..]);
      }
    }
  }

  function Begun(s: State, w: nat): State {
    Set(s, w, Call(Loading, 0, 0))
  }

  lemma NotEmpty(s: State)
    requires Inv(s)
    ensures |s.history| > 0 && Index(s) == s.history[|s.history| - 1]
  {
  }

  /** So every run of the others is one they can make. */
  lemma {:induction false} OthersCanRun(s: State, w: nat, steps: seq<Step>, t: State)
    requires Run(s, steps, t) && forall st :: st in steps ==> st.w != w
    ensures Others(s, w, steps) == t
    decreases |steps|
  {
    hide Enabled, Apply;
    if steps != [] {
      assert steps[0] in steps && forall st :: st in steps[1..] ==> st in steps;
      OthersCanRun(Apply(s, steps[0]), w, steps[1..], t);
    }
  }

  class MultiNic {
    var currentIndex: nat
    /** The state of the step system; its last index is the field above. */
    var world: State

    /** In step with the step system, on a run from `start`. */
    ghost predicate Valid(start: State)
      reads this
    {
      currentIndex == Index(world) && Inv(world) && Reaches(start, world) && start.n == world.n
    }

    constructor (n: nat)
      ensures Valid(Initial(n)) && world == Initial(n)
    {
      currentIndex, world := 0, Initial(n);
      new;
      ReachesSelf(world);
    }

    method Interfere(w: nat, steps: seq<Step>, ghost start: State)
      requires Valid(start) && w in world.calls
      modifies this
      ensures Valid(start) && world == Others(old(world), w, steps)
      ensures w in world.calls && world.calls[w] == old(world.calls[w])
    {
      hide Inv, Reaches;
      OthersKeep(start, world, w, steps);
      world := Others(world, w, steps);
      currentIndex := Index(world);
    }

    /** The call's own step, taken in the step system after the index has changed accordingly. */
    method Advance(st: Step, ghost start: State)
      requires Inv(world) && Reaches(start, world) && start.n == world.n && Enabled(world, st)
      requires currentIndex == Index(Apply(world, st))
      modifies `world
      ensures Valid(start) && world == Apply(old(world), st)
    {
      hide Inv, Reaches, Enabled, Apply;
      StepKeeps(world, st);
      ReachesStep(start, world, st);
      world := Apply(world, st);
    }

    /** A relaxed load: the value at position `seen`, or the latest one. */
    method Load(seen: nat) returns (value: nat, at: nat)
      requires Inv(world)
      ensures at < |world.history| && value == world.history[at]
      ensures at == if seen < |world.history| then seen else |world.history| - 1
    {
      at := if seen < |world.history| then seen else |world.history| - 1;
      value := world.history[at];
    }

    /** `compare_exchange_weak`: on failure `actual` is the value it saw. */
    method CompareExchangeWeak(w: nat, current: nat, next: nat, seen: nat, spurious: bool, ghost start: State)
      returns (ok: bool, actual: nat)
      requires Valid(start) && w in world.calls && world.calls[w].pc == Swapping(current, next)
      modifies this
      ensures Valid(start)
      ensures ok <==> old(currentIndex) == current && !spurious
      ensures ok ==> world.history == old(world.history) + [next] && currentIndex == next
      ensures !ok ==>
                world.history == old(world.history) && currentIndex == old(currentIndex) && actual in world.history
      ensures !ok && seen + 1 >= |old(world).history| ==> actual == currentIndex
      ensures w in world.calls
      ensures world.calls[w]
              == old(world.calls[w]).(pc := if ok then Claimed(|old(world).turns|)
                                            else Swapping(actual, Next(actual, world.n)))
    {
      hide Inv, Next, Reaches;
      var at;
      actual, at := Load(seen);
      ok := currentIndex == current && !spurious;
      currentIndex := if ok then next else currentIndex;
      Advance(Act(w, at, spurious), start);
    }

    /** The part of the callback on the shared index: `tries` are the tries of the swap that may
        fail; the last one is alone. */
    method TakeTurn(w: nat, before: seq<Step>, seen: nat, tries: seq<Try>, ghost start: State) returns (startIndex: nat)
      requires Valid(start) && w !in world.calls && world.n > 0
      modifies this
      ensures Valid(start)
      ensures HasTurn(world, w) && startIndex == world.calls[w].start < world.n
      ensures var values := Others(Begun(old(world), w), w, before).history;
              |values| > 0 && startIndex == values[if seen < |values| then seen else |values| - 1]
      ensures before == [] && seen + 1 >= |old(world).history| ==> startIndex == old(currentIndex)
    {
      hide Inv, Next, Index, Reaches;
      NotEmpty(world);
      SameIndex(world, Apply(world, Begin(w)));
      Advance(Begin(w), start);
      Interfere(w, before, start);
      var at;
      startIndex, at := Load(seen);
      var next := Next(startIndex, world.n);
      SameIndex(world, Apply(world, Act(w, at, false)));
      Advance(Act(w, at, false), start);
      var current := startIndex;
      var k := 0;
      while true
        invariant 0 <= k <= |tries| && Valid(start)
        invariant w in world.calls && world.calls[w].start == startIndex
        invariant world.calls[w].pc == Swapping(current, next)
        decreases |tries| + 1 - k
      {
        var ok;
        if k == |tries| {
          // alone at last: one look at the index, one swap
          ok, current := CompareExchangeWeak(w, current, next, |world.history|, false, start);
          if !ok {
            ok, current := CompareExchangeWeak(w, current, Next(current, world.n), |world.history|, false, start);
          }
          break;
        }
        Interfere(w, tries[k].others, start);
        ok, current := CompareExchangeWeak(w, current, next, tries[k].seen, tries[k].spurious, start);
        if ok { break; }
        next := Next(current, world.n);
        k := k + 1;
      }
      StartInRange(world, w);
    }

    /** The whole callback: the interface it binds to; `None` is the default socket. Whatever the
        other calls do, the index moves along a run of the step system. */
    method MultiNicSocketCallback(w: nat, forConnection: bool, before: seq<Step>, seen: nat, tries: seq<Try>,
                                  usable: nat -> bool)
      returns (r: Option<nat>)
      requires Valid(world) && w !in world.calls
      modifies this
      ensures Valid(old(world))
      ensures !forConnection || world.n == 0 ==> r == None && world == old(world) && currentIndex == old(currentIndex)
      ensures forConnection && world.n > 0 ==>
                && HasTurn(world, w)
                && IsFirstUsable(world.calls[w].start, world.n, usable, r)
    {
      hide Inv, Reaches, IsFirstUsable;
      if !forConnection || world.n == 0 {
        return None;
      }
      var startIndex := TakeTurn(w, before, seen, tries, world);
      r := BindAny(startIndex, world.n, usable);
    }
  }

  lemma SameIndex(s: State, t: State)
    requires s.history == t.history
    ensures Index(s) == Index(t)
  {
  }

  lemma StartInRange(s: State, w: nat)
    requires Inv(s) && HasTurn(s, w)
    ensures s.calls[w].start < s.n
  {
    assert CallOk(s, w);
  }
}
