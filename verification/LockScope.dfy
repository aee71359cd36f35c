/**
 At-least-once delivery: the lock. As long as no handler outlives its key, the
 unconditional `DEL` in the `finally` block only ever removes the handler's own
 key, and one handler at a time is between acquire and release.
 */
module LockScope {
  import opened Domain
  import opened Protocol
  import opened ProtocolTables

  predicate OneHolder(c: Cell) {
    forall i, k :: 0 <= i < k < |c.handlers| ==> !(Holds(c.handlers[i]) && Holds(c.handlers[k]))
  }

  predicate HoldersOwnKey(c: Cell, now: Time) {
    forall i :: 0 <= i < |c.handlers| && Holds(c.handlers[i]) ==>
      c.lock == Some(c.handlers[i].deadline) && now < c.handlers[i].deadline
  }

  predicate HoldsOrDied(c: Cell, k: int) {
    0 <= k < |c.handlers| && (Holds(c.handlers[k]) || (c.handlers[k].Ended? && c.handlers[k].ending.Died?))
  }

  /** A key in the store belongs to a holder or was left behind by a death. */
  ghost predicate KeyExplained(c: Cell) {
    c.lock.Some? ==> exists k :: HoldsOrDied(c, k)
  }

  ghost predicate LockInv(c: Cell, now: Time) {
    OneHolder(c) && HoldersOwnKey(c, now) && KeyExplained(c)
  }

  lemma HoldersAreWriters(c: Cell)
    requires OneHolder(c)
    ensures OneWriter(c)
  {
  }

  lemma StepKeepsScope(c: Cell, now: Time, i: nat)
    requires OneHolder(c) && HoldersOwnKey(c, now) && i < |c.handlers|
    ensures OneHolder(AdvanceHandler(c, now, i)) && HoldersOwnKey(AdvanceHandler(c, now, i), now)
  {
    var c' := AdvanceHandler(c, now, i);
    assert forall k :: 0 <= k < |c.handlers| && k != i ==> c'.handlers[k] == c.handlers[k];
  }

  /** A handler that stops lets go of the lock or keeps its place in it. */
  lemma StopKeepsScope(c: Cell, now: Time, i: nat, h: Handler)
    requires OneHolder(c) && HoldersOwnKey(c, now) && i < |c.handlers|
    requires Holds(h) ==> Holds(c.handlers[i]) && h.deadline == c.handlers[i].deadline
    ensures OneHolder(c.(handlers := c.handlers[i := h])) && HoldersOwnKey(c.(handlers := c.handlers[i := h]), now)
  {
  }

  lemma ActKeepsScope(c: Cell, now: Time, a: Action)
    requires OneHolder(c) && HoldersOwnKey(c, now)
    ensures OneHolder(Act(c, now, a)) && HoldersOwnKey(Act(c, now, a), now)
  {
    match a
    case Step(i) => if i < |c.handlers| { StepKeepsScope(c, now, i); }
    case Throw(i) => if i < |c.handlers| { StopKeepsScope(c, now, i, ThrowHandler(c.handlers[i])); }
    case Die(i) => if i < |c.handlers| { StopKeepsScope(c, now, i, KillHandler(c.handlers[i])); }
    case _ => assert forall k :: 0 <= k < |c.handlers| ==> Act(c, now, a).handlers[k] == c.handlers[k];
  }

  lemma StepKeepsKeyExplained(c: Cell, now: Time, i: nat)
    requires KeyExplained(c) && i < |c.handlers|
    ensures KeyExplained(AdvanceHandler(c, now, i))
  {
    var c' := AdvanceHandler(c, now, i);
    if c'.lock.Some? {
      var k :| c'.lock == c.lock ==> HoldsOrDied(c, k);
      assert HoldsOrDied(c', if c'.lock == c.lock then k else i);
    }
  }

  lemma ActKeepsKeyExplained(c: Cell, now: Time, a: Action)
    requires KeyExplained(c)
    ensures KeyExplained(Act(c, now, a))
  {
    if a.Step? {
      if a.handler < |c.handlers| { StepKeepsKeyExplained(c, now, a.handler); }
    } else if c.lock.Some? {
      var k :| HoldsOrDied(c, k);
      assert HoldsOrDied(Act(c, now, a), k);
    }
  }

  ghost predicate SystemInv(s: System) {
    forall j :: 0 <= j < |s.cells| ==> LockInv(s.cells[j], s.now)
  }

  lemma NextKeepsLock(s: System, l: Label)
    requires SystemInv(s) && AtLeastOnceLabel(s, l)
    ensures SystemInv(Next(s, l))
  {
    match l
    case Create(_, _) =>
    case Tick(d) =>
      forall j | 0 <= j < |s.cells|
        ensures LockInv(s.cells[j], s.now + d)
      {
        assert BeforeDeadlines(s.cells[j], s.now + d);
      }
    case OnJob(j, a) =>
      if j < |s.cells| {
        ActKeepsScope(s.cells[j], s.now, a);
        ActKeepsKeyExplained(s.cells[j], s.now, a);
      }
  }

  lemma {:induction false} RunKeepsLock(ls: seq<Label>)
    requires AtLeastOnce(ls)
    ensures SystemInv(Run(ls))
  {
    if ls != [] {
      RunKeepsLock(ls[..|ls| - 1]);
      NextKeepsLock(Run(ls[..|ls| - 1]), ls[|ls| - 1]);
    }
  }

  // ------------------------------------------------------------- main results

  /** At most one handler per job is inside the lock, and its own key is in force throughout. */
  lemma {:induction false} TimedMutualExclusion(ls: seq<Label>, j: JobId)
    requires AtLeastOnce(ls) && j < |Run(ls).cells|
    ensures OneHolder(Run(ls).cells[j]) && HoldersOwnKey(Run(ls).cells[j], Run(ls).now)
  {
    RunKeepsLock(ls);
    assert LockInv(Run(ls).cells[j], Run(ls).now);
  }

  /** A release deletes the releasing handler's own key, never another's. */
  lemma ReleaseDeletesOwnKey(ls: seq<Label>, j: JobId, i: nat)
    requires AtLeastOnce(ls) && j < |Run(ls).cells|
    requires i < |Run(ls).cells[j].handlers| && Run(ls).cells[j].handlers[i].Releasing?
    ensures var c := Run(ls).cells[j];
      && c.lock == Some(c.handlers[i].deadline)
      && AdvanceHandler(c, Run(ls).now, i).lock == None
      && forall k :: 0 <= k < |c.handlers| ==> !Holds(AdvanceHandler(c, Run(ls).now, i).handlers[k])
  {
    TimedMutualExclusion(ls, j);
    var c := Run(ls).cells[j];
    forall k | 0 <= k < |c.handlers|
      ensures !Holds(AdvanceHandler(c, Run(ls).now, i).handlers[k])
    {
      if k < i || i < k { assert !Holds(c.handlers[k]); }
    }
  }

  /** A handler leaves the lock by its release, which frees the key, or by dying, which leaves the key behind. */
  lemma {:induction false} OnlyDeathsLeaveTheKey(ls: seq<Label>, j: JobId, i: nat, a: Action)
    requires AtLeastOnce(ls) && j < |Run(ls).cells|
    requires i < |Run(ls).cells[j].handlers| && Holds(Run(ls).cells[j].handlers[i])
    ensures var c, c' := Run(ls).cells[j], Act(Run(ls).cells[j], Run(ls).now, a);
      && i < |c'.handlers|
      && (if Holds(c'.handlers[i]) then c'.lock == Some(c.handlers[i].deadline)
          else (a == Step(i) && c.handlers[i].Releasing? && c'.lock == None)
               || (a == Die(i) && c'.lock == Some(c.handlers[i].deadline)))
  {
    TimedMutualExclusion(ls, j);
    LeavesLock(Run(ls).cells[j], Run(ls).now, i, a);
  }

  lemma LeavesLock(c: Cell, now: Time, i: nat, a: Action)
    requires OneHolder(c) && HoldersOwnKey(c, now) && i < |c.handlers| && Holds(c.handlers[i])
    ensures var c' := Act(c, now, a);
      && i < |c'.handlers|
      && (if Holds(c'.handlers[i]) then c'.lock == Some(c.handlers[i].deadline)
          else (a == Step(i) && c.handlers[i].Releasing? && c'.lock == None)
               || (a == Die(i) && c'.lock == Some(c.handlers[i].deadline)))
  {
    if a.Step? && a.handler < |c.handlers| {
      var k := a.handler;
      assert k < i ==> !Holds(c.handlers[k]);
      assert i < k ==> !Holds(c.handlers[k]);
    }
  }

  /** Where no handler is inside the lock and none has died, there is no key. */
  lemma {:induction false} NoKeyWithoutAHolder(ls: seq<Label>, j: JobId)
    requires AtLeastOnce(ls) && j < |Run(ls).cells|
    requires forall k :: 0 <= k < |Run(ls).cells[j].handlers| ==> !HoldsOrDied(Run(ls).cells[j], k)
    ensures Run(ls).cells[j].lock == None
  {
    RunKeepsLock(ls);
    assert LockInv(Run(ls).cells[j], Run(ls).now);
  }

  // -------------------------------------------- any environment: the exact condition

  /** The key in the store is the holder's own, expired or not. */
  predicate HoldersKeyStored(c: Cell) {
    forall i :: 0 <= i < |c.handlers| && Holds(c.handlers[i]) ==> c.lock == Some(c.handlers[i].deadline)
  }

  /** The step is a delivery that asks for the lock after a handler inside it outlived its key. */
  predicate Overtakes(c: Cell, now: Time, a: Action) {
    && a.Step? && a.handler < |c.handlers| && c.handlers[a.handler].Delivered?
    && exists i :: 0 <= i < |c.handlers| && Holds(c.handlers[i]) && c.handlers[i].deadline <= now
  }

  lemma StepBreaksExclusion(c: Cell, now: Time, a: Action)
    requires OneHolder(c) && HoldersKeyStored(c)
    ensures OneHolder(Act(c, now, a)) <==> !Overtakes(c, now, a)
    ensures OneHolder(Act(c, now, a)) ==> HoldersKeyStored(Act(c, now, a))
  {
    var c' := Act(c, now, a);
    if Overtakes(c, now, a) {
      var i :| 0 <= i < |c.handlers| && Holds(c.handlers[i]) && c.handlers[i].deadline <= now;
      assert Holds(c'.handlers[i]) && Holds(c'.handlers[a.handler]) && i != a.handler;
    } else if a.Step? && a.handler < |c.handlers| {
      OrderlyStep(c, now, a.handler);
    } else {
      StoppedStayOut(c, c');
    }
  }

  lemma OrderlyStep(c: Cell, now: Time, k: nat)
    requires OneHolder(c) && HoldersKeyStored(c) && k < |c.handlers| && !Overtakes(c, now, Step(k))
    ensures OneHolder(AdvanceHandler(c, now, k)) && HoldersKeyStored(AdvanceHandler(c, now, k))
  {
    var c' := AdvanceHandler(c, now, k);
    assert forall i :: 0 <= i < |c.handlers| && i != k ==> c'.handlers[i] == c.handlers[i];
  }

  /** No handler enters the lock and none that stays in it changes its key. */
  lemma StoppedStayOut(c: Cell, c': Cell)
    requires OneHolder(c) && HoldersKeyStored(c) && c'.lock == c.lock && |c.handlers| <= |c'.handlers|
    requires forall i :: 0 <= i < |c.handlers| && Holds(c'.handlers[i]) ==>
      Holds(c.handlers[i]) && c'.handlers[i].deadline == c.handlers[i].deadline
    requires forall i :: |c.handlers| <= i < |c'.handlers| ==> !Holds(c'.handlers[i])
    ensures OneHolder(c') && HoldersKeyStored(c')
  {
  }

  /** In every state of the run so far at most one handler of job `j` was inside the lock. */
  predicate ExclusiveSoFar(ls: seq<Label>, j: JobId) {
    && (ls != [] ==> ExclusiveSoFar(ls[..|ls| - 1], j))
    && (j < |Run(ls).cells| ==> OneHolder(Run(ls).cells[j]))
  }

  predicate NeverOvertaken(ls: seq<Label>, j: JobId) {
    ls == [] || (NeverOvertaken(ls[..|ls| - 1], j) && !OvertakingLabel(Run(ls[..|ls| - 1]), ls[|ls| - 1], j))
  }

  predicate OvertakingLabel(s: System, l: Label, j: JobId) {
    l.OnJob? && l.job == j && j < |s.cells| && Overtakes(s.cells[j], s.now, l.action)
  }

  /**
   In any run of any environment exclusion holds throughout if and only if no
   delivery ever asks for the lock after a handler inside it outlived its key;
   until then the key in the store is the holder's own.
   */
  lemma {:induction false} ExclusionHoldsExactly(ls: seq<Label>, j: JobId)
    ensures ExclusiveSoFar(ls, j) <==> NeverOvertaken(ls, j)
    ensures ExclusiveSoFar(ls, j) && j < |Run(ls).cells| ==> HoldersKeyStored(Run(ls).cells[j])
  {
    if ls != [] {
      var before, l := ls[..|ls| - 1], ls[|ls| - 1];
      ExclusionHoldsExactly(before, j);
      if ExclusiveSoFar(before, j) { NextBreaksExclusion(Run(before), l, Run(ls), j); }
    }
  }

  lemma NextBreaksExclusion(s: System, l: Label, s': System, j: JobId)
    requires s' == Next(s, l)
    requires j < |s.cells| ==> OneHolder(s.cells[j]) && HoldersKeyStored(s.cells[j])
    ensures (j < |s'.cells| ==> OneHolder(s'.cells[j])) <==> !OvertakingLabel(s, l, j)
    ensures j < |s'.cells| && OneHolder(s'.cells[j]) ==> HoldersKeyStored(s'.cells[j])
  {
    if l.OnJob? && l.job == j && j < |s.cells| { StepBreaksExclusion(s.cells[j], s.now, l.action); }
  }
}
