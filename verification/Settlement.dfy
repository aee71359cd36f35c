/**
 Every run: how a message is settled. The consumer acknowledges a delivery exactly
 when `process` returned, rejects it exactly when `process` threw, and leaves it
 unsettled exactly when the process died.
 */
module Settlement {
  import opened Domain
  import opened Protocol
  import opened ProtocolTables
  import opened SoundRuns

  /** The step makes `process` throw: an exception at an await, or the UNIQUE constraint at the attempt insert. */
  predicate ThrowsAt(c: Cell, a: Action, i: nat) {
    && i < |c.handlers| && !c.handlers[i].Releasing? && !c.handlers[i].Ended?
    && (a == Throw(i) || (a == Step(i) && c.handlers[i].Running? && c.handlers[i].run == InsertAttempt
                          && c.handlers[i].job.attemptCount in c.attempts))
  }

  predicate DiesAt(c: Cell, a: Action, i: nat) {
    a == Die(i) && i < |c.handlers| && !c.handlers[i].Ended?
  }

  /** What has happened to delivery `i` of job `j` so far. */
  datatype Fate = Fate(threw: bool, died: bool)

  function FateOf(ls: seq<Label>, j: JobId, i: nat): Fate {
    if ls == [] then Fate(false, false)
    else
      var before, s, l := FateOf(ls[..|ls| - 1], j, i), Run(ls[..|ls| - 1]), ls[|ls| - 1];
      if l.OnJob? && l.job == j && j < |s.cells|
      then Fate(before.threw || ThrowsAt(s.cells[j], l.action, i), before.died || DiesAt(s.cells[j], l.action, i))
      else before
  }

  predicate Settled(h: Handler, fate: Fate) {
    match h
    case Ended(_, Died) => fate.died
    case Ended(_, Acked) => !fate.died && !fate.threw
    case Ended(_, Nacked) => !fate.died && fate.threw
    case Releasing(_, _, threw) => !fate.died && threw == fate.threw
    case _ => fate == Fate(false, false)
  }

  ghost predicate CellSettled(ls: seq<Label>, j: JobId, c: Cell) {
    && (forall i: nat :: i < |c.handlers| ==> Settled(c.handlers[i], FateOf(ls, j, i)))
    && (forall i: nat :: i >= |c.handlers| ==> FateOf(ls, j, i) == Fate(false, false))
  }

  /** One await of the delivery itself. */
  lemma AwaitSettles(c: Cell, now: Time, i: nat, fate: Fate, c': Cell)
    requires i < |c.handlers| && c' == AdvanceHandler(c, now, i) && Settled(c.handlers[i], fate)
    ensures |c'.handlers| == |c.handlers|
    ensures Settled(c'.handlers[i], Fate(fate.threw || ThrowsAt(c, Step(i), i), fate.died))
  {
  }

  lemma OthersAwait(c: Cell, now: Time, k: nat, i: nat, c': Cell)
    requires k < |c.handlers| && c' == AdvanceHandler(c, now, k) && i < |c.handlers| && i != k
    ensures |c'.handlers| == |c.handlers| && c'.handlers[i] == c.handlers[i]
  {
  }

  lemma StepSettles(c: Cell, now: Time, a: Action, i: nat, fate: Fate, c': Cell)
    requires c' == Act(c, now, a) && i < |c.handlers| && Settled(c.handlers[i], fate)
    ensures i < |c'.handlers|
    ensures Settled(c'.handlers[i], Fate(fate.threw || ThrowsAt(c, a, i), fate.died || DiesAt(c, a, i)))
  {
    if a.Step? {
      if a.handler == i { AwaitSettles(c, now, i, fate, c'); }
      else if a.handler < |c.handlers| { OthersAwait(c, now, a.handler, i, c'); }
    } else {
      OtherActSettles(c, now, a, i, fate, c');
    }
  }

  lemma OtherActSettles(c: Cell, now: Time, a: Action, i: nat, fate: Fate, c': Cell)
    requires c' == Act(c, now, a) && i < |c.handlers| && Settled(c.handlers[i], fate) && !a.Step?
    ensures i < |c'.handlers|
    ensures Settled(c'.handlers[i], Fate(fate.threw || ThrowsAt(c, a, i), fate.died || DiesAt(c, a, i)))
  {
  }

  lemma NewDeliveries(c: Cell, now: Time, a: Action, c': Cell)
    requires c' == Act(c, now, a)
    ensures |c.handlers| <= |c'.handlers|
    ensures forall i :: |c.handlers| <= i < |c'.handlers| ==> c'.handlers[i] == Delivered
  {
  }

  lemma LabelSettles(ls: seq<Label>, j: JobId)
    requires ls != [] && j < |Run(ls).cells|
    requires var before := ls[..|ls| - 1];
      if j < |Run(before).cells| then CellSettled(before, j, Run(before).cells[j])
      else forall i :: FateOf(before, j, i) == Fate(false, false)
    ensures CellSettled(ls, j, Run(ls).cells[j])
  {
    var before, l := ls[..|ls| - 1], ls[|ls| - 1];
    var s, c' := Run(before), Run(ls).cells[j];
    if j < |s.cells| && l.OnJob? && l.job == j {
      var c := s.cells[j];
      NewDeliveries(c, s.now, l.action, c');
      forall i: nat | i < |c'.handlers| ensures Settled(c'.handlers[i], FateOf(ls, j, i)) {
        if i < |c.handlers| { StepSettles(c, s.now, l.action, i, FateOf(before, j, i), c'); }
      }
    }
  }

  lemma {:induction false} RunsSettle(ls: seq<Label>, j: JobId)
    ensures if j < |Run(ls).cells| then CellSettled(ls, j, Run(ls).cells[j])
            else forall i :: FateOf(ls, j, i) == Fate(false, false)
  {
    if ls != [] {
      RunsSettle(ls[..|ls| - 1], j);
      if j < |Run(ls).cells| { LabelSettles(ls, j); }
    }
  }

  /** In every run of any environment a delivery that has ended was settled as its course demands. */
  lemma SettledByItsCourse(ls: seq<Label>, j: JobId, i: nat)
    requires j < |Run(ls).cells| && i < |Run(ls).cells[j].handlers| && Run(ls).cells[j].handlers[i].Ended?
    ensures var ending, fate := Run(ls).cells[j].handlers[i].ending, FateOf(ls, j, i);
      && (ending == Died <==> fate.died)
      && (ending == Nacked <==> !fate.died && fate.threw)
      && (ending == Acked <==> !fate.died && !fate.threw)
  {
    RunsSettle(ls, j);
    assert Settled(Run(ls).cells[j].handlers[i], FateOf(ls, j, i));
  }

  /** In sound runs only an exception rejects a message: the attempt insert never conflicts. */
  lemma {:induction false} OnlyExceptionsReject(ls: seq<Label>, j: JobId, i: nat)
    requires Sound(ls) && FateOf(ls, j, i).threw
    ensures exists k: nat :: k < |ls| && ls[k] == OnJob(j, Throw(i))
  {
    var before, l := ls[..|ls| - 1], ls[|ls| - 1];
    SoundPrefix(ls);
    if FateOf(before, j, i).threw {
      OnlyExceptionsReject(before, j, i);
      var k: nat :| k < |before| && before[k] == OnJob(j, Throw(i));
      assert ls[k] == OnJob(j, Throw(i));
    } else {
      var c := Run(before).cells[j];
      SoundRuns.RunKeepsTables(before);
      assert TablesInv(c) && Coherent(c, c.handlers[i]);
      assert ls[|ls| - 1] == OnJob(j, Throw(i));
    }
  }
}
