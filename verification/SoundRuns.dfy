/**
 Results that hold in both environments: attempt numbering, the rows behind
 every outcome, and what no later step may undo.
 */
module SoundRuns {
  import opened Domain
  import opened Protocol
  import opened ProtocolTables
  import Tokens
  import LockScope

  /** A run of either environment. */
  predicate Sound(ls: seq<Label>) {
    DeliversOnce(ls) || AtLeastOnce(ls)
  }

  lemma SoundPrefix(ls: seq<Label>)
    requires Sound(ls) && ls != []
    ensures Sound(ls[..|ls| - 1])
    ensures ls[|ls| - 1].OnJob? ==> !ls[|ls| - 1].action.ReadForRetry?
  {
    if DeliversOnce(ls) {
      assert DeliversOnceLabel(ls[|ls| - 1]);
      assert forall i :: 0 <= i < |ls| - 1 ==> ls[..|ls| - 1][i] == ls[i];
    }
  }

  predicate SystemInv(s: System) {
    forall j :: 0 <= j < |s.cells| ==> TablesInv(s.cells[j])
  }

  predicate WritersInv(s: System) {
    forall j :: 0 <= j < |s.cells| ==> OneWriter(s.cells[j])
  }

  lemma SoundRunsHaveOneWriter(ls: seq<Label>)
    requires Sound(ls)
    ensures WritersInv(Run(ls))
  {
    var s := Run(ls);
    if DeliversOnce(ls) { Tokens.RunKeepsTokens(ls); } else { LockScope.RunKeepsLock(ls); }
    forall j | 0 <= j < |s.cells|
      ensures OneWriter(s.cells[j])
    {
      if DeliversOnce(ls) {
        assert Tokens.CellInv(s.cells[j]);
        Tokens.TokensGiveOneWriter(s.cells[j]);
      } else {
        assert LockScope.LockInv(s.cells[j], s.now);
        LockScope.HoldersAreWriters(s.cells[j]);
      }
    }
  }

  lemma {:induction false} RunKeepsTables(ls: seq<Label>)
    requires Sound(ls)
    ensures SystemInv(Run(ls))
  {
    if ls != [] {
      var s, l := Run(ls[..|ls| - 1]), ls[|ls| - 1];
      SoundPrefix(ls);
      RunKeepsTables(ls[..|ls| - 1]);
      SoundRunsHaveOneWriter(ls[..|ls| - 1]);
      if l.OnJob? && l.job < |s.cells| {
        assert OneWriter(s.cells[l.job]);
        ActKeepsTables(s.cells[l.job], s.now, l.action);
      } else if l.Create? {
        NewCellTables(l.payload, l.maxAttempts);
      }
    }
  }

  // ------------------------------------------------------------- main results

  /** The handler's next await inserts its attempt row. */
  predicate InsertDue(h: Handler) {
    h.Running? && h.run.InsertAttempt?
  }

  /** In every state, attempt rows are numbered within the job's count and the next insert is new. */
  lemma AttemptsAreNumbered(ls: seq<Label>, j: JobId, i: nat)
    requires Sound(ls) && j < |Run(ls).cells| && i < |Run(ls).cells[j].handlers|
    ensures var c := Run(ls).cells[j];
      RowsNumbered(c) && (InsertDue(c.handlers[i]) ==> c.handlers[i].job.attemptCount !in c.attempts)
  {
    var c := Run(ls).cells[j];
    RunKeepsTables(ls);
    assert TablesInv(c);
    if InsertDue(c.handlers[i]) {
      InsertIsNew(c, i);
    }
  }

  /** In every state, crashed or not, a job with an outcome has the attempt row that explains it. */
  lemma OutcomesAreExplained(ls: seq<Label>, j: JobId)
    requires Sound(ls) && j < |Run(ls).cells|
    ensures OutcomeRecorded(Run(ls).cells[j])
  {
    RunKeepsTables(ls);
    assert TablesInv(Run(ls).cells[j]);
  }

  /** Attempt counts only grow; attempt rows keep their start, closed ones and published events stay as they are. */
  lemma {:induction false} HistoryIsKept(ls: seq<Label>, more: seq<Label>, j: JobId)
    requires Sound(ls + more) && j < |Run(ls).cells|
    ensures j < |Run(ls + more).cells| && Extends(Run(ls).cells[j], Run(ls + more).cells[j])
  {
    if more == [] {
      assert ls + more == ls;
    } else {
      var all := ls + more;
      var before, l := all[..|all| - 1], all[|all| - 1];
      assert before == ls + more[..|more| - 1];
      SoundPrefix(all);
      HistoryIsKept(ls, more[..|more| - 1], j);
      RunKeepsTables(before);
      SoundRunsHaveOneWriter(before);
      var c := Run(before).cells[j];
      assert TablesInv(c) && OneWriter(c);
      if l.OnJob? && l.job == j {
        ActExtends(c, Run(before).now, l.action);
        ExtendsTransitive(Run(ls).cells[j], c, Act(c, Run(before).now, l.action));
      }
    }
  }

  lemma ExtendsTransitive(a: Cell, b: Cell, c: Cell)
    requires Extends(a, b) && Extends(b, c)
    ensures Extends(a, c)
  {
  }
}
