/**
  What the fan-out can still come to: from every reachable state all tasks can be
  brought to an end, and the least number of references that any future leaves
  behind is known in advance.
*/
module Quiescence {
  import opened Counting
  import opened Summing
  import opened FanOut
  import W = SymbolWorker

  /** A cancellation is about to reach the task at an await its clean-up does not cover. */
  predicate Doomed(k: Task) {
    && k.category.MarketPrice? && k.pending
    && (k.point.Subscribing? || k.point.Unsubscribing? || k.point.Closing?)
  }

  function LostOf(s: string): Task -> bool {
    (k: Task) => (IsStranded(k) || Doomed(k)) && k.symbol == s
  }

  /** References on `s` that no future can give back. */
  function Lost(st: State, s: string): nat {
    Count(st.tasks, LostOf(s))
  }

  function TaskRank(k: Task): nat {
    match k.point
    case Finished(_) => 0
    case Stopping(_) => 1
    case Busy => 1
    case Closing => 10
    case Unsubscribing => 11
    case Listening => 12
    case Sending => 13
    case Subscribing => 14
    case Created => 15
  }

  function WorkerRank(w: W.Worker): nat {
    if !w.cancelled || w.point.Ended? then 0
    else if w.pending then 2
    else if w.point == W.Leaving(W.Cancelling) then 1
    else 3
  }

  function Rank(st: State): nat {
    Sum(st.tasks, TaskRank) + Sum(st.reg.tasks, WorkerRank)
  }

  /** The outcome that takes a task nearer to its end. */
  function Onward(k: Task): Outcome {
    match k.point
    case Listening => Exhausted
    case Busy => Raised
    case _ => Completed
  }

  lemma AcquireLowersRank(st: State, t: nat)
    requires Inv(st) && t < |st.tasks| && st.tasks[t].category.MarketPrice? && st.tasks[t].point.Created?
             && !st.tasks[t].pending
    ensures Rank(Resume(st, t, Completed)) < Rank(st)
  {
    var k := st.tasks[t];
    var st' := Resume(st, t, Completed);
    SumUpdate(st.tasks, t, st'.tasks[t], TaskRank);
    if st'.reg.tasks != st.reg.tasks {
      SumAppend(st.reg.tasks, W.New(k.symbol), WorkerRank);
      assert TaskOk(st.reg, k);
    }
  }

  lemma ReleaseLowersRank(st: State, t: nat)
    requires Inv(st) && t < |st.tasks| && st.tasks[t].category.MarketPrice? && st.tasks[t].point.Closing?
             && !st.tasks[t].pending
    ensures Rank(Resume(st, t, Completed)) < Rank(st)
  {
    var k := st.tasks[t];
    var s := k.symbol;
    var st' := Resume(st, t, Completed);
    assert TaskOk(st.reg, k);
    HolderIsCounted(st, t);
    SumUpdate(st.tasks, t, st'.tasks[t], TaskRank);
    if st.reg.subscribers[s] == 1 {
      var w := st.reg.workers[s];
      assert st'.reg.tasks == st.reg.tasks[w := W.Cancel(st.reg.tasks[w])];
      SumUpdate(st.reg.tasks, w, W.Cancel(st.reg.tasks[w]), WorkerRank);
    } else {
      assert st'.reg.tasks == st.reg.tasks;
    }
  }

  /** Resuming a task with the onward outcome brings the system nearer to its end. */
  lemma RunTaskLowersRank(st: State, t: nat)
    requires Inv(st) && Runnable(st, t)
    ensures Rank(Resume(st, t, Onward(st.tasks[t]))) < Rank(st)
  {
    var k := st.tasks[t];
    var o := Onward(k);
    assert TaskOk(st.reg, k);
    if k.category.MarketPrice? && k.point.Created? && !k.pending {
      AcquireLowersRank(st, t);
    } else if k.category.MarketPrice? && k.point.Closing? && !k.pending {
      ReleaseLowersRank(st, t);
    } else if k.category.MarketPrice? {
      TaskLowersRank(st, t, Resume(st, t, o).tasks[t]);
    } else {
      TaskLowersRank(st, t, ResumeOther(k, o));
    }
  }

  lemma TaskLowersRank(st: State, t: nat, k: Task)
    requires t < |st.tasks| && TaskRank(k) < TaskRank(st.tasks[t])
    ensures Rank(st.(tasks := st.tasks[t := k])) < Rank(st)
  {
    SumUpdate(st.tasks, t, k, TaskRank);
  }

  lemma WorkerLowersRank(st: State, w: nat, x: W.Worker)
    requires w < |st.reg.tasks| && WorkerRank(x) < WorkerRank(st.reg.tasks[w])
    ensures Rank(st.(reg := st.reg.(tasks := st.reg.tasks[w := x]))) < Rank(st)
  {
    SumUpdate(st.reg.tasks, w, x, WorkerRank);
  }

  /** No step finds a lost reference again. */
  lemma LostNeverFalls(st: State, l: Label, s: string)
    requires Inv(st) && Enabled(st, l)
    ensures Lost(Step(st, l), s) >= Lost(st, s)
    ensures l.RunWorker? || (l.RunTask? && l.outcome == Onward(st.tasks[l.task])) ==> Lost(Step(st, l), s) == Lost(st, s)
    ensures l.CancelTask? && st.tasks[l.task].point.Stopping? ==> Lost(Step(st, l), s) == Lost(st, s)
  {
    var st' := Step(st, l);
    match l
    case SpawnTask(_, _, _) => CountAppend(st.tasks, st'.tasks[|st.tasks|], LostOf(s));
    case CancelTask(t) =>
      if st'.tasks != st.tasks {
        CountUpdate(st.tasks, t, st'.tasks[t], LostOf(s));
      }
    case RunTask(t, o) =>
      RunTaskMovesReference(st, t, o);
      RunTaskMovesLost(st, t, o);
      CountUpdate(st.tasks, t, st'.tasks[t], LostOf(s));
    case RunWorker(_, _) =>
  }

  lemma RunTaskMovesLost(st: State, t: nat, o: Outcome)
    requires Inv(st) && Runnable(st, t)
    ensures var k, k' := st.tasks[t], Resume(st, t, o).tasks[t];
            && (IsStranded(k) || Doomed(k) ==> IsStranded(k'))
            && (o == Onward(k) && !IsStranded(k) && !Doomed(k) ==> !IsStranded(k') && !Doomed(k'))
  {
    assert TaskOk(st.reg, st.tasks[t]);
    RunTaskMovesReference(st, t, o);
    assert !Resume(st, t, o).tasks[t].pending;
  }

  /** The task waits for a worker that has swallowed its cancellation and goes on. */
  predicate WaitsForActive(st: State, t: nat) {
    && t < |st.tasks| && st.tasks[t].point.Stopping?
    && st.tasks[t].point.worker < |st.reg.tasks| && W.Active(st.reg.tasks[st.tasks[t].point.worker])
  }

  /** The label takes a task or a worker towards its end, or cancels a task that waits for an active worker. */
  predicate Drives(st: State, l: Label) {
    match l
    case SpawnTask(_, _, _) => false
    case CancelTask(t) => WaitsForActive(st, t)
    case RunTask(t, o) => t < |st.tasks| && o == Onward(st.tasks[t])
    case RunWorker(_, o) => o == W.Done
  }

  /** A step towards the end, which loses no further reference. */
  lemma Towards(st: State) returns (l: Label)
    requires Inv(st) && !AllFinished(st)
    ensures Enabled(st, l) && Drives(st, l) && Rank(Step(st, l)) < Rank(st)
    ensures forall s :: Lost(Step(st, l), s) == Lost(st, s)
  {
    var t :| 0 <= t < |st.tasks| && !st.tasks[t].point.Finished?;
    var k := st.tasks[t];
    assert TaskOk(st.reg, k);
    if Runnable(st, t) {
      l := RunTask(t, Onward(k));
      RunTaskLowersRank(st, t);
    } else {
      var w := k.point.worker;
      var x := st.reg.tasks[w];
      assert WorkerOk(st.reg, w);
      if W.Active(x) {
        l := CancelTask(t);
        SumUpdate(st.reg.tasks, w, W.Cancel(x), WorkerRank);
        SumUpdate(st.tasks, t, k.(cancelled := true), TaskRank);
      } else {
        l := RunWorker(w, W.Done);
        WorkerLowersRank(st, w, W.Resume(x, W.Done));
      }
    }
    forall s ensures Lost(Step(st, l), s) == Lost(st, s) {
      LostNeverFalls(st, l, s);
    }
  }

  /** A run continued by another list of labels. */
  ghost predicate Continues(ls: seq<Label>, more: seq<Label>) {
    IsRun(ls) && IsRun(ls + more)
  }

  lemma ResidueIsLost(st: State, s: string)
    requires Inv(st) && AllFinished(st)
    ensures Subscribers(st.reg, s) == Lost(st, s)
  {
    CountSame(st.tasks, HolderOf(s), LostOf(s));
  }

  /** The references kept are those that `st` had already lost. */
  ghost predicate KeepsJust(end: State, st: State) {
    forall s :: Subscribers(end.reg, s) == Lost(st, s)
  }

  lemma FinishedKeepsJust(st: State)
    requires Inv(st) && AllFinished(st)
    ensures KeepsJust(st, st)
  {
    forall s ensures Subscribers(st.reg, s) == Lost(st, s) {
      ResidueIsLost(st, s);
    }
  }

  lemma KeepsJustOfEarlier(end: State, st': State, st: State)
    requires KeepsJust(end, st') && forall s :: Lost(st', s) == Lost(st, s)
    ensures KeepsJust(end, st)
  {
  }

  lemma Regroup(ls: seq<Label>, l: Label, rest: seq<Label>)
    ensures (ls + [l]) + rest == ls + ([l] + rest)
  {
  }

  /**
    Every run can be continued until all tasks have finished, and in such a way
    that no symbol keeps more references than were already lost, provided that a
    task that waits for an active worker can be cancelled.
  */
  lemma {:induction false} CanDrain(ls: seq<Label>) returns (more: seq<Label>)
    requires IsRun(ls)
    ensures Continues(ls, more) && AllFinished(After(ls + more))
    ensures KeepsJust(After(ls + more), After(ls))
    decreases Rank(After(ls))
  {
    var st := After(ls);
    RunKeepsInv(ls);
    if AllFinished(st) {
      more := [];
      assert ls + more == ls;
      FinishedKeepsJust(st);
    } else {
      var l := Towards(st);
      var ls' := ExtendRun(ls, l);
      var rest := CanDrain(ls');
      more := [l] + rest;
      Regroup(ls, l, rest);
      KeepsJustOfEarlier(After(ls' + rest), After(ls'), st);
    }
  }

  lemma {:induction false} LostInContinuation(ls: seq<Label>, more: seq<Label>, s: string)
    requires Continues(ls, more)
    ensures Lost(After(ls + more), s) >= Lost(After(ls), s)
  {
    if more == [] {
      assert ls + more == ls;
    } else {
      var front := ls + more[..|more| - 1];
      assert (ls + more)[..|ls + more| - 1] == front;
      LostInContinuation(ls, more[..|more| - 1], s);
      RunKeepsInv(front);
      LostNeverFalls(After(front), more[|more| - 1], s);
    }
  }

  /** No future in which all tasks finish leaves fewer references than are lost already. */
  lemma LeastResidue(ls: seq<Label>, more: seq<Label>, s: string)
    requires Continues(ls, more) && AllFinished(After(ls + more))
    ensures Subscribers(After(ls + more).reg, s) >= Lost(After(ls), s)
  {
    LostInContinuation(ls, more, s);
    RunKeepsInv(ls + more);
    ResidueIsLost(After(ls + more), s);
  }
}
