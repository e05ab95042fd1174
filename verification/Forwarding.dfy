/** What a market-price task forwards to its client, and the way it takes. */
module Forwarding {
  import opened FanOut

  /** The task is writing to its websocket. */
  predicate IsSending(st: State, t: nat) {
    t < |st.tasks| && st.tasks[t].point.Sending?
  }

  /** The task waits for a message and no cancellation is on its way. */
  predicate IsListening(st: State, t: nat) {
    t < |st.tasks| && st.tasks[t].category.MarketPrice? && st.tasks[t].point.Listening? && !st.tasks[t].pending
  }

  /** How often the task has begun to send. */
  ghost function Sent(ls: seq<Label>, t: nat): nat
    requires IsRun(ls)
  {
    if ls == [] then 0
    else Sent(ls[..|ls| - 1], t) + if IsSending(After(ls), t) && !IsSending(After(ls[..|ls| - 1]), t) then 1 else 0
  }

  /** How many data messages have reached the task while it listened. */
  ghost function Heard(ls: seq<Label>, t: nat): nat
    requires IsRun(ls)
  {
    if ls == [] then 0
    else Heard(ls[..|ls| - 1], t)
         + if ls[|ls| - 1] == RunTask(t, Received(true)) && IsListening(After(ls[..|ls| - 1]), t) then 1 else 0
  }

  /** A step begins a send exactly when it hands a data message to the listening task. */
  lemma StepSends(st: State, l: Label, t: nat)
    requires Inv(st) && Enabled(st, l)
    ensures IsSending(Step(st, l), t) && !IsSending(st, t) <==> l == RunTask(t, Received(true)) && IsListening(st, t)
  {
    if l.RunTask? {
      assert TaskOk(st.reg, st.tasks[l.task]);
    }
  }

  /** In every run a task sends once for each data message that reaches it, and at no other time. */
  lemma {:induction false} SendsWhatItHears(ls: seq<Label>, t: nat)
    requires IsRun(ls)
    ensures Sent(ls, t) == Heard(ls, t)
  {
    if ls == [] {
    } else {
      var before := ls[..|ls| - 1];
      SendsWhatItHears(before, t);
      RunKeepsInv(before);
      StepSends(After(before), ls[|ls| - 1], t);
    }
  }

  /**
    The way of a market-price task: it acquires and subscribes; it listens, sending
    each data message, until the stream ends or an await breaks off; then it
    unsubscribes, closes and releases, and waits for the worker if it was the last.
    An await that breaks off outside the listening leaves the reference behind.
  */
  lemma HandlerFollows(ls: seq<Label>, t: nat, o: Outcome)
    requires IsRun(ls) && Runnable(After(ls), t) && After(ls).tasks[t].category.MarketPrice?
    ensures var p, p' := After(ls).tasks[t].point, Step(After(ls), RunTask(t, o)).tasks[t].point;
            var broken := After(ls).tasks[t].pending || o.Raised?;
            && (p.Created? ==> p' == if After(ls).tasks[t].pending then Finished(NeverRan) else Subscribing)
            && (p.Listening? || p.Sending? ==> (p' == Unsubscribing <==> broken || (p.Listening? && o.Exhausted?)))
            && (p.Listening? && !broken && !o.Exhausted? ==> p' == if o == Received(true) then Sending else Listening)
            && (p.Sending? && !broken ==> p' == Listening)
            && (p.Subscribing? || p.Unsubscribing? || p.Closing? ==> (p' == Finished(Stranded) <==> broken))
            && (p.Subscribing? && !broken ==> p' == Listening)
            && (p.Unsubscribing? && !broken ==> p' == Closing)
            && (p.Closing? && !broken ==> p' == Finished(Released) || p'.Stopping?)
            && (p.Stopping? ==> p' == Finished(Released))
    ensures !Step(After(ls), RunTask(t, o)).tasks[t].pending
  {
    RunKeepsInv(ls);
    assert TaskOk(After(ls).reg, After(ls).tasks[t]);
  }

  /** Only the last holder of a symbol waits for its worker. */
  lemma LastOneWaits(ls: seq<Label>, t: nat, o: Outcome)
    requires IsRun(ls) && Runnable(After(ls), t) && Releases(After(ls), RunTask(t, o), After(ls).tasks[t].symbol)
    ensures var st, st' := After(ls), Step(After(ls), RunTask(t, o));
            var s := st.tasks[t].symbol;
            && (st'.tasks[t].point.Stopping? <==> Subscribers(st.reg, s) == 1)
            && (st'.tasks[t].point.Stopping? ==> s in st.reg.workers && st'.tasks[t].point.worker == st.reg.workers[s])
  {
    RunKeepsInv(ls);
    HolderIsCounted(After(ls), t);
    assert TaskOk(After(ls).reg, After(ls).tasks[t]);
    assert WorkerOk(After(ls).reg, After(ls).reg.workers[After(ls).tasks[t].symbol]);
  }

  /** A listening task can be handed any messages: it sends the data among them and listens again. */
  lemma {:induction false} Forwards(ls: seq<Label>, t: nat, data: seq<bool>) returns (ls': seq<Label>)
    requires IsRun(ls) && IsListening(After(ls), t)
    ensures IsRun(ls') && IsListening(After(ls'), t)
    ensures Sent(ls', t) == Sent(ls, t) + DataAmong(data)
  {
    if data == [] {
      ls' := ls;
    } else {
      ls' := Forwards(ls, t, data[..|data| - 1]);
      var before := ls';
      ls' := ExtendRun(before, RunTask(t, Received(data[|data| - 1])));
      assert ls'[..|before|] == before;
      if data[|data| - 1] {
        var sending := ls';
        ls' := ExtendRun(sending, RunTask(t, Completed));
        assert ls'[..|sending|] == sending;
      }
    }
  }

  function DataAmong(data: seq<bool>): nat {
    if data == [] then 0 else DataAmong(data[..|data| - 1]) + if data[|data| - 1] then 1 else 0
  }

  /** An order-book or top-10 task runs on until it is cancelled or fails, and touches no dictionary. */
  lemma OthersRunOn(st: State, t: nat, o: Outcome)
    requires Runnable(st, t) && !st.tasks[t].category.MarketPrice?
    ensures var st' := Step(st, RunTask(t, o));
            && st'.reg == st.reg
            && (st'.tasks[t].point.Finished? <==> st.tasks[t].pending || (o.Raised? && !st.tasks[t].point.Created?))
            && (st'.tasks[t].point == Finished(NeverRan) <==> st.tasks[t].pending && st.tasks[t].point.Created?)
            && (!st'.tasks[t].point.Finished? ==> st'.tasks[t].point.Busy?)
  {
  }
}
