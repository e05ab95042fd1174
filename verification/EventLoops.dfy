/** The event loop's shared state, updated in place by the coroutines that run on it. */
module EventLoops {
  import opened Symbols
  import opened FanOut
  import opened Wrappers
  import W = SymbolWorker

  class EventLoop {
    var symbolWorkers: map<string, nat>
    var symbolSubscribers: map<string, int>
    var workerTasks: seq<W.Worker>
    var tasks: seq<Task>

    ghost function Reg(): Registry
      reads this`symbolWorkers, this`symbolSubscribers, this`workerTasks
    {
      Registry(symbolWorkers, symbolSubscribers, workerTasks)
    }

    ghost function View(): State
      reads this
    {
      State(Reg(), tasks)
    }

    constructor ()
      ensures View() == INITIAL
    {
      symbolWorkers, symbolSubscribers, workerTasks, tasks := map[], map[], [], [];
    }

    method EnsureSymbolWorker(symbol: string)
      modifies this`symbolWorkers, this`symbolSubscribers, this`workerTasks
      ensures Reg() == Ensure(old(Reg()), symbol)
    {
      var s := Upper(symbol);
      var count := if s in symbolSubscribers then symbolSubscribers[s] else 0;
      symbolSubscribers := symbolSubscribers[s := count + 1];
      if s in symbolWorkers && symbolWorkers[s] < |workerTasks| && !workerTasks[symbolWorkers[s]].point.Ended? {
        return;
      }
      symbolWorkers := symbolWorkers[s := |workerTasks|];
      workerTasks := workerTasks + [W.New(s)];
    }

    method StopSymbolWorker(symbol: string) returns (awaited: Option<nat>)
      modifies this`symbolWorkers, this`workerTasks
      ensures (Reg(), awaited) == Stop(old(Reg()), symbol)
    {
      var s := Upper(symbol);
      awaited := None;
      if s in symbolWorkers {
        var w := symbolWorkers[s];
        symbolWorkers := symbolWorkers - {s};
        if w < |workerTasks| && !workerTasks[w].point.Ended? {
          workerTasks := workerTasks[w := W.Cancel(workerTasks[w])];
          awaited := Some(w);
        }
      } else {
        assert symbolWorkers - {s} == symbolWorkers;
      }
    }

    method RemoveSymbolSubscriber(symbol: string) returns (awaited: Option<nat>)
      modifies this`symbolWorkers, this`symbolSubscribers, this`workerTasks
      ensures (Reg(), awaited) == Remove(old(Reg()), symbol)
    {
      var s := Upper(symbol);
      awaited := None;
      if s !in symbolSubscribers {
        return;
      }
      symbolSubscribers := symbolSubscribers[s := symbolSubscribers[s] - 1];
      if symbolSubscribers[s] <= 0 {
        ghost var counted := old(symbolSubscribers);
        symbolSubscribers := symbolSubscribers - {s};
        assert symbolSubscribers == counted - {s};
        awaited := StopSymbolWorker(s);
      }
    }

    method CreateTask(owner: nat, category: Category, symbol: string) returns (t: nat)
      modifies this`tasks
      ensures View() == Spawn(old(View()), owner, category, symbol)
      ensures t == old(|tasks|) < |tasks|
    {
      t := |tasks|;
      tasks := tasks + [Task(owner, category, Upper(symbol), Created, false, false)];
    }

    method CancelTask(t: nat)
      requires t < |tasks|
      modifies this`tasks, this`workerTasks
      ensures View() == FanOut.Cancel(old(View()), t)
      ensures |tasks| == old(|tasks|)
    {
      var k := tasks[t];
      if k.point.Finished? {
        return;
      }
      if k.point.Stopping? && k.point.worker < |workerTasks| && !workerTasks[k.point.worker].point.Ended? {
        workerTasks := workerTasks[k.point.worker := W.Cancel(workerTasks[k.point.worker])];
        tasks := tasks[t := k.(cancelled := true)];
      } else {
        tasks := tasks[t := k.(cancelled := true, pending := true)];
      }
    }

    /** Runs a market-price task from its suspension point to the next one. */
    method RunMarketPrice(t: nat, o: Outcome)
      requires Runnable(View(), t) && tasks[t].category.MarketPrice?
      modifies this
      ensures View() == Resume(old(View()), t, o)
    {
      var k := tasks[t];
      var broken := k.pending || o.Raised?;
      var next: TaskPoint;
      match k.point {
      case Created =>
        if k.pending {
          next := Finished(NeverRan);
        } else {
          EnsureSymbolWorker(k.symbol);
          next := Subscribing;
        }
      case Subscribing => next := if broken then Finished(Stranded) else Listening;
      case Listening =>
        next := if broken || o.Exhausted? then Unsubscribing else if o == Received(true) then Sending else Listening;
      case Sending => next := if broken then Unsubscribing else Listening;
      case Unsubscribing => next := if broken then Finished(Stranded) else Closing;
      case Closing =>
        if broken {
          next := Finished(Stranded);
        } else {
          var awaited := RemoveSymbolSubscriber(k.symbol);
          next := if awaited.Some? then Stopping(awaited.value) else Finished(Released);
        }
      case Stopping(_) => next := Finished(Released);
      case Busy => next := Busy;
      }
      tasks := tasks[t := k.(point := next, pending := false)];
    }
  }
}
