/** Opening an authenticated exchange: retries, the fallback, and what is closed when. */
module ExchangeLifecycle {
  import opened Balances
  import opened Wrappers

  /** One attempt to fetch the accounts: answered, refused (worth a retry), failed otherwise, or cancelled. */
  datatype Try = Got(accounts: seq<Account>) | Refused | Broken | TryCut

  datatype Close = Closes | CloseCut

  /** The fallback's balance request. */
  datatype Second = SecondGot | SecondBroken | SecondCut

  /**
    How every call comes out. A time sync that fails is ignored, so all that
    matters of the pause before a retry is whether it is cancelled.
  */
  datatype Script = Script(
    buildsFirst: bool,
    tries: nat -> Try,
    pauseCut: nat -> bool,
    closeFirst: Close,
    passphrase: bool,
    buildsSecond: bool,
    sandbox: bool,
    second: Second,
    closeSecond: Close)

  /** How the attempts on the first exchange end. */
  datatype End = Success(balance: Balance) | Failure | Cut

  function Attempts(s: Script, i: nat): End
    requires i < 3
    decreases 3 - i
  {
    match s.tries(i)
    case Got(accounts) => if Coded(accounts) then Success(ApplyAll(accounts)) else Failure
    case Refused => if i == 2 then Failure else if s.pauseCut(i) then Cut else Attempts(s, i + 1)
    case Broken => Failure
    case TryCut => Cut
  }

  /** The number of account requests the attempts take. */
  function Requests(s: Script, i: nat): nat
    requires i < 3
    decreases 3 - i
  {
    if s.tries(i).Refused? && i < 2 && !s.pauseCut(i) then 1 + Requests(s, i + 1) else 1
  }

  /** The number of time syncs: one after each refusal but the third. */
  function Syncs(s: Script, i: nat): nat
    requires i < 3
    decreases 3 - i
  {
    if s.tries(i).Refused? && i < 2 then 1 + (if s.pauseCut(i) then 0 else Syncs(s, i + 1)) else 0
  }

  datatype Result = Opened(id: nat, balance: Option<Balance>) | NoExchange | Interrupted

  /** The result, with `id` the next identity to be given out. */
  function Outcome(s: Script, id: nat): Result {
    var first := if s.buildsFirst then Attempts(s, 0) else Failure;
    var next := if s.buildsFirst then id + 1 else id;
    if first.Success? then Opened(id, Some(first.balance))
    else if first.Cut? || (s.buildsFirst && s.closeFirst.CloseCut?) then Interrupted
    else if !s.passphrase then NoExchange
    else if s.buildsSecond && s.sandbox && s.second.SecondGot? then Opened(next, None)
    else if s.buildsSecond && s.sandbox && s.second.SecondCut? then Interrupted
    else if (s.buildsFirst || s.buildsSecond) && s.closeSecond.CloseCut? then Interrupted
    else NoExchange
  }

  /** The exchange that an interrupted call leaves open. */
  function LeftOpen(s: Script, id: nat): set<nat> {
    var first := if s.buildsFirst then Attempts(s, 0) else Failure;
    if !Outcome(s, id).Interrupted? then {}
    else if first.Cut? || (s.buildsFirst && s.closeFirst.CloseCut?) then {id}
    else if s.buildsSecond then {if s.buildsFirst then id + 1 else id}
    else {}
  }

  class ExchangePool {
    var next: nat
    var open: set<nat>
    var fetches: nat
    var syncs: nat

    ghost predicate Valid()
      reads this
    {
      forall x | x in open :: x < next
    }

    constructor ()
      ensures Valid() && open == {} && next == 0 && fetches == 0 && syncs == 0
    {
      next, open, fetches, syncs := 0, {}, 0, 0;
    }

    method Create() returns (id: nat)
      requires Valid()
      modifies this`next, this`open
      ensures Valid() && id == old(next) && next == id + 1 && open == old(open) + {id}
    {
      id := next;
      open := open + {id};
      next := next + 1;
    }

    /** A close that raises counts as closed: nothing more is done about the exchange. */
    method CloseExchange(id: nat, close: Close)
      requires Valid()
      modifies this`open
      ensures Valid() && open == if close.Closes? then old(open) - {id} else old(open)
    {
      if close.Closes? {
        open := open - {id};
      }
    }

    method FetchAccounts(s: Script) returns (end: End)
      modifies this`fetches, this`syncs
      ensures end == Attempts(s, 0)
      ensures fetches == old(fetches) + Requests(s, 0)
      ensures syncs == old(syncs) + Syncs(s, 0)
    {
      var i := 0;
      while true
        invariant 0 <= i < 3
        invariant Attempts(s, i) == Attempts(s, 0)
        invariant fetches + Requests(s, i) == old(fetches) + Requests(s, 0)
        invariant syncs + Syncs(s, i) == old(syncs) + Syncs(s, 0)
        decreases 3 - i
      {
        fetches := fetches + 1;
        match s.tries(i) {
          case Got(accounts) =>
            var balance := BuildBalance(accounts);
            return if balance.Some? then Success(balance.value) else Failure;
          case Broken => return Failure;
          case TryCut => return Cut;
          case Refused =>
            if i == 2 {
              return Failure;
            }
            syncs := syncs + 1;
            if s.pauseCut(i) {
              return Cut;
            }
            i := i + 1;
        }
      }
    }

    method GetWorkingExchange(s: Script) returns (r: Result)
      requires Valid()
      modifies this
      ensures Valid() && next >= old(next)
      ensures r == Outcome(s, old(next))
      ensures open == old(open) + LeftOpen(s, old(next)) + if r.Opened? then {r.id} else {}
      ensures fetches == old(fetches) + if s.buildsFirst then Requests(s, 0) else 0
      ensures syncs == old(syncs) + if s.buildsFirst then Syncs(s, 0) else 0
    {
      var exchange: Option<nat> := None;
      if s.buildsFirst {
        var id := Create();
        exchange := Some(id);
        var end := FetchAccounts(s);
        if end.Success? {
          return Opened(id, Some(end.balance));
        }
        if end.Cut? {
          return Interrupted;
        }
        CloseExchange(id, s.closeFirst);
        if s.closeFirst.CloseCut? {
          return Interrupted;
        }
      }
      if s.passphrase {
        if s.buildsSecond {
          var id := Create();
          exchange := Some(id);
          if s.sandbox {
            if s.second.SecondGot? {
              return Opened(id, None);
            }
            if s.second.SecondCut? {
              return Interrupted;
            }
          }
        }
        if exchange.Some? {
          CloseExchange(exchange.value, s.closeSecond);
          if s.closeSecond.CloseCut? {
            return Interrupted;
          }
        }
      }
      r := NoExchange;
    }

    /**
      A caller with its `finally` block: whatever it does in between, the exchange it
      was given is closed at the end.
    */
    method UseExchange(s: Script, close: Close)
      requires Valid()
      modifies this
      ensures Valid()
      ensures open == old(open) + LeftOpen(s, old(next))
                    + if Outcome(s, old(next)).Opened? && close.CloseCut? then {Outcome(s, old(next)).id} else {}
    {
      var r := GetWorkingExchange(s);
      if r.Opened? {
        assert LeftOpen(s, old(next)) == {};
        assert r.id >= old(next) && r.id !in old(open);
        CloseExchange(r.id, close);
      }
    }
  }

  // ---------- What this means ----------

  /** No call of the script is cancelled. */
  ghost predicate Uncut(s: Script) {
    && (forall i: nat | i < 3 :: !s.tries(i).TryCut? && !s.pauseCut(i))
    && !s.closeFirst.CloseCut? && !s.second.SecondCut? && !s.closeSecond.CloseCut?
  }

  lemma AttemptsUncut(s: Script, i: nat)
    requires i < 3 && Uncut(s)
    ensures !Attempts(s, i).Cut?
    decreases 3 - i
  {
    if i < 2 {
      AttemptsUncut(s, i + 1);
    }
  }

  /** At most three account requests are made, and without a cancellation nothing is left open but what is returned. */
  lemma UncutLeavesNothing(s: Script, id: nat)
    requires Uncut(s)
    ensures LeftOpen(s, id) == {} && !Outcome(s, id).Interrupted?
    ensures Outcome(s, id).Opened? ==> id <= Outcome(s, id).id <= id + 1
  {
    AttemptsUncut(s, 0);
  }

  /** The attempt at which the requests end: it is not refused, or is the third, or its pause is cancelled. */
  ghost predicate EndsAt(s: Script, k: nat) {
    && k < 3 && (!s.tries(k).Refused? || k == 2 || s.pauseCut(k))
    && forall i: nat | i < k :: s.tries(i).Refused? && !s.pauseCut(i)
  }

  lemma {:induction false} EndsFrom(s: Script, i: nat) returns (k: nat)
    requires i < 3 && forall j: nat | j < i :: s.tries(j).Refused? && !s.pauseCut(j)
    ensures EndsAt(s, k) && i <= k && Requests(s, i) == k - i + 1
    ensures Syncs(s, i) == k - i + if s.tries(k).Refused? && k < 2 then 1 else 0
    decreases 3 - i
  {
    if s.tries(i).Refused? && i < 2 && !s.pauseCut(i) {
      k := EndsFrom(s, i + 1);
    } else {
      k := i;
    }
  }

  /** One to three account requests are made, as many as attempts, and at most two time syncs. */
  lemma RequestsAndSyncs(s: Script) returns (k: nat)
    ensures EndsAt(s, k) && Requests(s, 0) == k + 1 <= 3
    ensures Syncs(s, 0) == (if s.tries(k).Refused? && k < 2 then k + 1 else k) <= 2
  {
    k := EndsFrom(s, 0);
  }

  /** An interrupted call leaves at most one exchange open, and no other call leaves one. */
  lemma AtMostOneLeft(s: Script, id: nat)
    ensures |LeftOpen(s, id)| <= 1
    ensures LeftOpen(s, id) != {} ==> Outcome(s, id).Interrupted?
    ensures forall x | x in LeftOpen(s, id) :: id <= x <= id + 1
  {
  }

  /** The first of three attempts that answers with coded accounts, all before it refused. */
  ghost predicate AnswersAt(s: Script, k: nat) {
    && k < 3 && s.tries(k).Got? && Coded(s.tries(k).accounts)
    && forall i: nat | i < k :: s.tries(i).Refused? && !s.pauseCut(i)
  }

  lemma {:induction false} SuccessFrom(s: Script, i: nat)
    requires i < 3 && forall j: nat | j < i :: s.tries(j).Refused? && !s.pauseCut(j)
    ensures Attempts(s, i).Success? <==> exists k :: AnswersAt(s, k)
    ensures forall k | AnswersAt(s, k) :: Attempts(s, i) == Success(ApplyAll(s.tries(k).accounts))
    decreases 3 - i
  {
    if s.tries(i).Refused? && i < 2 && !s.pauseCut(i) {
      SuccessFrom(s, i + 1);
    } else if s.tries(i).Got? && Coded(s.tries(i).accounts) {
      assert AnswersAt(s, i);
    }
  }

  /**
    The primary exchange is returned exactly when one of three attempts answers with
    coded accounts and every attempt before it was refused, and then with the
    balance built from that answer.
  */
  lemma PrimaryReturnedIff(s: Script, id: nat)
    ensures Outcome(s, id).Opened? && Outcome(s, id).balance.Some? <==> s.buildsFirst && exists k :: AnswersAt(s, k)
    ensures s.buildsFirst ==> forall k | AnswersAt(s, k) :: Outcome(s, id) == Opened(id, Some(ApplyAll(s.tries(k).accounts)))
  {
    SuccessFrom(s, 0);
  }

  /** The first attempts are cut off at attempt k: by a cancellation of its request, or of the pause after its refusal. */
  ghost predicate CutAt(s: Script, k: nat) {
    && k < 3 && (s.tries(k).TryCut? || (s.tries(k).Refused? && k < 2 && s.pauseCut(k)))
    && forall i: nat | i < k :: s.tries(i).Refused? && !s.pauseCut(i)
  }

  lemma {:induction false} CutFrom(s: Script, i: nat)
    requires i < 3 && forall j: nat | j < i :: s.tries(j).Refused? && !s.pauseCut(j)
    ensures Attempts(s, i).Cut? <==> exists k :: CutAt(s, k)
    decreases 3 - i
  {
    if s.tries(i).Refused? && i < 2 && !s.pauseCut(i) {
      CutFrom(s, i + 1);
    } else if Attempts(s, i).Cut? {
      assert CutAt(s, i);
    }
  }

  /** The primary exchange gave no answer, was closed, and nothing was cancelled on the way. */
  ghost predicate FirstGaveUp(s: Script) {
    s.buildsFirst ==> (!exists k :: AnswersAt(s, k)) && (!exists k :: CutAt(s, k)) && !s.closeFirst.CloseCut?
  }

  /**
    The fallback is returned exactly when the primary exchange gave up, there is a
    passphrase, and the fallback is built, put in its sandbox and answers. It is then
    the exchange built last.
  */
  lemma FallbackReturnedIff(s: Script, id: nat)
    ensures Outcome(s, id).Opened? && Outcome(s, id).balance.None?
       <==> FirstGaveUp(s) && s.passphrase && s.buildsSecond && s.sandbox && s.second.SecondGot?
    ensures Outcome(s, id).Opened? && Outcome(s, id).balance.None? ==> Outcome(s, id).id == if s.buildsFirst then id + 1 else id
  {
    if s.buildsFirst {
      SuccessFrom(s, 0);
      CutFrom(s, 0);
    }
  }

  /**
    The call is interrupted exactly by a cancellation of an attempt, of the fallback's
    request, or of the close that follows a failure.
  */
  lemma InterruptedIff(s: Script, id: nat)
    ensures Outcome(s, id).Interrupted?
       <==> || (s.buildsFirst && exists k :: CutAt(s, k))
            || (s.buildsFirst && (!exists k :: AnswersAt(s, k)) && s.closeFirst.CloseCut?)
            || (FirstGaveUp(s) && s.passphrase && s.buildsSecond && s.sandbox && s.second.SecondCut?)
            || (FirstGaveUp(s) && s.passphrase && (s.buildsFirst || s.buildsSecond) && s.closeSecond.CloseCut?
                && !(s.buildsSecond && s.sandbox && s.second.SecondGot?))
  {
    if s.buildsFirst {
      SuccessFrom(s, 0);
      CutFrom(s, 0);
    }
  }

  /**
    What an interrupted call leaves open: the primary exchange if an attempt or its
    close was cancelled, else the fallback if one was built.
  */
  lemma LeftOpenIs(s: Script, id: nat)
    ensures !Outcome(s, id).Interrupted? ==> LeftOpen(s, id) == {}
    ensures Outcome(s, id).Interrupted? && s.buildsFirst && !FirstGaveUp(s) ==> LeftOpen(s, id) == {id}
    ensures Outcome(s, id).Interrupted? && FirstGaveUp(s) && s.buildsSecond ==>
              LeftOpen(s, id) == {if s.buildsFirst then id + 1 else id}
    ensures Outcome(s, id).Interrupted? && FirstGaveUp(s) && !s.buildsSecond ==> LeftOpen(s, id) == {}
  {
    if s.buildsFirst {
      SuccessFrom(s, 0);
      CutFrom(s, 0);
    }
  }
}
