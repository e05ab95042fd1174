/** The subscription and transaction tables, and the handlers that write them, each in one database transaction. */
module SubscriptionStore {
  import opened Counting
  import opened Wrappers

  datatype Subscription = Subscription(
    id: nat, user: int, planName: string, planType: string, price: int, status: string,
    periodStart: int, periodEnd: int, stripeId: string, cancelAtPeriodEnd: bool, finalCancellation: Option<int>)

  /** A transaction made together with a new subscription is not linked to it. */
  datatype Transaction = Transaction(user: int, subscription: Option<nat>, amount: int, eventId: string)

  datatype Db = Db(rows: seq<Subscription>, transactions: seq<Transaction>, nextId: nat)

  const STATUSES := {"active", "canceled", "past_due", "incomplete", "trialing"}

  datatype Event =
    | Checkout(user: int, planName: string, planType: string, price: int, status: string,
               periodStart: int, periodEnd: int, eventId: string, stripeId: string)
    | CancelAtPeriodEnd(user: int, now: int, stripeOk: bool)
    | Updated(stripeId: string, cancel: bool)

  // ---------- Queries ----------

  function OfUser(user: int): Subscription -> bool {
    (r: Subscription) => r.user == user
  }

  function OfStripe(stripeId: string): Subscription -> bool {
    (r: Subscription) => r.stripeId == stripeId
  }

  /** The answer of a query that expects at most one row. */
  datatype Lookup = NoRow | One(index: nat) | Many

  function IndexOf(rows: seq<Subscription>, p: Subscription -> bool): (i: nat)
    requires Count(rows, p) > 0
    ensures i < |rows| && p(rows[i])
  {
    if p(rows[|rows| - 1]) then |rows| - 1 else IndexOf(rows[..|rows| - 1], p)
  }

  function Find(rows: seq<Subscription>, p: Subscription -> bool): (r: Lookup)
    ensures r.One? ==> r.index < |rows| && p(rows[r.index])
  {
    if Count(rows, p) == 0 then NoRow else if Count(rows, p) == 1 then One(IndexOf(rows, p)) else Many
  }

  predicate KnownEvent(db: Db, eventId: string) {
    exists t :: t in db.transactions && t.eventId == eventId
  }

  // ---------- Handlers ----------

  /** The database accepts the commit: the status is one of the enumeration, the event id is new, the user exists. */
  predicate Accepts(db: Db, users: set<int>, e: Event)
    requires e.Checkout?
  {
    e.status in STATUSES && !KnownEvent(db, e.eventId) && e.user in users
  }

  function Renewed(r: Subscription, e: Event): Subscription
    requires e.Checkout?
  {
    r.(planName := e.planName, planType := e.planType, status := e.status, price := e.price,
       periodStart := e.periodStart, periodEnd := e.periodEnd, stripeId := e.stripeId)
  }

  function Bill(e: Event, subscription: Option<nat>): Transaction
    requires e.Checkout?
  {
    Transaction(e.user, subscription, e.price, e.eventId)
  }

  function HandleCheckout(db: Db, users: set<int>, e: Event): Db
    requires e.Checkout?
  {
    var found := Find(db.rows, OfUser(e.user));
    if found.Many? || !Accepts(db, users, e) then db
    else if found.One? && !db.rows[found.index].cancelAtPeriodEnd then
      db.(rows := db.rows[found.index := Renewed(db.rows[found.index], e)],
          transactions := db.transactions + [Bill(e, Some(db.rows[found.index].id))])
    else
      Db(db.rows + [Subscription(db.nextId, e.user, e.planName, e.planType, e.price, e.status,
                                 e.periodStart, e.periodEnd, e.stripeId, false, None)],
         db.transactions + [Bill(e, None)], db.nextId + 1)
  }

  function HandleCancel(db: Db, e: Event): Db
    requires e.CancelAtPeriodEnd?
  {
    var found := Find(db.rows, OfUser(e.user));
    if !found.One? || !e.stripeOk then db
    else db.(rows := db.rows[found.index := db.rows[found.index].(status := "canceled", cancelAtPeriodEnd := true, finalCancellation := Some(e.now))])
  }

  /** A cancellation is to be stored as "cancelled", which the enumeration does not have: its commit fails. */
  function HandleUpdated(db: Db, e: Event): Db
    requires e.Updated?
  {
    var found := Find(db.rows, OfStripe(e.stripeId));
    var status := if e.cancel then "cancelled" else "active";
    if !found.One? || status !in STATUSES then db
    else db.(rows := db.rows[found.index := db.rows[found.index].(status := status, cancelAtPeriodEnd := e.cancel)])
  }

  function Handle(db: Db, users: set<int>, e: Event): Db {
    match e
    case Checkout(_, _, _, _, _, _, _, _, _) => HandleCheckout(db, users, e)
    case CancelAtPeriodEnd(_, _, _) => HandleCancel(db, e)
    case Updated(_, _) => HandleUpdated(db, e)
  }

  const EMPTY_DB := Db([], [], 0)

  function HandleAll(users: set<int>, es: seq<Event>): Db {
    if es == [] then EMPTY_DB else Handle(HandleAll(users, es[..|es| - 1]), users, es[|es| - 1])
  }

  // ---------- In place ----------

  class Store {
    var rows: seq<Subscription>
    var transactions: seq<Transaction>
    var nextId: nat
    const users: set<int>

    ghost function View(): Db
      reads this
    {
      Db(rows, transactions, nextId)
    }

    constructor (users: set<int>)
      ensures View() == EMPTY_DB && this.users == users
    {
      rows, transactions, nextId := [], [], 0;
      this.users := users;
    }

    method HandleSubscription(e: Event) returns (committed: bool)
      requires e.Checkout?
      modifies this
      ensures View() == HandleCheckout(old(View()), users, e)
      ensures committed <==> Accepts(old(View()), users, e) && Count(old(rows), OfUser(e.user)) <= 1
    {
      var found := Find(rows, OfUser(e.user));
      if found.Many? {
        return false;
      }
      var known := exists t :: t in transactions && t.eventId == e.eventId;
      if e.status !in STATUSES || known || e.user !in users {
        return false;
      }
      if found.One? && !rows[found.index].cancelAtPeriodEnd {
        var subscription := rows[found.index];
        rows := rows[found.index := Renewed(subscription, e)];
        transactions := transactions + [Bill(e, Some(subscription.id))];
      } else {
        rows := rows + [Subscription(nextId, e.user, e.planName, e.planType, e.price, e.status,
                                     e.periodStart, e.periodEnd, e.stripeId, false, None)];
        transactions := transactions + [Bill(e, None)];
        nextId := nextId + 1;
      }
      committed := true;
    }

    method HandleCancelSubscriptionAtPeriodEnd(e: Event) returns (committed: bool)
      requires e.CancelAtPeriodEnd?
      modifies this`rows
      ensures View() == HandleCancel(old(View()), e)
      ensures committed <==> Count(old(rows), OfUser(e.user)) == 1 && e.stripeOk
    {
      var found := Find(rows, OfUser(e.user));
      if !found.One? || !e.stripeOk {
        return false;
      }
      rows := rows[found.index := rows[found.index].(status := "canceled", cancelAtPeriodEnd := true, finalCancellation := Some(e.now))];
      committed := true;
    }

    method HandleSubscriptionUpdated(e: Event) returns (committed: bool)
      requires e.Updated?
      modifies this`rows
      ensures View() == HandleUpdated(old(View()), e)
      ensures committed <==> Count(old(rows), OfStripe(e.stripeId)) == 1 && !e.cancel
    {
      CancelledIsNoStatus();
      var found := Find(rows, OfStripe(e.stripeId));
      if !found.One? {
        return false;
      }
      var status := if e.cancel then "cancelled" else "active";
      if status !in STATUSES {
        return false;
      }
      rows := rows[found.index := rows[found.index].(status := status, cancelAtPeriodEnd := e.cancel)];
      committed := true;
    }
  }

  lemma CancelledIsNoStatus()
    ensures "cancelled" !in STATUSES && "active" in STATUSES
  {
    assert |"cancelled"| == 9 && forall s | s in STATUSES :: |s| != 9;
  }

  // ---------- Invariants over every serial run ----------

  ghost predicate DistinctEvents(db: Db) {
    forall i, j | 0 <= i < j < |db.transactions| :: db.transactions[i].eventId != db.transactions[j].eventId
  }

  ghost predicate FewRows(db: Db) {
    forall user :: Count(db.rows, OfUser(user)) <= 2
  }

  lemma ReplaceKeepsUsers(rows: seq<Subscription>, i: nat, r: Subscription, user: int)
    requires i < |rows| && r.user == rows[i].user
    ensures Count(rows[i := r], OfUser(user)) == Count(rows, OfUser(user))
  {
    CountUpdate(rows, i, r, OfUser(user));
  }

  /** How a step moves a user's number of rows: only a checkout adds one, to none or to one that is to end. */
  lemma StepMovesRows(db: Db, users: set<int>, e: Event, user: int)
    ensures var n, n' := Count(db.rows, OfUser(user)), Count(Handle(db, users, e).rows, OfUser(user));
            && n <= n' <= n + 1
            && (n' == n + 1 ==> e.Checkout? && e.user == user && n <= 1 &&
                                (n == 1 ==> db.rows[IndexOf(db.rows, OfUser(user))].cancelAtPeriodEnd))
  {
    var db' := Handle(db, users, e);
    if db'.rows != db.rows {
      match e
      case Checkout(u, _, _, _, _, _, _, _, _) =>
        var found := Find(db.rows, OfUser(u));
        if found.One? && !db.rows[found.index].cancelAtPeriodEnd {
          ReplaceKeepsUsers(db.rows, found.index, db'.rows[found.index], user);
        } else {
          CountAppend(db.rows, db'.rows[|db.rows|], OfUser(user));
        }
      case CancelAtPeriodEnd(u, _, _) =>
        var found := Find(db.rows, OfUser(u));
        ReplaceKeepsUsers(db.rows, found.index, db'.rows[found.index], user);
      case Updated(s, _) =>
        var found := Find(db.rows, OfStripe(s));
        ReplaceKeepsUsers(db.rows, found.index, db'.rows[found.index], user);
    }
  }

  lemma StepKeepsEvents(db: Db, users: set<int>, e: Event)
    requires DistinctEvents(db)
    ensures DistinctEvents(Handle(db, users, e))
    ensures db.transactions <= Handle(db, users, e).transactions
  {
    var db' := Handle(db, users, e);
    forall i, j | 0 <= i < j < |db'.transactions| ensures db'.transactions[i].eventId != db'.transactions[j].eventId {
      if j == |db.transactions| {
        assert db.transactions[i] in db.transactions;
      }
    }
  }

  /** In every run event ids are never repeated, and no user ever has more than two rows. */
  lemma {:induction false} RunKeepsInvariants(users: set<int>, es: seq<Event>)
    ensures DistinctEvents(HandleAll(users, es)) && FewRows(HandleAll(users, es))
  {
    if es == [] {
    } else {
      var db := HandleAll(users, es[..|es| - 1]);
      RunKeepsInvariants(users, es[..|es| - 1]);
      StepKeepsEvents(db, users, es[|es| - 1]);
      forall user ensures Count(HandleAll(users, es).rows, OfUser(user)) <= 2 {
        StepMovesRows(db, users, es[|es| - 1], user);
      }
    }
  }

  // ---------- Main results ----------

  /** A second row is created, in any run, only for a user whose one row is set to end with its period. */
  lemma SecondRowNeedsCancellation(users: set<int>, es: seq<Event>, e: Event, user: int)
    requires Count(HandleAll(users, es).rows, OfUser(user)) == 1
    requires Count(Handle(HandleAll(users, es), users, e).rows, OfUser(user)) == 2
    ensures e.Checkout? && e.user == user
    ensures exists r :: r in HandleAll(users, es).rows && r.user == user && r.cancelAtPeriodEnd
  {
    var db := HandleAll(users, es);
    StepMovesRows(db, users, e, user);
    assert db.rows[IndexOf(db.rows, OfUser(user))] in db.rows;
  }

  /** A checkout changes a row and adds its transaction together, or changes nothing. */
  lemma CheckoutIsAtomic(db: Db, users: set<int>, e: Event)
    requires e.Checkout?
    ensures var db' := Handle(db, users, e);
            (db' != db <==> Accepts(db, users, e) && Count(db.rows, OfUser(e.user)) <= 1)
            && (db' != db ==> KnownEvent(db', e.eventId) && |db'.transactions| == |db.transactions| + 1
                              && exists r :: r in db'.rows && r == Renewed(r, e) && r.user == e.user)
  {
    var db' := Handle(db, users, e);
    if db' != db {
      var n := |db.transactions|;
      assert db'.transactions[n] in db'.transactions && db'.transactions[n].eventId == e.eventId;
      var found := Find(db.rows, OfUser(e.user));
      var i := if found.One? && !db.rows[found.index].cancelAtPeriodEnd then found.index else |db.rows|;
      assert db'.rows[i] in db'.rows && db'.rows[i] == Renewed(db'.rows[i], e);
    }
  }

  /**
    For a user with one row, an accepted checkout renews that row unless it is set to
    end; then it leaves it alone and adds a row that is not.
  */
  lemma CheckoutMovesOnlyOwnRow(db: Db, users: set<int>, e: Event)
    requires e.Checkout? && Accepts(db, users, e) && Count(db.rows, OfUser(e.user)) == 1
    ensures var rows := Handle(db, users, e).rows;
            && |rows| >= |db.rows|
            && (forall i | 0 <= i < |db.rows| ::
                  rows[i] == if db.rows[i].user == e.user && !db.rows[i].cancelAtPeriodEnd then Renewed(db.rows[i], e) else db.rows[i])
            && (|rows| > |db.rows| <==> exists r :: r in db.rows && r.user == e.user && r.cancelAtPeriodEnd)
            && (|rows| > |db.rows| ==> rows[|db.rows|].user == e.user && !rows[|db.rows|].cancelAtPeriodEnd)
  {
    var k := IndexOf(db.rows, OfUser(e.user));
    assert db.rows[k] in db.rows;
    forall i | 0 <= i < |db.rows| && db.rows[i].user == e.user ensures i == k {
      CountOneUnique(db.rows, OfUser(e.user), i, k);
    }
  }

  /** What the database lets through: a status of the enumeration, an event id no transaction has, a user there is. */
  ghost predicate Acceptable(db: Db, users: set<int>, e: Event)
    requires e.Checkout?
  {
    && e.status in {"active", "canceled", "past_due", "incomplete", "trialing"}
    && (forall t | t in db.transactions :: t.eventId != e.eventId)
    && e.user in users
  }

  /** A checkout changes nothing exactly when the database refuses it or the user has two rows or more. */
  lemma CheckoutRefusedIff(db: Db, users: set<int>, e: Event)
    requires e.Checkout?
    ensures HandleCheckout(db, users, e) == db <==> !Acceptable(db, users, e) || Count(db.rows, OfUser(e.user)) >= 2
  {
    CheckoutIsAtomic(db, users, e);
  }

  /**
    An accepted checkout of a user whose one row is not set to end writes the event's
    plan, price, status, period and Stripe id into that row, keeps its id, its user and
    its cancellation, and bills it.
  */
  lemma RenewalWrites(db: Db, users: set<int>, e: Event, i: nat)
    requires e.Checkout? && Acceptable(db, users, e) && Count(db.rows, OfUser(e.user)) == 1
    requires i < |db.rows| && db.rows[i].user == e.user && !db.rows[i].cancelAtPeriodEnd
    ensures var db', r := HandleCheckout(db, users, e), db.rows[i];
            && db'.rows == db.rows[i := Subscription(r.id, r.user, e.planName, e.planType, e.price, e.status, e.periodStart,
                                                     e.periodEnd, e.stripeId, r.cancelAtPeriodEnd, r.finalCancellation)]
            && db'.transactions == db.transactions + [Transaction(e.user, Some(r.id), e.price, e.eventId)]
  {
    CountOneUnique(db.rows, OfUser(e.user), i, IndexOf(db.rows, OfUser(e.user)));
  }

  /**
    An accepted checkout of a user without a row, or whose one row is set to end, adds a
    row with the event's fields, which is not set to end, and a bill that is not linked
    to it.
  */
  lemma NewRowWrites(db: Db, users: set<int>, e: Event)
    requires e.Checkout? && Acceptable(db, users, e) && Count(db.rows, OfUser(e.user)) <= 1
    requires forall r | r in db.rows && r.user == e.user :: r.cancelAtPeriodEnd
    ensures var db' := HandleCheckout(db, users, e);
            && db'.rows == db.rows + [Subscription(db.nextId, e.user, e.planName, e.planType, e.price, e.status, e.periodStart,
                                                   e.periodEnd, e.stripeId, false, None)]
            && db'.transactions == db.transactions + [Transaction(e.user, None, e.price, e.eventId)]
  {
    var found := Find(db.rows, OfUser(e.user));
    if found.One? {
      assert db.rows[found.index] in db.rows;
    }
  }

  /** Ids are below the counter and never shared; statuses are of the enumeration and users exist. */
  ghost predicate RowsValid(db: Db, users: set<int>) {
    && (forall i | 0 <= i < |db.rows| ::
          db.rows[i].id < db.nextId && db.rows[i].user in users
          && db.rows[i].status in {"active", "canceled", "past_due", "incomplete", "trialing"})
    && (forall i, j | 0 <= i < j < |db.rows| :: db.rows[i].id != db.rows[j].id)
  }

  lemma StepKeepsRowsValid(db: Db, users: set<int>, e: Event)
    requires RowsValid(db, users)
    ensures RowsValid(Handle(db, users, e), users)
  {
    CancelledIsNoStatus();
  }

  /** In every run a new row has an id that no row had before, and all rows are valid. */
  lemma {:induction false} RunKeepsRowsValid(users: set<int>, es: seq<Event>)
    ensures RowsValid(HandleAll(users, es), users)
  {
    if es == [] {
    } else {
      RunKeepsRowsValid(users, es[..|es| - 1]);
      StepKeepsRowsValid(HandleAll(users, es[..|es| - 1]), users, es[|es| - 1]);
    }
  }

  lemma {:induction false} EventsStayKnown(users: set<int>, es: seq<Event>, more: seq<Event>, eventId: string)
    requires KnownEvent(HandleAll(users, es), eventId)
    ensures KnownEvent(HandleAll(users, es + more), eventId)
  {
    if more == [] {
      assert es + more == es;
    } else {
      var front := es + more[..|more| - 1];
      assert (es + more)[..|es + more| - 1] == front;
      EventsStayKnown(users, es, more[..|more| - 1], eventId);
      var t :| t in HandleAll(users, front).transactions && t.eventId == eventId;
      RunKeepsInvariants(users, front);
      StepKeepsEvents(HandleAll(users, front), users, more[|more| - 1]);
      assert t in HandleAll(users, es + more).transactions;
    }
  }

  /** A checkout that the database lets through is billed, and stays so in every later state. */
  lemma AcceptedStaysBilled(users: set<int>, es: seq<Event>, e: Event, more: seq<Event>)
    requires e.Checkout? && Acceptable(HandleAll(users, es), users, e)
    requires Count(HandleAll(users, es).rows, OfUser(e.user)) <= 1
    ensures KnownEvent(HandleAll(users, es + [e] + more), e.eventId)
  {
    assert (es + [e])[..|es|] == es;
    CheckoutIsAtomic(HandleAll(users, es), users, e);
    EventsStayKnown(users, es + [e], more, e.eventId);
  }

  /**
    Once a checkout event has changed the store, delivering an event with its id
    again, at any later time and with whatever content, changes nothing.
  */
  lemma ReplayChangesNothing(users: set<int>, es: seq<Event>, e: Event, more: seq<Event>, again: Event)
    requires e.Checkout? && again.Checkout? && again.eventId == e.eventId
    requires HandleAll(users, es + [e]) != HandleAll(users, es)
    ensures HandleAll(users, es + [e] + more + [again]) == HandleAll(users, es + [e] + more)
  {
    assert (es + [e])[..|es|] == es;
    CheckoutIsAtomic(HandleAll(users, es), users, e);
    EventsStayKnown(users, es + [e], more, e.eventId);
    var all := es + [e] + more;
    assert (all + [again])[..|all|] == all;
  }

  lemma {:induction false} TwoRowsLast(users: set<int>, es: seq<Event>, more: seq<Event>, user: int)
    requires Count(HandleAll(users, es).rows, OfUser(user)) == 2
    ensures Count(HandleAll(users, es + more).rows, OfUser(user)) == 2
  {
    if more == [] {
      assert es + more == es;
    } else {
      var front := es + more[..|more| - 1];
      assert (es + more)[..|es + more| - 1] == front;
      TwoRowsLast(users, es, more[..|more| - 1], user);
      TwoRowsStay(HandleAll(users, front), users, more[|more| - 1], user);
    }
  }

  /**
    A user with two rows is stuck: in every later state there are still two, and no
    checkout or cancellation of that user changes anything.
  */
  lemma TwoRowsAreFinal(users: set<int>, es: seq<Event>, more: seq<Event>, user: int)
    requires Count(HandleAll(users, es).rows, OfUser(user)) == 2
    ensures var db := HandleAll(users, es + more);
            && Count(db.rows, OfUser(user)) == 2
            && forall e: Event | !e.Updated? && e.user == user :: Handle(db, users, e) == db
  {
    TwoRowsLast(users, es, more, user);
    forall e: Event | !e.Updated? && e.user == user
      ensures Handle(HandleAll(users, es + more), users, e) == HandleAll(users, es + more)
    {
      TwoRowsBlock(HandleAll(users, es + more), users, e);
    }
  }

  lemma TwoRowsStay(db: Db, users: set<int>, e: Event, user: int)
    requires Count(db.rows, OfUser(user)) == 2
    ensures Count(Handle(db, users, e).rows, OfUser(user)) == 2
  {
    StepMovesRows(db, users, e, user);
  }

  lemma TwoRowsBlock(db: Db, users: set<int>, e: Event)
    requires !e.Updated? && Count(db.rows, OfUser(e.user)) == 2
    ensures Handle(db, users, e) == db
  {
  }

  /**
    A user can cancel exactly while having one row and Stripe agreeing; then that
    row, and no other, is set to end.
  */
  lemma CancelIff(db: Db, e: Event)
    requires e.CancelAtPeriodEnd?
    ensures var able := Count(db.rows, OfUser(e.user)) == 1 && e.stripeOk;
            && |HandleCancel(db, e).rows| == |db.rows|
            && forall i | 0 <= i < |db.rows| ::
                 HandleCancel(db, e).rows[i]
                   == if able && db.rows[i].user == e.user
                      then db.rows[i].(status := "canceled", cancelAtPeriodEnd := true, finalCancellation := Some(e.now))
                      else db.rows[i]
    ensures HandleCancel(db, e).transactions == db.transactions
  {
    var found := Find(db.rows, OfUser(e.user));
    if found.One? {
      forall i | 0 <= i < |db.rows| && db.rows[i].user == e.user ensures i == found.index {
        CountOneUnique(db.rows, OfUser(e.user), i, found.index);
      }
    }
  }

  /** A Stripe update that announces a cancellation never changes the store; one that does not can only reactivate a row. */
  lemma CancellingUpdateIsLost(db: Db, e: Event)
    requires e.Updated?
    ensures e.cancel ==> HandleUpdated(db, e) == db
    ensures !e.cancel && Count(db.rows, OfStripe(e.stripeId)) == 1 ==>
              && |HandleUpdated(db, e).rows| == |db.rows|
              && forall i | 0 <= i < |db.rows| ::
                   HandleUpdated(db, e).rows[i] == if db.rows[i].stripeId == e.stripeId
                     then db.rows[i].(status := "active", cancelAtPeriodEnd := false) else db.rows[i]
    ensures HandleUpdated(db, e).transactions == db.transactions
    ensures !e.cancel && Count(db.rows, OfStripe(e.stripeId)) != 1 ==> HandleUpdated(db, e) == db
  {
    CancelledIsNoStatus();
    var found := Find(db.rows, OfStripe(e.stripeId));
    if found.One? {
      forall i | 0 <= i < |db.rows| && db.rows[i].stripeId == e.stripeId ensures i == found.index {
        CountOneUnique(db.rows, OfStripe(e.stripeId), i, found.index);
      }
    }
  }

  /** Every transaction of a run stems from a checkout event of that run, and each event id is billed at most once. */
  lemma {:induction false} BillsComeFromCheckouts(users: set<int>, es: seq<Event>, t: Transaction)
    requires t in HandleAll(users, es).transactions
    ensures exists e :: e in es && e.Checkout? && e.eventId == t.eventId && e.user == t.user && e.price == t.amount
  {
    if es == [] {
    } else {
      var front, e := es[..|es| - 1], es[|es| - 1];
      if t in HandleAll(users, front).transactions {
        BillsComeFromCheckouts(users, front, t);
        var x :| x in front && x.Checkout? && x.eventId == t.eventId && x.user == t.user && x.price == t.amount;
        assert x in es;
      } else {
        assert e in es;
      }
    }
  }

  /**
    The way into the dead end, for any user with one row: cancel, then subscribe
    again. The user then has two rows and can no longer cancel.
  */
  lemma ResubscribingLocksOut(db: Db, users: set<int>, cancel: Event, again: Event)
    requires cancel.CancelAtPeriodEnd? && cancel.stripeOk && again.Checkout? && again.user == cancel.user
    requires Count(db.rows, OfUser(cancel.user)) == 1 && Accepts(db, users, again)
    ensures var db' := Handle(Handle(db, users, cancel), users, again);
            Count(db'.rows, OfUser(cancel.user)) == 2 && Handle(db', users, cancel) == db'
  {
    var k := IndexOf(db.rows, OfUser(cancel.user));
    var db1 := Handle(db, users, cancel);
    ReplaceKeepsUsers(db.rows, k, db1.rows[k], cancel.user);
    var i := IndexOf(db1.rows, OfUser(cancel.user));
    assert i == k by {
      assert db1.rows[i].user == cancel.user && db.rows[i].user == cancel.user;
      CountOneUnique(db.rows, OfUser(cancel.user), i, k);
    }
    var db2 := Handle(db1, users, again);
    CountAppend(db1.rows, db2.rows[|db1.rows|], OfUser(cancel.user));
    TwoRowsBlock(db2, users, cancel);
  }
}
