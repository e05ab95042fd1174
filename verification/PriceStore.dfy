/** The shared store of top-10 prices: one entry per product, kept in the order in which products were first seen. */
module PriceStore {

  datatype Quote = Quote(
    price: string, open24h: string, volume24h: string, low24h: string, high24h: string,
    bestBid: string, bestAsk: string, side: string, time: string)

  /** A received message: one that raises when read, a ticker, or anything else. An empty product is ignored. */
  datatype Message = Unreadable | Ticker(product: string, quote: Quote) | Other

  datatype Row = Row(symbol: string, quote: Quote)

  /** A dictionary with its insertion order; overwriting keeps a key's place. */
  datatype Store = Store(order: seq<string>, rows: map<string, Row>)

  const EMPTY_STORE := Store([], map[])

  predicate Prices(m: Message) {
    m.Ticker? && m.product != ""
  }

  function Put(s: Store, k: string, r: Row): Store {
    Store(if k in s.rows then s.order else s.order + [k], s.rows[k := r])
  }

  function Apply(s: Store, m: Message): Store {
    if Prices(m) then Put(s, m.product, Row(m.product, m.quote)) else s
  }

  function ApplyAll(s: Store, ms: seq<Message>): Store {
    if ms == [] then s else Apply(ApplyAll(s, ms[..|ms| - 1]), ms[|ms| - 1])
  }

  /** What one connection delivers before a message raises. */
  function Readable(stream: seq<Message>): seq<Message> {
    if stream == [] || stream[0].Unreadable? then [] else [stream[0]] + Readable(stream[1..])
  }

  /** What all connections deliver, one after the other. */
  function Delivered(streams: seq<seq<Message>>): seq<Message> {
    if streams == [] then [] else Delivered(streams[..|streams| - 1]) + Readable(streams[|streams| - 1])
  }

  /** What a connection delivers is its longest beginning of which every message can be read. */
  lemma {:induction false} ReadableIs(stream: seq<Message>)
    ensures Readable(stream) <= stream
    ensures forall m :: m in Readable(stream) ==> !m.Unreadable?
    ensures |Readable(stream)| < |stream| ==> stream[|Readable(stream)|].Unreadable?
  {
    if stream == [] || stream[0].Unreadable? {
    } else {
      ReadableIs(stream[1..]);
    }
  }

  /** Connections deliver one after the other, each what can be read of it. */
  lemma {:induction false} DeliveredInTurn(a: seq<seq<Message>>, b: seq<seq<Message>>)
    ensures Delivered(a + b) == Delivered(a) + Delivered(b)
    ensures forall stream :: Delivered([stream]) == Readable(stream)
  {
    forall stream ensures Delivered([stream]) == Readable(stream) {
      assert [stream][..0] == [] && Delivered([stream]) == [] + Readable(stream);
    }
    if b == [] {
      assert a + b == a;
    } else {
      assert (a + b)[..|a + b| - 1] == a + b[..|b| - 1];
      DeliveredInTurn(a, b[..|b| - 1]);
    }
  }

  lemma {:induction false} ApplyConcat(s: Store, a: seq<Message>, b: seq<Message>)
    ensures ApplyAll(s, a + b) == ApplyAll(ApplyAll(s, a), b)
  {
    if b == [] {
      assert a + b == a;
    } else {
      assert (a + b)[..|a + b| - 1] == a + b[..|b| - 1];
      ApplyConcat(s, a, b[..|b| - 1]);
    }
  }

  class Listener {
    var order: seq<string>
    var rows: map<string, Row>

    ghost function View(): Store
      reads this
    {
      Store(order, rows)
    }

    constructor ()
      ensures View() == EMPTY_STORE
    {
      order, rows := [], map[];
    }

    /** One connection, until it ends or a message raises. */
    method Connection(stream: seq<Message>)
      modifies this
      ensures View() == ApplyAll(old(View()), Readable(stream))
    {
      var i := 0;
      ghost var read: seq<Message> := [];
      while i < |stream| && !stream[i].Unreadable?
        invariant 0 <= i <= |stream|
        invariant read + Readable(stream[i..]) == Readable(stream)
        invariant View() == ApplyAll(old(View()), read)
      {
        var m := stream[i];
        if m.Ticker? && m.product != "" {
          if m.product !in rows {
            order := order + [m.product];
          }
          rows := rows[m.product := Row(m.product, m.quote)];
        }
        assert stream[i..][1..] == stream[i + 1..];
        assert (read + [m])[..|read|] == read;
        assert read + Readable(stream[i..]) == (read + [m]) + Readable(stream[i + 1..]);
        read := read + [m];
        i := i + 1;
      }
      assert Readable(stream[i..]) == [];
      assert read + [] == read;
    }

    /** Reconnects after every connection. */
    method Listen(streams: seq<seq<Message>>)
      modifies this
      ensures View() == ApplyAll(old(View()), Delivered(streams))
    {
      for c := 0 to |streams|
        invariant View() == ApplyAll(old(View()), Delivered(streams[..c]))
      {
        Connection(streams[c]);
        assert streams[..c + 1][..c] == streams[..c];
        ApplyConcat(old(View()), Delivered(streams[..c]), Readable(streams[c]));
      }
      assert streams[..|streams|] == streams;
    }
  }

  // ---------- What the store shows ----------

  /** The position of the last price of a product, or -1. */
  function LastPrice(ms: seq<Message>, k: string): (i: int)
    ensures -1 <= i < |ms|
    ensures i >= 0 ==> Prices(ms[i]) && ms[i].product == k
    ensures forall j | i < j < |ms| :: !(Prices(ms[j]) && ms[j].product == k)
  {
    if ms == [] then -1
    else if Prices(ms[|ms| - 1]) && ms[|ms| - 1].product == k then |ms| - 1
    else LastPrice(ms[..|ms| - 1], k)
  }

  /** The position of the first price of a product, or the number of messages. */
  function FirstPrice(ms: seq<Message>, k: string): (i: nat)
    ensures i <= |ms|
    ensures i < |ms| ==> Prices(ms[i]) && ms[i].product == k
    ensures forall j | 0 <= j < i :: !(Prices(ms[j]) && ms[j].product == k)
  {
    if ms == [] then 0
    else
      var i := FirstPrice(ms[..|ms| - 1], k);
      if i < |ms| - 1 || (Prices(ms[|ms| - 1]) && ms[|ms| - 1].product == k) then i else |ms|
  }

  /** After any messages the store holds, for each product seen, its last price. */
  lemma {:induction false} StoreHoldsLast(ms: seq<Message>, k: string)
    ensures k in ApplyAll(EMPTY_STORE, ms).rows <==> LastPrice(ms, k) >= 0
    ensures LastPrice(ms, k) >= 0 ==> ApplyAll(EMPTY_STORE, ms).rows[k] == Row(k, ms[LastPrice(ms, k)].quote)
  {
    if ms == [] {
    } else {
      StoreHoldsLast(ms[..|ms| - 1], k);
    }
  }

  /** The products stored are those of the tickers received, except for the empty one. */
  lemma {:induction false} StoredIff(ms: seq<Message>, k: string)
    ensures k in ApplyAll(EMPTY_STORE, ms).rows <==> k != "" && exists m :: m in ms && m.Ticker? && m.product == k
  {
    if ms == [] {
    } else {
      var front, m := ms[..|ms| - 1], ms[|ms| - 1];
      StoredIff(front, k);
      assert ms == front + [m];
    }
  }

  /** Each product is listed once, and products are listed by their first price. */
  ghost predicate InFirstOrder(order: seq<string>, ms: seq<Message>) {
    && (forall k :: k in order <==> FirstPrice(ms, k) < |ms|)
    && (forall i, j | 0 <= i < j < |order| :: FirstPrice(ms, order[i]) < FirstPrice(ms, order[j]))
  }

  lemma FirstOfMore(ms: seq<Message>, m: Message, k: string)
    ensures FirstPrice(ms + [m], k)
         == if FirstPrice(ms, k) < |ms| then FirstPrice(ms, k) else if Prices(m) && m.product == k then |ms| else |ms| + 1
  {
    assert (ms + [m])[..|ms|] == ms;
  }

  lemma OrderOfMore(order: seq<string>, ms: seq<Message>, m: Message)
    requires InFirstOrder(order, ms)
    ensures InFirstOrder(if Prices(m) && m.product !in order then order + [m.product] else order, ms + [m])
  {
    forall k ensures FirstPrice(ms + [m], k)
                  == if FirstPrice(ms, k) < |ms| then FirstPrice(ms, k) else if Prices(m) && m.product == k then |ms| else |ms| + 1 {
      FirstOfMore(ms, m, k);
    }
    forall i | 0 <= i < |order| ensures FirstPrice(ms, order[i]) < |ms| {
      assert order[i] in order;
    }
  }

  /** The listed products are the keys. */
  ghost predicate ListsKeys(s: Store) {
    forall k :: k in s.order <==> k in s.rows
  }

  /** A message lists its product when it is new. */
  lemma ApplyLists(s: Store, m: Message)
    requires ListsKeys(s)
    ensures ListsKeys(Apply(s, m))
    ensures Apply(s, m).order == if Prices(m) && m.product !in s.order then s.order + [m.product] else s.order
  {
  }

  lemma NothingListed()
    ensures ListsKeys(EMPTY_STORE) && InFirstOrder(EMPTY_STORE.order, [])
  {
  }

  /** After any messages the values are listed in the order in which their products were first seen. */
  lemma {:induction false} StoreListsByFirst(ms: seq<Message>)
    ensures ListsKeys(ApplyAll(EMPTY_STORE, ms)) && InFirstOrder(ApplyAll(EMPTY_STORE, ms).order, ms)
  {
    hide FirstPrice, InFirstOrder, Apply, ListsKeys;
    if ms == [] {
      NothingListed();
    } else {
      var front, m := ms[..|ms| - 1], ms[|ms| - 1];
      StoreListsByFirst(front);
      ApplyLists(ApplyAll(EMPTY_STORE, front), m);
      OrderOfMore(ApplyAll(EMPTY_STORE, front).order, front, m);
      assert ms == front + [m];
    }
  }
}
