/** From the exchange's account list to the balance that the rest of the program reads. */
module Balances {
  import opened Wrappers

  /** The hold of an account: absent, or present with a value that may not be a number. */
  datatype Hold = NoHold | Held(value: Option<real>)

  /** One account as answered: its code and its available amount may be missing or malformed. */
  datatype Account = Account(code: Option<string>, available: Option<real>, hold: Hold)

  datatype Amounts = Amounts(free: real, total: real)

  const FREE := "free"
  const USED := "used"
  const TOTAL := "total"
  const TABLES := {FREE, USED, TOTAL}

  /** One dictionary holds both the per-currency entries and, under reserved keys, the three tables. */
  type Balance = b: map<string, map<string, real>> | TABLES <= b.Keys witness map[FREE := map[], USED := map[], TOTAL := map[]]

  function Parse(a: Account): Option<Amounts> {
    if a.available.None? then None
    else if a.hold.NoHold? then Some(Amounts(a.available.value, a.available.value))
    else if a.hold.value.None? then None
    else Some(Amounts(a.available.value, a.available.value + a.hold.value.value))
  }

  function Entry(x: Amounts): map<string, real> {
    map[FREE := x.free, USED := x.total - x.free, TOTAL := x.total]
  }

  function Put(b: Balance, table: string, code: string, x: real): Balance
    requires table in TABLES
  {
    b[table := b[table][code := x]]
  }

  function Write(b: Balance, code: string, x: Amounts): Balance {
    var b1: Balance := b[code := Entry(x)];
    Put(Put(Put(b1, FREE, code, x.free), TOTAL, code, x.total), USED, code, x.total - x.free)
  }

  /** What one account adds; one that does not parse adds nothing. */
  function Apply(b: Balance, a: Account): Balance {
    if a.code.Some? && Parse(a).Some? then Write(b, a.code.value, Parse(a).value) else b
  }

  const EMPTY_BALANCE: Balance := map[FREE := map[], USED := map[], TOTAL := map[]]

  function ApplyAll(accounts: seq<Account>): Balance {
    if accounts == [] then EMPTY_BALANCE
    else Apply(ApplyAll(accounts[..|accounts| - 1]), accounts[|accounts| - 1])
  }

  predicate Coded(accounts: seq<Account>) {
    forall a | a in accounts :: a.code.Some?
  }

  /** Fails only when an account has no code. */
  method BuildBalance(accounts: seq<Account>) returns (r: Option<Balance>)
    ensures r.Some? <==> Coded(accounts)
    ensures r.Some? ==> r.value == ApplyAll(accounts)
  {
    var b := EMPTY_BALANCE;
    for i := 0 to |accounts|
      invariant b == ApplyAll(accounts[..i])
      invariant forall j | 0 <= j < i :: accounts[j].code.Some?
    {
      var a := accounts[i];
      assert accounts[..i + 1][..i] == accounts[..i];
      if a.code.None? {
        return None;
      }
      var x := Parse(a);
      if x.Some? {
        var code := a.code.value;
        b := b[code := Entry(x.value)];
        b := b[FREE := b[FREE][code := x.value.free]];
        b := b[TOTAL := b[TOTAL][code := x.value.total]];
        b := b[USED := b[USED][code := x.value.total - x.value.free]];
      }
    }
    assert accounts[..|accounts|] == accounts;
    r := Some(b);
  }

  // ---------- What the balance says ----------

  /** The amounts of the last account with this code that parses. */
  function LastParsed(accounts: seq<Account>, code: string): Option<Amounts> {
    if accounts == [] then None
    else
      var a := accounts[|accounts| - 1];
      if a.code == Some(code) && Parse(a).Some? then Parse(a) else LastParsed(accounts[..|accounts| - 1], code)
  }

  ghost predicate Mentions(b: Balance, code: string, x: Option<Amounts>) {
    && (code in b <==> x.Some?) && (code in b[FREE] <==> x.Some?) && (code in b[USED] <==> x.Some?) && (code in b[TOTAL] <==> x.Some?)
    && (x.Some? ==> b[code] == Entry(x.value) && b[FREE][code] == x.value.free && b[TOTAL][code] == x.value.total
                    && b[USED][code] == x.value.total - x.value.free)
  }

  /** The amounts of the account can be read: a hold may be absent, but not malformed. */
  predicate Readable(a: Account) {
    a.available.Some? && (a.hold.NoHold? || a.hold.value.Some?)
  }

  function HoldOf(a: Account): real
    requires Readable(a)
  {
    if a.hold.NoHold? then 0.0 else a.hold.value.value
  }

  /** The position of the last account with this code that can be read, or -1. */
  function LastReadable(accounts: seq<Account>, code: string): (i: int)
    ensures -1 <= i < |accounts|
    ensures i >= 0 ==> accounts[i].code == Some(code) && Readable(accounts[i])
    ensures forall j | i < j < |accounts| :: !(accounts[j].code == Some(code) && Readable(accounts[j]))
  {
    if accounts == [] then -1
    else if accounts[|accounts| - 1].code == Some(code) && Readable(accounts[|accounts| - 1]) then |accounts| - 1
    else LastReadable(accounts[..|accounts| - 1], code)
  }

  /** No account that parses carries one of the reserved keys as its code. */
  ghost predicate NoReserved(accounts: seq<Account>) {
    forall a | a in accounts && a.code.Some? && Readable(a) :: a.code.value !in TABLES
  }

  lemma ReservedDiffer()
    ensures FREE != USED && FREE != TOTAL && USED != TOTAL
  {
    assert |FREE| == 4 && |USED| == 4 && |TOTAL| == 5 && FREE[0] == 'f' && USED[0] == 'u';
  }

  lemma WriteMentions(b: Balance, code: string, x: Amounts, c: string, y: Option<Amounts>)
    requires code !in TABLES && c !in TABLES && Mentions(b, c, y)
    ensures Mentions(Write(b, code, x), c, if c == code then Some(x) else y)
    ensures forall t | t in TABLES :: Write(b, code, x)[t].Keys == b[t].Keys + {code}
  {
    ReservedDiffer();
  }

  /**
    Without reserved codes, the entry and the three tables agree for every currency:
    they show the last account with that code that parsed, and a code of which none
    parsed appears nowhere.
  */
  lemma {:induction false} BalanceShowsLastParsed(accounts: seq<Account>, c: string)
    requires NoReserved(accounts) && c !in TABLES
    ensures Mentions(ApplyAll(accounts), c, LastParsed(accounts, c))
  {
    if accounts == [] {
    } else {
      var front, a := accounts[..|accounts| - 1], accounts[|accounts| - 1];
      BalanceShowsLastParsed(front, c);
      if a.code.Some? && Parse(a).Some? {
        WriteMentions(ApplyAll(front), a.code.value, Parse(a).value, c, LastParsed(front, c));
      }
    }
  }

  lemma {:induction false} LastParsedIs(accounts: seq<Account>, c: string)
    ensures LastParsed(accounts, c)
         == var i := LastReadable(accounts, c); if i < 0 then None else Parse(accounts[i])
  {
    if accounts == [] {
    } else {
      LastParsedIs(accounts[..|accounts| - 1], c);
    }
  }

  /**
    For each currency the balance shows the last account that can be read: free is
    what is available, used is what is held, and total is both together.
  */
  lemma BalanceShowsAvailableAndHold(accounts: seq<Account>, c: string)
    requires NoReserved(accounts) && c !in TABLES
    ensures var b, i := ApplyAll(accounts), LastReadable(accounts, c);
            && (c in b <==> i >= 0) && (c in b[FREE] <==> i >= 0) && (c in b[USED] <==> i >= 0) && (c in b[TOTAL] <==> i >= 0)
            && (i >= 0 ==>
                  var free, used := accounts[i].available.value, HoldOf(accounts[i]);
                  && b[FREE][c] == free && b[USED][c] == used && b[TOTAL][c] == free + used
                  && b[c] == map[FREE := free, USED := used, TOTAL := free + used])
  {
    BalanceShowsLastParsed(accounts, c);
    LastParsedIs(accounts, c);
  }

  /** The entry and the three tables agree on a currency, and its free + used = total. */
  ghost predicate Agrees(b: Balance, c: string) {
    && c in b && c in b[FREE] && c in b[USED] && c in b[TOTAL]
    && b[c] == map[FREE := b[FREE][c], USED := b[USED][c], TOTAL := b[TOTAL][c]]
    && b[FREE][c] + b[USED][c] == b[TOTAL][c]
  }

  /** Entries and tables name the same currencies, and agree on each. */
  ghost predicate Coherent(b: Balance) {
    && b[FREE].Keys == b[USED].Keys == b[TOTAL].Keys == b.Keys - TABLES
    && forall c | c in b[FREE] :: Agrees(b, c)
  }

  /** Where a write with an ordinary code goes. */
  lemma WriteIs(b: Balance, code: string, x: Amounts)
    requires code !in TABLES
    ensures var b' := Write(b, code, x);
            && b' == b[code := Entry(x)][FREE := b[FREE][code := x.free]][TOTAL := b[TOTAL][code := x.total]]
                      [USED := b[USED][code := x.total - x.free]]
            && b'.Keys == b.Keys + {code}
  {
    ReservedDiffer();
  }

  lemma WriteAgrees(b: Balance, code: string, x: Amounts, c: string)
    requires code !in TABLES && c !in TABLES && (c == code || Agrees(b, c))
    ensures Agrees(Write(b, code, x), c)
  {
    ReservedDiffer();
    WriteIs(b, code, x);
  }

  lemma WriteKeepsCoherent(b: Balance, code: string, x: Amounts)
    requires Coherent(b) && code !in TABLES
    ensures Coherent(Write(b, code, x))
  {
    var b' := Write(b, code, x);
    ReservedDiffer();
    WriteIs(b, code, x);
    assert b'[FREE].Keys == b[FREE].Keys + {code};
    assert b'[USED].Keys == b[USED].Keys + {code};
    assert b'[TOTAL].Keys == b[TOTAL].Keys + {code};
    assert b'.Keys - TABLES == (b.Keys - TABLES) + {code};
    forall c | c in b'[FREE] ensures Agrees(b', c) {
      assert c != code ==> c in b[FREE] && Agrees(b, c);
      WriteAgrees(b, code, x, c);
    }
  }

  /** A reserved key is listed as if it were a currency. */
  ghost predicate ListsReserved(b: Balance) {
    exists t :: t in TABLES && t in b[USED]
  }

  /** Once a reserved key is listed, one is listed for ever, and writing one lists it. */
  lemma WriteListsReserved(b: Balance, code: string, x: Amounts)
    requires code in TABLES || ListsReserved(b)
    ensures ListsReserved(Write(b, code, x))
  {
    ReservedDiffer();
    var b' := Write(b, code, x);
    assert code in b'[USED];
    if code !in TABLES {
      WriteIs(b, code, x);
      var t :| t in TABLES && t in b[USED];
      assert t in b'[USED];
    }
  }

  lemma {:induction false} ReservedStaysListed(accounts: seq<Account>)
    requires !NoReserved(accounts)
    ensures ListsReserved(ApplyAll(accounts))
  {
    if accounts == [] {
    } else {
      var front, a := accounts[..|accounts| - 1], accounts[|accounts| - 1];
      assert accounts == front + [a];
      if !NoReserved(front) {
        ReservedStaysListed(front);
      }
      if a.code.Some? && Parse(a).Some? {
        WriteListsReserved(ApplyAll(front), a.code.value, Parse(a).value);
      }
    }
  }

  lemma {:induction false} UnreservedStaysCoherent(accounts: seq<Account>)
    requires NoReserved(accounts)
    ensures Coherent(ApplyAll(accounts))
  {
    if accounts == [] {
      ReservedDiffer();
      assert EMPTY_BALANCE.Keys - TABLES == {};
    } else {
      var front, a := accounts[..|accounts| - 1], accounts[|accounts| - 1];
      assert accounts == front + [a];
      UnreservedStaysCoherent(front);
      if a.code.Some? && Parse(a).Some? {
        WriteKeepsCoherent(ApplyAll(front), a.code.value, Parse(a).value);
      }
    }
  }

  /**
    The balance built from a list of accounts is coherent exactly when no account
    that parses has one of the reserved keys as its code.
  */
  lemma CoherentIffNoReserved(accounts: seq<Account>)
    ensures Coherent(ApplyAll(accounts)) <==> NoReserved(accounts)
  {
    if NoReserved(accounts) {
      UnreservedStaysCoherent(accounts);
    } else {
      ReservedStaysListed(accounts);
    }
  }
}
