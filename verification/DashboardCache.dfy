/** The dashboard cache: a worker that refreshes it in passes, entries that expire, and readers. Times are in milliseconds. */
module DashboardCache {
  import opened Wrappers

  const TTL := 40_000
  const REFRESH := 30_000

  type Payload = string

  /** One user's turn in a pass: how long it takes, and the dashboard unless the calculation or the write fails. */
  datatype Turn = Turn(user: int, took: nat, dashboard: Option<Payload>)

  /** One pass over all users; a pass whose user query fails has no turns. */
  datatype Pass = Pass(query: nat, turns: seq<Turn>)

  datatype Write = Write(time: int, data: Payload)

  // ---------- When the worker writes ----------

  /** How long the query and the given turns take. */
  function Took(query: nat, turns: seq<Turn>): nat {
    if turns == [] then query else Took(query, turns[..|turns| - 1]) + turns[|turns| - 1].took
  }

  function Duration(p: Pass): nat {
    Took(p.query, p.turns)
  }

  /** When the pass after `ps` starts. */
  function Start(start: int, ps: seq<Pass>): int {
    if ps == [] then start else Start(start, ps[..|ps| - 1]) + Duration(ps[|ps| - 1]) + REFRESH
  }

  /** The writes for `user` in the given turns of a pass that starts at `t`. */
  function TurnWrites(t: int, query: nat, turns: seq<Turn>, user: int): seq<Write> {
    if turns == [] then []
    else
      var k := turns[|turns| - 1];
      TurnWrites(t, query, turns[..|turns| - 1], user)
      + if k.user == user && k.dashboard.Some? then [Write(t + Took(query, turns), k.dashboard.value)] else []
  }

  function Log(start: int, ps: seq<Pass>, user: int): seq<Write> {
    if ps == [] then []
    else
      var front, p := ps[..|ps| - 1], ps[|ps| - 1];
      Log(start, front, user) + TurnWrites(Start(start, front), p.query, p.turns, user)
  }

  /** A pass lists every user once. */
  ghost predicate Distinct(p: Pass) {
    forall i, j | 0 <= i < j < |p.turns| :: p.turns[i].user != p.turns[j].user
  }

  ghost predicate AllDistinct(ps: seq<Pass>) {
    forall i | 0 <= i < |ps| :: Distinct(ps[i])
  }

  predicate Serves(turns: seq<Turn>, user: int) {
    exists i :: 0 <= i < |turns| && turns[i].user == user && turns[i].dashboard.Some?
  }

  // ---------- What a reader gets ----------

  /** The newest write at or before `t`, unless it has expired. */
  function Read(log: seq<Write>, t: int): Option<Payload> {
    if log == [] then None
    else
      var w := log[|log| - 1];
      if t < w.time then Read(log[..|log| - 1], t)
      else if t < w.time + TTL then Some(w.data) else None
  }

  ghost predicate Ascending(log: seq<Write>) {
    forall i, j | 0 <= i < j < |log| :: log[i].time < log[j].time
  }

  /** Whatever is served was written less than 40 seconds earlier, and nothing was written since. */
  lemma {:induction false} ServedIsFresh(log: seq<Write>, t: int)
    requires Read(log, t).Some?
    ensures exists i :: 0 <= i < |log| && log[i].data == Read(log, t).value && log[i].time <= t < log[i].time + TTL
                        && forall j | i < j < |log| :: t < log[j].time
  {
    var n := |log| - 1;
    if t < log[n].time {
      ServedIsFresh(log[..n], t);
      var i :| 0 <= i < n && log[..n][i].data == Read(log, t).value && log[..n][i].time <= t < log[..n][i].time + TTL
               && forall j | i < j < n :: t < log[..n][j].time;
      assert log[i] == log[..n][i];
      forall j | i < j < |log| ensures t < log[j].time {
        assert j < n ==> log[j] == log[..n][j];
      }
    }
  }

  /** From the first write until the last one expires a reader always finds an entry. */
  ghost predicate NeverMisses(log: seq<Write>) {
    log == [] || forall t | log[0].time <= t < log[|log| - 1].time + TTL :: Read(log, t).Some?
  }

  ghost predicate GapsCovered(log: seq<Write>) {
    forall i | 0 < i < |log| :: log[i].time <= log[i - 1].time + TTL
  }

  lemma {:induction false} CoveredNeverMisses(log: seq<Write>, t: int)
    requires Ascending(log) && GapsCovered(log) && log != [] && log[0].time <= t < log[|log| - 1].time + TTL
    ensures Read(log, t).Some?
  {
    var n := |log| - 1;
    if t < log[n].time {
      CoveredNeverMisses(log[..n], t);
    }
  }

  lemma {:induction false} ReadBetween(log: seq<Write>, i: nat, t: int)
    requires Ascending(log) && i < |log| && log[i].time <= t && (i + 1 < |log| ==> t < log[i + 1].time)
    ensures Read(log, t).Some? <==> t < log[i].time + TTL
  {
    var n := |log| - 1;
    if i < n {
      assert t < log[n].time;
      ReadBetween(log[..n], i, t);
    }
  }

  /** Readers never miss exactly when no two consecutive writes are more than the TTL apart. */
  lemma NeverMissesIff(log: seq<Write>)
    requires Ascending(log)
    ensures NeverMisses(log) <==> GapsCovered(log)
  {
    if GapsCovered(log) {
      forall t | log != [] && log[0].time <= t < log[|log| - 1].time + TTL ensures Read(log, t).Some? {
        CoveredNeverMisses(log, t);
      }
    } else {
      var i :| 0 < i < |log| && log[i].time > log[i - 1].time + TTL;
      var t := log[i - 1].time + TTL;
      ReadBetween(log, i - 1, t);
      assert i - 1 > 0 ==> log[0].time < log[i - 1].time;
      assert i < |log| - 1 ==> log[i].time < log[|log| - 1].time;
      assert log[0].time <= t < log[|log| - 1].time + TTL;
    }
  }

  // ---------- The worker's writes against the clock ----------

  ghost predicate Within(log: seq<Write>, lo: int, hi: int) {
    forall i | 0 <= i < |log| :: lo <= log[i].time <= hi
  }

  lemma {:induction false} TurnWritesWithin(t: int, query: nat, turns: seq<Turn>, user: int)
    ensures Within(TurnWrites(t, query, turns, user), t, t + Took(query, turns))
    ensures TurnWrites(t, query, turns, user) == [] <==> !Serves(turns, user)
  {
    if turns == [] {
    } else {
      var n := |turns| - 1;
      TurnWritesWithin(t, query, turns[..n], user);
      if Serves(turns[..n], user) {
        var i :| 0 <= i < n && turns[..n][i].user == user && turns[..n][i].dashboard.Some?;
        assert turns[i].user == user;
      }
    }
  }

  lemma {:induction false} AtMostOneWrite(t: int, query: nat, turns: seq<Turn>, user: int)
    requires forall i, j | 0 <= i < j < |turns| :: turns[i].user != turns[j].user
    ensures |TurnWrites(t, query, turns, user)| <= 1
  {
    if turns == [] {
    } else {
      var n := |turns| - 1;
      AtMostOneWrite(t, query, turns[..n], user);
      TurnWritesWithin(t, query, turns[..n], user);
    }
  }

  lemma {:induction false} StartAdvances(start: int, ps: seq<Pass>, k: nat)
    requires k < |ps|
    ensures Start(start, ps[..k]) + Duration(ps[k]) + REFRESH <= Start(start, ps)
  {
    var n := |ps| - 1;
    if k == n {
    } else {
      StartAdvances(start, ps[..n], k);
      assert ps[..n][..k] == ps[..k];
    }
  }

  /** Every write so far happened before the pause that precedes the next pass. */
  lemma {:induction false} LogWithin(start: int, ps: seq<Pass>, user: int)
    ensures Within(Log(start, ps, user), start, Start(start, ps) - REFRESH)
  {
    if ps == [] {
    } else {
      var front, p := ps[..|ps| - 1], ps[|ps| - 1];
      LogWithin(start, front, user);
      StartNotBefore(start, front);
      TurnWritesWithin(Start(start, front), p.query, p.turns, user);
      WithinBoth(Log(start, front, user), TurnWrites(Start(start, front), p.query, p.turns, user), start,
                 Start(start, front) - REFRESH, Start(start, front), Start(start, ps) - REFRESH);
    }
  }

  lemma WithinBoth(log: seq<Write>, w: seq<Write>, lo: int, mid: int, mid': int, hi: int)
    requires Within(log, lo, mid) && Within(w, mid', hi) && lo <= mid' && mid <= hi
    ensures Within(log + w, lo, hi)
  {
  }

  lemma {:induction false} LogIsPast(start: int, ps: seq<Pass>, user: int)
    requires AllDistinct(ps)
    ensures Ascending(Log(start, ps, user))
    ensures Within(Log(start, ps, user), start, Start(start, ps) - REFRESH)
  {
    LogWithin(start, ps, user);
    if ps == [] {
    } else {
      var front, p := ps[..|ps| - 1], ps[|ps| - 1];
      LogIsPast(start, front, user);
      TurnWritesWithin(Start(start, front), p.query, p.turns, user);
      AtMostOneWrite(Start(start, front), p.query, p.turns, user);
      StartNotBefore(start, front);
      LaterWrite(Log(start, front, user), TurnWrites(Start(start, front), p.query, p.turns, user),
                 start, Start(start, front), Start(start, ps) - REFRESH);
    }
  }

  lemma LaterWrite(log: seq<Write>, w: seq<Write>, lo: int, mid: int, hi: int)
    requires Ascending(log) && Within(log, lo, mid - REFRESH) && |w| <= 1 && Within(w, mid, hi) && lo <= mid <= hi
    ensures Ascending(log + w) && Within(log + w, lo, hi)
  {
  }

  lemma {:induction false} StartNotBefore(start: int, ps: seq<Pass>)
    ensures start <= Start(start, ps)
  {
    if ps == [] {
    } else {
      StartNotBefore(start, ps[..|ps| - 1]);
    }
  }

  ghost predicate AllServe(ps: seq<Pass>, user: int) {
    forall i | 0 <= i < |ps| :: Serves(ps[i].turns, user)
  }

  /** The k-th write lies inside the k-th pass. */
  ghost predicate WroteIn(start: int, ps: seq<Pass>, log: seq<Write>, k: nat) {
    k < |ps| && k < |log| && Start(start, ps[..k]) <= log[k].time <= Start(start, ps[..k]) + Duration(ps[k])
  }

  lemma WroteInMore(start: int, ps: seq<Pass>, p: Pass, log: seq<Write>, w: seq<Write>, k: nat)
    requires |log| == |ps| && |w| == 1 && k <= |ps|
    requires if k < |ps| then WroteIn(start, ps, log, k) else Within(w, Start(start, ps), Start(start, ps) + Duration(p))
    ensures WroteIn(start, ps + [p], log + w, k)
  {
    assert (ps + [p])[..k] == ps[..k];
    assert k == |ps| ==> ps[..k] == ps;
  }

  lemma {:induction false} OneWriteAPass(start: int, ps: seq<Pass>, user: int)
    requires AllDistinct(ps) && AllServe(ps, user)
    ensures |Log(start, ps, user)| == |ps|
    ensures forall k | 0 <= k < |ps| :: WroteIn(start, ps, Log(start, ps, user), k)
  {
    if ps == [] {
    } else {
      var front, p := ps[..|ps| - 1], ps[|ps| - 1];
      var log, w := Log(start, front, user), TurnWrites(Start(start, front), p.query, p.turns, user);
      OneWriteAPass(start, front, user);
      TurnWritesWithin(Start(start, front), p.query, p.turns, user);
      AtMostOneWrite(Start(start, front), p.query, p.turns, user);
      assert ps == front + [p] && |w| == 1;
      forall k | 0 <= k < |ps| ensures WroteIn(start, ps, log + w, k) {
        WroteInMore(start, front, p, log, w, k);
      }
    }
  }

  /** Consecutive writes are at most the pause and the two passes apart. */
  lemma WritesAreClose(start: int, ps: seq<Pass>, user: int, k: nat)
    requires AllDistinct(ps) && AllServe(ps, user) && 0 < k < |ps|
    ensures |Log(start, ps, user)| == |ps|
    ensures Log(start, ps, user)[k].time - Log(start, ps, user)[k - 1].time <= REFRESH + Duration(ps[k - 1]) + Duration(ps[k])
  {
    OneWriteAPass(start, ps, user);
    var log := Log(start, ps, user);
    assert WroteIn(start, ps, log, k - 1) && WroteIn(start, ps, log, k);
    assert ps[..k][..k - 1] == ps[..k - 1];
  }

  /** Writes after `t` do not matter to a reader at `t`. */
  lemma {:induction false} LaterWritesUnread(log: seq<Write>, w: seq<Write>, t: int)
    requires forall i | 0 <= i < |w| :: t < w[i].time
    ensures Read(log + w, t) == Read(log, t)
  {
    if w == [] {
      assert log + w == log;
    } else {
      assert (log + w)[..|log + w| - 1] == log + w[..|w| - 1];
      LaterWritesUnread(log, w[..|w| - 1], t);
    }
  }

  lemma {:induction false} LaterPassesUnread(start: int, ps: seq<Pass>, user: int, k: nat, t: int)
    requires k <= |ps| && t < Start(start, ps[..k])
    ensures Read(Log(start, ps, user), t) == Read(Log(start, ps[..k], user), t)
  {
    if k == |ps| {
      assert ps[..k] == ps;
    } else {
      var front, p := ps[..|ps| - 1], ps[|ps| - 1];
      assert front[..k] == ps[..k];
      LaterPassesUnread(start, front, user, k, t);
      StartsInOrder(start, front, k);
      TurnWritesWithin(Start(start, front), p.query, p.turns, user);
      LaterWritesUnread(Log(start, front, user), TurnWrites(Start(start, front), p.query, p.turns, user), t);
    }
  }

  lemma {:induction false} StartsInOrder(start: int, ps: seq<Pass>, k: nat)
    requires k <= |ps|
    ensures Start(start, ps[..k]) <= Start(start, ps)
  {
    if k < |ps| {
      StartAdvances(start, ps, k);
    } else {
      assert ps[..k] == ps;
    }
  }

  /** A pass that does not serve the user leaves a moment at which the user's entry has expired. */
  lemma FailedPassMisses(start: int, ps: seq<Pass>, user: int, k: nat)
    requires AllDistinct(ps) && k + 1 < |ps| && !Serves(ps[k].turns, user)
    ensures Read(Log(start, ps, user), Start(start, ps[..k]) + REFRESH - 1).None?
  {
    var t := Start(start, ps[..k]) + REFRESH - 1;
    assert ps[..k + 1] == ps[..k] + [ps[k]];
    UnservedLogStays(start, ps[..k], ps[k], user);
    LaterPassesUnread(start, ps, user, k + 1, t);
    LogIsPast(start, ps[..k], user);
    Expired(Log(start, ps[..k], user), start, t - TTL, t);
  }

  lemma UnservedLogStays(start: int, ps: seq<Pass>, p: Pass, user: int)
    requires !Serves(p.turns, user)
    ensures Log(start, ps + [p], user) == Log(start, ps, user)
    ensures Start(start, ps + [p]) == Start(start, ps) + Duration(p) + REFRESH
  {
    assert (ps + [p])[..|ps|] == ps;
    TurnWritesWithin(Start(start, ps), p.query, p.turns, user);
    assert Log(start, ps, user) + [] == Log(start, ps, user);
  }

  lemma Expired(log: seq<Write>, lo: int, hi: int, t: int)
    requires Within(log, lo, hi) && hi + TTL <= t
    ensures Read(log, t).None?
  {
  }

  lemma {:induction false} LogGrows(start: int, ps: seq<Pass>, user: int, k: nat)
    requires k <= |ps|
    ensures Log(start, ps[..k], user) <= Log(start, ps, user)
  {
    if k < |ps| {
      LogGrows(start, ps[..|ps| - 1], user, k);
      assert ps[..|ps| - 1][..k] == ps[..k];
    } else {
      assert ps[..k] == ps;
    }
  }

  /** The first and the last write, when the first and the last pass serve the user. */
  lemma EndsOfLog(start: int, ps: seq<Pass>, user: int)
    requires AllDistinct(ps) && ps != [] && Serves(ps[0].turns, user) && Serves(ps[|ps| - 1].turns, user)
    ensures var log := Log(start, ps, user);
            && log != []
            && log[0].time <= start + Duration(ps[0])
            && log[|log| - 1].time >= Start(start, ps[..|ps| - 1])
  {
    var n := |ps| - 1;
    TurnWritesWithin(Start(start, ps[..n]), ps[n].query, ps[n].turns, user);
    TurnWritesWithin(start, ps[0].query, ps[0].turns, user);
    LogGrows(start, ps, user, 1);
    assert ps[..1][..0] == [] && ps[..1][0] == ps[0];
    assert Log(start, ps[..1], user) == [] + TurnWrites(start, ps[0].query, ps[0].turns, user);
  }

  /**
    With no pass longer than five seconds, the readers of a user's entry never miss,
    from the first write to the expiry of the last, exactly when every pass in
    between serves the user.
  */
  lemma NeverMissesIffAllServe(start: int, ps: seq<Pass>, user: int)
    requires AllDistinct(ps) && ps != [] && Serves(ps[0].turns, user) && Serves(ps[|ps| - 1].turns, user)
    requires forall i | 0 <= i < |ps| :: Duration(ps[i]) <= 5_000
    ensures NeverMisses(Log(start, ps, user)) <==> AllServe(ps, user)
  {
    var log := Log(start, ps, user);
    LogIsPast(start, ps, user);
    if AllServe(ps, user) {
      AllServeNeverMisses(start, ps, user);
    } else {
      var k :| 0 <= k < |ps| && !Serves(ps[k].turns, user);
      FailedPassMisses(start, ps, user, k);
      MomentIsCovered(start, ps, user, k);
    }
  }

  lemma OneTurnPass(turn: Turn)
    ensures var p := Pass(0, [turn]);
            Distinct(p) && Duration(p) == turn.took && (Serves(p.turns, turn.user) <==> turn.dashboard.Some?)
  {
    var p := Pass(0, [turn]);
    TookOfTurn(0, [], turn);
    assert p.turns == [] + [turn] && p.turns[0] == turn;
  }

  /** Three quick passes of which the second fails for the user: a reader then misses. */
  lemma OneFailureMisses() returns (ps: seq<Pass>, user: int)
    ensures AllDistinct(ps) && forall i | 0 <= i < |ps| :: Duration(ps[i]) <= 5_000
    ensures Log(0, ps, user) != [] && !NeverMisses(Log(0, ps, user))
  {
    var good, bad := Turn(1, 100, Some("dashboard")), Turn(1, 100, None);
    OneTurnPass(good);
    OneTurnPass(bad);
    ps, user := [Pass(0, [good]), Pass(0, [bad]), Pass(0, [good])], 1;
    assert !Serves(ps[1].turns, user);
    EndsOfLog(0, ps, user);
    NeverMissesIffAllServe(0, ps, user);
  }

  lemma AllServeNeverMisses(start: int, ps: seq<Pass>, user: int)
    requires AllDistinct(ps) && AllServe(ps, user)
    requires forall i | 0 <= i < |ps| :: Duration(ps[i]) <= 5_000
    ensures NeverMisses(Log(start, ps, user))
  {
    var log := Log(start, ps, user);
    LogIsPast(start, ps, user);
    OneWriteAPass(start, ps, user);
    forall i | 0 < i < |log| ensures log[i].time <= log[i - 1].time + TTL {
      WritesAreClose(start, ps, user, i);
    }
    NeverMissesIff(log);
  }

  /** The moment of the miss lies between the first write and the expiry of the last. */
  lemma MomentIsCovered(start: int, ps: seq<Pass>, user: int, k: nat)
    requires AllDistinct(ps) && 0 < k < |ps| - 1 && Serves(ps[0].turns, user) && Serves(ps[|ps| - 1].turns, user)
    ensures var log, t := Log(start, ps, user), Start(start, ps[..k]) + REFRESH - 1;
            log != [] && log[0].time <= t < log[|log| - 1].time + TTL
  {
    EndsOfLog(start, ps, user);
    StartAdvances(start, ps[..k], 0);
    assert ps[..k][..0] == [] && ps[..k][0] == ps[0];
    StartsInOrder(start, ps[..|ps| - 1], k);
    assert ps[..|ps| - 1][..k] == ps[..k];
  }

  // ---------- In place ----------

  class Cache {
    var entries: map<int, Write>

    constructor ()
      ensures entries == map[]
    {
      entries := map[];
    }

    method SetEx(user: int, now: int, data: Payload)
      modifies this
      ensures entries == old(entries)[user := Write(now, data)]
    {
      entries := entries[user := Write(now, data)];
    }

    method Get(user: int, now: int) returns (r: Option<Payload>)
      ensures r == Read(Entry(entries, user), now)
    {
      r := if user in entries && entries[user].time <= now < entries[user].time + TTL then Some(entries[user].data) else None;
    }

    /** One user's turn, which starts at `t`. */
    method RunTurn(turn: Turn, t: int, query: nat, ghost start: int, ghost ps: seq<Pass>, ghost turns: seq<Turn>)
      returns (now: int)
      requires t == Start(start, ps) + Took(query, turns) && HoldsLast(entries, start, ps, query, turns)
      modifies this
      ensures now == Start(start, ps) + Took(query, turns + [turn])
      ensures entries == AfterTurn(old(entries), turn, now)
      ensures HoldsLast(entries, start, ps, query, turns + [turn])
    {
      TookOfTurn(query, turns, turn);
      TurnHolds(start, ps, query, turns, turn, t + turn.took, entries);
      now := t + turn.took;
      if turn.dashboard.Some? {
        SetEx(turn.user, now, turn.dashboard.value);
      }
    }

    method RunPass(p: Pass, t: int, ghost start: int, ghost ps: seq<Pass>) returns (now: int)
      requires t == Start(start, ps) && HoldsLast(entries, start, ps, p.query, [])
      modifies this
      ensures now == t + Duration(p)
      ensures HoldsLast(entries, start, ps, p.query, p.turns)
    {
      now := t + p.query;
      for j := 0 to |p.turns|
        invariant now == t + Took(p.query, p.turns[..j])
        invariant HoldsLast(entries, start, ps, p.query, p.turns[..j])
      {
        now := RunTurn(p.turns[j], now, p.query, start, ps, p.turns[..j]);
        assert p.turns[..j + 1] == p.turns[..j] + [p.turns[j]];
      }
      assert p.turns[..|p.turns|] == p.turns;
    }

    /** Passes over all users with a pause after each; the cache then holds each user's last write. */
    method Work(start: int, ps: seq<Pass>) returns (now: int)
      requires entries == map[]
      modifies this
      ensures now == Start(start, ps)
      ensures forall user :: LastIs(Log(start, ps, user), entries, user)
    {
      now := start;
      for i := 0 to |ps|
        invariant now == Start(start, ps[..i])
        invariant forall user :: LastIs(Log(start, ps[..i], user), entries, user)
      {
        assert ps[..i + 1] == ps[..i] + [ps[i]];
        PassHolds(start, ps[..i], ps[i], entries);
        now := RunPass(ps[i], now, start, ps[..i]);
        PassHeld(start, ps[..i], ps[i], entries);
        now := now + REFRESH;
      }
      assert ps[..|ps|] == ps;
    }
  }

  /** A user's entry, as a log of at most one write. */
  function Entry(entries: map<int, Write>, user: int): seq<Write> {
    if user in entries then [entries[user]] else []
  }

  predicate LastIs(log: seq<Write>, entries: map<int, Write>, user: int) {
    if log == [] then user !in entries else user in entries && entries[user] == log[|log| - 1]
  }

  /** A user's writes in the passes `ps` and in the given turns of the next one. */
  function Writes(start: int, ps: seq<Pass>, query: nat, turns: seq<Turn>, user: int): seq<Write> {
    Log(start, ps, user) + TurnWrites(Start(start, ps), query, turns, user)
  }

  /** The entries are each user's last write in the passes so far and in the given turns of the next one. */
  ghost predicate HoldsLast(entries: map<int, Write>, start: int, ps: seq<Pass>, query: nat, turns: seq<Turn>) {
    forall user :: LastIs(Writes(start, ps, query, turns, user), entries, user)
  }

  /** Before and after a pass. */
  lemma PassHolds(start: int, ps: seq<Pass>, p: Pass, entries: map<int, Write>)
    requires forall user :: LastIs(Log(start, ps, user), entries, user)
    ensures HoldsLast(entries, start, ps, p.query, [])
  {
    forall user ensures LastIs(Writes(start, ps, p.query, [], user), entries, user) {
      assert Writes(start, ps, p.query, [], user) == Log(start, ps, user);
    }
  }

  lemma PassHeld(start: int, ps: seq<Pass>, p: Pass, entries: map<int, Write>)
    requires HoldsLast(entries, start, ps, p.query, p.turns)
    ensures forall user :: LastIs(Log(start, ps + [p], user), entries, user)
  {
    forall user ensures LastIs(Log(start, ps + [p], user), entries, user) {
      assert (ps + [p])[..|ps|] == ps;
      assert Log(start, ps + [p], user) == Writes(start, ps, p.query, p.turns, user);
    }
  }

  /** The entries after a turn that ends at `now`. */
  function AfterTurn(entries: map<int, Write>, turn: Turn, now: int): map<int, Write> {
    if turn.dashboard.Some? then entries[turn.user := Write(now, turn.dashboard.value)] else entries
  }

  /** One more turn of a pass, ending at `at`, moves only the entry of its own user. */
  lemma TurnHolds(start: int, ps: seq<Pass>, query: nat, turns: seq<Turn>, turn: Turn, at: int,
                  entries: map<int, Write>)
    requires HoldsLast(entries, start, ps, query, turns) && at == Start(start, ps) + Took(query, turns) + turn.took
    ensures HoldsLast(AfterTurn(entries, turn, at), start, ps, query, turns + [turn])
  {
    forall user ensures LastIs(Writes(start, ps, query, turns + [turn], user), AfterTurn(entries, turn, at), user) {
      TurnHoldsFor(start, ps, query, turns, turn, at, entries, user);
    }
  }

  lemma TookOfTurn(query: nat, turns: seq<Turn>, turn: Turn)
    ensures Took(query, turns + [turn]) == Took(query, turns) + turn.took
  {
    assert (turns + [turn])[..|turns|] == turns;
  }

  lemma TurnHoldsFor(start: int, ps: seq<Pass>, query: nat, turns: seq<Turn>, turn: Turn, at: int,
                     entries: map<int, Write>, user: int)
    requires LastIs(Writes(start, ps, query, turns, user), entries, user)
    requires at == Start(start, ps) + Took(query, turns) + turn.took
    ensures LastIs(Writes(start, ps, query, turns + [turn], user), AfterTurn(entries, turn, at), user)
  {
    WritesOfTurn(start, ps, query, turns, turn, at, user);
    EntryAfterTurn(Writes(start, ps, query, turns, user), entries, turn, at, user);
  }

  /** What a turn that ends at `now` adds to the log of `user`. */
  function Added(turn: Turn, now: int, user: int): seq<Write> {
    if turn.user == user && turn.dashboard.Some? then [Write(now, turn.dashboard.value)] else []
  }

  lemma WritesOfTurn(start: int, ps: seq<Pass>, query: nat, turns: seq<Turn>, turn: Turn, at: int, user: int)
    requires at == Start(start, ps) + Took(query, turns) + turn.took
    ensures Writes(start, ps, query, turns + [turn], user)
            == Writes(start, ps, query, turns, user) + Added(turn, at, user)
  {
    TookOfTurn(query, turns, turn);
    assert (turns + [turn])[..|turns|] == turns;
  }

  lemma EntryAfterTurn(log: seq<Write>, entries: map<int, Write>, turn: Turn, now: int, user: int)
    requires LastIs(log, entries, user)
    ensures LastIs(log + Added(turn, now, user), AfterTurn(entries, turn, now), user)
  {
    if Added(turn, now, user) == [] {
      assert log + [] == log;
    }
  }

  /** A reader at or after the last write gets from the cache what the log says. */
  lemma CacheReadsLog(log: seq<Write>, entries: map<int, Write>, user: int, t: int)
    requires LastIs(log, entries, user) && (log != [] ==> log[|log| - 1].time <= t)
    ensures Read(Entry(entries, user), t) == Read(log, t)
  {
  }

  // ---------- A reader at any moment ----------

  /** When the j-th turn of a pass that starts at `t` is over, or the pass has just begun. */
  function TurnsOver(t: int, p: Pass, j: nat): int
    requires j <= |p.turns|
  {
    if j == 0 then t else t + Took(p.query, p.turns[..j])
  }

  /** When the cache next changes, or the next pass begins. */
  function NextChange(t: int, p: Pass, j: nat): int
    requires j <= |p.turns|
  {
    if j < |p.turns| then t + Took(p.query, p.turns[..j + 1]) else t + Duration(p) + REFRESH
  }

  /** At `t` the worker has made `i` passes and `j` turns of the next one. */
  ghost predicate Moment(start: int, ps: seq<Pass>, i: nat, j: nat, t: int) {
    && i < |ps| && j <= |ps[i].turns|
    && TurnsOver(Start(start, ps[..i]), ps[i], j) <= t < NextChange(Start(start, ps[..i]), ps[i], j)
  }

  lemma {:induction false} FindTurn(t0: int, p: Pass, m: nat, t: int) returns (j: nat)
    requires m <= |p.turns| && t0 <= t < NextChange(t0, p, m)
    ensures j <= m && TurnsOver(t0, p, j) <= t < NextChange(t0, p, j)
  {
    if m == 0 || t0 + Took(p.query, p.turns[..m]) <= t {
      j := m;
    } else {
      j := FindTurn(t0, p, m - 1, t);
    }
  }

  /** Every time of a run is such a moment. */
  lemma {:induction false} EveryTimeIsAMoment(start: int, ps: seq<Pass>, t: int) returns (i: nat, j: nat)
    requires start <= t < Start(start, ps)
    ensures Moment(start, ps, i, j, t)
  {
    assert ps != [];
    var n := |ps| - 1;
    if Start(start, ps[..n]) <= t {
      i := n;
      j := FindTurn(Start(start, ps[..n]), ps[n], |ps[n].turns|, t);
    } else {
      i, j := EveryTimeIsAMoment(start, ps[..n], t);
      assert ps[..n][..i] == ps[..i];
    }
  }

  lemma {:induction false} TookGrows(query: nat, turns: seq<Turn>, k: nat)
    requires k <= |turns|
    ensures Took(query, turns[..k]) <= Took(query, turns)
  {
    if k == |turns| {
      assert turns[..k] == turns;
    } else {
      assert turns[..|turns| - 1][..k] == turns[..k];
      TookGrows(query, turns[..|turns| - 1], k);
    }
  }

  lemma FrontOf(turns: seq<Turn>, j: nat)
    requires j < |turns|
    ensures turns[..|turns| - 1][..j] == turns[..j]
    ensures j < |turns| - 1 ==> turns[..|turns| - 1][..j + 1] == turns[..j + 1]
  {
  }

  lemma OneMoreTurn(log: seq<Write>, t0: int, query: nat, turns: seq<Turn>, user: int)
    requires turns != []
    ensures var front, k := turns[..|turns| - 1], turns[|turns| - 1];
            log + TurnWrites(t0, query, turns, user)
              == (log + TurnWrites(t0, query, front, user)) + Added(k, t0 + Took(query, turns), user)
  {
  }

  lemma {:induction false} LaterTurnsUnread(log: seq<Write>, t0: int, query: nat, turns: seq<Turn>, j: nat, user: int,
                                            t: int)
    requires j <= |turns| && (j < |turns| ==> t < t0 + Took(query, turns[..j + 1]))
    ensures Read(log + TurnWrites(t0, query, turns, user), t) == Read(log + TurnWrites(t0, query, turns[..j], user), t)
  {
    if j == |turns| {
      assert turns[..j] == turns;
    } else {
      var front, k := turns[..|turns| - 1], turns[|turns| - 1];
      FrontOf(turns, j);
      LaterTurnsUnread(log, t0, query, front, j, user, t);
      TookGrows(query, turns, j + 1);
      OneMoreTurn(log, t0, query, turns, user);
      LaterWritesUnread(log + TurnWrites(t0, query, front, user), Added(k, t0 + Took(query, turns), user), t);
    }
  }

  /** The writes made so far are in the past. */
  lemma WrittenBefore(start: int, ps: seq<Pass>, i: nat, j: nat, t: int, user: int)
    requires Moment(start, ps, i, j, t)
    ensures Within(Writes(start, ps[..i], ps[i].query, ps[i].turns[..j], user), start, t)
  {
    var t0 := Start(start, ps[..i]);
    LogWithin(start, ps[..i], user);
    StartNotBefore(start, ps[..i]);
    TurnWritesWithin(t0, ps[i].query, ps[i].turns[..j], user);
    var w := TurnWrites(t0, ps[i].query, ps[i].turns[..j], user);
    assert Within(w, t0, t);
    WithinBoth(Log(start, ps[..i], user), w, start, t0 - REFRESH, t0, t);
  }

  lemma ReadSoFar(start: int, ps: seq<Pass>, i: nat, j: nat, t: int, user: int)
    requires Moment(start, ps, i, j, t)
    ensures Read(Log(start, ps, user), t) == Read(Writes(start, ps[..i], ps[i].query, ps[i].turns[..j], user), t)
  {
    var p, front := ps[i], ps[..i];
    assert ps[..i + 1] == front + [p];
    LogOfPass(start, front, p, user);
    TookGrows(p.query, p.turns, if j < |p.turns| then j + 1 else j);
    LaterPassesUnread(start, ps, user, i + 1, t);
    LaterTurnsUnread(Log(start, front, user), Start(start, front), p.query, p.turns, j, user, t);
  }

  /**
    At every moment of every run a reader gets from the cache what the log of all
    writes says, whatever the worker does afterwards.
  */
  lemma GetReadsLog(start: int, ps: seq<Pass>, i: nat, j: nat, t: int, entries: map<int, Write>, user: int)
    requires Moment(start, ps, i, j, t) && HoldsLast(entries, start, ps[..i], ps[i].query, ps[i].turns[..j])
    ensures Read(Entry(entries, user), t) == Read(Log(start, ps, user), t)
  {
    ReadSoFar(start, ps, i, j, t, user);
    WrittenBefore(start, ps, i, j, t, user);
    CacheReadsLog(Writes(start, ps[..i], ps[i].query, ps[i].turns[..j], user), entries, user, t);
  }

  lemma LogOfPass(start: int, ps: seq<Pass>, p: Pass, user: int)
    ensures Log(start, ps + [p], user) == Log(start, ps, user) + TurnWrites(Start(start, ps), p.query, p.turns, user)
    ensures Start(start, ps + [p]) == Start(start, ps) + Duration(p) + REFRESH
  {
    assert (ps + [p])[..|ps|] == ps;
  }
}
