/**
 * The rating ledger (db.ts): one account per username with an Elo rating and win/loss
 * counters. The SQLite table is a map from username to account together with the order in
 * which rows were inserted; the expected-score curve `1 / (1 + 10^(d/400))` is a parameter
 * `expected` of which only the facts the update relies on are assumed.
 */
module Ledger {

  datatype Account = Account(username: string, elo: int, wins: nat, losses: nat)

  /** The row `INSERT INTO accounts (username)` creates: the column defaults. */
  function Fresh(name: string): Account {
    Account(name, 1200, 0, 0)
  }

  /** The volatility constant of the rating update. */
  const K: real := 32.0

  /**
   * What is known of the expected score of a player whose opponent is rated `d` points higher:
   * it lies strictly between 0 and 1, and the two players' expected scores add up to 1.
   */
  ghost predicate ExpectedLaw(expected: int -> real) {
    forall d :: 0.0 < expected(d) < 1.0 && expected(d) + expected(-d) == 1.0
  }

  /** Equal ratings give each side an expected score of one half. */
  lemma ExpectedAtZero(expected: int -> real)
    requires ExpectedLaw(expected)
    ensures expected(0) == 0.5
  {
    assert expected(0) + expected(-0) == 1.0;
  }

  /** JavaScript's `Math.round`: the nearest integer, halves rounded up. */
  function Round(x: real): (r: int)
    ensures r as real <= x + 0.5 < r as real + 1.0
  {
    (x + 0.5).Floor
  }

  /**
   * The two new ratings `updateElo` computes for a winner rated `w` and a loser rated `l`.
   * The winner never loses points and the loser never gains any, each moving by at most K.
   */
  function Rated(w: int, l: int, expected: int -> real): (r: (int, int))
    requires ExpectedLaw(expected)
    ensures w <= r.0 <= w + 32
    ensures l - 32 <= r.1 <= l
  {
    var expected1 := expected(l - w);
    var expected2 := expected(w - l);
    (Round(w as real + K * (1.0 - expected1)), Round(l as real + K * (0.0 - expected2)))
  }

  /** Two players rated 1200 end at 1216 (winner) and 1184 (loser). */
  lemma EqualRatingsExample(expected: int -> real)
    requires ExpectedLaw(expected)
    ensures Rated(1200, 1200, expected) == (1216, 1184)
  {
    ExpectedAtZero(expected);
  }

  lemma RoundPair(y: real)
    ensures (y + 0.5).Floor + (0.5 - y).Floor in {0, 1}
  {
    var a := (y + 0.5).Floor;
    var b := (0.5 - y).Floor;
    assert a as real <= y + 0.5 < a as real + 1.0;
    assert b as real <= 0.5 - y < b as real + 1.0;
  }

  /**
   * Rounding aside the update is zero-sum: the winner gains what the loser gives up, so
   * the sum of the two ratings grows by 0, or by 1 when both deltas round a half upwards.
   */
  lemma RatedNearlyZeroSum(w: int, l: int, expected: int -> real)
    requires ExpectedLaw(expected)
    ensures Rated(w, l, expected).0 + Rated(w, l, expected).1 - (w + l) in {0, 1}
  {
    var e1 := expected(l - w);
    var e2 := expected(w - l);
    assert e1 + e2 == 1.0;
    var y := K * (1.0 - e1);
    assert K * (0.0 - e2) == -y;
    RoundPair(y);
    assert Round(w as real + y) == w + (y + 0.5).Floor;
    assert Round(l as real - y) == l + (0.5 - y).Floor;
  }

  /** `getAccount`: the stored row, or the defaults for a name not seen before. */
  function Fetch(table: map<string, Account>, name: string): Account {
    if name in table then table[name] else Fresh(name)
  }

  /**
   * The table after `updateElo(winner, loser)`: both rows are first read (and created if
   * missing), both new ratings are computed from that one snapshot, and then the winner's
   * row is written (new rating, one more win) before the loser's (new rating, one more loss).
   */
  function Settle(table: map<string, Account>, winner: string, loser: string,
                  expected: int -> real): map<string, Account>
    requires ExpectedLaw(expected)
  {
    var p1 := Fetch(table, winner);
    var t0 := table[winner := p1];
    var p2 := Fetch(t0, loser);
    var t1 := t0[loser := p2];
    var r := Rated(p1.elo, p2.elo, expected);
    var t2 := t1[winner := t1[winner].(elo := r.0, wins := t1[winner].wins + 1)];
    t2[loser := t2[loser].(elo := r.1, losses := t2[loser].losses + 1)]
  }

  /**
   * For two different players: the winner gets exactly one more win, the loser exactly one
   * more loss, both ratings come from the pre-update pair, the other counters do not move,
   * and no other account changes.
   */
  lemma SettleDistinct(table: map<string, Account>, winner: string, loser: string,
                       expected: int -> real)
    requires ExpectedLaw(expected)
    requires winner != loser
    ensures var t := Settle(table, winner, loser, expected);
            var w := Fetch(table, winner);
            var l := Fetch(table, loser);
            var r := Rated(w.elo, l.elo, expected);
            && t.Keys == table.Keys + {winner, loser}
            && t[winner] == Account(w.username, r.0, w.wins + 1, w.losses)
            && t[loser] == Account(l.username, r.1, l.wins, l.losses + 1)
            && forall n :: n in table && n != winner && n != loser ==> t[n] == table[n]
  {
  }

  /**
   * A win over oneself (both seats under one name): the row gains a win and a loss, and the
   * second write leaves the loser's rating in place.
   */
  lemma SettleSelf(table: map<string, Account>, name: string, expected: int -> real)
    requires ExpectedLaw(expected)
    ensures var t := Settle(table, name, name, expected);
            var a := Fetch(table, name);
            && t.Keys == table.Keys + {name}
            && t[name] == Account(a.username, a.elo - 16, a.wins + 1, a.losses + 1)
  {
    ExpectedAtZero(expected);
  }

  /** Settle, one write at a time, as the method performs it. */
  lemma SettleSteps(table: map<string, Account>, winner: string, loser: string,
                    expected: int -> real, p1: Account, p2: Account, a1: Account, a2: Account,
                    result: map<string, Account>)
    requires ExpectedLaw(expected)
    requires p1 == Fetch(table, winner)
    requires p2 == Fetch(table[winner := p1], loser)
    requires a1 == table[winner := p1][loser := p2][winner].(
               elo := Rated(p1.elo, p2.elo, expected).0, wins := p1.wins + 1)
    requires a2 == table[winner := p1][loser := p2][winner := a1][loser].(
               elo := Rated(p1.elo, p2.elo, expected).1,
               losses := table[winner := p1][loser := p2][winner := a1][loser].losses + 1)
    requires result == table[winner := p1][loser := p2][winner := a1][loser := a2]
    ensures result == Settle(table, winner, loser, expected)
  {
  }

  predicate SortedByElo(s: seq<Account>) {
    forall i, j :: 0 <= i < j < |s| ==> s[i].elo >= s[j].elo
  }

  /** Puts `a` after every row rated at least as high as it. */
  function InsertByElo(a: Account, s: seq<Account>): (r: seq<Account>)
    ensures |r| == |s| + 1
    ensures forall x :: x in r ==> x == a || x in s
  {
    if s == [] then [a]
    else if s[0].elo >= a.elo then [s[0]] + InsertByElo(a, s[1..])
    else [a] + s
  }

  /** Inserting adds exactly `a` to the rows. */
  lemma {:induction false} InsertAdds(a: Account, s: seq<Account>)
    ensures multiset(InsertByElo(a, s)) == multiset(s) + multiset{a}
  {
    if s != [] && s[0].elo >= a.elo {
      InsertAdds(a, s[1..]);
      assert s == [s[0]] + s[1..];
    }
  }

  /** Inserting into a list sorted by rating keeps it sorted. */
  lemma {:induction false} InsertSorted(a: Account, s: seq<Account>)
    requires SortedByElo(s)
    ensures SortedByElo(InsertByElo(a, s))
  {
    if s != [] && s[0].elo >= a.elo {
      var t := InsertByElo(a, s[1..]);
      var r := InsertByElo(a, s);
      assert r == [s[0]] + t;
      InsertSorted(a, s[1..]);
      forall i, j | 0 <= i < j < |r|
        ensures r[i].elo >= r[j].elo
      {
        if i == 0 {
          assert r[j] in t;
          if r[j] != a {
            var k :| 0 <= k < |s[1..]| && s[1..][k] == r[j];
            assert s[k + 1] == r[j];
          }
        } else {
          assert r[i] == t[i - 1] && r[j] == t[j - 1];
        }
      }
    }
  }

  /** `ORDER BY elo DESC`, ties kept in storage order. */
  function SortByElo(s: seq<Account>): (r: seq<Account>)
    ensures SortedByElo(r)
    ensures multiset(r) == multiset(s)
  {
    if s == [] then []
    else
      var init := SortByElo(s[..|s| - 1]);
      assert s == s[..|s| - 1] + [s[|s| - 1]];
      InsertSorted(s[|s| - 1], init);
      InsertAdds(s[|s| - 1], init);
      InsertByElo(s[|s| - 1], init)
  }

  /** In a list sorted by rating, nothing after position k is rated above anything before it. */
  lemma SortedSplit(s: seq<Account>, k: nat)
    requires SortedByElo(s) && k <= |s|
    ensures multiset(s) - multiset(s[..k]) == multiset(s[k..])
    ensures forall a, b :: a in multiset(s[k..]) && b in s[..k] ==> a.elo <= b.elo
  {
    assert s == s[..k] + s[k..];
    forall a, b | a in multiset(s[k..]) && b in s[..k]
      ensures a.elo <= b.elo
    {
      var i :| 0 <= i < |s[k..]| && s[k..][i] == a;
      var j :| 0 <= j < k && s[j] == b;
      assert s[k + i] == a;
    }
  }

  /**
   * `ORDER BY elo DESC LIMIT n`: at most n rows, highest rating first, drawn from the table,
   * and no row left out is rated above a row returned.
   */
  function TopByElo(rows: seq<Account>, n: nat): (r: seq<Account>)
    ensures |r| == if |rows| < n then |rows| else n
    ensures SortedByElo(r)
    ensures multiset(r) <= multiset(rows)
    ensures forall a, b :: a in multiset(rows) - multiset(r) && b in r ==> a.elo <= b.elo
  {
    var s := SortByElo(rows);
    var k := if |rows| < n then |rows| else n;
    SortedSplit(s, k);
    assert s == s[..k] + s[k..];
    s[..k]
  }

  /** The table's rows in storage order. */
  function RowsOf(table: map<string, Account>, names: seq<string>): (r: seq<Account>)
    requires forall n :: n in names ==> n in table
    ensures |r| == |names|
    ensures forall i :: 0 <= i < |names| ==> r[i] == table[names[i]]
  {
    if names == [] then [] else [table[names[0]]] + RowsOf(table, names[1..])
  }

  /** Every row of a top-n listing of a table is that table's row for its own username. */
  lemma TopRowsStored(table: map<string, Account>, names: seq<string>, n: nat)
    requires forall k :: k in names ==> k in table
    requires forall k :: k in table ==> table[k].username == k
    ensures forall a :: a in TopByElo(RowsOf(table, names), n) ==> a.username in table && table[a.username] == a
  {
    var rows := RowsOf(table, names);
    var top := TopByElo(rows, n);
    forall a | a in top
      ensures a.username in table && table[a.username] == a
    {
      assert a in multiset(top);
      assert a in multiset(rows);
      var i :| 0 <= i < |rows| && rows[i] == a;
      assert a == table[names[i]];
    }
  }

  /** A sequence without repeats has as many distinct elements as it is long. */
  lemma {:induction false} DistinctCount(s: seq<string>)
    requires forall i, j :: 0 <= i < j < |s| ==> s[i] != s[j]
    ensures |set k | k in s| == |s|
  {
    if s != [] {
      DistinctCount(s[1..]);
      assert (set k | k in s) == (set k | k in s[1..]) + {s[0]};
      assert s[0] !in s[1..];
    }
  }

  /** A storage order listing every key of a table once is as long as the table. */
  lemma OrderCount(table: map<string, Account>, names: seq<string>)
    requires forall i, j :: 0 <= i < j < |names| ==> names[i] != names[j]
    requires forall k :: k in table <==> k in names
    ensures |names| == |table|
  {
    DistinctCount(names);
    assert table.Keys == set k | k in names;
  }

  /**
   * A top-n listing of a whole table: as many rows as the limit allows, and no stored account
   * that is left out is rated above one that is listed.
   */
  lemma TopRowsRanked(table: map<string, Account>, names: seq<string>, n: nat)
    requires forall i, j :: 0 <= i < j < |names| ==> names[i] != names[j]
    requires forall k :: k in table <==> k in names
    ensures var top := TopByElo(RowsOf(table, names), n);
            && |top| == (if |table| < n then |table| else n)
            && forall k, b :: k in table && table[k] !in top && b in top ==> table[k].elo <= b.elo
  {
    OrderCount(table, names);
    var rows := RowsOf(table, names);
    var top := TopByElo(rows, n);
    forall k, b | k in table && table[k] !in top && b in top
      ensures table[k].elo <= b.elo
    {
      var i :| 0 <= i < |names| && names[i] == k;
      assert rows[i] == table[k];
      assert table[k] in multiset(rows);
      assert table[k] !in multiset(top);
      assert table[k] in multiset(rows) - multiset(top);
    }
  }

  /** The accounts table. */
  class Ledger {
    var accounts: map<string, Account>
    /** Usernames in the order their rows were inserted. */
    var names: seq<string>
    const expected: int -> real

    ghost predicate Valid()
      reads this
    {
      && ExpectedLaw(expected)
      && (forall i, j :: 0 <= i < j < |names| ==> names[i] != names[j])
      && (forall n :: n in accounts <==> n in names)
      && (forall n :: n in accounts ==> accounts[n].username == n)
    }

    constructor (expected: int -> real)
      requires ExpectedLaw(expected)
      ensures Valid()
      ensures accounts == map[] && names == [] && this.expected == expected
    {
      this.expected := expected;
      accounts := map[];
      names := [];
    }

    /** `getAccount`: returns the row, inserting the defaults first when there is none. */
    method GetAccount(name: string) returns (a: Account)
      requires Valid()
      modifies this
      ensures Valid()
      ensures a == Fetch(old(accounts), name)
      ensures accounts == old(accounts)[name := a]
      ensures names == if name in old(accounts) then old(names) else old(names) + [name]
    {
      if name in accounts {
        a := accounts[name];
      } else {
        a := Fresh(name);
        accounts := accounts[name := a];
        names := names + [name];
      }
    }

    /** `updateElo(winner, loser)`. */
    method UpdateElo(winner: string, loser: string)
      requires Valid()
      modifies this
      ensures Valid()
      ensures accounts == Settle(old(accounts), winner, loser, expected)
      ensures names == old(names) + (if winner in old(accounts) then [] else [winner])
                      + (if loser in old(accounts) || loser == winner then [] else [loser])
    {
      ghost var t := accounts;
      var p1 := GetAccount(winner);
      ghost var table1 := accounts;
      assert loser in table1 <==> loser in t || loser == winner;
      var p2 := GetAccount(loser);
      assert ExpectedLaw(expected);
      var r := Rated(p1.elo, p2.elo, expected);
      ghost var read := accounts;
      var a1, a2 := Record(winner, loser, r);
      assert a1 == read[winner].(elo := r.0, wins := p1.wins + 1);
      SettleSteps(t, winner, loser, expected, p1, p2, a1, a2, accounts);
    }

    /** The two UPDATE statements of `updateElo`: the winner's row, then the loser's. */
    method Record(winner: string, loser: string, r: (int, int)) returns (a1: Account, a2: Account)
      requires Valid() && winner in accounts && loser in accounts
      modifies this
      ensures Valid() && names == old(names)
      ensures a1 == old(accounts)[winner].(elo := r.0, wins := old(accounts)[winner].wins + 1)
      ensures a2 == old(accounts)[winner := a1][loser].(elo := r.1,
                      losses := old(accounts)[winner := a1][loser].losses + 1)
      ensures accounts == old(accounts)[winner := a1][loser := a2]
    {
      a1 := accounts[winner].(elo := r.0, wins := accounts[winner].wins + 1);
      accounts := accounts[winner := a1];
      a2 := accounts[loser].(elo := r.1, losses := accounts[loser].losses + 1);
      accounts := accounts[loser := a2];
    }

    /** `getLeaderboard`: the 20 best-rated accounts, best first. */
    function Leaderboard(): (r: seq<Account>)
      reads this
      requires Valid()
      ensures |r| == if |accounts| < 20 then |accounts| else 20
      ensures SortedByElo(r)
      ensures forall a :: a in r ==> a.username in accounts && accounts[a.username] == a
      ensures forall k, b :: k in accounts && accounts[k] !in r && b in r ==> accounts[k].elo <= b.elo
    {
      TopRowsStored(accounts, names, 20);
      TopRowsRanked(accounts, names, 20);
      TopByElo(RowsOf(accounts, names), 20)
    }
  }
}
