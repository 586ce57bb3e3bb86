/**
 * The "leaderboard" view: array_column($users, 'balance') numbers the
 * balances 0, 1, 2, ... in iteration order (the chat ids are dropped),
 * arsort() orders them by balance, highest first, keeping equal balances
 * in their original order (PHP 8 sorts stably), and
 * array_slice(..., 0, 5, true) keeps the first five with their positions.
 * Each line is then labelled with its key, which is that position and not
 * a chat id; Standings gives the chat ids the labels evidently stand for.
 */
module Board {
  import opened Accounts

  /** One line of the leaderboard: a position in iteration order and its balance. */
  datatype Entry = Entry(position: nat, balance: int)

  /** `a` is listed before `b`: higher balance, or equal balance and earlier position. */
  predicate Precedes(a: Entry, b: Entry)
  {
    a.balance > b.balance || (a.balance == b.balance && a.position < b.position)
  }

  /** Every entry precedes every later one. */
  predicate Ranked(s: seq<Entry>)
  {
    forall i, j :: 0 <= i < j < |s| ==> Precedes(s[i], s[j])
  }

  /** Positions strictly increase along the sequence. */
  predicate PositionsIncreasing(s: seq<Entry>)
  {
    forall i, j :: 0 <= i < j < |s| ==> s[i].position < s[j].position
  }

  /** array_column($users, 'balance'): each balance keyed by its position. */
  function Column(u: Users): (col: seq<Entry>)
    requires WellFormed(u)
    ensures |col| == |u.order| && PositionsIncreasing(col)
    ensures forall i :: 0 <= i < |col| ==> col[i].position == i && col[i].balance == u.records[u.order[i]].balance
  {
    seq(|u.order|, i requires 0 <= i < |u.order| => Entry(i, u.records[u.order[i]].balance))
  }

  /** Places `x` after every entry whose balance is at least `x`'s. */
  function Insert(x: Entry, s: seq<Entry>): (r: seq<Entry>)
    requires Ranked(s)
    requires forall e :: e in s ==> e.position < x.position
    ensures multiset(r) == multiset(s) + multiset{x}
    ensures Ranked(r)
  {
    if s == [] then [x]
    else if s[0].balance >= x.balance then
      var tail := Insert(x, s[1..]);
      HeadPrecedes(s, x, tail);
      assert s == [s[0]] + s[1..];
      [s[0]] + tail
    else
      [x] + s
  }

  /** The head of a ranked sequence precedes its other entries and a later, no-higher `x`. */
  lemma HeadPrecedes(s: seq<Entry>, x: Entry, tail: seq<Entry>)
    requires |s| > 0 && Ranked(s) && s[0].balance >= x.balance
    requires forall e :: e in s ==> e.position < x.position
    requires multiset(tail) == multiset(s[1..]) + multiset{x}
    ensures forall e :: e in tail ==> Precedes(s[0], e)
  {
    forall e | e in tail
      ensures Precedes(s[0], e)
    {
      assert e in multiset(tail);
      if e != x {
        assert e in multiset(s[1..]);
        var j :| 0 <= j < |s[1..]| && s[1..][j] == e;
        assert s[1 + j] == e;
      }
    }
  }

  /** Entries taken from `s` keep every bound `s`'s entries have. */
  lemma PositionsBelow(s: seq<Entry>, t: seq<Entry>, x: Entry)
    requires multiset(t) == multiset(s)
    requires forall e :: e in s ==> e.position < x.position
    ensures forall e :: e in t ==> e.position < x.position
  {
    forall e | e in t
      ensures e.position < x.position
    {
      assert e in multiset(t);
      assert e in multiset(s);
    }
  }

  /** arsort(): a stable sort by balance, highest first. */
  function SortDesc(s: seq<Entry>): (r: seq<Entry>)
    requires PositionsIncreasing(s)
    ensures multiset(r) == multiset(s)
    ensures Ranked(r)
  {
    if s == [] then []
    else
      var init := s[..|s| - 1];
      var last := s[|s| - 1];
      assert s == init + [last];
      assert forall e :: e in init ==> e.position < last.position by {
        forall e | e in init
          ensures e.position < last.position
        {
          var i :| 0 <= i < |init| && init[i] == e;
          assert s[i] == e;
        }
      }
      var sorted := SortDesc(init);
      PositionsBelow(init, sorted, last);
      Insert(last, sorted)
  }

  function Min(a: int, b: int): int
  {
    if a <= b then a else b
  }

  /** The leaderboard shown to the user: the first five entries of the sorted column. */
  function Top(u: Users): (top: seq<Entry>)
    requires WellFormed(u)
    ensures |top| <= LeaderboardSize && Ranked(top)
  {
    var sorted := SortDesc(Column(u));
    sorted[..Min(LeaderboardSize, |sorted|)]
  }

  /**
   * The leaderboard has min(5, #accounts) entries in non-increasing order of
   * balance; each entry's position is a position in iteration order (not a chat
   * id) and its balance is the balance of the account at that position.
   */
  lemma TopShape(u: Users)
    requires WellFormed(u)
    ensures var top := Top(u);
      && |top| == Min(LeaderboardSize, |u.order|)
      && (forall i, j :: 0 <= i < j < |top| ==> top[i].balance >= top[j].balance)
      && (forall i :: 0 <= i < |top| ==>
            top[i].position < |u.order| && top[i].balance == u.records[u.order[top[i].position]].balance)
  {
    var col := Column(u);
    var sorted := SortDesc(col);
    assert |sorted| == |multiset(sorted)| == |multiset(col)| == |col|;
    forall i | 0 <= i < |sorted|
      ensures sorted[i].position < |u.order| && sorted[i].balance == u.records[u.order[sorted[i].position]].balance
    {
      assert sorted[i] in multiset(col);
    }
  }

  /**
   * The leaderboard holds the best balances: every account left off it has a
   * balance no higher than any listed one, and on a tie it comes later in
   * iteration order. With five or fewer accounts, every account is listed.
   */
  lemma TopIsBest(u: Users, k: nat)
    requires WellFormed(u) && k < |u.order|
    ensures var top := Top(u);
      || (exists i :: 0 <= i < |top| && top[i].position == k)
      || (forall i :: 0 <= i < |top| ==> Precedes(top[i], Entry(k, u.records[u.order[k]].balance)))
    ensures |u.order| <= LeaderboardSize ==> exists i :: 0 <= i < |Top(u)| && Top(u)[i].position == k
  {
    var col := Column(u);
    var sorted := SortDesc(col);
    assert |sorted| == |multiset(sorted)| == |multiset(col)| == |col|;
    assert col[k] in multiset(sorted);
    var p :| 0 <= p < |sorted| && sorted[p] == col[k];
    var top := Top(u);
    if p >= |top| {
      assert forall i :: 0 <= i < |top| ==> top[i] == sorted[i];
    } else {
      assert top[p].position == k;
    }
  }

  /** Two entries of the sorted column never share a position. */
  lemma RankedPositionsDistinct(u: Users, s: seq<Entry>, i: int, j: int)
    requires WellFormed(u) && Ranked(s) && multiset(s) == multiset(Column(u))
    requires 0 <= i < j < |s|
    ensures s[i].position != s[j].position
  {
    assert s[i] in multiset(Column(u)) && s[j] in multiset(Column(u));
  }

  /** One line of the leaderboard as it is evidently meant: a chat id and its balance. */
  datatype Standing = Standing(chatId: ChatId, balance: int)

  /** The leaderboard with each position replaced by the chat id at that position. */
  function Standings(u: Users): (r: seq<Standing>)
    requires WellFormed(u)
    ensures |r| == |Top(u)|
  {
    var top := Top(u);
    TopShape(u);
    seq(|top|, i requires 0 <= i < |top| => Standing(u.order[top[i].position], top[i].balance))
  }

  /**
   * The leaderboard lists min(5, #accounts) accounts in non-increasing
   * order of balance, each with its own balance.
   */
  lemma StandingsShape(u: Users)
    requires WellFormed(u)
    ensures var r := Standings(u);
      && |r| == Min(LeaderboardSize, |u.order|)
      && (forall i, j :: 0 <= i < j < |r| ==> r[i].balance >= r[j].balance)
      && (forall i :: 0 <= i < |r| ==> r[i].chatId in u.records && r[i].balance == u.records[r[i].chatId].balance)
  {
    TopShape(u);
  }

  /** No account is listed twice. */
  lemma StandingsDistinct(u: Users)
    requires WellFormed(u)
    ensures var r := Standings(u);
      forall i, j :: 0 <= i < j < |r| ==> r[i].chatId != r[j].chatId
  {
    var sorted := SortDesc(Column(u));
    var top := Top(u);
    var r := Standings(u);
    TopShape(u);
    forall i, j | 0 <= i < j < |r|
      ensures r[i].chatId != r[j].chatId
    {
      RankedPositionsDistinct(u, sorted, i, j);
      assert top[i] == sorted[i] && top[j] == sorted[j];
      assert r[i].chatId == u.order[top[i].position] && r[j].chatId == u.order[top[j].position];
    }
  }

  /** An account left off the leaderboard has a balance no higher than any listed one. */
  lemma StandingsBest(u: Users, k: ChatId)
    requires WellFormed(u) && k in u.records
    ensures var r := Standings(u);
      (forall i :: 0 <= i < |r| ==> r[i].chatId != k) ==>
        forall i :: 0 <= i < |r| ==> r[i].balance >= u.records[k].balance
  {
    var top := Top(u);
    var r := Standings(u);
    if forall i :: 0 <= i < |r| ==> r[i].chatId != k {
      var p :| 0 <= p < |u.order| && u.order[p] == k;
      var e := Entry(p, u.records[k].balance);
      TopIsBest(u, p);
      forall i | 0 <= i < |top|
        ensures top[i].position != p
      {
        StandingAt(u, i);
      }
      forall i | 0 <= i < |r|
        ensures r[i].balance >= u.records[k].balance
      {
        assert Precedes(top[i], e);
        StandingAt(u, i);
      }
    }
  }

  /** The i-th leaderboard line names the account at the i-th cut entry's position. */
  lemma StandingAt(u: Users, i: int)
    requires WellFormed(u) && 0 <= i < |Top(u)|
    ensures Top(u)[i].position < |u.order|
    ensures Standings(u)[i] == Standing(u.order[Top(u)[i].position], Top(u)[i].balance)
  {
    TopShape(u);
  }
}
