/** Ordering players by money, as `endGame` does with
    `sort((a, b) => b.money - a.money)` (server.js:66-76). `Array.prototype.sort`
    is stable, so the order is fixed: descending money, ties in roster order.
    Ranked is an insertion sort with that order. */
module Rankings {
  import opened Scoring

  /** Descending by money. */
  predicate SortedByMoney(s: seq<Player>) {
    forall i, j :: 0 <= i < j < |s| ==> s[i].money >= s[j].money
  }

  /** Puts `p` in front of the first player with no more money than it, so it
      stays ahead of the equal-money players that followed it in the roster. */
  function Insert(p: Player, s: seq<Player>): (r: seq<Player>)
    ensures |r| == |s| + 1
    ensures multiset(r) == multiset(s) + multiset{p}
  {
    if s == [] then [p]
    else if p.money >= s[0].money then [p] + s
    else
      assert s == [s[0]] + s[1..];
      [s[0]] + Insert(p, s[1..])
  }

  /** Inserting into a sorted ranking keeps it sorted; the new head is the
      old head unless `p` has at least as much money. */
  lemma {:induction false} InsertSorted(p: Player, s: seq<Player>)
    requires SortedByMoney(s)
    ensures SortedByMoney(Insert(p, s))
    ensures s != [] ==> Insert(p, s)[0] == if p.money >= s[0].money then p else s[0]
  {
    if s != [] && p.money < s[0].money {
      var rest := Insert(p, s[1..]);
      InsertSorted(p, s[1..]);
      assert rest[0].money <= s[0].money;
      var r := [s[0]] + rest;
      forall i, j | 0 <= i < j < |r| ensures r[i].money >= r[j].money {
        assert r[j] == rest[j - 1];
        if i > 0 {
          assert r[i] == rest[i - 1];
        } else if j > 1 {
          assert rest[0].money >= rest[j - 1].money;
        }
      }
    }
  }

  /** The final rankings. */
  function Ranked(ps: seq<Player>): (r: seq<Player>)
    ensures |r| == |ps|
  {
    if ps == [] then [] else Insert(ps[0], Ranked(ps[1..]))
  }

  /** The rankings hold the same players, sorted by money, descending. */
  lemma {:induction false} RankedSortedPermutation(ps: seq<Player>)
    ensures multiset(Ranked(ps)) == multiset(ps)
    ensures SortedByMoney(Ranked(ps))
  {
    if ps != [] {
      assert ps == [ps[0]] + ps[1..];
      RankedSortedPermutation(ps[1..]);
      InsertSorted(ps[0], Ranked(ps[1..]));
    }
  }

  /** Index of the first player, in roster order, holding the most money. */
  function FirstRichest(ps: seq<Player>): (k: nat)
    requires ps != []
    ensures k < |ps|
    ensures forall j :: 0 <= j < |ps| ==> ps[j].money <= ps[k].money
    ensures forall j :: 0 <= j < k ==> ps[j].money < ps[k].money
  {
    if |ps| == 1 then 0
    else
      var k := FirstRichest(ps[1..]);
      if ps[0].money >= ps[k + 1].money then 0 else k + 1
  }

  /** The head of the ranking (the winner `endGame` picks when none is set) is
      the first richest player: ties go to the one earliest in the roster. */
  lemma {:induction false} RankedHead(ps: seq<Player>)
    requires ps != []
    ensures Ranked(ps)[0] == ps[FirstRichest(ps)]
  {
    if |ps| > 1 {
      RankedHead(ps[1..]);
    }
  }
}
