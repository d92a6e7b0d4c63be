/** The weighted question pool of `getNextQuestion` (server.js:24-40): every
    question of the set once, then four entries per id in each player's list of
    missed questions, players in roster order; then a uniform pick. */
module Selection {
  import opened Optional
  import opened Catalog
  import opened Scoring

  /** `[...questions]` */
  function Lift(qs: seq<Question>): (r: seq<Option<Question>>)
  {
    if qs == [] then [] else [Some(qs[0])] + Lift(qs[1..])
  }

  /** The four pushes of the innermost loop for one missed id. */
  function Four(q: Option<Question>): seq<Option<Question>> {
    [q, q, q, q]
  }

  /** Entries contributed by one player's missed ids, in list order. */
  function Copies(qs: seq<Question>, ids: seq<int>): seq<Option<Question>>
  {
    if ids == [] then [] else Copies(qs, ids[..|ids| - 1]) + Four(Find(qs, ids[|ids| - 1]))
  }

  /** The missed ids of the player under `email` (the roster only lists
      emails that have a record). */
  function WrongOf(players: map<string, Player>, email: string): seq<int> {
    if email in players then players[email].wrong else []
  }

  /** Entries contributed by every player of the roster, in roster order. */
  function Extras(qs: seq<Question>, roster: seq<string>, players: map<string, Player>): seq<Option<Question>>
  {
    if roster == [] then []
    else Extras(qs, roster[..|roster| - 1], players) + Copies(qs, WrongOf(players, roster[|roster| - 1]))
  }

  /** The whole pool `potentialQuestions`. */
  function Pool(qs: seq<Question>, roster: seq<string>, players: map<string, Player>): seq<Option<Question>>
  {
    Lift(qs) + Extras(qs, roster, players)
  }

  /** Number of (player, missed id) entries over the roster. */
  function TotalWrong(roster: seq<string>, players: map<string, Player>): nat
  {
    if roster == [] then 0
    else TotalWrong(roster[..|roster| - 1], players) + |WrongOf(players, roster[|roster| - 1])|
  }

  /** Number of (player, missed id) entries equal to `id` over the roster. */
  function Misses(id: int, roster: seq<string>, players: map<string, Player>): nat
  {
    if roster == [] then 0
    else Misses(id, roster[..|roster| - 1], players) + multiset(WrongOf(players, roster[|roster| - 1]))[id]
  }

  /** `r` is what `pool[Math.floor(u * pool.length)]` yields: an entry whose
      index i has i <= u * |pool| < i + 1, so each index owns a 1/|pool| share
      of [0, 1); an empty pool yields undefined. */
  ghost predicate DrawnFrom(pool: seq<Option<Question>>, u: real, r: Option<Question>) {
    if |pool| == 0 then r == None
    else exists i :: 0 <= i < |pool| && r == pool[i] &&
                     i as real <= u * |pool| as real < (i + 1) as real
  }

  lemma {:induction false} LiftSize(qs: seq<Question>)
    ensures |Lift(qs)| == |qs|
  {
    if qs != [] { LiftSize(qs[1..]); }
  }

  lemma {:induction false} CopiesSize(qs: seq<Question>, ids: seq<int>)
    ensures |Copies(qs, ids)| == 4 * |ids|
  {
    if ids != [] { CopiesSize(qs, ids[..|ids| - 1]); }
  }

  lemma {:induction false} ExtrasSize(qs: seq<Question>, roster: seq<string>, players: map<string, Player>)
    ensures |Extras(qs, roster, players)| == 4 * TotalWrong(roster, players)
  {
    if roster != [] {
      ExtrasSize(qs, roster[..|roster| - 1], players);
      CopiesSize(qs, WrongOf(players, roster[|roster| - 1]));
    }
  }

  /** The pool holds |questions| + 4 * (number of missed entries) items. */
  lemma PoolSize(qs: seq<Question>, roster: seq<string>, players: map<string, Player>)
    ensures |Pool(qs, roster, players)| == |qs| + 4 * TotalWrong(roster, players)
  {
    LiftSize(qs);
    ExtrasSize(qs, roster, players);
  }

  lemma {:induction false} LiftCount(qs: seq<Question>, q: Question)
    ensures multiset(Lift(qs))[Some(q)] == multiset(qs)[q]
  {
    if qs != [] {
      LiftCount(qs[1..], q);
      assert qs == [qs[0]] + qs[1..];
    }
  }

  lemma FourCount(f: Option<Question>, x: Option<Question>)
    ensures multiset(Four(f))[x] == if f == x then 4 else 0
  {
    assert Four(f) == [f] + [f] + [f] + [f];
  }

  lemma CopiesSnoc(qs: seq<Question>, ids: seq<int>, x: int, y: Option<Question>)
    ensures multiset(Copies(qs, ids + [x]))[y] ==
            multiset(Copies(qs, ids))[y] + (if Find(qs, x) == y then 4 else 0)
  {
    assert (ids + [x])[..|ids|] == ids;
    FourCount(Find(qs, x), y);
  }

  lemma {:induction false} CopiesCount(qs: seq<Question>, ids: seq<int>, q: Question)
    requires UniqueIds(qs) && q in qs
    ensures multiset(Copies(qs, ids))[Some(q)] == 4 * multiset(ids)[q.id]
  {
    if ids != [] {
      var init, last := ids[..|ids| - 1], ids[|ids| - 1];
      assert ids == init + [last];
      CopiesCount(qs, init, q);
      CopiesSnoc(qs, init, last, Some(q));
      FindInUniqueSet(qs, q, last);
      assert multiset(ids)[q.id] == multiset(init)[q.id] + (if last == q.id then 1 else 0);
    }
  }

  lemma {:induction false} ExtrasCount(qs: seq<Question>, roster: seq<string>, players: map<string, Player>, q: Question)
    requires UniqueIds(qs) && q in qs
    ensures multiset(Extras(qs, roster, players))[Some(q)] == 4 * Misses(q.id, roster, players)
  {
    if roster != [] {
      ExtrasCount(qs, roster[..|roster| - 1], players, q);
      CopiesCount(qs, WrongOf(players, roster[|roster| - 1]), q);
    }
  }

  lemma {:induction false} UniqueOnce(qs: seq<Question>, q: Question)
    requires UniqueIds(qs) && q in qs
    ensures multiset(qs)[q] == 1
  {
    assert qs == [qs[0]] + qs[1..];
    if qs[0] == q {
      assert q !in qs[1..];
    } else {
      UniqueOnce(qs[1..], q);
    }
  }

  /** Selector weighting: in a set with unique ids, a question sits in the pool
      once for the catalog plus four times per outstanding miss by any player. */
  lemma PoolWeight(qs: seq<Question>, roster: seq<string>, players: map<string, Player>, q: Question)
    requires UniqueIds(qs) && q in qs
    ensures multiset(Pool(qs, roster, players))[Some(q)] == 1 + 4 * Misses(q.id, roster, players)
  {
    LiftCount(qs, q);
    UniqueOnce(qs, q);
    ExtrasCount(qs, roster, players, q);
  }

  /** A question someone has missed and not yet corrected is at least five
      times as likely to be drawn as a question nobody has missed. */
  lemma MissedQuestionWeighsMore(qs: seq<Question>, roster: seq<string>, players: map<string, Player>,
                                 missed: Question, unseen: Question)
    requires UniqueIds(qs) && missed in qs && unseen in qs
    requires Misses(missed.id, roster, players) >= 1 && Misses(unseen.id, roster, players) == 0
    ensures multiset(Pool(qs, roster, players))[Some(missed)] >= 5 * multiset(Pool(qs, roster, players))[Some(unseen)]
  {
    PoolWeight(qs, roster, players, missed);
    PoolWeight(qs, roster, players, unseen);
  }

  lemma CopiesStep(qs: seq<Question>, ids: seq<int>, k: int)
    requires 0 <= k < |ids|
    ensures Copies(qs, ids[..k + 1]) == Copies(qs, ids[..k]) + Four(Find(qs, ids[k]))
  {
    assert ids[..k + 1][..k] == ids[..k];
  }

  lemma ExtrasStep(qs: seq<Question>, roster: seq<string>, players: map<string, Player>, i: int,
                   pool: seq<Option<Question>>)
    requires 0 <= i < |roster|
    requires pool == Lift(qs) + Extras(qs, roster[..i], players)
    ensures pool + Copies(qs, WrongOf(players, roster[i])) == Lift(qs) + Extras(qs, roster[..i + 1], players)
  {
    assert roster[..i + 1][..i] == roster[..i];
  }

  /** The innermost loop: four pushes of the same entry. */
  method PushFour(pool: seq<Option<Question>>, f: Option<Question>) returns (r: seq<Option<Question>>)
    ensures r == pool + Four(f)
  {
    r := pool;
    for j := 0 to 4
      invariant r == pool + Four(f)[..j]
    {
      assert Four(f)[..j + 1] == Four(f)[..j] + [f];
      r := r + [f];
    }
    assert Four(f)[..4] == Four(f);
  }

  /** The middle loop: the entries for one player's missed ids. */
  method PushCopies(pool: seq<Option<Question>>, qs: seq<Question>, ids: seq<int>)
    returns (r: seq<Option<Question>>)
    ensures r == pool + Copies(qs, ids)
  {
    r := pool;
    for k := 0 to |ids|
      invariant r == pool + Copies(qs, ids[..k])
    {
      r := PushFour(r, Find(qs, ids[k]));
      CopiesStep(qs, ids, k);
    }
    assert ids[..|ids|] == ids;
  }

  /** Builds `potentialQuestions` with the source's nested loops. */
  method BuildPool(qs: seq<Question>, roster: seq<string>, players: map<string, Player>)
    returns (pool: seq<Option<Question>>)
    requires forall e :: e in roster ==> e in players
    ensures pool == Pool(qs, roster, players)
  {
    pool := Lift(qs);
    for i := 0 to |roster|
      invariant pool == Lift(qs) + Extras(qs, roster[..i], players)
    {
      ExtrasStep(qs, roster, players, i, pool);
      pool := PushCopies(pool, qs, players[roster[i]].wrong);
    }
    assert roster[..|roster|] == roster;
  }

  /** `pool[Math.floor(u * pool.length)]` for u = Math.random() in [0, 1). */
  method Pick(pool: seq<Option<Question>>, u: real) returns (r: Option<Question>)
    requires 0.0 <= u < 1.0
    ensures DrawnFrom(pool, u, r)
  {
    var n := |pool| as real;
    var i := (u * n).Floor;
    if |pool| == 0 {
      r := None;
    } else {
      assert u * n < n;
      assert 0 <= i < |pool|;
      r := pool[i];
    }
  }

  /** `getNextQuestion` over a question set and a room's roster. */
  method NextQuestion(qs: seq<Question>, roster: seq<string>, players: map<string, Player>, u: real)
    returns (r: Option<Question>)
    requires forall e :: e in roster ==> e in players
    requires 0.0 <= u < 1.0
    ensures DrawnFrom(Pool(qs, roster, players), u, r)
  {
    var pool := BuildPool(qs, roster, players);
    r := Pick(pool, u);
  }
}
