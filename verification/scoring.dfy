/** Player records, the earnings formula, answer scoring and the upgrade shop
    (server.js:18-22, 97-100, 123-127, 140-162, 172-202). */
module Scoring {
  import opened Optional

  /** A player as the server stores it under its email. `answered` and
      `correctAnswers` model `questions_answered` and `correct_answers`: the host's
      record lacks them, so they are None there, and `undefined++` gives NaN,
      which stays None. */
  datatype Player = Player(
    email: string,
    name: string,
    money: int,
    streak: int,
    answered: Option<nat>,
    correctAnswers: Option<nat>,
    multiplierLevel: int,
    streakBonusLevel: int,
    insuranceCount: int,
    wrong: seq<int>)

  /** No question id occurs twice. */
  predicate NoDup(s: seq<int>) {
    forall i, j :: 0 <= i < j < |s| ==> s[i] != s[j]
  }

  /** What every player record keeps: non-negative money, streak and insurance,
      levels at least 1, and a duplicate-free list of missed questions. */
  predicate WellFormed(p: Player) {
    && p.money >= 0
    && p.streak >= 0
    && p.multiplierLevel >= 1
    && p.streakBonusLevel >= 1
    && p.insuranceCount >= 0
    && NoDup(p.wrong)
  }

  /** The record `create_room` gives the host (no answer counters). */
  function HostPlayer(email: string): (p: Player)
    ensures WellFormed(p) && p.email == email && p.name == "Host Player"
    ensures p.money == 0 && p.streak == 0 && p.wrong == []
    ensures p.multiplierLevel == 1 && p.streakBonusLevel == 1 && p.insuranceCount == 1
    ensures p.answered.None? && p.correctAnswers.None?
  {
    Player(email, "Host Player", 0, 0, None, None, 1, 1, 1, [])
  }

  /** The record `join_room` gives a joining player. */
  function JoinedPlayer(email: string, name: string): (p: Player)
    ensures WellFormed(p) && p.email == email && p.name == name
    ensures p.money == 0 && p.streak == 0 && p.wrong == []
    ensures p.multiplierLevel == 1 && p.streakBonusLevel == 1 && p.insuranceCount == 1
    ensures p.answered == Some(0) && p.correctAnswers == Some(0)
  {
    Player(email, name, 0, 0, Some(0), Some(0), 1, 1, 1, [])
  }

  /** `calculateEarnings`: the reward for a correct answer given the current
      streak and upgrade levels. */
  function Earnings(p: Player): (r: int)
    ensures WellFormed(p) ==> r >= 100 * p.multiplierLevel >= 100
  {
    100 * p.multiplierLevel + p.streak * p.streakBonusLevel * 20
  }

  /** Earnings never drop when the multiplier level, the streak or the streak
      bonus level grows. */
  lemma EarningsMonotonic(p: Player, q: Player)
    requires p.streak >= 0 && p.streakBonusLevel >= 0
    requires p.multiplierLevel <= q.multiplierLevel
    requires p.streak <= q.streak
    requires p.streakBonusLevel <= q.streakBonusLevel
    ensures Earnings(p) <= Earnings(q)
  {
    MulMono(p.streak, q.streak, p.streakBonusLevel);
    MulMono(p.streakBonusLevel, q.streakBonusLevel, q.streak);
    assert p.streak * p.streakBonusLevel <= q.streak * q.streakBonusLevel;
  }

  lemma MulMono(a: int, b: int, c: int)
    requires 0 <= a <= b && c >= 0
    ensures a * c <= b * c
  {
  }

  /** `undefined` + 1 is NaN, which we keep as None. */
  function Bump(c: Option<nat>): Option<nat> {
    match c
    case None => None
    case Some(n) => Some(n + 1)
  }

  /** `wrongQuestions.filter(qId => qId !== x)`: drops every occurrence of `x`
      and keeps every other id, with its multiplicity and in order. */
  function RemoveId(s: seq<int>, x: int): (r: seq<int>)
    ensures multiset(r) == multiset(s)[x := 0]
    ensures x !in r && forall y :: y != x ==> (y in r <==> y in s)
  {
    if s == [] then []
    else
      assert s == [s[0]] + s[1..];
      if s[0] == x then RemoveId(s[1..], x) else [s[0]] + RemoveId(s[1..], x)
  }

  /** The filter keeps the order of the ids it keeps: it distributes over
      concatenation, so the result is fixed element by element. */
  lemma {:induction false} RemoveIdAppend(a: seq<int>, b: seq<int>, x: int)
    ensures RemoveId(a + b, x) == RemoveId(a, x) + RemoveId(b, x)
  {
    if a == [] {
      assert a + b == b;
    } else {
      assert (a + b)[0] == a[0];
      assert (a + b)[1..] == a[1..] + b;
      RemoveIdAppend(a[1..], b, x);
    }
  }

  /** Filtering a duplicate-free list leaves it duplicate-free. */
  lemma {:induction false} RemoveIdNoDup(s: seq<int>, x: int)
    requires NoDup(s)
    ensures NoDup(RemoveId(s, x))
  {
    if s != [] {
      assert NoDup(s[1..]);
      RemoveIdNoDup(s[1..], x);
      if s[0] != x {
        var rest := RemoveId(s[1..], x);
        assert s[0] !in s[1..];
        assert s[0] !in rest;
        var r := [s[0]] + rest;
        forall i, j | 0 <= i < j < |r| ensures r[i] != r[j] {
          assert r[j] == rest[j - 1];
          if i > 0 { assert r[i] == rest[i - 1]; }
        }
      }
    }
  }

  /** Which of the three feedback messages the server sends. */
  datatype FeedbackKind = Correct | StreakSaved | StreakBroken

  /** The `answer_feedback` payload without its text: `earnings` is 0 unless correct. */
  datatype Feedback = Feedback(isCorrect: bool, earnings: int, kind: FeedbackKind)

  datatype Scored = Scored(player: Player, feedback: Feedback)

  /** The answer rules of `submit_answer`, applied to the answering player. */
  function ApplyAnswer(p: Player, questionId: int, isCorrect: bool): (r: Scored)
    ensures r.player.email == p.email && r.player.name == p.name
    ensures r.player.multiplierLevel == p.multiplierLevel
    ensures r.player.streakBonusLevel == p.streakBonusLevel
    ensures r.player.answered == Bump(p.answered)
    ensures r.player.correctAnswers == if isCorrect then Bump(p.correctAnswers) else p.correctAnswers
    ensures r.feedback.isCorrect == isCorrect
    // a correct answer pays the earnings of the state before the answer
    ensures isCorrect ==>
      && r.player.money == p.money + Earnings(p)
      && r.player.streak == p.streak + 1
      && r.player.insuranceCount == p.insuranceCount
      && questionId !in r.player.wrong
      && multiset(r.player.wrong) == multiset(p.wrong)[questionId := 0]
      && r.feedback == Feedback(true, Earnings(p), Correct)
    // a wrong answer pays nothing, spends insurance or breaks the streak,
    // and records the question once, at the end of the list
    ensures !isCorrect ==>
      && r.player.money == p.money
      && r.feedback.earnings == 0
      && (p.insuranceCount > 0 ==>
            r.player.insuranceCount == p.insuranceCount - 1 && r.player.streak == p.streak &&
            r.feedback.kind == StreakSaved)
      && (p.insuranceCount <= 0 ==>
            r.player.insuranceCount == p.insuranceCount && r.player.streak == 0 &&
            r.feedback.kind == StreakBroken)
      && questionId in r.player.wrong
      && r.player.wrong == if questionId in p.wrong then p.wrong else p.wrong + [questionId]
  {
    var earnings := Earnings(p);
    var p1 := p.(answered := Bump(p.answered));
    if isCorrect then
      Scored(p1.(correctAnswers := Bump(p.correctAnswers), money := p.money + earnings,
                 streak := p.streak + 1, wrong := RemoveId(p.wrong, questionId)),
             Feedback(true, earnings, Correct))
    else
      var p2 := if p.insuranceCount > 0 then p1.(insuranceCount := p.insuranceCount - 1)
                else p1.(streak := 0);
      var wrong := if questionId !in p.wrong then p.wrong + [questionId] else p.wrong;
      Scored(p2.(wrong := wrong),
             Feedback(false, 0, if p.insuranceCount > 0 then StreakSaved else StreakBroken))
  }

  /** A duplicate-free list holds each id at most once. */
  lemma {:induction false} NoDupCount(s: seq<int>, x: int)
    requires NoDup(s)
    ensures multiset(s)[x] <= 1
    ensures x in s ==> multiset(s)[x] == 1
  {
    if s != [] {
      assert s == [s[0]] + s[1..];
      assert NoDup(s[1..]);
      NoDupCount(s[1..], x);
      if s[0] == x {
        assert x !in s[1..];
      }
    }
  }

  /** After a wrong answer the question is in the list exactly once (with or
      without insurance), and the list stays duplicate-free. */
  lemma WrongAnswerRecordedOnce(p: Player, questionId: int)
    requires NoDup(p.wrong)
    ensures NoDup(ApplyAnswer(p, questionId, false).player.wrong)
    ensures multiset(ApplyAnswer(p, questionId, false).player.wrong)[questionId] == 1
  {
    var w := ApplyAnswer(p, questionId, false).player.wrong;
    assert NoDup(w);
    NoDupCount(w, questionId);
  }

  /** Scoring an answer keeps a player record well formed. */
  lemma ApplyAnswerWellFormed(p: Player, questionId: int, isCorrect: bool)
    requires WellFormed(p)
    ensures WellFormed(ApplyAnswer(p, questionId, isCorrect).player)
  {
    if isCorrect {
      RemoveIdNoDup(p.wrong, questionId);
    } else {
      WrongAnswerRecordedOnce(p, questionId);
    }
  }

  /** The three upgrades of the shop; any other requested type is Unknown. */
  datatype Upgrade = Multiplier | StreakBonus | Insurance | Unknown(name: string)

  /** The `switch (type)` labels of `buy_upgrade`. */
  function UpgradeOf(s: string): (u: Upgrade)
    ensures u == Multiplier <==> s == "multiplier"
    ensures u == StreakBonus <==> s == "streak_bonus"
    ensures u == Insurance <==> s == "insurance"
    ensures u.Unknown? <==> s !in {"multiplier", "streak_bonus", "insurance"}
  {
    if s == "multiplier" then Multiplier
    else if s == "streak_bonus" then StreakBonus
    else if s == "insurance" then Insurance
    else Unknown(s)
  }

  /** Price of the next level (or of one insurance credit). */
  function Cost(p: Player, u: Upgrade): (c: int)
    requires !u.Unknown?
    ensures WellFormed(p) ==> c >= 1000
  {
    match u
    case Multiplier => 1000 * (p.multiplierLevel + 1)
    case StreakBonus => 500 * (p.streakBonusLevel + 1)
    case Insurance => 2500
  }

  /** A purchase goes through only for a known upgrade the player can pay for. */
  predicate CanBuy(p: Player, u: Upgrade) {
    !u.Unknown? && p.money >= Cost(p, u)
  }

  /** `buy_upgrade` on one player. */
  function BuyUpgrade(p: Player, u: Upgrade): (r: Player)
    ensures !CanBuy(p, u) ==> r == p
    ensures u == Multiplier && p.money >= 1000 * (p.multiplierLevel + 1) ==>
              r == p.(money := p.money - 1000 * (p.multiplierLevel + 1),
                      multiplierLevel := p.multiplierLevel + 1)
    ensures u == StreakBonus && p.money >= 500 * (p.streakBonusLevel + 1) ==>
              r == p.(money := p.money - 500 * (p.streakBonusLevel + 1),
                      streakBonusLevel := p.streakBonusLevel + 1)
    ensures u == Insurance && p.money >= 2500 ==>
              r == p.(money := p.money - 2500, insuranceCount := p.insuranceCount + 1)
  {
    if !CanBuy(p, u) then p
    else
      var paid := p.(money := p.money - Cost(p, u));
      match u
      case Multiplier => paid.(multiplierLevel := p.multiplierLevel + 1)
      case StreakBonus => paid.(streakBonusLevel := p.streakBonusLevel + 1)
      case Insurance => paid.(insuranceCount := p.insuranceCount + 1)
  }

  /** Sum of the three purchasable stats. */
  function Stock(p: Player): int {
    p.multiplierLevel + p.streakBonusLevel + p.insuranceCount
  }

  /** Buying never drives money below zero, raises exactly one stat by one and
      leaves everything else alone; a declined purchase changes nothing. */
  lemma BuyUpgradeSound(p: Player, u: Upgrade)
    requires WellFormed(p)
    ensures WellFormed(BuyUpgrade(p, u))
    ensures BuyUpgrade(p, u).money >= 0
    ensures CanBuy(p, u) ==> Stock(BuyUpgrade(p, u)) == Stock(p) + 1 &&
                              BuyUpgrade(p, u).money == p.money - Cost(p, u) &&
                              BuyUpgrade(p, u).money < p.money
    ensures !CanBuy(p, u) ==> BuyUpgrade(p, u) == p
  {
  }
}
