/** One room: its settings, its lobby -> playing -> finished lifecycle, its
    roster, and the room-level parts of the socket handlers together with
    `checkGameEnd` and `endGame` (server.js:42-78, 84-213). */
module Rooms {
  import opened Optional
  import opened Catalog
  import opened Scoring
  import opened Selection
  import opened Rankings

  datatype Status = Lobby | Playing | Finished

  /** `gameType` is a free string; only two values have an end condition. */
  datatype GameType = ClassicTime | ClassicRace | OtherMode(name: string)

  function GameTypeOf(s: string): (g: GameType)
    ensures g == ClassicTime <==> s == "Classic: Time"
    ensures g == ClassicRace <==> s == "Classic: Race"
  {
    if s == "Classic: Time" then ClassicTime
    else if s == "Classic: Race" then ClassicRace
    else OtherMode(s)
  }

  /** The only status changes any handler makes. */
  predicate Advances(before: Status, after: Status) {
    || before == after
    || (before == Lobby && after == Playing)
    || (before == Playing && after == Finished)
  }


  predicate Distinct(s: seq<string>) {
    forall i, j :: 0 <= i < j < |s| ==> s[i] != s[j]
  }

  /** `Object.values(room.players)`: the records in roster order. */
  function Values(roster: seq<string>, players: map<string, Player>): (ps: seq<Player>)
    requires forall e :: e in roster ==> e in players
    ensures |ps| == |roster|
    ensures forall i :: 0 <= i < |roster| ==> ps[i] == players[roster[i]]
  {
    seq(|roster|, i requires 0 <= i < |roster| => players[roster[i]])
  }

  /** Key order after `delete players[x]`: x leaves, the others keep their order. */
  function Without(s: seq<string>, x: string): (r: seq<string>)
    ensures forall e :: e in r <==> e in s && e != x
    ensures x !in s ==> r == s
    ensures Distinct(s) ==> Distinct(r)
    ensures Distinct(s) && x in s ==> |r| == |s| - 1
  {
    if s == [] then []
    else
      var rest := Without(s[1..], x);
      assert s == [s[0]] + s[1..];
      assert Distinct(s) ==> Distinct(s[1..]) && s[0] !in s[1..];
      if s[0] == x then rest
      else
        assert Distinct(s) ==> s[0] !in rest;
        [s[0]] + rest
  }

  /** Deleting a key keeps the remaining keys in their order: `Without`
      distributes over concatenation. */
  lemma {:induction false} WithoutAppend(a: seq<string>, b: seq<string>, x: string)
    ensures Without(a + b, x) == Without(a, x) + Without(b, x)
  {
    if a == [] {
      assert a + b == b;
    } else {
      assert (a + b)[0] == a[0];
      assert (a + b)[1..] == a[1..] + b;
      WithoutAppend(a[1..], b, x);
    }
  }

  /** The `game_finished` payload. */
  datatype GameFinished = GameFinished(winnerName: string, rankings: seq<Player>)

  /** What `submit_answer` sends back: the feedback, the next question
      (None for `undefined`) and, when the answer ended the game, its result. */
  datatype Answered = Answered(feedback: Feedback, next: Option<Question>, finished: Option<GameFinished>)

  class Room {
    const code: string
    const hostEmail: string
    const questionSetId: string
    const gameType: GameType
    const timeLimitMinutes: int
    const goalAmount: int
    var status: Status
    /** `Date.now()` at `start_game`, in milliseconds. */
    var startedAt: Option<int>
    var winnerEmail: Option<string>
    /** The keys of `players` in insertion order. */
    var roster: seq<string>
    var players: map<string, Player>

    /** The roster lists every key of `players` once; each record sits under
        its own email and is well formed. */
    ghost predicate RosterOk()
      reads this
    {
      && Distinct(roster)
      && (forall e :: e in roster <==> e in players)
      && (forall e :: e in players ==> players[e].email == e && WellFormed(players[e]))
    }

    ghost predicate Valid()
      reads this
    {
      && RosterOk()
      && (status != Lobby ==> startedAt.Some?)
      && (status != Finished ==> winnerEmail.None?)
    }

    /** The pool `getNextQuestion` draws from in the current state; with an
        unknown set id there is nothing to draw. */
    ghost function CurrentPool(): seq<Option<Question>>
      reads this
      requires RosterOk()
    {
      if questionSetId in QuestionSets then Pool(QuestionSets[questionSetId], roster, players) else []
    }

    /** Roster entry k is the first, in roster order, to have reached the goal. */
    ghost predicate FirstAtGoal(k: int)
      reads this
      requires RosterOk()
    {
      && 0 <= k < |roster|
      && players[roster[k]].money >= goalAmount
      && forall j :: 0 <= j < k ==> players[roster[j]].money < goalAmount
    }

    /** The condition `checkGameEnd` tests at time `now` (milliseconds). */
    ghost predicate EndConditionHolds(now: int)
      reads this
      requires RosterOk() && startedAt.Some?
    {
      match gameType
      case ClassicTime => now - startedAt.value >= timeLimitMinutes * 60000
      case ClassicRace => exists k :: FirstAtGoal(k)
      case OtherMode(_) => false
    }

    /** The winner rule: in a race the first player at the goal, otherwise
        the first richest player in roster order. */
    ghost predicate WinnerChosen()
      reads this
      requires RosterOk()
    {
      && winnerEmail.Some?
      && |roster| > 0
      && if gameType == ClassicRace then exists k :: FirstAtGoal(k) && winnerEmail == Some(roster[k])
         else winnerEmail == Some(roster[FirstRichest(Values(roster, players))])
    }

    /** The player may answer question `questionId` now. */
    ghost predicate Answerable(email: string, questionId: int)
      reads this
    {
      && status == Playing
      && email in players
      && questionSetId in QuestionSets
      && Find(QuestionSets[questionSetId], questionId).Some?
    }

    /** The room `create_room` stores: in the lobby, with the host alone on the roster. */
    constructor (code: string, hostEmail: string, questionSetId: string, gameType: GameType,
                 timeLimitMinutes: int, goalAmount: int)
      ensures Valid()
      ensures this.code == code && this.hostEmail == hostEmail && this.questionSetId == questionSetId
      ensures this.gameType == gameType && this.timeLimitMinutes == timeLimitMinutes
      ensures this.goalAmount == goalAmount
      ensures status == Lobby && startedAt == None && winnerEmail == None
      ensures roster == [hostEmail] && players == map[hostEmail := HostPlayer(hostEmail)]
    {
      this.code := code;
      this.hostEmail := hostEmail;
      this.questionSetId := questionSetId;
      this.gameType := gameType;
      this.timeLimitMinutes := timeLimitMinutes;
      this.goalAmount := goalAmount;
      status := Lobby;
      startedAt := None;
      winnerEmail := None;
      roster := [hostEmail];
      players := map[hostEmail := HostPlayer(hostEmail)];
    }

    /** `join_room` on an existing room: only a lobby accepts players. Joining
        again under a known email resets that record in place. */
    method Join(email: string, name: string) returns (ok: bool)
      requires Valid()
      modifies this
      ensures Valid()
      ensures ok == (old(status) == Lobby)
      ensures !ok ==> unchanged(this)
      ensures ok ==> players == old(players)[email := JoinedPlayer(email, name)]
      ensures ok ==> roster == if email in old(players) then old(roster) else old(roster) + [email]
      ensures status == old(status) && startedAt == old(startedAt) && winnerEmail == old(winnerEmail)
    {
      if status != Lobby {
        return false;
      }
      if email !in players {
        roster := roster + [email];
      }
      players := players[email := JoinedPlayer(email, name)];
      ok := true;
    }

    /** `getNextQuestion(room)`. */
    method DrawQuestion(u: real) returns (q: Option<Question>)
      requires RosterOk() && 0.0 <= u < 1.0
      ensures DrawnFrom(CurrentPool(), u, q)
    {
      if questionSetId in QuestionSets {
        q := NextQuestion(QuestionSets[questionSetId], roster, players, u);
      } else {
        q := None;
      }
    }

    /** `start_game`: only the host, only from the lobby. */
    method Start(caller: Option<string>, now: int, u: real) returns (started: bool, q: Option<Question>)
      requires Valid() && 0.0 <= u < 1.0
      modifies this
      ensures Valid() && Advances(old(status), status)
      ensures started == (caller == Some(hostEmail) && old(status) == Lobby)
      ensures !started ==> unchanged(this) && q == None
      ensures started ==> status == Playing && startedAt == Some(now) && DrawnFrom(CurrentPool(), u, q)
      ensures roster == old(roster) && players == old(players) && winnerEmail == old(winnerEmail)
    {
      if caller != Some(hostEmail) || status != Lobby {
        return false, None;
      }
      status := Playing;
      startedAt := Some(now);
      started := true;
      q := DrawQuestion(u);
    }

    /** The race branch's `for (const email in room.players)` scan. */
    method ScanForGoal() returns (k: Option<nat>)
      requires RosterOk()
      ensures k.Some? ==> FirstAtGoal(k.value)
      ensures k.None? ==> forall j :: 0 <= j < |roster| ==> players[roster[j]].money < goalAmount
    {
      var i := 0;
      while i < |roster|
        invariant 0 <= i <= |roster|
        invariant forall j :: 0 <= j < i ==> players[roster[j]].money < goalAmount
      {
        if players[roster[i]].money >= goalAmount {
          return Some(i);
        }
        i := i + 1;
      }
      return None;
    }

    /** `endGame`: finishes the room; keeps a winner already set if it is still
        on the roster, otherwise names the first richest player. */
    method EndGame() returns (msg: GameFinished)
      requires RosterOk() && startedAt.Some? && |roster| > 0
      modifies this
      ensures Valid() && status == Finished
      ensures roster == old(roster) && players == old(players) && startedAt == old(startedAt)
      ensures winnerEmail.Some? && winnerEmail.value in players
      ensures old(winnerEmail).Some? && old(winnerEmail).value in players ==> winnerEmail == old(winnerEmail)
      ensures !(old(winnerEmail).Some? && old(winnerEmail).value in players) ==>
                winnerEmail == Some(roster[FirstRichest(Values(roster, players))])
      ensures msg.winnerName == players[winnerEmail.value].name
      ensures msg.rankings == Ranked(Values(roster, players))
    {
      var values := Values(roster, players);
      var ranking := Ranked(values);
      if winnerEmail.None? || winnerEmail.value !in players {
        RankedHead(values);
        var k := FirstRichest(values);
        assert ranking[0] == players[roster[k]];
        assert ranking[0].email == roster[k];
        winnerEmail := Some(ranking[0].email);
      }
      status := Finished;
      msg := GameFinished(players[winnerEmail.value].name, ranking);
    }

    /** `checkGameEnd`: a no-op unless playing; finishes a timed game once the
        time limit has elapsed and a race once some player has the goal amount. */
    method CheckGameEnd(now: int) returns (msg: Option<GameFinished>)
      requires Valid() && |roster| > 0
      modifies this
      ensures Valid() && Advances(old(status), status)
      ensures roster == old(roster) && players == old(players) && startedAt == old(startedAt)
      ensures old(status) != Playing ==> unchanged(this) && msg.None?
      ensures old(status) == Playing ==> (status == Finished <==> EndConditionHolds(now))
      ensures old(status) == Playing && status == Finished ==> WinnerChosen()
      ensures status != Finished ==> unchanged(this)
      ensures msg.Some? <==> old(status) == Playing && status == Finished
      ensures msg.Some? ==> && msg.value.winnerName == players[winnerEmail.value].name
                            && msg.value.rankings == Ranked(Values(roster, players))
    {
      if status != Playing {
        return None;
      }
      match gameType {
        case ClassicTime =>
          if now - startedAt.value >= timeLimitMinutes * 60000 {
            var m := EndGame();
            assert WinnerChosen();
            msg := Some(m);
          } else {
            msg := None;
          }
        case ClassicRace =>
          var k := ScanForGoal();
          if k.Some? {
            winnerEmail := Some(roster[k.value]);
            var m := EndGame();
            assert FirstAtGoal(k.value);
            assert winnerEmail == Some(roster[k.value]);
            assert EndConditionHolds(now) && WinnerChosen();
            msg := Some(m);
          } else {
            assert !exists j :: FirstAtGoal(j);
            msg := None;
          }
        case OtherMode(_) =>
          msg := None;
      }
    }

    /** The answer rules applied to one player's record in place. */
    method Score(email: string, questionId: int, isCorrect: bool) returns (feedback: Feedback)
      requires Valid() && email in players
      modifies this
      ensures Valid()
      ensures players == old(players)[email := ApplyAnswer(old(players)[email], questionId, isCorrect).player]
      ensures feedback == ApplyAnswer(old(players)[email], questionId, isCorrect).feedback
      ensures roster == old(roster) && status == old(status)
      ensures startedAt == old(startedAt) && winnerEmail == old(winnerEmail)
    {
      ApplyAnswerWellFormed(players[email], questionId, isCorrect);
      var scored := ApplyAnswer(players[email], questionId, isCorrect);
      players := players[email := scored.player];
      feedback := scored.feedback;
    }

    /** `submit_answer` once the room and the player's email are known:
        scores the answer, draws the next question from the updated pool and
        checks for the end of the game. */
    method SubmitAnswer(email: string, questionId: int, answer: string, now: int, u: real)
      returns (out: Option<Answered>)
      requires Valid() && 0.0 <= u < 1.0
      modifies this
      ensures Valid() && Advances(old(status), status)
      ensures out.Some? <==> old(Answerable(email, questionId))
      ensures out.None? ==> unchanged(this)
      ensures out.Some? ==>
        var question := Find(QuestionSets[questionSetId], questionId).value;
        var scored := ApplyAnswer(old(players)[email], questionId, answer == question.correct);
        && roster == old(roster) && startedAt == old(startedAt)
        && players == old(players)[email := scored.player]
        && out.value.feedback == scored.feedback
        && DrawnFrom(CurrentPool(), u, out.value.next)
        && (status == Finished <==> EndConditionHolds(now))
        && (status == Finished ==> WinnerChosen())
        && (out.value.finished.Some? <==> status == Finished)
        && (out.value.finished.Some? ==>
              && winnerEmail.Some? && winnerEmail.value in players
              && out.value.finished.value.winnerName == players[winnerEmail.value].name
              && out.value.finished.value.rankings == Ranked(Values(roster, players)))
    {
      if email !in players || questionSetId !in QuestionSets {
        return None;
      }
      var question := Find(QuestionSets[questionSetId], questionId);
      if question.None? || status != Playing {
        return None;
      }
      var feedback := Score(email, questionId, answer == question.value.correct);
      var next := DrawQuestion(u);
      ghost var pool := CurrentPool();
      ghost var answered := players;
      var finished := CheckGameEnd(now);
      assert players == answered;
      assert CurrentPool() == pool;
      out := Some(Answered(feedback, next, finished));
    }

    /** `buy_upgrade` for a player of this room, in any status. */
    method BuyUpgrade(email: string, u: Upgrade) returns (bought: bool)
      requires Valid()
      modifies this
      ensures Valid()
      ensures bought == (email in old(players) && CanBuy(old(players)[email], u))
      ensures email in old(players) ==> players == old(players)[email := Scoring.BuyUpgrade(old(players)[email], u)]
      ensures !bought ==> unchanged(this)
      ensures roster == old(roster) && status == old(status)
      ensures startedAt == old(startedAt) && winnerEmail == old(winnerEmail)
    {
      if email !in players || !CanBuy(players[email], u) {
        return false;
      }
      BuyUpgradeSound(players[email], u);
      players := players[email := Scoring.BuyUpgrade(players[email], u)];
      bought := true;
    }

    /** `delete room.players[email]` on disconnect, in any status. */
    method Remove(email: string)
      requires Valid()
      modifies this
      ensures Valid()
      ensures players == old(players) - {email}
      ensures roster == Without(old(roster), email)
      ensures email in old(players) ==> |roster| == |old(roster)| - 1
      ensures status == old(status) && startedAt == old(startedAt) && winnerEmail == old(winnerEmail)
    {
      roster := Without(roster, email);
      players := players - {email};
    }
  }
}
