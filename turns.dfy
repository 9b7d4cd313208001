// The turn engine of the game loop: the player's key is polled until it names
// an action, the action is applied, the opponent answers unless it is already
// down, and the loop stops as soon as a fighter's health is at most zero.
// Terminal drawing and pauses are not modelled; every key press and random
// draw of a round comes from a finite script supplied by the caller.
module TurnEngine {
  import opened Fighters

  datatype Option<T> = None | Some(value: T)

  /** The key codes `getch` returns for 'a', 's' and 'b'. */
  const KeyAttack := 97
  const KeySpecial := 115
  const KeyBlock := 98

  /** The default match: names, starting health and base damages. */
  const PlayerName := "Scorpion"
  const OpponentName := "Sub-Zero"
  const StartHealth := 100
  const PlayerDamage := 20
  const OpponentDamage := 18

  /** The action a key selects; every other key is ignored. */
  function KeyAction(key: int): (a: Option<Action>)
    ensures a == Some(AttackAction) <==> key == 97
    ensures a == Some(SpecialAction) <==> key == 115
    ensures a == Some(BlockAction) <==> key == 98
    ensures a == None <==> key !in {97, 115, 98}
  {
    if key == KeyAttack then Some(AttackAction)
    else if key == KeySpecial then Some(SpecialAction)
    else if key == KeyBlock then Some(BlockAction)
    else None
  }

  /** The action of the first key in `keys` that selects one. */
  function FirstAction(keys: seq<int>): Option<Action>
  {
    if keys == [] then None
    else if KeyAction(keys[0]).Some? then KeyAction(keys[0])
    else FirstAction(keys[1..])
  }

  /**
   * Reads keys until one selects an action.  `k` is the position of that key,
   * or the number of keys when none does (the game would go on waiting).
   */
  method PollAction(keys: seq<int>) returns (action: Option<Action>, k: nat)
    ensures k <= |keys|
    ensures forall j :: 0 <= j < k ==> KeyAction(keys[j]) == None
    ensures k < |keys| ==> action.Some? && action == KeyAction(keys[k])
    ensures k == |keys| ==> action == None
    ensures action == FirstAction(keys)
  {
    k := 0;
    while k < |keys|
      invariant k <= |keys|
      invariant forall j :: 0 <= j < k ==> KeyAction(keys[j]) == None
      invariant FirstAction(keys[k..]) == FirstAction(keys)
    {
      action := KeyAction(keys[k]);
      if action.Some? {
        return;
      }
      k := k + 1;
    }
    action := None;
  }

  /** Everything one round draws: the player's keys and roll, the opponent's choice and roll. */
  datatype Round = Round(keys: seq<int>, playerRoll: int, opponentChoice: Action, opponentRoll: int)

  /** Each random draw of a round lies in the range of the action that draws it. */
  predicate RoundFits(r: Round, playerDamage: int, opponentDamage: int)
  {
    (match FirstAction(r.keys)
     case None => true
     case Some(a) => RollFits(a, playerDamage, r.playerRoll)) &&
    RollFits(r.opponentChoice, opponentDamage, r.opponentRoll)
  }

  predicate ScriptFits(script: seq<Round>, playerDamage: int, opponentDamage: int)
  {
    forall i :: 0 <= i < |script| ==> RoundFits(script[i], playerDamage, opponentDamage)
  }

  /** A script whose draws all fit still fits once its first round is played. */
  lemma ScriptFitsTail(script: seq<Round>, playerDamage: int, opponentDamage: int)
    requires script != []
    requires ScriptFits(script, playerDamage, opponentDamage)
    ensures RoundFits(script[0], playerDamage, opponentDamage)
    ensures ScriptFits(script[1..], playerDamage, opponentDamage)
  {
    forall i | 0 <= i < |script[1..]|
      ensures RoundFits(script[1..][i], playerDamage, opponentDamage)
    {
      assert script[1..][i] == script[i + 1];
    }
  }

  /** The two fighters of a match: `f1` is the player, `f2` the opponent. */
  datatype Match = Match(f1: FighterState, f2: FighterState)

  /** The guard of the game loop. */
  predicate BothStanding(m: Match)
  {
    m.f1.health > 0 && m.f2.health > 0
  }

  /**
   * One pass of the game loop.  None when no key selects an action.  If the
   * player's move puts the opponent down, the opponent does not act.
   */
  function PlayRound(m: Match, r: Round): (res: Option<Match>)
    requires BothStanding(m)
    requires RoundFits(r, m.f1.damage, m.f2.damage)
    ensures res.None? <==> FirstAction(r.keys).None?
    ensures res.Some? ==>
      res.value.f1.name == m.f1.name && res.value.f1.damage == m.f1.damage &&
      res.value.f2.name == m.f2.name && res.value.f2.damage == m.f2.damage
    ensures res.Some? ==> !(res.value.f1.health <= 0 && res.value.f2.health <= 0)
    ensures res.Some? && res.value.f2.health <= 0 ==>
      res.value.f1 == m.f1 && res.value.f2.blockedDamage == 0
  {
    match FirstAction(r.keys)
    case None => None
    case Some(a) =>
      var p := Resolve(m.f1, m.f2, a, r.playerRoll);
      if p.target.health <= 0 then Some(Match(p.actor, p.target))
      else
        var o := Resolve(p.target, p.actor, r.opponentChoice, r.opponentRoll);
        Some(Match(o.target, o.actor))
  }

  /** Where a run of the game loop ends, and whether the loop itself stopped. */
  datatype Run = Run(final: Match, finished: bool)

  /**
   * The game loop over a finite script.  The run is not finished when the
   * script runs out, or no key of a round selects an action, while both
   * fighters still stand; the game would then go on waiting for input.
   */
  function RunMatch(m: Match, script: seq<Round>): (r: Run)
    requires ScriptFits(script, m.f1.damage, m.f2.damage)
    ensures r.finished <==> !BothStanding(r.final)
    ensures r.final.f1.name == m.f1.name && r.final.f1.damage == m.f1.damage
    ensures r.final.f2.name == m.f2.name && r.final.f2.damage == m.f2.damage
    decreases |script|
  {
    if !BothStanding(m) then Run(m, true)
    else if script == [] then Run(m, false)
    else
      match PlayRound(m, script[0])
      case None => Run(m, false)
      case Some(next) =>
        ScriptFitsTail(script, next.f1.damage, next.f2.damage);
        RunMatch(next, script[1..])
  }

  /** The three results the end of the game distinguishes. */
  datatype Outcome = PlayerWins | OpponentWins | Tie

  /**
   * The result shown once the loop has stopped: the player wins while standing,
   * the opponent wins while standing over a downed player, otherwise a tie.
   */
  function Classify(m: Match): (o: Outcome)
    ensures o == PlayerWins <==> m.f1.health > 0
    ensures o == OpponentWins <==> m.f1.health <= 0 && m.f2.health > 0
    ensures o == Tie <==> m.f1.health <= 0 && m.f2.health <= 0
  {
    if m.f1.health > 0 then PlayerWins
    else if m.f2.health > 0 then OpponentWins
    else Tie
  }

  /** The result of a run, or None while the game still waits for input. */
  function Verdict(r: Run): Option<Outcome>
  {
    if r.finished then Some(Classify(r.final)) else None
  }

  /**
   * A finished run ends in a tie exactly when both fighters were already down
   * before the first round; otherwise exactly one fighter is down at the end.
   */
  lemma {:induction false} TieOnlyWhenBothStartDown(m: Match, script: seq<Round>)
    requires ScriptFits(script, m.f1.damage, m.f2.damage)
    requires RunMatch(m, script).finished
    ensures var f := RunMatch(m, script).final;
      (f.f1.health <= 0 && f.f2.health <= 0) <==> (m.f1.health <= 0 && m.f2.health <= 0)
    ensures Classify(RunMatch(m, script).final) == Tie <==> (m.f1.health <= 0 && m.f2.health <= 0)
    decreases |script|
  {
    if BothStanding(m) && script != [] {
      match PlayRound(m, script[0])
      case None =>
      case Some(next) =>
        ScriptFitsTail(script, next.f1.damage, next.f2.damage);
        TieOnlyWhenBothStartDown(next, script[1..]);
    }
  }

  /** A match that starts with both fighters standing never ends in a tie. */
  lemma {:induction false} NoTieFromStanding(m: Match, script: seq<Round>)
    requires ScriptFits(script, m.f1.damage, m.f2.damage)
    requires BothStanding(m)
    ensures Verdict(RunMatch(m, script)) != Some(Tie)
    ensures Verdict(RunMatch(m, script)) == Some(PlayerWins) ==>
      RunMatch(m, script).final.f2.health <= 0 < RunMatch(m, script).final.f1.health
    ensures Verdict(RunMatch(m, script)) == Some(OpponentWins) ==>
      RunMatch(m, script).final.f1.health <= 0 < RunMatch(m, script).final.f2.health
  {
    if RunMatch(m, script).finished {
      TieOnlyWhenBothStartDown(m, script);
    }
  }

  /** The opening position of the default match. */
  function Opening(): (m: Match)
    ensures BothStanding(m)
    ensures m.f1.name == PlayerName && m.f1.damage == PlayerDamage && m.f1.blockedDamage == 0
    ensures m.f2.name == OpponentName && m.f2.damage == OpponentDamage && m.f2.blockedDamage == 0
    ensures m.f1.health == m.f2.health == StartHealth
  {
    Match(FighterState(PlayerName, StartHealth, PlayerDamage, 0),
          FighterState(OpponentName, StartHealth, OpponentDamage, 0))
  }

  /** Worked instance: a special move that takes the opponent from 5 to below 0 ends the game at once. */
  lemma KnockoutEndsRound()
    ensures var m := Match(FighterState(PlayerName, 30, PlayerDamage, 0), FighterState(OpponentName, 5, OpponentDamage, 0));
      var r := Round([KeySpecial], 0, BlockAction, 1);
      PlayRound(m, r) == Some(Match(m.f1, m.f2.(health := -35)))
  {
  }

  /**
   * After a knockout by the player the opponent's move plays no part: any
   * other choice and draw for it give the same round.
   */
  lemma KnockoutIgnoresOpponentDraws(m: Match, r: Round, choice: Action, roll: int)
    requires BothStanding(m)
    requires RoundFits(r, m.f1.damage, m.f2.damage)
    requires RollFits(choice, m.f2.damage, roll)
    requires PlayRound(m, r).Some? && PlayRound(m, r).value.f2.health <= 0
    ensures RoundFits(r.(opponentChoice := choice, opponentRoll := roll), m.f1.damage, m.f2.damage)
    ensures PlayRound(m, r.(opponentChoice := choice, opponentRoll := roll)) == PlayRound(m, r)
  {
  }

  /**
   * The game loop on two fighter objects.  The postcondition ties their final
   * fields to the run the specification gives for the same script.
   */
  method Fight(f1: Fighter, f2: Fighter, script: seq<Round>) returns (finished: bool)
    requires f1 != f2
    requires ScriptFits(script, f1.damage, f2.damage)
    modifies f1, f2
    ensures var r := RunMatch(Match(old(f1.State()), old(f2.State())), script);
      Match(f1.State(), f2.State()) == r.final && finished == r.finished
  {
    ghost var goal := RunMatch(Match(f1.State(), f2.State()), script);
    finished := true;
    var i := 0;
    while f1.health > 0 && f2.health > 0
      invariant 0 <= i <= |script|
      invariant ScriptFits(script[i..], f1.damage, f2.damage)
      invariant RunMatch(Match(f1.State(), f2.State()), script[i..]) == goal
      invariant finished
      decreases |script| - i
    {
      ghost var m := Match(f1.State(), f2.State());
      if i == |script| {
        finished := false;
        break;
      }
      var round := script[i];
      assert script[i..][0] == round;
      assert script[i..][1..] == script[i + 1..];
      var action, _ := PollAction(round.keys);
      if action.None? {
        finished := false;
        break;
      }
      match action.value {
        case AttackAction =>
          var dealt := f1.Attack(f2, round.playerRoll);
        case SpecialAction =>
          var dealt := f1.SpecialMove(f2);
        case BlockAction =>
          f1.Block(round.playerRoll);
      }
      assert Match(f1.State(), f2.State()) ==
        var p := Resolve(m.f1, m.f2, action.value, round.playerRoll); Match(p.actor, p.target);
      if f2.health <= 0 {
        assert PlayRound(m, round) == Some(Match(f1.State(), f2.State()));
        break;
      }
      var event := OpponentTurn(f2, f1, round.opponentChoice, round.opponentRoll);
      assert PlayRound(m, round) == Some(Match(f1.State(), f2.State()));
      if f1.health <= 0 {
        break;
      }
      i := i + 1;
    }
  }

  /**
   * The whole game on the default fighters: play the script, then announce
   * the winner.  The tie branch is kept as in the game but cannot be taken.
   */
  method Battle(script: seq<Round>) returns (result: Option<Outcome>)
    requires ScriptFits(script, PlayerDamage, OpponentDamage)
    ensures result == Verdict(RunMatch(Opening(), script))
    ensures result != Some(Tie)
  {
    var f1 := new Fighter(PlayerName, StartHealth, PlayerDamage);
    var f2 := new Fighter(OpponentName, StartHealth, OpponentDamage);
    var finished := Fight(f1, f2, script);
    NoTieFromStanding(Opening(), script);
    if !finished {
      result := None;
    } else if f1.health > 0 {
      result := Some(PlayerWins);
    } else if f2.health > 0 {
      result := Some(OpponentWins);
    } else {
      result := Some(Tie);
    }
  }
}
