// The combat rules of one fighter: the damage roll, the special move and the
// block that the next incoming hit consumes.  Randomness is not modelled as a
// source: each random draw is a parameter, and a `requires` keeps it in the
// inclusive range that `random.randint` would draw it from.
module Fighters {

  /** The three moves a fighter can make in one turn. */
  datatype Action = AttackAction | SpecialAction | BlockAction

  /** A snapshot of a fighter's four fields. */
  datatype FighterState = FighterState(name: string, health: int, damage: int, blockedDamage: int)

  /** What a turn reports for display: who acted, how, and the raw damage. */
  datatype Event =
    | Attacked(actor: string, target: string, dealt: int)
    | SpecialMoved(actor: string, dealt: int)
    | Blocking(actor: string)

  /**
   * The roll of an ordinary attack lies in [damage // 2, damage].  That range
   * is empty for damage below -1, where `randint` raises instead.
   */
  predicate AttackRoll(damage: int, roll: int): (fits: bool)
    ensures fits ==> -1 <= damage && roll <= damage
    ensures fits && damage >= 0 ==> 0 <= roll && damage <= 2 * roll + 1
  {
    damage / 2 <= roll <= damage
  }

  /** An attack draw exists exactly when damage is at least -1. */
  lemma AttackRangeNonEmpty(damage: int)
    ensures (exists roll :: AttackRoll(damage, roll)) <==> damage >= -1
  {
    if damage >= -1 {
      assert AttackRoll(damage, damage);
    }
  }

  /** The roll of a block lies in [1, damage // 3]; that range is empty below damage 3. */
  predicate BlockRoll(damage: int, roll: int): (fits: bool)
    ensures fits ==> damage >= 3 && roll >= 1
  {
    1 <= roll <= damage / 3
  }

  /** The random draw an action consumes, if any, is in that action's range. */
  predicate RollFits(action: Action, damage: int, roll: int)
  {
    match action
    case AttackAction => AttackRoll(damage, roll)
    case SpecialAction => true
    case BlockAction => BlockRoll(damage, roll)
  }

  /** The raw damage of a special move: twice the base damage, with no roll. */
  function SpecialDamage(damage: int): int
  {
    2 * damage
  }

  /**
   * The target after taking `raw` damage: the banked block is subtracted from
   * the raw damage (the net may be negative and then heals) and is used up.
   */
  function Hit(target: FighterState, raw: int): (t: FighterState)
    ensures t.name == target.name && t.damage == target.damage
    ensures t.blockedDamage == 0
    ensures target.health - t.health == raw - target.blockedDamage
    ensures t.health > target.health <==> target.blockedDamage > raw
    ensures t.health < target.health <==> raw > target.blockedDamage
  {
    target.(health := target.health - (raw - target.blockedDamage), blockedDamage := 0)
  }

  /** The fighter after blocking with `roll`: the block replaces any earlier one. */
  function Blocked(f: FighterState, roll: int): (b: FighterState)
    ensures b.name == f.name && b.health == f.health && b.damage == f.damage
    ensures b.blockedDamage == roll
  {
    f.(blockedDamage := roll)
  }

  /** A block does not stack: only the latest one is banked. */
  lemma BlockOverwrites(f: FighterState, first: int, second: int)
    ensures Blocked(Blocked(f, first), second) == Blocked(f, second)
    ensures Blocked(Blocked(f, first), second).blockedDamage == second
  {
  }

  /** A block is consumed by exactly one hit: a second hit meets no block. */
  lemma BlockConsumedOnce(target: FighterState, first: int, second: int)
    ensures Hit(Hit(target, first), second).health == target.health - (first - target.blockedDamage) - second
  {
  }

  /** Both fighters after one of them acts, and the event it reports. */
  datatype Step = Step(actor: FighterState, target: FighterState, event: Event)

  /**
   * One move of `actor` against `target`.  Acting never changes the actor's
   * own health; a hit leaves the actor untouched and a block leaves the target
   * untouched.
   */
  function Resolve(actor: FighterState, target: FighterState, action: Action, roll: int): (s: Step)
    requires RollFits(action, actor.damage, roll)
    ensures s.actor.name == actor.name && s.actor.damage == actor.damage
    ensures s.target.name == target.name && s.target.damage == target.damage
    ensures s.actor.health == actor.health
    ensures s.event.actor == actor.name
    ensures action == BlockAction <==> s.event.Blocking?
    ensures action == BlockAction ==>
      s.target == target && s.actor.blockedDamage == roll && 1 <= roll <= actor.damage / 3
    ensures action != BlockAction ==>
      s.actor == actor && s.target.blockedDamage == 0 &&
      target.health - s.target.health == s.event.dealt - target.blockedDamage
    ensures action == AttackAction ==> s.event == Attacked(actor.name, target.name, roll) && actor.damage / 2 <= roll <= actor.damage
    ensures action == SpecialAction ==> s.event == SpecialMoved(actor.name, 2 * actor.damage)
  {
    match action
    case AttackAction => Step(actor, Hit(target, roll), Attacked(actor.name, target.name, roll))
    case SpecialAction =>
      var raw := SpecialDamage(actor.damage);
      Step(actor, Hit(target, raw), SpecialMoved(actor.name, raw))
    case BlockAction => Step(Blocked(actor, roll), target, Blocking(actor.name))
  }

  /** Worked instance: a block of 15 against a raw hit of 10 heals the target by 5. */
  lemma BlockLargerThanHitHeals()
    ensures Hit(FighterState("Sub-Zero", 50, 18, 15), 10) == FighterState("Sub-Zero", 55, 18, 0)
  {
  }

  /** A fighter whose health and pending block change in place. */
  class Fighter {
    const name: string
    const damage: int
    var health: int
    var blockedDamage: int

    /** The current values of the four fields. */
    function State(): FighterState
      reads this
    {
      FighterState(name, health, damage, blockedDamage)
    }

    /** A fresh fighter has no block banked. */
    constructor (name: string, health: int, damage: int)
      ensures State() == FighterState(name, health, damage, 0)
    {
      this.name := name;
      this.health := health;
      this.damage := damage;
      this.blockedDamage := 0;
    }

    /** Hits `other` with the drawn `roll` and returns that raw damage. */
    method Attack(other: Fighter, roll: int) returns (dealt: int)
      requires AttackRoll(damage, roll)
      modifies other
      ensures damage / 2 <= dealt <= damage && dealt == roll
      ensures other.State() == Hit(old(other.State()), dealt)
      ensures other != this ==> State() == old(State())
    {
      dealt := roll;
      other.health := other.health - (dealt - other.blockedDamage);
      other.blockedDamage := 0;
    }

    /** Hits `other` with twice the base damage and returns that raw damage. */
    method SpecialMove(other: Fighter) returns (dealt: int)
      modifies other
      ensures dealt == 2 * damage
      ensures other.State() == Hit(old(other.State()), dealt)
      ensures other != this ==> State() == old(State())
    {
      dealt := damage * 2;
      other.health := other.health - (dealt - other.blockedDamage);
      other.blockedDamage := 0;
    }

    /** Banks the drawn `roll` as this fighter's block, replacing any earlier one. */
    method Block(roll: int)
      requires BlockRoll(damage, roll)
      modifies this
      ensures damage >= 3 && 1 <= blockedDamage <= damage / 3
      ensures State() == Blocked(old(State()), roll)
    {
      blockedDamage := roll;
    }
  }

  /**
   * The opponent's move: `choice` stands for the uniform draw among the three
   * actions and `roll` for the draw that action makes.  A hit goes to
   * `player`; a block is the opponent's own.
   */
  method OpponentTurn(opponent: Fighter, player: Fighter, choice: Action, roll: int) returns (event: Event)
    requires RollFits(choice, opponent.damage, roll)
    modifies opponent, player
    ensures event == Resolve(old(opponent.State()), old(player.State()), choice, roll).event
    ensures opponent != player ==>
      var s := Resolve(old(opponent.State()), old(player.State()), choice, roll);
      opponent.State() == s.actor && player.State() == s.target
  {
    match choice
    case AttackAction =>
      var dealt := opponent.Attack(player, roll);
      event := Attacked(opponent.name, player.name, dealt);
    case SpecialAction =>
      var dealt := opponent.SpecialMove(player);
      event := SpecialMoved(opponent.name, dealt);
    case BlockAction =>
      opponent.Block(roll);
      event := Blocking(opponent.name);
  }
}
