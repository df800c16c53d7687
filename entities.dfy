/** The characters, items and quests of the game (`Player`, `Enemy`, `Item`,
    `Quest` in main.py), as objects whose fields the game updates in place.
    Random rolls are arbitrary choices within the range the game draws from,
    so every contract below holds for every roll. */
module Entities {
  import opened Lists

  /** Which combatant made a move. */
  datatype Side = ByPlayer | ByEnemy

  /** The messages the game returns, with the values its formatted strings
      mention (the exact wording is not modelled). */
  datatype Message =
    | Hit(side: Side, special: bool, attacker: string, target: string, damage: int)
    | PickedUp(who: string, item: string)
    | Used(who: string, item: string, effect: Message)
    | ItemNotFound
    | Healed(who: string)
    | Boosted(who: string)
    | ExperienceGained(who: string)
    | NothingHappens
    | LeveledUp(who: string, level: int)
    | AcceptedQuest(who: string, description: string)
    | CompletedQuest(who: string, description: string)
    | EnemyAppears(enemy: string)
    | NoMoreEnemies
    | FoundItem(who: string, item: string)
    | NoMoreItems
    | Victory(who: string, enemy: string)
    | Defeat(who: string, enemy: string)
    | QuestAssigned(description: string)
    | QuestCompleted(description: string)
    | NoQuests

  /** The damage a move inflicts (zero for anything that is not a hit). */
  function Damage(m: Message): int
  {
    if m.Hit? then m.damage else 0
  }

  /** The mutable part of a player, as a value. */
  datatype PlayerState = PlayerState(
    health: int,
    attackPower: int,
    level: int,
    experience: int,
    questsCompleted: int,
    inventory: seq<Item>,
    quests: seq<Quest>)

  /** The ranges every player the game creates stays within. */
  predicate WellFormed(s: PlayerState)
  {
    s.level >= 1 && s.experience >= 0 && s.attackPower >= 1 && s.questsCompleted >= 0
  }

  /** One level-up: a level, 20 health and 5 attack power more, experience back to 0. */
  function Promoted(s: PlayerState): (r: PlayerState)
    ensures r.level == s.level + 1 && r.health == s.health + 20
    ensures r.attackPower == s.attackPower + 5 && r.experience == 0
    ensures r.inventory == s.inventory && r.quests == s.quests && r.questsCompleted == s.questsCompleted
    ensures WellFormed(s) ==> WellFormed(r)
  {
    s.(level := s.level + 1, health := s.health + 20, attackPower := s.attackPower + 5, experience := 0)
  }

  /** Gaining `exp` experience: the threshold is tested once, so a single gain
      levels up at most once however large it is. */
  function Gained(s: PlayerState, exp: int): (r: PlayerState)
    ensures r.level == s.level + 1 <==> s.experience + exp >= s.level * 10
    ensures r.level == s.level <==> s.experience + exp < s.level * 10
    ensures r.level == s.level ==> r == s.(experience := s.experience + exp)
    ensures s.experience + exp >= s.level * 10 ==> r == Promoted(s)
    ensures r.inventory == s.inventory && r.quests == s.quests && r.questsCompleted == s.questsCompleted
    ensures WellFormed(s) && exp >= 0 ==> WellFormed(r)
  {
    var t := s.(experience := s.experience + exp);
    if t.experience >= t.level * 10 then Promoted(t) else t
  }

  /** The effect of using an item whose effect name is `effect`; names other
      than "heal", "boost", "level_up" and "random" change nothing. "random"
      is excluded: the game's version of it calls itself with the same effect,
      recursing without end until Python raises RecursionError, by which time
      nothing has been changed. */
  function ApplyEffect(s: PlayerState, effect: string): (r: PlayerState)
    requires effect != "random"
    ensures effect == "heal" ==> r == s.(health := s.health + 20)
    ensures effect == "boost" ==> r == s.(attackPower := s.attackPower + 5)
    ensures effect == "level_up" && s.experience >= 0 ==> r == Promoted(s)
    ensures effect !in {"heal", "boost", "level_up"} ==> r == s
    ensures r.inventory == s.inventory && r.quests == s.quests
    ensures WellFormed(s) ==> WellFormed(r)
  {
    if effect == "heal" then s.(health := s.health + 20)
    else if effect == "boost" then s.(attackPower := s.attackPower + 5)
    else if effect == "level_up" then Gained(s, s.level * 10)
    else s
  }

  /** The message `Item.use` returns for an effect other than "random". */
  function EffectMessage(effect: string, who: string): Message
    requires effect != "random"
  {
    if effect == "heal" then Healed(who)
    else if effect == "boost" then Boosted(who)
    else if effect == "level_up" then ExperienceGained(who)
    else NothingHappens
  }

  /** The first inventory entry called `name`, as `next(...)` finds it. */
  function FirstNamed(inv: seq<Item>, name: string): (r: Option<nat>)
    ensures r.Some? ==> r.value < |inv| && inv[r.value].name == name
    ensures r.Some? ==> forall j :: 0 <= j < r.value ==> inv[j].name != name
    ensures r.None? <==> forall j :: 0 <= j < |inv| ==> inv[j].name != name
  {
    if inv == [] then None
    else if inv[0].name == name then Some(0)
    else match FirstNamed(inv[1..], name)
      case None => None
      case Some(k) => Some(k + 1)
  }

  /** The first quest in list order that is not completed. */
  function FirstIncomplete(qs: seq<Quest>): (r: Option<nat>)
    reads qs
    ensures r.Some? ==> r.value < |qs| && !qs[r.value].isCompleted
    ensures r.Some? ==> forall j :: 0 <= j < r.value ==> qs[j].isCompleted
    ensures r.None? <==> forall j :: 0 <= j < |qs| ==> qs[j].isCompleted
  {
    if qs == [] then None
    else if !qs[0].isCompleted then Some(0)
    else match FirstIncomplete(qs[1..])
      case None => None
      case Some(k) => Some(k + 1)
  }

  class Quest {
    const description: string
    var isCompleted: bool

    constructor (description: string)
      ensures this.description == description && !isCompleted
    {
      this.description := description;
      isCompleted := false;
    }
  }

  class Enemy {
    const name: string
    var health: int
    const attackPower: int
    const experienceValue: int

    constructor (name: string, health: int, attackPower: int, experienceValue: int)
      ensures this.name == name && this.health == health
      ensures this.attackPower == attackPower && this.experienceValue == experienceValue
    {
      this.name := name;
      this.health := health;
      this.attackPower := attackPower;
      this.experienceValue := experienceValue;
    }

    predicate IsAlive()
      reads this
    {
      health > 0
    }

    /** A basic attack: the roll is drawn from 1 to the attack power (an
        empty range, which the game cannot draw from, is excluded). */
    method Attack(player: Player) returns (m: Message)
      requires attackPower >= 1
      modifies player
      ensures m.Hit? && m.side == ByEnemy && !m.special && m.attacker == name && m.target == player.name
      ensures 1 <= m.damage <= attackPower
      ensures player.State() == old(player.State()).(health := old(player.health) - m.damage)
    {
      var damage :| 1 <= damage <= attackPower;
      player.health := player.health - damage;
      m := Hit(ByEnemy, false, name, player.name, damage);
    }

    /** A special attack: the roll is drawn from the attack power to twice it. */
    method SpecialAttack(player: Player) returns (m: Message)
      requires attackPower >= 0
      modifies player
      ensures m.Hit? && m.side == ByEnemy && m.special && m.attacker == name && m.target == player.name
      ensures attackPower <= m.damage <= 2 * attackPower
      ensures player.State() == old(player.State()).(health := old(player.health) - m.damage)
    {
      var damage :| attackPower <= damage <= 2 * attackPower;
      player.health := player.health - damage;
      m := Hit(ByEnemy, true, name, player.name, damage);
    }
  }

  class Item {
    const name: string
    const effect: string
    var quantity: int

    constructor (name: string, effect: string, quantity: int := 1)
      ensures this.name == name && this.effect == effect && this.quantity == quantity
    {
      this.name := name;
      this.effect := effect;
      this.quantity := quantity;
    }

    /** Applies this item's effect to `player`. The "random" effect is
        excluded: the game's version of it recurses without end until Python
        raises RecursionError; nothing has been changed by then. */
    method Use(player: Player) returns (m: Message)
      requires effect != "random"
      modifies player
      ensures player.State() == ApplyEffect(old(player.State()), effect)
      ensures WellFormed(old(player.State())) ==> WellFormed(player.State())
      ensures m == EffectMessage(effect, player.name)
    {
      if effect == "heal" {
        player.health := player.health + 20;
        m := Healed(player.name);
      } else if effect == "boost" {
        player.attackPower := player.attackPower + 5;
        m := Boosted(player.name);
      } else if effect == "level_up" {
        player.GainExperience(player.level * 10);
        m := ExperienceGained(player.name);
      } else {
        m := NothingHappens;
      }
    }
  }

  class Player {
    const name: string
    var health: int
    var attackPower: int
    var level: int
    var experience: int
    var questsCompleted: int
    var inventory: seq<Item>
    var quests: seq<Quest>

    /** Every field but the name, as a value. */
    function State(): PlayerState
      reads this
    {
      PlayerState(health, attackPower, level, experience, questsCompleted, inventory, quests)
    }

    constructor (name: string)
      ensures this.name == name
      ensures State() == PlayerState(100, 10, 1, 0, 0, [], [])
      ensures WellFormed(State())
    {
      this.name := name;
      health := 100;
      attackPower := 10;
      level := 1;
      experience := 0;
      questsCompleted := 0;
      inventory := [];
      quests := [];
    }

    predicate IsAlive()
      reads this
    {
      health > 0
    }

    /** A basic attack: the roll is drawn from 1 to the attack power. */
    method Attack(enemy: Enemy) returns (m: Message)
      requires attackPower >= 1
      modifies enemy
      ensures m.Hit? && m.side == ByPlayer && !m.special && m.attacker == name && m.target == enemy.name
      ensures 1 <= m.damage <= attackPower
      ensures enemy.health == old(enemy.health) - m.damage
    {
      var damage :| 1 <= damage <= attackPower;
      enemy.health := enemy.health - damage;
      m := Hit(ByPlayer, false, name, enemy.name, damage);
    }

    /** A special attack: the roll is drawn from the attack power to twice it. */
    method SpecialAttack(enemy: Enemy) returns (m: Message)
      requires attackPower >= 0
      modifies enemy
      ensures m.Hit? && m.side == ByPlayer && m.special && m.attacker == name && m.target == enemy.name
      ensures attackPower <= m.damage <= 2 * attackPower
      ensures enemy.health == old(enemy.health) - m.damage
    {
      var damage :| attackPower <= damage <= 2 * attackPower;
      enemy.health := enemy.health - damage;
      m := Hit(ByPlayer, true, name, enemy.name, damage);
    }

    method AddItem(item: Item) returns (m: Message)
      modifies this
      ensures State() == old(State()).(inventory := old(inventory) + [item])
      ensures m == PickedUp(name, item.name)
    {
      inventory := inventory + [item];
      m := PickedUp(name, item.name);
    }

    /** Uses the first inventory entry called `itemName`: applies its effect,
        takes one from its quantity and drops that one entry once the quantity
        is not positive. Nothing changes when no entry has that name. */
    method UseItem(itemName: string) returns (m: Message)
      requires FirstNamed(inventory, itemName).Some? ==>
                 inventory[FirstNamed(inventory, itemName).value].effect != "random"
      modifies this, inventory
      ensures FirstNamed(old(inventory), itemName).None? ==>
                && m == ItemNotFound
                && State() == old(State())
                && forall j :: 0 <= j < |inventory| ==> inventory[j].quantity == old(inventory[j].quantity)
      ensures FirstNamed(old(inventory), itemName).Some? ==>
                var k := FirstNamed(old(inventory), itemName).value;
                var item := old(inventory)[k];
                && m == Used(name, item.name, EffectMessage(item.effect, name))
                && item.quantity == old(item.quantity) - 1
                && (forall j :: 0 <= j < |old(inventory)| && old(inventory[j]) != item ==>
                      old(inventory[j]).quantity == old(inventory[j].quantity))
                && State() == ApplyEffect(old(State()), item.effect).(
                     inventory := if item.quantity <= 0
                                  then old(inventory)[..k] + old(inventory)[k + 1..]
                                  else old(inventory))
      ensures WellFormed(old(State())) ==> WellFormed(State())
    {
      var found := FirstNamed(inventory, itemName);
      if found.None? {
        m := ItemNotFound;
        return;
      }
      var k := found.value;
      var item := inventory[k];
      var effectMessage := item.Use(this);
      item.quantity := item.quantity - 1;
      if item.quantity <= 0 {
        RemoveFirstAt(inventory, item, k);
        inventory := RemoveFirst(inventory, item);
      }
      m := Used(name, item.name, effectMessage);
    }

    method GainExperience(exp: int)
      modifies this
      ensures State() == Gained(old(State()), exp)
      ensures WellFormed(old(State())) && exp >= 0 ==> WellFormed(State())
    {
      experience := experience + exp;
      if experience >= level * 10 {
        var _ := LevelUp();
      }
    }

    method LevelUp() returns (m: Message)
      modifies this
      ensures State() == Promoted(old(State()))
      ensures m == LeveledUp(name, level)
    {
      level := level + 1;
      health := health + 20;
      attackPower := attackPower + 5;
      experience := 0;
      m := LeveledUp(name, level);
    }

    /** Healing sets health to 100, whatever it was. */
    method Heal()
      modifies this
      ensures State() == old(State()).(health := 100)
    {
      health := 100;
    }

    method AcceptQuest(quest: Quest) returns (m: Message)
      modifies this
      ensures State() == old(State()).(quests := old(quests) + [quest])
      ensures m == AcceptedQuest(name, quest.description)
    {
      quests := quests + [quest];
      m := AcceptedQuest(name, quest.description);
    }

    method CompleteQuest(quest: Quest) returns (m: Message)
      modifies this, quest
      ensures quest.isCompleted
      ensures State() == old(State()).(questsCompleted := old(questsCompleted) + 1)
      ensures m == CompletedQuest(name, quest.description)
    {
      quest.isCompleted := true;
      questsCompleted := questsCompleted + 1;
      m := CompletedQuest(name, quest.description);
    }
  }
}
