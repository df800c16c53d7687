/** The game world of main.py (`GameWorld`): the pools of enemies and items
    still to be met, the enemy currently fought, and the operations that
    explore, fight and hand out quests. */
module World {
  import opened Lists
  import opened Entities
  import opened Combat

  /** How a battle ended. `EnemyNotInPool` is a win whose final removal of
      the enemy from the pool raises ValueError in the game, because the enemy
      was no longer in the pool; the other effects of the win have happened. */
  datatype Outcome = PlayerWon | PlayerDefeated | EnemyNotInPool

  /** The enemies a world starts with: name, health, attack power, experience value. */
  const EnemyCatalog: seq<(string, int, int, int)> := [
    ("Goblin", 30, 5, 5),
    ("Orc", 50, 8, 8),
    ("Dragon", 100, 15, 20),
    ("Troll", 40, 6, 6),
    ("Vampire", 70, 10, 15),
    ("Slime", 20, 3, 3),
    ("Zombie", 60, 7, 10),
    ("Bandit", 50, 9, 8)
  ]

  /** The items a world starts with, each of quantity 1: name and effect. */
  const ItemCatalog: seq<(string, string)> := [
    ("Health Potion", "heal"),
    ("Strength Elixir", "boost"),
    ("Magic Stone", "boost"),
    ("Healing Herb", "heal"),
    ("Experience Scroll", "level_up"),
    ("Revive Potion", "revive"),
    ("Energy Drink", "boost"),
    ("Mystery Box", "random")
  ]

  /** The quests that can be assigned. */
  const QuestCatalog: seq<string> := [
    "Defeat 5 Goblins",
    "Collect 3 Healing Herbs",
    "Find the Magic Stone",
    "Defeat the Dragon",
    "Help the Villager",
    "Find the Lost Sword"
  ]

  /** The enemies of `es` whose health is at most `limit`, in their order. */
  function LevelAppropriate(es: seq<Enemy>, limit: int): (r: seq<Enemy>)
    reads es
    ensures |r| <= |es|
    ensures forall i :: 0 <= i < |r| ==> r[i] in es && r[i].health <= limit
    ensures forall i :: 0 <= i < |es| && es[i].health <= limit ==> es[i] in r
  {
    if es == [] then []
    else if es[0].health <= limit then [es[0]] + LevelAppropriate(es[1..], limit)
    else LevelAppropriate(es[1..], limit)
  }

  /** Fresh enemies, one per entry of the catalog, in its order. */
  method NewEnemies() returns (es: seq<Enemy>)
    ensures |es| == |EnemyCatalog|
    ensures forall i :: 0 <= i < |es| ==>
              && fresh(es[i])
              && EnemyCatalog[i] == (es[i].name, es[i].health, es[i].attackPower, es[i].experienceValue)
  {
    var goblin := new Enemy("Goblin", 30, 5, 5);
    var orc := new Enemy("Orc", 50, 8, 8);
    var dragon := new Enemy("Dragon", 100, 15, 20);
    var troll := new Enemy("Troll", 40, 6, 6);
    var vampire := new Enemy("Vampire", 70, 10, 15);
    var slime := new Enemy("Slime", 20, 3, 3);
    var zombie := new Enemy("Zombie", 60, 7, 10);
    var bandit := new Enemy("Bandit", 50, 9, 8);
    es := [goblin, orc, dragon, troll, vampire, slime, zombie, bandit];
  }

  /** Fresh items of quantity 1, one per entry of the catalog, in its order. */
  method NewItems() returns (its: seq<Item>)
    ensures |its| == |ItemCatalog|
    ensures forall i :: 0 <= i < |its| ==>
              && fresh(its[i])
              && ItemCatalog[i] == (its[i].name, its[i].effect)
              && its[i].quantity == 1
  {
    var potion := new Item("Health Potion", "heal");
    var elixir := new Item("Strength Elixir", "boost");
    var stone := new Item("Magic Stone", "boost");
    var herb := new Item("Healing Herb", "heal");
    var scroll := new Item("Experience Scroll", "level_up");
    var revive := new Item("Revive Potion", "revive");
    var drink := new Item("Energy Drink", "boost");
    var box := new Item("Mystery Box", "random");
    its := [potion, elixir, stone, herb, scroll, revive, drink, box];
  }

  class GameWorld {
    const player: Player
    var enemies: seq<Enemy>
    var items: seq<Item>
    var currentEnemy: Enemy?

    constructor (player: Player)
      ensures this.player == player && currentEnemy == null
      ensures |enemies| == |EnemyCatalog|
      ensures forall i :: 0 <= i < |enemies| ==>
                && fresh(enemies[i])
                && EnemyCatalog[i] == (enemies[i].name, enemies[i].health,
                                       enemies[i].attackPower, enemies[i].experienceValue)
      ensures |items| == |ItemCatalog|
      ensures forall i :: 0 <= i < |items| ==>
                && fresh(items[i])
                && ItemCatalog[i] == (items[i].name, items[i].effect)
                && items[i].quantity == 1
      ensures forall i :: 0 <= i < |enemies| ==> enemies[i].attackPower >= 1 && enemies[i].experienceValue >= 0
    {
      var es := NewEnemies();
      var its := NewItems();
      this.player := player;
      enemies := es;
      items := its;
      currentEnemy := null;
    }

    /** Picks the next opponent among the enemies whose health is at most 20
        times the player's level, or among all enemies when none is; with no
        enemies left nothing changes. */
    method EncounterEnemy() returns (m: Message)
      modifies this
      ensures enemies == old(enemies) && items == old(items)
      ensures old(enemies) == [] ==> currentEnemy == old(currentEnemy) && m == NoMoreEnemies
      ensures old(enemies) != [] ==>
                && currentEnemy != null && currentEnemy in enemies
                && m == EnemyAppears(currentEnemy.name)
                && (|| currentEnemy.health <= player.level * 20
                    || forall i :: 0 <= i < |enemies| ==> enemies[i].health > player.level * 20)
    {
      if enemies == [] {
        m := NoMoreEnemies;
        return;
      }
      var possible := LevelAppropriate(enemies, player.level * 20);
      if possible == [] {
        possible := enemies;
      }
      var i :| 0 <= i < |possible|;
      currentEnemy := possible[i];
      m := EnemyAppears(currentEnemy.name);
    }

    /** Moves one item of the pool to the end of the player's inventory. */
    method FindItem() returns (m: Message)
      modifies this, player
      ensures enemies == old(enemies) && currentEnemy == old(currentEnemy)
      ensures multiset(items) + multiset(player.inventory)
              == old(multiset(items) + multiset(player.inventory))
      ensures old(items) == [] ==>
                items == [] && player.State() == old(player.State()) && m == NoMoreItems
      ensures old(items) != [] ==>
                && |player.inventory| == |old(player.inventory)| + 1
                && var item := player.inventory[|player.inventory| - 1];
                && item in old(items)
                && player.State() == old(player.State()).(inventory := old(player.inventory) + [item])
                && items == RemoveFirst(old(items), item)
                && |items| == |old(items)| - 1
                && m == FoundItem(player.name, item.name)
    {
      if items == [] {
        m := NoMoreItems;
        return;
      }
      var i :| 0 <= i < |items|;
      var item := items[i];
      var _ := player.AddItem(item);
      RemoveFirstMultiset(items, item);
      items := RemoveFirst(items, item);
      m := FoundItem(player.name, item.name);
    }

    /** Fights the current enemy to the end. The player moves first in every
        round and the enemy replies only while alive; a win grants the enemy's
        experience, then levels up once more unconditionally, and takes the
        enemy out of the pool. */
    method Battle() returns (log: seq<Message>, outcome: Outcome, ghost rounds: seq<Round>)
      requires currentEnemy != null
      requires player.attackPower >= 1 && currentEnemy.attackPower >= 1
      modifies this, player, currentEnemy
      ensures currentEnemy == old(currentEnemy) && items == old(items)
      ensures Legal(rounds, Vitals(old(player.health), old(currentEnemy.health)),
                    Fighters(player.name, currentEnemy.name, old(player.attackPower), currentEnemy.attackPower))
      ensures WellFormed(old(player.State())) && currentEnemy.experienceValue >= 0 ==> WellFormed(player.State())
      ensures var end := After(rounds, Vitals(old(player.health), old(currentEnemy.health)));
        && currentEnemy.health == end.enemy
        && (end.player <= 0 || end.enemy <= 0)
        && (old(player.health) > 0 && old(currentEnemy.health) > 0 ==> (end.player > 0 <==> end.enemy <= 0))
        && (rounds != [] ==> |rounds| <= old(currentEnemy.health))
        && (end.player > 0 ==>
              && player.State() == Promoted(Gained(old(player.State()).(health := end.player),
                                                   currentEnemy.experienceValue))
              && (player.level == old(player.level) + 1 || player.level == old(player.level) + 2)
              && enemies == RemoveFirst<Enemy>(old(enemies), currentEnemy)
              && outcome == (if currentEnemy in old(enemies) then PlayerWon else EnemyNotInPool)
              && log == Transcript(rounds) + [Victory(player.name, currentEnemy.name),
                                              LeveledUp(player.name, player.level)])
        && (end.player <= 0 ==>
              && player.State() == old(player.State()).(health := end.player)
              && enemies == old(enemies)
              && outcome == PlayerDefeated
              && log == Transcript(rounds) + [Defeat(player.name, currentEnemy.name)])
    {
      var e: Enemy := currentEnemy;
      ghost var start := Vitals(player.health, e.health);
      ghost var f := Fighters(player.name, e.name, player.attackPower, e.attackPower);
      log, rounds := PlayRounds(e);
      EnemyHealthFalls(rounds, start, f);
      if start.player > 0 && start.enemy > 0 {
        OneSurvivor(rounds, start, f);
      }
      if player.IsAlive() {
        log := log + [Victory(player.name, e.name)];
        player.GainExperience(e.experienceValue);
        var levelUpMessage := player.LevelUp();
        log := log + [levelUpMessage];
        outcome := if e in enemies then PlayerWon else EnemyNotInPool;
        enemies := RemoveFirst(enemies, e);
      } else {
        log := log + [Defeat(player.name, e.name)];
        outcome := PlayerDefeated;
      }
    }

    /** The loop of `battle`: rounds are played while both sides are alive. */
    method PlayRounds(e: Enemy) returns (log: seq<Message>, ghost rounds: seq<Round>)
      requires player.attackPower >= 1 && e.attackPower >= 1
      modifies player, e
      ensures Legal(rounds, Vitals(old(player.health), old(e.health)),
                    Fighters(player.name, e.name, old(player.attackPower), e.attackPower))
      ensures After(rounds, Vitals(old(player.health), old(e.health))) == Vitals(player.health, e.health)
      ensures !player.IsAlive() || !e.IsAlive()
      ensures player.State() == old(player.State()).(health := player.health)
      ensures log == Transcript(rounds)
    {
      ghost var start := Vitals(player.health, e.health);
      ghost var f := Fighters(player.name, e.name, player.attackPower, e.attackPower);
      ghost var before := player.State();
      log, rounds := [], [];
      while player.IsAlive() && e.IsAlive()
        invariant player.State() == before.(health := player.health)
        invariant Legal(rounds, start, f)
        invariant After(rounds, start) == Vitals(player.health, e.health)
        invariant log == Transcript(rounds)
        decreases e.health
      {
        var special: bool :| true;
        var playerMove: Message;
        if special {
          playerMove := player.SpecialAttack(e);
        } else {
          playerMove := player.Attack(e);
        }
        var enemyMove: Option<Message> := None;
        if e.IsAlive() {
          var enemySpecial: bool :| true;
          var reply: Message;
          if enemySpecial {
            reply := e.SpecialAttack(player);
          } else {
            reply := e.Attack(player);
          }
          enemyMove := Some(reply);
        }
        ghost var next := rounds + [Round(playerMove, enemyMove)];
        assert next[..|next| - 1] == rounds;
        log := log + [playerMove] + (if enemyMove.Some? then [enemyMove.value] else []);
        rounds := next;
      }
    }

    /** Appends a new, incomplete quest drawn from the catalog. */
    method AssignQuest() returns (m: Message)
      modifies player
      ensures |player.quests| == |old(player.quests)| + 1
      ensures var q := player.quests[|player.quests| - 1];
                && fresh(q) && !q.isCompleted && q.description in QuestCatalog
                && player.State() == old(player.State()).(quests := old(player.quests) + [q])
                && m == QuestAssigned(q.description)
    {
      var k :| 0 <= k < |QuestCatalog|;
      var quest := new Quest(QuestCatalog[k]);
      var _ := player.AcceptQuest(quest);
      m := QuestAssigned(quest.description);
    }

    /** Completes the first quest of the player's list, in list order, that
        is not completed yet; with none left nothing changes. */
    method CompleteQuest() returns (m: Message)
      modifies player, player.quests
      ensures player.quests == old(player.quests)
      ensures old(FirstIncomplete(player.quests)).None? ==>
                && m == NoQuests
                && player.State() == old(player.State())
                && forall j :: 0 <= j < |player.quests| ==>
                     player.quests[j].isCompleted == old(player.quests[j].isCompleted)
      ensures old(FirstIncomplete(player.quests)).Some? ==>
                var q := player.quests[old(FirstIncomplete(player.quests)).value];
                && m == QuestCompleted(q.description)
                && player.State() == old(player.State()).(questsCompleted := old(player.questsCompleted) + 1)
                && forall j :: 0 <= j < |player.quests| ==>
                     player.quests[j].isCompleted == (old(player.quests[j].isCompleted) || player.quests[j] == q)
    {
      ghost var first := FirstIncomplete(player.quests);
      var i := 0;
      while i < |player.quests|
        invariant 0 <= i <= |player.quests|
        invariant unchanged(player) && unchanged(player.quests)
        invariant forall j :: 0 <= j < i ==> player.quests[j].isCompleted
      {
        var quest := player.quests[i];
        if !quest.isCompleted {
          assert first == Some(i);
          var _ := player.CompleteQuest(quest);
          m := QuestCompleted(quest.description);
          return;
        }
        i := i + 1;
      }
      m := NoQuests;
    }
  }
}
