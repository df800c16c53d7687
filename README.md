# A verified model of the RPG simulation layer

This project models the simulation core of a small single-player role-playing
game, written in Python as one file, `main.py`. It covers the player and enemy
characters, items and their effects, quests, and the game world. The world
picks level-appropriate enemies, hands out items, runs battles to completion,
and assigns and completes quests. The model is imperative Dafny, taking the
shape of the Python code. Each Python class whose fields are updated in place
is a Dafny `class`. Its list attributes are `seq` fields that the methods
reassign. The battle and the quest scan are `while` loops.

Modules:

- `Lists` (lists.dfy): `Option`, and `RemoveFirst`, which models Python's `list.remove`. It deletes the first element identical to the argument.
- `Entities` (entities.dfy): `Quest`, `Enemy`, `Item` and `Player`. A `PlayerState` value holds a player's mutable fields. The pure transitions `Promoted` (a level-up), `Gained` (gaining experience) and `ApplyEffect` (an item effect) specify the methods. `FirstNamed` and `FirstIncomplete` are first-match searches.
- `Combat` (combat.dfy): a value-level account of the battle loop. A `Round` is the player's move plus the enemy's optional reply. `After` gives the health of both sides after some rounds. `Legal` states the rules every round obeys. The lemmas are about bounds, prefixes and the single survivor.
- `World` (world.dfy): `GameWorld` with its enemy, item and quest catalogs, and `LevelAppropriate`, the filter used for encounters.

Randomness (`random.randint`, `random.choice`) is an arbitrary choice (`:|`)
within the range the game draws from. Every contract therefore holds for every
roll. The uniform distribution itself is not modelled. Log and status
strings are values of the `Message` datatype. Each value carries the data its
string mentions: names, damage, level, quest description.

Behaviours of the code that the model keeps as written:

- After a won battle, `battle` calls `level_up()` unconditionally, right after `gain_experience`. A win therefore always raises the level, by 1 or by 2.
- `gain_experience` tests the threshold once. A single large gain levels up at most once.
- `heal` sets health to 100, whatever the level.
- Health is not clamped and may become negative.
- `current_enemy` is never cleared after a battle.
- An empty pool is reported through a message (`NoMoreEnemies`, `NoMoreItems`, `NoQuests`), not through a distinct error.
- The `"random"` item effect does not redirect to another effect. It calls itself with the same effect and recurses without end until Python raises RecursionError. Nothing has been changed by then: in `use_item` the error escapes before the quantity is decreased, so the item stays in the inventory. The effect is therefore excluded (see "Left out").
- Saving a player does not write its quests (main.py:51-64). This model does not include persistence.
- The `"level_up"` item grants `level * 10` experience, which levels up exactly once whenever experience is not negative. `WellFormed` gives the ranges for that: level at least 1, experience and completed-quest count not negative, attack power at least 1. The `Player` constructor establishes it. `GainExperience` (for a non-negative gain), `Item.Use`, `UseItem` and `Battle` (for an enemy with a non-negative experience value) state that they keep it. The world's constructor states that every catalog enemy has attack power at least 1 and a non-negative experience value.

## Model

| member | source | states |
|---|---|---|
| `Lists.RemoveFirst` | main.py:125 | removing the first occurrence of `x`: length drops by one when `x` occurs, nothing changes when it does not |
| `Lists.RemoveFirstMultiset` | main.py:260 | removing the first occurrence takes exactly one `x` out of the multiset of elements |
| `Lists.RemoveFirstAt` | main.py:119-125 | when `k` is the first index holding `x`, `list.remove(x)` deletes exactly position `k` and keeps the order of all other entries |
| `Entities.Promoted` | main.py:134-139 | a level-up adds exactly 1 level, 20 health and 5 attack power, zeroes experience, leaves inventory, quests and completed-quest count alone, and preserves the well-formed ranges |
| `Entities.Gained` | main.py:129-132 | gaining experience levels up exactly when experience plus the gain reaches `level*10`, and that level-up is exactly `Promoted` (+1 level, +20 health, +5 attack power, experience 0); otherwise it only adds the gain; the level never rises by more than one; well-formedness is kept for non-negative gains |
| `Entities.ApplyEffect` | main.py:207-220 | "heal" adds 20 health, "boost" adds 5 attack power, "level_up" on non-negative experience is exactly one level-up, every other effect name changes nothing; inventory and quests untouched; well-formedness kept; "random" is excluded, since the code raises RecursionError on it |
| `Entities.FirstNamed` | main.py:120 | the result is the first inventory index whose item has the name, or none exactly when no item has it |
| `Entities.FirstIncomplete` | main.py:309-310 | the result is the first quest index not completed (all before it completed), or none exactly when all are completed |
| `Entities.Quest.constructor` | main.py:177-179 | a quest starts with its description and not completed |
| `Entities.Enemy.constructor` | main.py:182-186 | an enemy holds the given name, health, attack power and experience value |
| `Entities.Enemy.Attack` | main.py:188-191 | damage `d` with `1 <= d <= attack_power`; the player's health drops by exactly `d` and nothing else of the player changes |
| `Entities.Enemy.SpecialAttack` | main.py:193-196 | damage `d` with `attack_power <= d <= 2*attack_power`; the player's health drops by exactly `d` and nothing else of the player changes |
| `Entities.Item.constructor` | main.py:202-205 | an item holds the given name, effect and quantity, the quantity being 1 when not given |
| `Entities.Item.Use` | main.py:207-220 | the player's new state is the effect applied to the old one, well-formedness is kept, and the message matches the effect |
| `Entities.Player.constructor` | main.py:91-99 | a new player has 100 health, 10 attack power, level 1, no experience, no completed quests, empty inventory and quest list |
| `Entities.Player.Attack` | main.py:101-104 | damage `d` with `1 <= d <= attack_power`; the enemy's health drops by exactly `d`; the player is not changed |
| `Entities.Player.SpecialAttack` | main.py:106-109 | damage `d` with `attack_power <= d <= 2*attack_power`; the enemy's health drops by exactly `d` |
| `Entities.Player.AddItem` | main.py:111-113 | the item is appended to the inventory; nothing else changes |
| `Entities.Player.UseItem` | main.py:119-127 | the first entry with that name has its effect applied and its quantity reduced by one; only that entry is removed, and only when its quantity is then not positive; other entries keep their order and quantities; with no match nothing changes; well-formedness is kept |
| `Entities.Player.GainExperience` | main.py:129-132 | the new state is `Gained(old state, exp)`: at most one level-up, exactly when the threshold is reached; a non-negative gain keeps well-formedness |
| `Entities.Player.LevelUp` | main.py:134-139 | level +1, health +20, attack power +5, experience 0; name, inventory, quests and completed-quest count untouched |
| `Entities.Player.Heal` | main.py:144-145 | health becomes 100; nothing else changes |
| `Entities.Player.AcceptQuest` | main.py:147-149 | the quest is appended to the quest list; nothing else changes |
| `Entities.Player.CompleteQuest` | main.py:151-154 | the quest is marked completed and the completed-quest count rises by one |
| `Combat.Transcript` | main.py:265-279 | a battle of `n` rounds logs between `n` and `2n` move lines |
| `Combat.LegalPrefix` | main.py:267-279 | every prefix of a legal sequence of rounds is legal |
| `Combat.RoundObeysRules` | main.py:267-279 | in every round both sides were alive before it, the player moved first with a damage in its range, and the enemy replied if and only if it was still alive after the player's move |
| `Combat.EnemyHealthFalls` | main.py:267-272 | with attack power at least 1 each round costs the enemy at least 1 health, so a battle lasts at most as many rounds as the enemy's starting health |
| `Combat.OneSurvivor` | main.py:267-281 | a finished battle that began with both sides alive leaves exactly one of them alive |
| `World.LevelAppropriate` | main.py:249 | the kept enemies are exactly the pool's enemies whose health is at most the limit |
| `World.NewEnemies` | main.py:225-234 | eight fresh enemies with the catalog's names, health, attack power and experience values, in order |
| `World.NewItems` | main.py:235-244 | eight fresh items of quantity 1 with the catalog's names and effects, in order |
| `World.GameWorld.constructor` | main.py:223-245 | a new world holds the player, the catalog enemies and items, and no current enemy; every catalog enemy has attack power at least 1 and a non-negative experience value |
| `World.GameWorld.EncounterEnemy` | main.py:247-254 | with an empty pool the current enemy is unchanged; otherwise it is a pool enemy with health at most `level*20`, or any pool enemy when none qualifies; the pool is not modified |
| `World.GameWorld.FindItem` | main.py:256-262 | one pool item moves to the end of the inventory (both lengths change by one, the multiset union is conserved); nothing happens on an empty pool |
| `World.GameWorld.PlayRounds` | main.py:267-279 | the loop plays legal rounds until one side is no longer alive, changing only the two healths, and logs each move |
| `World.GameWorld.Battle` | main.py:264-292 | the rounds are legal and at most the enemy's starting health in number; afterwards a combatant is down, and exactly one if both started alive; a win applies the gain and one extra level-up (level rises by 1 or 2) and removes the enemy from the pool; a loss changes only the player's health; well-formedness is kept when the enemy's experience value is not negative |
| `World.GameWorld.AssignQuest` | main.py:294-306 | one fresh, incomplete quest with a catalog description is appended; nothing else changes |
| `World.GameWorld.CompleteQuest` | main.py:308-313 | the first incomplete quest in list order is completed and the count rises by one, other quests unchanged; with none incomplete nothing changes |

`Player.IsAlive` and `Enemy.IsAlive` (main.py:141-142 and 198-199) are the
predicates `health > 0`. The exit condition of `PlayRounds` is stated through
them. The other battle contracts and `Combat.Legal` state the same condition
on health values directly.

## Left out

- `GameDatabase` (main.py:14-88): sqlite I/O. Had it been modelled, two facts would have to be kept. `save_player` never writes quests, so a save and load loses them. Loaded items get the effect `""`, so they become inert.
- Display and UI code is not modelled: `display_stats`, `display_quests`, `show_inventory`, `display_map`, `PygameApp` (which uses a float HP ratio) and `RPGGameApp`. These are rich console, matplotlib, pygame and tkinter presentation code.
- The exact wording of messages: messages are `Message` values.
- The uniform distribution of the random draws: only the range drawn from is modelled.
- Entities.Item.Use: the `"random"` effect is excluded by a precondition. The code computes a random effect, ignores it, and calls itself with the same effect, recursing without end until Python raises RecursionError; nothing has been changed by then. The model does not include that error path.
- Entities.Player.UseItem: when the first matching entry has the `"random"` effect, the call is excluded by a precondition. In the code the RecursionError escapes `use_item` before the quantity is decreased, so player and inventory are unchanged. The model does not include that error path.
- Entities.Player.Attack: an attack power below 1 is excluded by a precondition, because `randint(1, attack_power)` raises ValueError on an empty range. The same holds for `Enemy.Attack`. The special attacks exclude an attack power below 0.
- World.GameWorld.Battle: requires a current enemy, since the code fails with AttributeError on `None`. It also requires both attack powers to be at least 1, because either side may draw a basic attack.
- World.GameWorld.Battle: when the enemy is no longer in the pool, the final `enemies.remove` raises ValueError after the win's other effects. The model reports this as the outcome `EnemyNotInPool` and still returns the log, which the code would not return.
