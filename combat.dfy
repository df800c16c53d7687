/** A value-level account of the battle loop of `GameWorld.battle`: the
    rounds it plays, the health each side has after them, and the rules every
    round obeys. The loop in World.GameWorld.PlayRounds, which
    World.GameWorld.Battle calls, is proved to play rounds
    that obey these rules. */
module Combat {
  import opened Lists
  import opened Entities

  /** One pass of the loop: the player's move, then the enemy's move when
      the enemy survived the player's. */
  datatype Round = Round(playerMove: Message, enemyMove: Option<Message>)

  /** The health of the player and of the enemy. */
  datatype Vitals = Vitals(player: int, enemy: int)

  /** Who fights: names and attack powers (neither changes during the loop). */
  datatype Fighters = Fighters(playerName: string, enemyName: string, playerPower: int, enemyPower: int)

  /** `m` is a move by `side` from `attacker` on `target` whose damage lies in
      the range of its kind: 1 to `power` for a basic attack, `power` to twice
      `power` for a special one. */
  predicate IsMove(m: Message, side: Side, attacker: string, target: string, power: int)
  {
    && m.Hit? && m.side == side && m.attacker == attacker && m.target == target
    && if m.special then power <= m.damage <= 2 * power else 1 <= m.damage <= power
  }

  /** The health of both sides after the rounds `rs`, starting from `start`. */
  function After(rs: seq<Round>, start: Vitals): Vitals
  {
    if rs == [] then start
    else
      var v := After(rs[..|rs| - 1], start);
      var r := rs[|rs| - 1];
      Vitals(v.player - (if r.enemyMove.Some? then Damage(r.enemyMove.value) else 0),
             v.enemy - Damage(r.playerMove))
  }

  /** The log lines the rounds `rs` produce, in order. */
  function Transcript(rs: seq<Round>): (log: seq<Message>)
    ensures |rs| <= |log| <= 2 * |rs|
  {
    if rs == [] then []
    else
      var r := rs[|rs| - 1];
      Transcript(rs[..|rs| - 1]) + [r.playerMove] + (if r.enemyMove.Some? then [r.enemyMove.value] else [])
  }

  /** Every round of `rs` started with both sides alive, began with a player
      move, and had an enemy move exactly when the enemy was still alive after
      the player's. */
  predicate Legal(rs: seq<Round>, start: Vitals, f: Fighters)
  {
    rs == [] ||
    var v := After(rs[..|rs| - 1], start);
    var r := rs[|rs| - 1];
    && Legal(rs[..|rs| - 1], start, f)
    && v.player > 0 && v.enemy > 0
    && IsMove(r.playerMove, ByPlayer, f.playerName, f.enemyName, f.playerPower)
    && (r.enemyMove.Some? <==> v.enemy - Damage(r.playerMove) > 0)
    && (r.enemyMove.Some? ==> IsMove(r.enemyMove.value, ByEnemy, f.enemyName, f.playerName, f.enemyPower))
  }

  lemma {:induction false} LegalPrefix(rs: seq<Round>, start: Vitals, f: Fighters, n: nat)
    requires Legal(rs, start, f) && n <= |rs|
    ensures Legal(rs[..n], start, f)
  {
    if n == |rs| {
      assert rs[..n] == rs;
    } else {
      var init := rs[..|rs| - 1];
      assert init[..n] == rs[..n];
      LegalPrefix(init, start, f, n);
    }
  }

  /** Round `i` of a legal battle, stated on its own: both sides were alive
      before it, the player moved first, and the enemy moved in it if and only
      if the player's move left it alive. */
  lemma RoundObeysRules(rs: seq<Round>, start: Vitals, f: Fighters, i: nat)
    requires Legal(rs, start, f) && i < |rs|
    ensures var v := After(rs[..i], start);
      && v.player > 0 && v.enemy > 0
      && IsMove(rs[i].playerMove, ByPlayer, f.playerName, f.enemyName, f.playerPower)
      && (rs[i].enemyMove.Some? <==> v.enemy - Damage(rs[i].playerMove) > 0)
      && (rs[i].enemyMove.Some? ==> IsMove(rs[i].enemyMove.value, ByEnemy, f.enemyName, f.playerName, f.enemyPower))
  {
    LegalPrefix(rs, start, f, i + 1);
    var p := rs[..i + 1];
    assert p[..|p| - 1] == rs[..i];
    assert p[|p| - 1] == rs[i];
  }

  /** With a positive attack power every round costs the enemy at least one
      health point, so a battle against an enemy with `h` health lasts at most
      `h` rounds. */
  lemma {:induction false} EnemyHealthFalls(rs: seq<Round>, start: Vitals, f: Fighters)
    requires Legal(rs, start, f) && f.playerPower >= 1
    ensures After(rs, start).enemy <= start.enemy - |rs|
    ensures rs != [] ==> |rs| <= start.enemy
  {
    if rs != [] {
      EnemyHealthFalls(rs[..|rs| - 1], start, f);
    }
  }

  /** A legal battle between two living sides that has ended leaves exactly
      one of them alive. */
  lemma OneSurvivor(rs: seq<Round>, start: Vitals, f: Fighters)
    requires Legal(rs, start, f)
    requires start.player > 0 && start.enemy > 0
    requires After(rs, start).player <= 0 || After(rs, start).enemy <= 0
    ensures After(rs, start).player > 0 <==> After(rs, start).enemy <= 0
  {
  }
}
