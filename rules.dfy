/** The per-tick rules of game/game.go, stated on values.
    A PlayerState is what one Player object holds at one instant (the fields
    the snapshot serialises); a Bullet is one shot. The classes in module Game
    are proved to perform exactly these functions. */
module GameRules {

  type Uuid = nat

  const GameWidth: real := 1024.0
  const GameHeight: real := 768.0
  /** Horizontal half-width of the hit box; the vertical one is twice this. */
  const Tolerance: real := 5.0
  /** Reload countdown after a shot. */
  const ReloadAfterShot: int := 25
  const BulletSpeed: real := 2.0

  /** The eight rotation constants. The source compares float values; every
      rotation it ever assigns is one of the eight, and OtherAngle stands for
      any other value a field could hold. */
  datatype RotationDegree =
    | RotationUp | RotationDown | RotationLeft | RotationRight
    | RotationRightUp | RotationRightDown | RotationLeftUp | RotationLeftDown
    | OtherAngle

  datatype PlayerStatus = WaitForPlay | Pause | Resume | Ready | Died | Idle | Respawn

  /** NoStatus is the zero value a new game starts with: nothing in the
      server ever sets the status. */
  datatype GameStatus = NoStatus | WaitForPlayer | Playing | Scoreboard

  datatype Option<T> = None | Some(value: T)

  datatype Bounds = Bounds(width: real, height: real)

  datatype PlayerState = PlayerState(
    uuid: Uuid,
    name: string,
    x: real,
    y: real,
    left: bool, right: bool, up: bool, down: bool, fire: bool,
    acceleration: real,
    velocity: real,
    rotation: RotationDegree,
    life: int,
    power: real,
    reloadTime: int,
    status: PlayerStatus,
    score: int,
    you: bool)

  datatype Bullet = Bullet(
    id: Uuid,
    x: real,
    y: real,
    owner: Uuid,
    rotation: RotationDegree,
    damage: real,
    speed: real,
    exhausted: bool)

  /** The players of a game keyed by id, as the game's player map holds them. */
  type Roster = map<Uuid, PlayerState>

  /** What one snapshot of the game carries: the ordered players, the bullets,
      the status, the player marked as the recipient's own, and the bounds. */
  datatype World = World(
    players: seq<PlayerState>,
    bullets: seq<Bullet>,
    status: GameStatus,
    you: Option<PlayerState>,
    bounds: Bounds)

  predicate IsCompass(r: RotationDegree) { r != OtherAngle }

  // ---------------------------------------------------------------------------
  // Direction table: unit steps per rotation (independent of the switch in
  // MoveBullets and of the branches in MovePlayer)
  // ---------------------------------------------------------------------------

  function DX(r: RotationDegree): int
  {
    match r
    case RotationRight | RotationRightUp | RotationRightDown => 1
    case RotationLeft | RotationLeftUp | RotationLeftDown => -1
    case _ => 0
  }

  function DY(r: RotationDegree): int
  {
    match r
    case RotationUp | RotationRightUp | RotationLeftUp => 1
    case RotationDown | RotationRightDown | RotationLeftDown => -1
    case _ => 0
  }

  /** The rotation named by a combination of direction flags that has at most
      one horizontal and at most one vertical flag. */
  function Heading(right: bool, left: bool, up: bool, down: bool): RotationDegree
  {
    if right && up then RotationRightUp
    else if right && down then RotationRightDown
    else if left && up then RotationLeftUp
    else if left && down then RotationLeftDown
    else if right then RotationRight
    else if left then RotationLeft
    else if up then RotationUp
    else if down then RotationDown
    else OtherAngle
  }

  // ---------------------------------------------------------------------------
  // Player movement (Player.MovePlayer)
  // ---------------------------------------------------------------------------

  /** The per-axis displacement of one tick. */
  function Step(p: PlayerState): real { p.acceleration * p.velocity }

  function ApplyRight(p: PlayerState): (r: PlayerState)
    ensures r == p.(x := r.x, rotation := r.rotation)
    ensures r.x == if p.right && p.x < GameWidth then p.x + Step(p) else p.x
  {
    var p1 := if p.right && p.x < GameWidth
              then p.(x := p.x + Step(p), rotation := if !p.up && !p.down then RotationRight else p.rotation)
              else p;
    var p2 := if p1.right && p1.up then p1.(rotation := RotationRightUp) else p1;
    if p2.right && p2.down then p2.(rotation := RotationRightDown) else p2
  }

  function ApplyLeft(p: PlayerState): (r: PlayerState)
    ensures r == p.(x := r.x, rotation := r.rotation)
    ensures r.x == if p.left && p.x > 0.0 then p.x - Step(p) else p.x
  {
    var p1 := if p.left && p.x > 0.0
              then p.(x := p.x - Step(p), rotation := if !p.up && !p.down then RotationLeft else p.rotation)
              else p;
    var p2 := if p1.left && p1.up then p1.(rotation := RotationLeftUp) else p1;
    if p2.left && p2.down then p2.(rotation := RotationLeftDown) else p2
  }

  function ApplyUp(p: PlayerState): (r: PlayerState)
    ensures r == p.(y := r.y, rotation := r.rotation)
    ensures r.y == if p.up && p.y < GameHeight then p.y + Step(p) else p.y
  {
    if p.up && p.y < GameHeight
    then p.(y := p.y + Step(p), rotation := if !p.left && !p.right then RotationUp else p.rotation)
    else p
  }

  function ApplyDown(p: PlayerState): (r: PlayerState)
    ensures r == p.(y := r.y, rotation := r.rotation)
    ensures r.y == if p.down && p.y > 0.0 then p.y - Step(p) else p.y
  {
    if p.down && p.y > 0.0
    then p.(y := p.y - Step(p), rotation := if !p.left && !p.right then RotationDown else p.rotation)
    else p
  }

  /** One call of MovePlayer (its dt argument is unused). Only the position,
      the rotation and the reload countdown can change; a dead player is
      frozen; a live player's positive countdown drops by exactly one. */
  function Moved(p: PlayerState): (r: PlayerState)
    ensures p.life <= 0 ==> r == p
    ensures p.life > 0 ==> r.reloadTime == (if p.reloadTime > 0 then p.reloadTime - 1 else p.reloadTime)
    ensures r == p.(x := r.x, y := r.y, rotation := r.rotation, reloadTime := r.reloadTime)
  {
    if p.life <= 0 then p else Steered(Counted(p))
  }

  /** A live player's reload countdown ticks down while positive. */
  function Counted(p: PlayerState): (r: PlayerState)
    ensures r == p.(reloadTime := r.reloadTime)
    ensures r.reloadTime == (if p.reloadTime > 0 then p.reloadTime - 1 else p.reloadTime)
  {
    if p.reloadTime > 0 then p.(reloadTime := p.reloadTime - 1) else p
  }

  /** The four intents applied in MovePlayer's order: right, left, up, down. */
  function Steered(c: PlayerState): (r: PlayerState)
    ensures r == c.(x := r.x, y := r.y, rotation := r.rotation)
  {
    var b := ApplyLeft(ApplyRight(c));
    assert b == c.(x := b.x, rotation := b.rotation);
    ApplyDown(ApplyUp(b))
  }

  /** Exactly one horizontal and one vertical intent: the diagonal rotation
      is chosen whether or not a bound check blocks the step. */
  lemma DiagonalRotation(p: PlayerState)
    requires p.life > 0
    requires p.right != p.left && p.up != p.down
    ensures Moved(p).rotation == Heading(p.right, p.left, p.up, p.down)
    ensures IsCompass(Moved(p).rotation)
  {
  }

  /** A lone intent, or one horizontal plus one vertical intent, whose bound
      checks all pass: the player steps the full Step along every intended axis
      (diagonals are not normalised) and faces the direction it moved. */
  lemma MoveFollowsHeading(p: PlayerState)
    requires p.life > 0
    requires !(p.right && p.left) && !(p.up && p.down)
    requires p.right || p.left || p.up || p.down
    requires p.right ==> p.x < GameWidth
    requires p.left ==> p.x > 0.0
    requires p.up ==> p.y < GameHeight
    requires p.down ==> p.y > 0.0
    ensures Moved(p).rotation == Heading(p.right, p.left, p.up, p.down)
    ensures Moved(p).x == p.x + DX(Moved(p).rotation) as real * Step(p)
    ensures Moved(p).y == p.y + DY(Moved(p).rotation) as real * Step(p)
  {
  }

  /** A single intent whose bound check fails: nothing moves and the rotation
      is kept. */
  lemma BlockedLoneIntent(p: PlayerState)
    requires p.life > 0
    requires (p.right && !p.left && !p.up && !p.down && p.x >= GameWidth)
          || (p.left && !p.right && !p.up && !p.down && p.x <= 0.0)
          || (p.up && !p.down && !p.left && !p.right && p.y >= GameHeight)
          || (p.down && !p.up && !p.left && !p.right && p.y <= 0.0)
    ensures Moved(p).x == p.x && Moved(p).y == p.y && Moved(p).rotation == p.rotation
  {
  }

  /** No intent: only the countdown moves. */
  lemma IdleStaysPut(p: PlayerState)
    requires !p.right && !p.left && !p.up && !p.down
    ensures Moved(p).x == p.x && Moved(p).y == p.y && Moved(p).rotation == p.rotation
  {
  }

  /** Each axis moves by at most one step, in the intended direction only. */
  lemma AxisSteps(p: PlayerState)
    requires p.life > 0
    ensures !p.right && !p.left ==> Moved(p).x == p.x
    ensures p.right && !p.left ==> Moved(p).x == (if p.x < GameWidth then p.x + Step(p) else p.x)
    ensures p.left && !p.right ==> Moved(p).x == (if p.x > 0.0 then p.x - Step(p) else p.x)
    ensures !p.up && !p.down ==> Moved(p).y == p.y
    ensures p.up && !p.down ==> Moved(p).y == (if p.y < GameHeight then p.y + Step(p) else p.y)
    ensures p.down && !p.up ==> Moved(p).y == (if p.y > 0.0 then p.y - Step(p) else p.y)
  {
    var c := Counted(p);
    assert Step(c) == Step(p) && c.x == p.x && c.y == p.y;
    var b := ApplyLeft(ApplyRight(c));
    HorizontalSteps(c);
    VerticalSteps(b);
    assert Moved(p) == ApplyDown(ApplyUp(b));
  }

  lemma HorizontalSteps(c: PlayerState)
    ensures var b := ApplyLeft(ApplyRight(c));
      && b == c.(x := b.x, rotation := b.rotation)
      && (!c.right && !c.left ==> b.x == c.x)
      && (c.right && !c.left ==> b.x == (if c.x < GameWidth then c.x + Step(c) else c.x))
      && (c.left && !c.right ==> b.x == (if c.x > 0.0 then c.x - Step(c) else c.x))
  {
  }

  lemma VerticalSteps(b: PlayerState)
    ensures var d := ApplyDown(ApplyUp(b));
      && d.x == b.x
      && (!b.up && !b.down ==> d.y == b.y)
      && (b.up && !b.down ==> d.y == (if b.y < GameHeight then b.y + Step(b) else b.y))
      && (b.down && !b.up ==> d.y == (if b.y > 0.0 then b.y - Step(b) else b.y))
  {
  }

  /** The guards are tested before the step, so a player overshoots a bound by
      at most one step. */
  predicate InArena(p: PlayerState)
  {
    -Step(p) <= p.x <= GameWidth + Step(p) && -Step(p) <= p.y <= GameHeight + Step(p)
  }

  lemma MovedStaysInArena(p: PlayerState)
    requires Step(p) >= 0.0 && InArena(p)
    ensures InArena(Moved(p))
  {
    if p.life > 0 {
      var c := Counted(p);
      assert Step(c) == Step(p) && c.x == p.x && c.y == p.y;
      var b := ApplyLeft(ApplyRight(c));
      HorizontalStaysInArena(c);
      VerticalStaysInArena(b);
      assert Moved(p) == ApplyDown(ApplyUp(b));
    }
  }

  lemma HorizontalStaysInArena(c: PlayerState)
    requires Step(c) >= 0.0 && -Step(c) <= c.x <= GameWidth + Step(c)
    ensures var b := ApplyLeft(ApplyRight(c)); -Step(c) <= b.x <= GameWidth + Step(c) && b.y == c.y && Step(b) == Step(c)
  {
    var a := ApplyRight(c);
    assert Step(a) == Step(c);
  }

  lemma VerticalStaysInArena(b: PlayerState)
    requires Step(b) >= 0.0 && -Step(b) <= b.y <= GameHeight + Step(b)
    ensures var d := ApplyDown(ApplyUp(b)); -Step(b) <= d.y <= GameHeight + Step(b) && d.x == b.x && Step(d) == Step(b)
  {
    var u := ApplyUp(b);
    assert Step(u) == Step(b);
  }

  /** A rotation that starts as one of the eight constants stays one. */
  lemma MovedKeepsCompass(p: PlayerState)
    requires IsCompass(p.rotation)
    ensures IsCompass(Moved(p).rotation)
  {
  }

  // ---------------------------------------------------------------------------
  // Firing (Game.MovePlayers and Game.AddBullet)
  // ---------------------------------------------------------------------------

  /** The fire check made after the move; it does not look at life. */
  predicate CanFire(p: PlayerState) { p.fire && p.reloadTime <= 0 }

  function NewBullet(id: Uuid, x: real, y: real, owner: Uuid, rotation: RotationDegree, damage: real): (b: Bullet)
    ensures !b.exhausted && b.speed == BulletSpeed
  {
    Bullet(id, x, y, owner, rotation, damage, 2.0, false)
  }

  /** The bullets one player adds during MovePlayers (id is the fresh bullet id). */
  function Shots(p: PlayerState, id: Uuid): seq<Bullet>
  {
    var m := Moved(p);
    if CanFire(m) then [NewBullet(id, m.x, m.y, m.uuid, m.rotation, m.power)] else []
  }

  /** The player after its turn in MovePlayers: moved, and reloading if it shot. */
  function Turn(p: PlayerState): PlayerState
  {
    var m := Moved(p);
    if CanFire(m) then m.(reloadTime := ReloadAfterShot) else m
  }

  function TurnRoster(R: Roster): (r: Roster)
    ensures r.Keys == R.Keys && forall k :: k in R ==> r[k] == Turn(R[k])
  {
    map k | k in R :: Turn(R[k])
  }

  /** The roster of a slice of players: each one under its id. */
  function RosterOf(ss: seq<PlayerState>): (R: Roster)
    ensures forall k :: k in R ==> exists i :: 0 <= i < |ss| && ss[i].uuid == k
    decreases |ss|
  {
    if ss == [] then map[]
    else
      var n := |ss| - 1;
      var R' := RosterOf(ss[..n]);
      assert forall k :: k in R' ==> exists i :: 0 <= i < |ss| && ss[i].uuid == k by {
        forall k | k in R' ensures exists i :: 0 <= i < |ss| && ss[i].uuid == k {
          var i :| 0 <= i < n && ss[..n][i].uuid == k;
          assert ss[i].uuid == k;
        }
      }
      R'[ss[n].uuid := ss[n]]
  }

  /** With distinct ids, the roster finds the player at any index of the slice. */
  lemma {:induction false} RosterOfFinds(ss: seq<PlayerState>, i: nat)
    requires forall a, b :: 0 <= a < b < |ss| ==> ss[a].uuid != ss[b].uuid
    requires i < |ss|
    ensures ss[i].uuid in RosterOf(ss) && RosterOf(ss)[ss[i].uuid] == ss[i]
  {
    var n := |ss| - 1;
    if i < n {
      var t := ss[..n];
      assert t[i] == ss[i] && ss[i].uuid != ss[n].uuid;
      RosterOfFinds(t, i);
    }
  }

  lemma TurnRosterUpdate(R: Roster, u: Uuid, p: PlayerState)
    ensures TurnRoster(R[u := p]) == TurnRoster(R)[u := Turn(p)]
  {
  }

  /** Turning every player of a slice turns its roster. */
  lemma {:induction false} RosterOfTurn(ss: seq<PlayerState>, ts: seq<PlayerState>)
    requires |ts| == |ss| && forall i :: 0 <= i < |ss| ==> ts[i] == Turn(ss[i])
    ensures RosterOf(ts) == TurnRoster(RosterOf(ss))
  {
    if ss != [] {
      var n := |ss| - 1;
      RosterOfTurn(ss[..n], ts[..n]);
      assert ts[n].uuid == ss[n].uuid;
      TurnRosterUpdate(RosterOf(ss[..n]), ss[n].uuid, ss[n]);
    }
  }

  /** Firing: after the move, fire intent and an expired countdown give exactly
      one bullet at the player's new position with its id, rotation and power,
      speed 2 and not exhausted, and reset the countdown to 25; otherwise no
      bullet and the countdown is the moved one. */
  lemma FireRule(p: PlayerState, id: Uuid)
    ensures var m := Moved(p);
      && (CanFire(m) ==> Shots(p, id) == [Bullet(id, m.x, m.y, p.uuid, m.rotation, p.power, BulletSpeed, false)]
                         && Turn(p).reloadTime == 25)
      && (!CanFire(m) ==> Shots(p, id) == [] && Turn(p) == m)
  {
  }

  /** Life is not consulted: a dead player with fire intent and an expired
      countdown still shoots. */
  lemma DeadPlayerStillFires(p: PlayerState, id: Uuid)
    requires p.life <= 0 && p.fire && p.reloadTime <= 0
    ensures |Shots(p, id)| == 1 && Turn(p) == p.(reloadTime := 25)
  {
  }

  /** But only once: a dead player's countdown never drops, so after it
      has shot it can never shoot again, whatever fire intent it sets. */
  lemma DeadPlayerFiresOnlyOnce(p: PlayerState, id: Uuid, fire: bool)
    requires p.life <= 0 && Shots(p, id) != []
    ensures Shots(Turn(p).(fire := fire), id) == []
    ensures Turn(Turn(p).(fire := fire)) == Turn(p).(fire := fire)
  {
  }

  /** The bullets appended by one MovePlayers call: each player in order,
      the i-th one using ids[i] if it fires. */
  function Volley(ps: seq<PlayerState>, ids: seq<Uuid>): seq<Bullet>
    requires |ids| == |ps|
    decreases |ps|
  {
    if ps == [] then []
    else Volley(ps[..|ps| - 1], ids[..|ids| - 1]) + Shots(ps[|ps| - 1], ids[|ids| - 1])
  }

  /** A volley over a longer prefix adds the next player's shots. */
  lemma VolleyPrefix(ps: seq<PlayerState>, ids: seq<Uuid>, i: nat)
    requires |ids| == |ps| && i < |ps|
    ensures Volley(ps[..i + 1], ids[..i + 1]) == Volley(ps[..i], ids[..i]) + Shots(ps[i], ids[i])
  {
    assert ps[..i + 1][..i] == ps[..i] && ids[..i + 1][..i] == ids[..i];
  }

  /** Every bullet of a volley belongs to one shooter that was able to fire,
      sits where that shooter moved to, and is a fresh bullet; a volley holds
      at most one bullet per player. */
  lemma {:induction false} VolleyFromShooters(ps: seq<PlayerState>, ids: seq<Uuid>)
    requires |ids| == |ps|
    ensures |Volley(ps, ids)| <= |ps|
    ensures forall b :: b in Volley(ps, ids) ==>
      !b.exhausted && b.speed == BulletSpeed &&
      exists i :: 0 <= i < |ps| && CanFire(Moved(ps[i])) && b.id == ids[i] && b.owner == ps[i].uuid
                  && b.x == Moved(ps[i]).x && b.y == Moved(ps[i]).y && b.rotation == Moved(ps[i]).rotation
                  && b.damage == ps[i].power
  {
    if ps != [] {
      var n := |ps| - 1;
      VolleyFromShooters(ps[..n], ids[..n]);
      forall b | b in Volley(ps, ids)
        ensures !b.exhausted && b.speed == BulletSpeed &&
          exists i :: 0 <= i < |ps| && CanFire(Moved(ps[i])) && b.id == ids[i] && b.owner == ps[i].uuid
                      && b.x == Moved(ps[i]).x && b.y == Moved(ps[i]).y && b.rotation == Moved(ps[i]).rotation
                      && b.damage == ps[i].power
      {
        if b in Volley(ps[..n], ids[..n]) {
          var i :| 0 <= i < n && CanFire(Moved(ps[..n][i])) && b.id == ids[..n][i] && b.owner == ps[..n][i].uuid
                   && b.x == Moved(ps[..n][i]).x && b.y == Moved(ps[..n][i]).y
                   && b.rotation == Moved(ps[..n][i]).rotation && b.damage == ps[..n][i].power;
          assert ps[..n][i] == ps[i] && ids[..n][i] == ids[i];
        } else {
          assert b in Shots(ps[n], ids[n]);
        }
      }
    }
  }

  // ---------------------------------------------------------------------------
  // Bullet travel (Game.MoveBullets)
  // ---------------------------------------------------------------------------

  /** One bullet after MoveBullets: the switch on its rotation. */
  function Advance(b: Bullet): (r: Bullet)
    ensures r == b.(x := r.x, y := r.y)
    ensures b.rotation == OtherAngle ==> r == b
  {
    match b.rotation
    case RotationUp => b.(y := b.y + b.speed)
    case RotationDown => b.(y := b.y - b.speed)
    case RotationLeft => b.(x := b.x - b.speed)
    case RotationRight => b.(x := b.x + b.speed)
    case RotationLeftDown => b.(x := b.x - b.speed, y := b.y - b.speed)
    case RotationLeftUp => b.(x := b.x - b.speed, y := b.y + b.speed)
    case RotationRightDown => b.(x := b.x + b.speed, y := b.y - b.speed)
    case RotationRightUp => b.(x := b.x + b.speed, y := b.y + b.speed)
    case OtherAngle => b
  }

  /** The switch agrees with the direction table: every bullet moves by
      speed per axis, in the direction its rotation names. */
  lemma AdvanceFollowsTable(b: Bullet)
    ensures Advance(b) == b.(x := b.x + DX(b.rotation) as real * b.speed, y := b.y + DY(b.rotation) as real * b.speed)
  {
  }

  /** A bullet flies the way its shooter was moving when the shooter had
      a lone or diagonal intent that was not blocked. */
  lemma BulletFliesAlongShooter(p: PlayerState, id: Uuid)
    requires p.life > 0 && p.fire && p.reloadTime <= 1
    requires !(p.right && p.left) && !(p.up && p.down)
    requires p.right || p.left || p.up || p.down
    requires p.right ==> p.x < GameWidth
    requires p.left ==> p.x > 0.0
    requires p.up ==> p.y < GameHeight
    requires p.down ==> p.y > 0.0
    ensures |Shots(p, id)| == 1
    ensures var b := Shots(p, id)[0];
      Advance(b).x - b.x == DX(Heading(p.right, p.left, p.up, p.down)) as real * BulletSpeed &&
      Advance(b).y - b.y == DY(Heading(p.right, p.left, p.up, p.down)) as real * BulletSpeed
  {
    MoveFollowsHeading(p);
    AdvanceFollowsTable(Shots(p, id)[0]);
  }

  function Advanced(bs: seq<Bullet>): (r: seq<Bullet>)
    ensures |r| == |bs| && forall j :: 0 <= j < |bs| ==> r[j] == Advance(bs[j])
  {
    seq(|bs|, j requires 0 <= j < |bs| => Advance(bs[j]))
  }

  // ---------------------------------------------------------------------------
  // Hit scan (first half of Game.Collision)
  // ---------------------------------------------------------------------------

  function Abs(v: real): real { if v < 0.0 then -v else v }

  predicate InBox(b: Bullet, p: PlayerState)
  {
    Abs(b.x - p.x) <= Tolerance && Abs(b.y - p.y) <= Tolerance * 2.0
  }

  /** A bullet hits a player when the player is alive, does not own the
      bullet, and the bullet is inside its box. The exhausted flag is not
      consulted. */
  predicate Hits(b: Bullet, p: PlayerState)
  {
    p.life > 0 && b.owner != p.uuid && InBox(b, p)
  }

  /** How many of bs hit p: the life p loses. */
  function HitsOn(p: PlayerState, bs: seq<Bullet>): nat
    decreases |bs|
  {
    if bs == [] then 0
    else HitsOn(p, bs[..|bs| - 1]) + (if Hits(bs[|bs| - 1], p) then 1 else 0)
  }

  /** How many of bs owned by o hit p: the points o scores on p. */
  function Owned(o: Uuid, p: PlayerState, bs: seq<Bullet>): nat
    decreases |bs|
  {
    if bs == [] then 0
    else Owned(o, p, bs[..|bs| - 1]) + (if bs[|bs| - 1].owner == o && Hits(bs[|bs| - 1], p) then 1 else 0)
  }

  /** The points o scores on the players whose ids are in ks. */
  ghost function Gain(o: Uuid, R: Roster, ks: set<Uuid>, bs: seq<Bullet>): nat
    requires ks <= R.Keys
    decreases ks
  {
    if ks == {} then 0
    else var k :| k in ks; Owned(o, R[k], bs) + Gain(o, R, ks - {k}, bs)
  }

  /** Gain does not depend on the order the players are visited in. */
  lemma {:induction false} GainAdd(o: Uuid, R: Roster, ks: set<Uuid>, k: Uuid, bs: seq<Bullet>)
    requires ks <= R.Keys && k in R && k !in ks
    ensures Gain(o, R, ks + {k}, bs) == Owned(o, R[k], bs) + Gain(o, R, ks, bs)
    decreases ks
  {
    var all := ks + {k};
    var c :| c in all && Gain(o, R, all, bs) == Owned(o, R[c], bs) + Gain(o, R, all - {c}, bs);
    if c != k {
      var rest := ks - {c};
      assert all - {c} == rest + {k};
      GainAdd(o, R, rest, k, bs);
      assert ks == rest + {c};
      GainAdd(o, R, rest, c, bs);
    } else {
      assert all - {c} == ks;
    }
  }

  /** A dead player is never hit and never yields points. */
  lemma {:induction false} DeadPlayerIsNotHit(o: Uuid, p: PlayerState, bs: seq<Bullet>)
    requires p.life <= 0
    ensures HitsOn(p, bs) == 0 && Owned(o, p, bs) == 0
    decreases |bs|
  {
    if bs != [] { DeadPlayerIsNotHit(o, p, bs[..|bs| - 1]); }
  }

  /** No player scores on itself. */
  lemma {:induction false} NoSelfScore(p: PlayerState, bs: seq<Bullet>)
    ensures Owned(p.uuid, p, bs) == 0
    decreases |bs|
  {
    if bs != [] { NoSelfScore(p, bs[..|bs| - 1]); }
  }

  predicate Struck(b: Bullet, R: Roster)
  {
    exists k :: k in R && Hits(b, R[k])
  }

  /** The bullets after the hit scan: a bullet is exhausted once it hits anyone. */
  function MarkStruck(bs: seq<Bullet>, R: Roster): (r: seq<Bullet>)
    ensures |r| == |bs|
    ensures forall j :: 0 <= j < |bs| ==> r[j] == bs[j].(exhausted := bs[j].exhausted || Struck(bs[j], R))
  {
    seq(|bs|, j requires 0 <= j < |bs| => bs[j].(exhausted := bs[j].exhausted || Struck(bs[j], R)))
  }

  /** The players after the hit scan: each loses one life per bullet that hits
      it and gains one point per hit its own bullets make. */
  ghost function HitRoster(R: Roster, bs: seq<Bullet>): (r: Roster)
    ensures r.Keys == R.Keys
    ensures forall k :: k in R ==> r[k] == R[k].(life := r[k].life, score := r[k].score)
  {
    map k | k in R :: R[k].(life := R[k].life - HitsOn(R[k], bs), score := R[k].score + Gain(k, R, R.Keys, bs))
  }

  /** The lives of a roster's players, by id. */
  function Lives(R: Roster): map<Uuid, int>
  {
    map q | q in R :: R[q].life
  }

  /** The scores of a roster's players, by id. */
  function Scores(R: Roster): map<Uuid, int>
  {
    map q | q in R :: R[q].score
  }

  /** The hit scan dereferences the owner of every hitting bullet; an owner
      that has left the game makes it panic. */
  predicate OrphanHit(R: Roster, bs: seq<Bullet>)
  {
    exists k, j :: k in R && 0 <= j < |bs| && Hits(bs[j], R[k]) && bs[j].owner !in R
  }

  /** Example: one bullet between two live players hits both in the same
      scan; its owner scores twice and each victim loses one life. */
  lemma OneBulletTwoVictims(R: Roster, bs: seq<Bullet>)
    requires R == map[1 := Spawned(1, 100.0, 100.0), 2 := Spawned(2, 50.0, 50.0), 3 := Spawned(3, 52.0, 53.0)]
    requires bs == [NewBullet(9, 51.0, 52.0, 1, RotationUp, 1.0)]
    ensures 1 in HitRoster(R, bs) && 2 in HitRoster(R, bs) && 3 in HitRoster(R, bs)
    ensures HitRoster(R, bs)[2].life == 9 && HitRoster(R, bs)[3].life == 9
    ensures HitRoster(R, bs)[1].life == 10 && HitRoster(R, bs)[1].score == 2
    ensures MarkStruck(bs, R)[0].exhausted
  {
    assert bs[..0] == [];
    TwoVictimsGain(R, bs);
    HitRosterAt(R, bs, 1);
    HitRosterAt(R, bs, 2);
    HitRosterAt(R, bs, 3);
    assert HitsOn(R[2], bs) == 1 && HitsOn(R[3], bs) == 1 && HitsOn(R[1], bs) == 0;
    assert Hits(bs[0], R[2]);
  }

  /** The hit scan's outcome for one player: its hits taken off its life, the
      hits of its own bullets added to its score. */
  lemma HitRosterAt(R: Roster, bs: seq<Bullet>, k: Uuid)
    requires k in R
    ensures k in HitRoster(R, bs)
    ensures HitRoster(R, bs)[k].life == R[k].life - HitsOn(R[k], bs)
    ensures HitRoster(R, bs)[k].score == R[k].score + Gain(k, R, R.Keys, bs)
  {
  }

  /** The shooter of the example above scores one point per victim. */
  lemma TwoVictimsGain(R: Roster, bs: seq<Bullet>)
    requires R == map[1 := Spawned(1, 100.0, 100.0), 2 := Spawned(2, 50.0, 50.0), 3 := Spawned(3, 52.0, 53.0)]
    requires bs == [NewBullet(9, 51.0, 52.0, 1, RotationUp, 1.0)]
    ensures Gain(1, R, R.Keys, bs) == 2
  {
    assert bs[..0] == [];
    assert Owned(1, R[1], bs) == 0 && Owned(1, R[2], bs) == 1 && Owned(1, R[3], bs) == 1;
    assert Gain(1, R, {}, bs) == 0;
    GainAdd(1, R, {}, 1, bs);
    assert {} + {1} == {1};
    GainAdd(1, R, {1}, 2, bs);
    GainAdd(1, R, {1, 2}, 3, bs);
    assert {1, 2} + {3} == R.Keys;
  }

  /** Example: a player fires and disconnects before its bullet lands; the
      scan that sees the hit finds no owner. */
  lemma DepartedShooterPanics()
    ensures var victim := Spawned(2, 50.0, 50.0);
      OrphanHit(map[2 := victim], [NewBullet(9, 52.0, 53.0, 1, RotationUp, 1.0)])
  {
    var victim := Spawned(2, 50.0, 50.0);
    var bs := [NewBullet(9, 52.0, 53.0, 1, RotationUp, 1.0)];
    var R := map[2 := victim];
    assert 2 in R && Hits(bs[0], R[2]) && bs[0].owner !in R;
  }

  // ---------------------------------------------------------------------------
  // Purge (second half of Game.Collision)
  // ---------------------------------------------------------------------------

  predicate OutOfBounds(b: Bullet)
  {
    b.y > GameHeight || b.x > GameWidth || b.x < 0.0 || b.y < 0.0
  }

  /** A survivor of the purge: flagged exhausted if it has left the arena. */
  function Flagged(b: Bullet): Bullet
  {
    if OutOfBounds(b) then b.(exhausted := true) else b
  }

  /** The purge: exhausted bullets are dropped, the others kept in order and
      flagged when outside the arena (they go on the next purge). */
  function Swept(bs: seq<Bullet>): seq<Bullet>
    decreases |bs|
  {
    if bs == [] then []
    else (if bs[0].exhausted then [] else [Flagged(bs[0])]) + Swept(bs[1..])
  }

  /** The purge works bullet by bullet and keeps relative order: purging a
      concatenation is concatenating the purges. */
  lemma {:induction false} SweptDistributes(a: seq<Bullet>, b: seq<Bullet>)
    ensures Swept(a + b) == Swept(a) + Swept(b)
    decreases |a|
  {
    if a != [] {
      assert (a + b)[0] == a[0] && (a + b)[1..] == a[1..] + b;
      SweptDistributes(a[1..], b);
    } else {
      assert a + b == b;
    }
  }

  /** The survivors are exactly the bullets that were not exhausted; a
      survivor is exhausted precisely when it is outside the arena. */
  lemma {:induction false} SweptSurvivors(bs: seq<Bullet>)
    ensures |Swept(bs)| <= |bs|
    ensures forall s :: s in Swept(bs) ==> (s.exhausted <==> OutOfBounds(s))
    ensures forall s :: s in Swept(bs) ==> exists b :: b in bs && !b.exhausted && s == Flagged(b)
    ensures forall b :: b in bs && !b.exhausted ==> Flagged(b) in Swept(bs)
    decreases |bs|
  {
    if bs != [] {
      SweptSurvivors(bs[1..]);
      forall s | s in Swept(bs) ensures exists b :: b in bs && !b.exhausted && s == Flagged(b) {
        if s !in Swept(bs[1..]) {
          assert s == Flagged(bs[0]);
        } else {
          var b :| b in bs[1..] && !b.exhausted && s == Flagged(b);
          assert b in bs;
        }
      }
    }
  }

  /** A bullet flagged out of bounds is gone after the next purge: two purges
      in a row leave only unexhausted bullets inside the arena. */
  lemma SweptTwice(bs: seq<Bullet>)
    ensures forall s :: s in Swept(Swept(bs)) ==> !s.exhausted && !OutOfBounds(s)
  {
    SweptSurvivors(bs);
    SweptSurvivors(Swept(bs));
  }

  /** Exhaustion is never undone by a tick's bullet steps. */
  lemma NeverResurrected(bs: seq<Bullet>, R: Roster)
    ensures forall j :: 0 <= j < |bs| && bs[j].exhausted ==> MarkStruck(Advanced(bs), R)[j].exhausted
  {
  }

  // ---------------------------------------------------------------------------
  // Player registry defaults (Game.NewPlayer)
  // ---------------------------------------------------------------------------

  /** A newly registered player: the source's defaults at the given position. */
  function Spawned(id: Uuid, x: real, y: real): (p: PlayerState)
    ensures p.uuid == id && p.x == x && p.y == y
  {
    PlayerState(
      uuid := id, name := "", x := x, y := y,
      left := false, right := false, up := false, down := false, fire := false,
      acceleration := 1.5, velocity := 1.0, rotation := RotationLeft,
      life := 10, power := 1.0, reloadTime := 50, status := WaitForPlay, score := 0, you := false)
  }

  /** A player spawned inside the arena starts alive, facing one of the eight
      rotations, within the movement invariant, and cannot shoot for 50 turns. */
  lemma SpawnedIsPlayable(id: Uuid, x: real, y: real)
    requires 0.0 <= x < GameWidth && 0.0 <= y < GameHeight
    ensures var p := Spawned(id, x, y);
      p.life > 0 && IsCompass(p.rotation) && InArena(p) && Step(p) == 1.5 && !CanFire(Moved(p))
  {
  }

  // ---------------------------------------------------------------------------
  // One whole tick on a snapshot (MovePlayers, MoveBullets, Collision)
  // ---------------------------------------------------------------------------

  /** The ids of the states ss, in order. */
  function IdsOf(ss: seq<PlayerState>): (r: seq<Uuid>)
    ensures |r| == |ss| && forall i :: 0 <= i < |ss| ==> r[i] == ss[i].uuid
  {
    seq(|ss|, i requires 0 <= i < |ss| => ss[i].uuid)
  }

  /** The player p after the hit scan that produced H. */
  function Settled(H: Roster, p: PlayerState): PlayerState
  {
    if p.uuid in H then H[p.uuid] else p
  }

  /** The world w once the hit scan produced the players H and the bullets
      bs: each player keeps its slot and takes its state from H. */
  function Aftermath(w: World, H: Roster, bs: seq<Bullet>): (r: World)
    ensures |r.players| == |w.players| && r.bullets == bs
    ensures r.status == w.status && r.bounds == w.bounds && r.you == w.you
  {
    w.(players := seq(|w.players|, i requires 0 <= i < |w.players| => Settled(H, w.players[i])), bullets := bs)
  }

  /** The world one tick leaves when it does not panic, computed from the
      world before it: every player turns and fires in slice order, the
      bullets (the new ones included) fly one step, the hit scan runs over
      the turned players and the purge runs over the marked bullets. The
      players keep their slots; status, bounds and the marked player stay. */
  ghost function Ticked(w: World, ids: seq<Uuid>): World
    requires |ids| == |w.players|
  {
    var R := TurnRoster(RosterOf(w.players));
    var bs := Advanced(w.bullets + Volley(w.players, ids));
    Aftermath(w, HitRoster(R, bs), Swept(MarkStruck(bs, R)))
  }

  /** Ticked, read off a hit scan that ran on the roster R of the players S
      of w: the world w with the players H and the bullets B the scan left. */
  lemma TickedFrom(w: World, ids: seq<Uuid>, R: Roster, H: Roster, B: seq<Bullet>)
    requires |ids| == |w.players| && RosterOf(w.players) == R
    requires H == HitRoster(TurnRoster(R), Advanced(w.bullets + Volley(w.players, ids)))
    requires B == Swept(MarkStruck(Advanced(w.bullets + Volley(w.players, ids)), TurnRoster(R)))
    ensures Ticked(w, ids) == Aftermath(w, H, B)
  {
  }
}
