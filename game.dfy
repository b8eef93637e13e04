/** The game world of game/game.go: Player objects updated field by field,
    and the Game that owns them through a map keyed by id and an ordered
    slice, plus the ordered bullets. Every method is proved to perform the
    corresponding function of GameRules. */
module Game {
  import opened GameRules

  class Player {
    const UUID: Uuid
    var Name: string
    var X: real
    var Y: real
    var Left: bool
    var Right: bool
    var Up: bool
    var Down: bool
    var Fire: bool
    var Acceleration: real
    var Velocity: real
    var Rotation: RotationDegree
    var Life: int
    var Power: real
    var ReloadTime: int
    var Status: PlayerStatus
    var Score: int
    var You: bool

    /** The player's fields as one value. */
    function State(): (s: PlayerState)
      reads this
      ensures s.uuid == UUID && s.x == X && s.y == Y && s.life == Life && s.score == Score
    {
      PlayerState(UUID, Name, X, Y, Left, Right, Up, Down, Fire, Acceleration, Velocity,
                  Rotation, Life, Power, ReloadTime, Status, Score, You)
    }

    /** Every field but Life and Score agrees with s: what the hit scan
        leaves alone. */
    predicate Keeps(s: PlayerState)
      reads this`Name, this`X, this`Y, this`Left, this`Right, this`Up, this`Down, this`Fire
      reads this`Acceleration, this`Velocity, this`Rotation, this`Power, this`ReloadTime, this`Status, this`You
    {
      && UUID == s.uuid && Name == s.name && X == s.x && Y == s.y
      && Left == s.left && Right == s.right && Up == s.up && Down == s.down && Fire == s.fire
      && Acceleration == s.acceleration && Velocity == s.velocity && Rotation == s.rotation
      && Power == s.power && ReloadTime == s.reloadTime && Status == s.status && You == s.you
    }

    /** A player that keeps s is s with its own life and score. */
    lemma KeptState(s: PlayerState)
      requires Keeps(s)
      ensures State() == s.(life := Life, score := Score)
    {
    }

    /** The player literal built by NewPlayer. */
    constructor (id: Uuid, x: real, y: real)
      ensures State() == Spawned(id, x, y)
    {
      UUID := id;
      Name := "";
      X, Y := x, y;
      Left, Right, Up, Down, Fire := false, false, false, false, false;
      Acceleration := 1.5;
      Velocity := 1.0;
      Rotation := RotationLeft;
      Life := 10;
      Power := 1.0;
      ReloadTime := 50;
      Status := WaitForPlay;
      Score := 0;
      You := false;
    }

    method MovePlayer()
      modifies this`X, this`Y, this`Rotation, this`ReloadTime
      ensures State() == Moved(old(State()))
    {
      if Life <= 0 {
        return;
      }
      if ReloadTime > 0 {
        ReloadTime := ReloadTime - 1;
      }
      MoveRight();
      MoveLeft();
      MoveUp();
      MoveDown();
    }

    /** The `if p.Right` block of MovePlayer. */
    method MoveRight()
      modifies this`X, this`Rotation
      ensures State() == ApplyRight(old(State()))
    {
      if Right && X < GameWidth {
        X := X + Acceleration * Velocity;
        if !Up && !Down {
          Rotation := RotationRight;
        }
      }
      if Right && Up {
        Rotation := RotationRightUp;
      }
      if Right && Down {
        Rotation := RotationRightDown;
      }
    }

    /** The `if p.Left` block of MovePlayer. */
    method MoveLeft()
      modifies this`X, this`Rotation
      ensures State() == ApplyLeft(old(State()))
    {
      if Left && X > 0.0 {
        X := X - Acceleration * Velocity;
        if !Up && !Down {
          Rotation := RotationLeft;
        }
      }
      if Left && Up {
        Rotation := RotationLeftUp;
      }
      if Left && Down {
        Rotation := RotationLeftDown;
      }
    }

    /** The `if p.Up` block of MovePlayer. */
    method MoveUp()
      modifies this`Y, this`Rotation
      ensures State() == ApplyUp(old(State()))
    {
      if Up && Y < GameHeight {
        Y := Y + Acceleration * Velocity;
        if !Left && !Right {
          Rotation := RotationUp;
        }
      }
    }

    /** The `if p.Down` block of MovePlayer. */
    method MoveDown()
      modifies this`Y, this`Rotation
      ensures State() == ApplyDown(old(State()))
    {
      if Down && Y > 0.0 {
        Y := Y - Acceleration * Velocity;
        if !Left && !Right {
          Rotation := RotationDown;
        }
      }
    }
  }

  /** The states of a sequence of players, in order. */
  function StatesOf(ps: seq<Player>): (r: seq<PlayerState>)
    reads ps
    ensures |r| == |ps| && forall i :: 0 <= i < |ps| ==> r[i] == ps[i].State()
    decreases |ps|
  {
    if ps == [] then [] else StatesOf(ps[..|ps| - 1]) + [ps[|ps| - 1].State()]
  }

  /** SwapRemove(s, k): the slot k receives the last element and the slice
      drops its last slot. */
  function SwapRemove<T>(s: seq<T>, k: nat): (r: seq<T>)
    requires k < |s|
    ensures |r| == |s| - 1
    ensures forall t :: 0 <= t < |r| && t != k ==> r[t] == s[t]
    ensures k < |r| ==> r[k] == s[|s| - 1]
  {
    s[k := s[|s| - 1]][..|s| - 1]
  }

  /** Swap-removal keeps every element but the removed one. */
  lemma SwapRemoveKeepsOthers<T>(s: seq<T>, k: nat)
    requires k < |s|
    ensures multiset(SwapRemove(s, k)) == multiset(s) - multiset{s[k]}
  {
    var n := |s| - 1;
    if k == n {
      assert s == SwapRemove(s, k) + [s[k]];
    } else {
      SwapRemoveSplit(s, k);
    }
  }

  /** Below the last slot, swap-removal moves the last element into slot k. */
  lemma SwapRemoveSplit<T>(s: seq<T>, k: nat)
    requires k < |s| - 1
    ensures var n := |s| - 1;
      && s == s[..k] + [s[k]] + s[k + 1..n] + [s[n]]
      && SwapRemove(s, k) == s[..k] + [s[n]] + s[k + 1..n]
  {
  }

  /** The map and the slice hold the same players, each under its own id,
      and no id twice. Player ids are constants, so this needs no heap. */
  predicate Registry(m: map<Uuid, Player>, ps: seq<Player>)
  {
    && (forall i :: 0 <= i < |ps| ==> ps[i].UUID in m && m[ps[i].UUID] == ps[i])
    && (forall k :: k in m ==> m[k].UUID == k && m[k] in ps)
    && (forall i, j :: 0 <= i < j < |ps| ==> ps[i].UUID != ps[j].UUID)
  }

  /** The roster of the slice's states has the map's keys, and each key
      leads to the state of the player the map holds under it. */
  lemma RegistryRoster(m: map<Uuid, Player>, ps: seq<Player>, ss: seq<PlayerState>)
    requires Registry(m, ps)
    requires |ss| == |ps| && forall i :: 0 <= i < |ps| ==> ss[i].uuid == ps[i].UUID
    ensures RosterOf(ss).Keys == m.Keys
    ensures forall i :: 0 <= i < |ps| ==> RosterOf(ss)[ps[i].UUID] == ss[i]
    ensures forall k :: k in m ==> exists i :: 0 <= i < |ps| && ps[i] == m[k] && RosterOf(ss)[k] == ss[i]
  {
    RosterFindsLinked(ps, ss);
    var R := RosterOf(ss);
    forall k | k in m ensures k in R && exists i :: 0 <= i < |ps| && ps[i] == m[k] && R[k] == ss[i] {
      var i :| 0 <= i < |ps| && ps[i] == m[k];
      assert ps[i].UUID == k && R[ps[i].UUID] == ss[i];
    }
    forall k | k in R ensures k in m {
      var i :| 0 <= i < |ss| && ss[i].uuid == k;
      assert ps[i].UUID == k;
    }
    assert R.Keys == m.Keys;
  }

  /** The roster of the states of players with distinct ids finds each
      player's state under its id. */
  lemma RosterFindsLinked(ps: seq<Player>, ss: seq<PlayerState>)
    requires forall i, j :: 0 <= i < j < |ps| ==> ps[i].UUID != ps[j].UUID
    requires |ss| == |ps| && forall i :: 0 <= i < |ps| ==> ss[i].uuid == ps[i].UUID
    ensures forall i :: 0 <= i < |ps| ==> ps[i].UUID in RosterOf(ss) && RosterOf(ss)[ps[i].UUID] == ss[i]
  {
    assert forall a, b :: 0 <= a < b < |ss| ==> ss[a].uuid != ss[b].uuid by {
      forall a, b | 0 <= a < b < |ss| ensures ss[a].uuid != ss[b].uuid {
        assert ps[a].UUID != ps[b].UUID;
      }
    }
    forall i | 0 <= i < |ps| ensures ps[i].UUID in RosterOf(ss) && RosterOf(ss)[ps[i].UUID] == ss[i] {
      RosterOfFinds(ss, i);
    }
  }

  /** Players with distinct ids are distinct objects. */
  lemma RegistryDistinct(m: map<Uuid, Player>, ps: seq<Player>)
    requires Registry(m, ps)
    ensures Distinct(ps)
  {
    forall a, b | 0 <= a < b < |ps| ensures ps[a] != ps[b] {
      assert ps[a].UUID != ps[b].UUID;
    }
  }

  /** Swap-removing a registered player and deleting its key keeps the
      registry consistent. */
  lemma RegistryRemove(m: map<Uuid, Player>, ps: seq<Player>, at: nat)
    requires Registry(m, ps) && at < |ps|
    ensures Registry(m - {ps[at].UUID}, SwapRemove(ps, at))
    ensures m[ps[at].UUID] == ps[at]
  {
    var id := ps[at].UUID;
    var r := SwapRemove(ps, at);
    var n := |ps| - 1;
    var m' := m - {id};
    // the slot of r at position i came from position Origin(i) of ps
    assert forall i :: 0 <= i < |r| ==> r[i] == ps[if i == at then n else i] && (if i == at then n else i) != at;
    forall i | 0 <= i < |r| ensures r[i].UUID in m' && m'[r[i].UUID] == r[i] {
      var o := if i == at then n else i;
      assert r[i] == ps[o] && o != at;
      assert ps[o].UUID != id;
    }
    forall k | k in m' ensures m'[k] in r {
      var t :| 0 <= t < |ps| && ps[t] == m[k];
      assert t != at;
      if t == n {
        assert r[at] == ps[t];
      } else {
        assert r[t] == ps[t];
      }
    }
    forall i, j | 0 <= i < j < |r| ensures r[i].UUID != r[j].UUID {
      var oi := if i == at then n else i;
      var oj := if j == at then n else j;
      assert r[i] == ps[oi] && r[j] == ps[oj] && oi != oj;
    }
  }

  /** An id that no player in the slice carries is not a key. */
  lemma RegistryAbsent(m: map<Uuid, Player>, ps: seq<Player>, id: Uuid)
    requires Registry(m, ps)
    requires forall t :: 0 <= t < |ps| ==> ps[t].UUID != id
    ensures id !in m
  {
  }

  /** The bullets after the hit scan has visited the players in ks. */
  predicate StruckBy(b: Bullet, R: Roster, ks: set<Uuid>)
  {
    exists k :: k in ks && k in R && Hits(b, R[k])
  }

  /** The bullets once the scan has visited the players in done: a bullet is
      exhausted if it was already or it hit one of them. */
  function MarkedBy(bs: seq<Bullet>, R: Roster, done: set<Uuid>): (r: seq<Bullet>)
  {
    seq(|bs|, t requires 0 <= t < |bs| => bs[t].(exhausted := bs[t].exhausted || StruckBy(bs[t], R, done)))
  }

  /** The bullets while player k is tested against the first seen of them. */
  function Marked(bs: seq<Bullet>, R: Roster, done: set<Uuid>, k: Uuid, seen: nat): (r: seq<Bullet>)
    requires k in R
  {
    seq(|bs|, t requires 0 <= t < |bs| =>
      bs[t].(exhausted := bs[t].exhausted || StruckBy(bs[t], R, done) || (t < seen && Hits(bs[t], R[k]))))
  }

  lemma MarkedStart(bs: seq<Bullet>, R: Roster, done: set<Uuid>, k: Uuid)
    requires k in R
    ensures Marked(bs, R, done, k, 0) == MarkedBy(bs, R, done)
  {
  }

  lemma MarkedStep(bs: seq<Bullet>, R: Roster, done: set<Uuid>, k: Uuid, j: nat)
    requires k in R && j < |bs|
    ensures Hits(bs[j], R[k]) ==>
      Marked(bs, R, done, k, j + 1) == Marked(bs, R, done, k, j)[j := Marked(bs, R, done, k, j)[j].(exhausted := true)]
    ensures !Hits(bs[j], R[k]) ==> Marked(bs, R, done, k, j + 1) == Marked(bs, R, done, k, j)
  {
  }

  lemma MarkedFinish(bs: seq<Bullet>, R: Roster, done: set<Uuid>, k: Uuid)
    requires k in R
    ensures Marked(bs, R, done, k, |bs|) == MarkedBy(bs, R, done + {k})
  {
    forall t | 0 <= t < |bs| ensures StruckBy(bs[t], R, done + {k}) == (StruckBy(bs[t], R, done) || Hits(bs[t], R[k])) {
    }
  }

  lemma MarkedNone(bs: seq<Bullet>, R: Roster)
    ensures MarkedBy(bs, R, {}) == bs
  {
  }

  /** A dead player is hit by nothing, so visiting it marks nothing. */
  lemma MarkedDead(bs: seq<Bullet>, R: Roster, done: set<Uuid>, k: Uuid)
    requires k in R && R[k].life <= 0
    ensures MarkedBy(bs, R, done + {k}) == MarkedBy(bs, R, done)
  {
    forall t | 0 <= t < |bs| ensures StruckBy(bs[t], R, done + {k}) == StruckBy(bs[t], R, done) {
    }
  }

  lemma MarkedAll(bs: seq<Bullet>, R: Roster)
    ensures MarkedBy(bs, R, R.Keys) == MarkStruck(bs, R)
  {
  }

  /** A hit among the players in ks whose bullet's owner has left. */
  predicate OrphanAmong(R: Roster, ks: set<Uuid>, bs: seq<Bullet>)
  {
    exists k, j :: k in ks && k in R && 0 <= j < |bs| && Hits(bs[j], R[k]) && bs[j].owner !in R
  }

  /** The scan's bookkeeping once the players in done were visited: lives
      and scores hold, per id, what the players' Life and Score fields hold.
      A visited player lost one life per bullet that hit it; every player
      scored one point per hit its bullets made on the visited players. */
  ghost predicate Tallied(R: Roster, bs: seq<Bullet>, done: set<Uuid>, lives: map<Uuid, int>, scores: map<Uuid, int>)
  {
    && done <= R.Keys && lives.Keys == R.Keys && scores.Keys == R.Keys
    && (forall q :: q in R ==> R[q].uuid == q)
    && (forall q :: q in R ==> lives[q] == R[q].life - (if q in done then HitsOn(R[q], bs) else 0))
    && (forall q :: q in R ==> scores[q] == R[q].score + Gain(q, R, done, bs))
    && !OrphanAmong(R, done, bs)
  }

  /** The bookkeeping while the live player k is tested against the first
      seen bullets. */
  ghost predicate Midscan(R: Roster, bs: seq<Bullet>, done: set<Uuid>, k: Uuid, seen: nat,
                          lives: map<Uuid, int>, scores: map<Uuid, int>)
  {
    && done <= R.Keys && k in R && k !in done && seen <= |bs| && R[k].life > 0
    && lives.Keys == R.Keys && scores.Keys == R.Keys
    && (forall q :: q in R ==> R[q].uuid == q)
    && (forall q :: q in R ==>
          lives[q] == R[q].life - (if q in done then HitsOn(R[q], bs) else if q == k then HitsOn(R[k], bs[..seen]) else 0))
    && (forall q :: q in R ==> scores[q] == R[q].score + Gain(q, R, done, bs) + Owned(q, R[k], bs[..seen]))
    && (forall t :: 0 <= t < seen ==> !(Hits(bs[t], R[k]) && bs[t].owner !in R))
    && !OrphanAmong(R, done, bs)
  }

  lemma MidscanStart(R: Roster, bs: seq<Bullet>, done: set<Uuid>, k: Uuid, lives: map<Uuid, int>, scores: map<Uuid, int>)
    requires Tallied(R, bs, done, lives, scores) && k in R && k !in done && R[k].life > 0
    ensures Midscan(R, bs, done, k, 0, lives, scores)
  {
    assert bs[..0] == [];
  }

  /** A bullet that misses player k changes no life and no score. */
  lemma MidscanMiss(R: Roster, bs: seq<Bullet>, done: set<Uuid>, k: Uuid, j: nat, lives: map<Uuid, int>, scores: map<Uuid, int>)
    requires Midscan(R, bs, done, k, j, lives, scores) && j < |bs| && !Hits(bs[j], R[k])
    ensures Midscan(R, bs, done, k, j + 1, lives, scores)
  {
    assert bs[..j + 1][..j] == bs[..j];
  }

  /** A bullet that hits player k costs k one life and gives its owner one point. */
  lemma MidscanHit(R: Roster, bs: seq<Bullet>, done: set<Uuid>, k: Uuid, j: nat, o: Uuid,
                   lives: map<Uuid, int>, scores: map<Uuid, int>)
    requires Midscan(R, bs, done, k, j, lives, scores) && j < |bs| && Hits(bs[j], R[k]) && o == bs[j].owner && o in R
    ensures Midscan(R, bs, done, k, j + 1, lives[k := lives[k] - 1], scores[o := scores[o] + 1])
  {
    assert bs[..j + 1][..j] == bs[..j];
  }

  lemma MidscanFinish(R: Roster, bs: seq<Bullet>, done: set<Uuid>, k: Uuid, lives: map<Uuid, int>, scores: map<Uuid, int>)
    requires Midscan(R, bs, done, k, |bs|, lives, scores)
    ensures Tallied(R, bs, done + {k}, lives, scores)
  {
    assert bs[..|bs|] == bs;
    forall q | q in R ensures Gain(q, R, done + {k}, bs) == Owned(q, R[k], bs) + Gain(q, R, done, bs) {
      GainAdd(q, R, done, k, bs);
    }
  }

  /** A dead player is skipped: nothing changes. */
  lemma TalliedDead(R: Roster, bs: seq<Bullet>, done: set<Uuid>, k: Uuid, lives: map<Uuid, int>, scores: map<Uuid, int>)
    requires Tallied(R, bs, done, lives, scores) && k in R && k !in done && R[k].life <= 0
    ensures Tallied(R, bs, done + {k}, lives, scores)
  {
    forall q | q in R ensures Gain(q, R, done + {k}, bs) == Gain(q, R, done, bs) {
      DeadPlayerIsNotHit(q, R[k], bs);
      GainAdd(q, R, done, k, bs);
    }
    DeadPlayerIsNotHit(k, R[k], bs);
  }

  /** After every player was visited the bookkeeping is the scan's outcome. */
  lemma TalliedAll(R: Roster, bs: seq<Bullet>, lives: map<Uuid, int>, scores: map<Uuid, int>)
    requires Tallied(R, bs, R.Keys, lives, scores)
    ensures !OrphanHit(R, bs)
    ensures forall q :: q in R ==> HitRoster(R, bs)[q] == R[q].(life := lives[q], score := scores[q])
  {
  }

  /** Moving one id from the pending set to the done set keeps them a partition. */
  lemma PendingStep(pending: set<Uuid>, done: set<Uuid>, all: set<Uuid>, k: Uuid)
    requires pending !! done && pending + done == all && k in pending
    ensures (pending - {k}) !! (done + {k}) && (pending - {k}) + (done + {k}) == all
  {
  }

  /** Before the scan nobody was visited: the bookkeeping is the roster's own. */
  lemma TalliedStart(R: Roster, bs: seq<Bullet>)
    requires forall q :: q in R ==> R[q].uuid == q
    ensures Tallied(R, bs, {}, map q | q in R :: R[q].life, map q | q in R :: R[q].score)
  {
    forall q | q in R ensures Gain(q, R, {}, bs) == 0 {
    }
  }

  /** The slice S0 with its first i players having taken their turn. */
  function TurnedUpTo(S0: seq<PlayerState>, i: nat): (r: seq<PlayerState>)
    requires i <= |S0|
  {
    seq(|S0|, t requires 0 <= t < |S0| => if t < i then Turn(S0[t]) else S0[t])
  }

  /** One step of the purge, from the back: the bullet at i is dropped if
      exhausted, and otherwise flagged in place. */
  lemma PurgeStep(B0: seq<Bullet>, i: int, bs: seq<Bullet>)
    requires 0 <= i < |B0| && bs == B0[..i + 1] + Swept(B0[i + 1..])
    ensures bs[i] == B0[i]
    ensures B0[i].exhausted ==> bs[..i] + bs[i + 1..] == B0[..i] + Swept(B0[i..])
    ensures !B0[i].exhausted ==> bs[i := Flagged(bs[i])] == B0[..i] + Swept(B0[i..])
  {
    assert B0[i..][0] == B0[i] && B0[i..][1..] == B0[i + 1..];
    assert B0[..i + 1] == B0[..i] + [B0[i]];
    assert bs[..i] == B0[..i] && bs[i + 1..] == Swept(B0[i + 1..]);
  }

  /** No player object sits in two slots of the slice. */
  predicate Distinct(ps: seq<Player>)
  {
    forall a, b :: 0 <= a < b < |ps| ==> ps[a] != ps[b]
  }

  /** MovePlayers after i turns, on values: the first i players of S0 have
      taken their turn, and the first i volleys followed the bullets B0. */
  ghost predicate Taken(i: nat, ids: seq<Uuid>, S0: seq<PlayerState>, B0: seq<Bullet>,
                        ss: seq<PlayerState>, bs: seq<Bullet>)
  {
    && i <= |S0| == |ids|
    && ss == TurnedUpTo(S0, i)
    && bs == B0 + Volley(S0[..i], ids[..i])
  }

  /** Before the loop no player has taken its turn. */
  lemma TakenNone(ids: seq<Uuid>, S0: seq<PlayerState>, B0: seq<Bullet>)
    requires |S0| == |ids|
    ensures Taken(0, ids, S0, B0, S0, B0)
  {
    assert TurnedUpTo(S0, 0) == S0;
  }

  /** After the loop every player has taken its turn and the whole volley
      followed B0. */
  lemma TakenAll(ids: seq<Uuid>, S0: seq<PlayerState>, B0: seq<Bullet>, ss: seq<PlayerState>, bs: seq<Bullet>)
    requires Taken(|S0|, ids, S0, B0, ss, bs)
    ensures |ss| == |S0| && forall t :: 0 <= t < |S0| ==> ss[t] == Turn(S0[t])
    ensures bs == B0 + Volley(S0, ids)
  {
    assert S0[..|S0|] == S0 && ids[..|S0|] == ids;
  }

  /** One more turn advances Taken by one player. */
  lemma TakenStep(i: nat, ids: seq<Uuid>, S0: seq<PlayerState>, B0: seq<Bullet>,
                  ss: seq<PlayerState>, bs: seq<Bullet>)
    requires Taken(i, ids, S0, B0, ss, bs) && i < |S0|
    ensures Taken(i + 1, ids, S0, B0, ss[i := Turn(ss[i])], bs + Shots(ss[i], ids[i]))
  {
    VolleyPrefix(S0, ids, i);
    var r, T := ss[i := Turn(ss[i])], TurnedUpTo(S0, i + 1);
    forall t | 0 <= t < |r| ensures r[t] == T[t] {
      if t != i {
        assert r[t] == ss[t];
      }
    }
    assert r == T;
  }

  class Game {
    var playerMap: map<Uuid, Player>
    var Players: seq<Player>
    var Bullets: seq<Bullet>
    var Status: GameStatus
    var You: Player?
    var Bounds: Bounds

    /** The map and the slice hold the same players, each under its own id,
        and no id twice. */
    ghost predicate Valid()
      reads this`playerMap, this`Players
    {
      Registry(playerMap, Players)
    }

    /** New: an empty game with the default bounds. */
    constructor ()
      ensures Valid()
      ensures playerMap == map[] && Players == [] && Bullets == []
      ensures Status == NoStatus && You == null && Bounds == GameRules.Bounds(GameWidth, GameHeight)
    {
      playerMap := map[];
      Players := [];
      Bullets := [];
      Status := NoStatus;
      You := null;
      Bounds := GameRules.Bounds(GameWidth, GameHeight);
    }

    function States(): (r: seq<PlayerState>)
      reads this`Players, Players
      ensures |r| == |Players| && forall i :: 0 <= i < |Players| ==> r[i] == Players[i].State()
    {
      StatesOf(Players)
    }

    /** The players keyed by id. */
    ghost function StateMap(): (R: Roster)
      requires Valid()
      reads this`playerMap, this`Players, Players
      ensures R.Keys == playerMap.Keys
      ensures forall k :: k in R ==> R[k] == playerMap[k].State() && R[k].uuid == k
      ensures forall i :: 0 <= i < |Players| ==> Players[i].UUID in R && R[Players[i].UUID] == Players[i].State()
    {
      RegistryRoster(playerMap, Players, States());
      RosterOf(States())
    }

    /** A roster that agrees with every registered player is the game's roster. */
    lemma RosterIs(R: Roster)
      requires Valid() && R.Keys == playerMap.Keys
      requires forall k :: k in R ==> R[k] == playerMap[k].State()
      ensures StateMap() == R
    {
    }

    /** GetPlayer: the registered player with this id, or nil. */
    function GetPlayer(id: Uuid): (p: Player?)
      requires Valid()
      reads this`playerMap, this`Players
      ensures p == null <==> id !in playerMap
      ensures p != null ==> p in Players && p.UUID == id
    {
      if id in playerMap then playerMap[id] else null
    }

    /** SetYou marks the player with this id as the recipient's own; the
        rest of the snapshot does not depend on the mark. */
    method SetYou(id: Uuid)
      requires Valid()
      modifies this`You
      ensures You == GetPlayer(id)
      ensures Valid() && Scene() == old(Scene())
    {
      You := if id in playerMap then playerMap[id] else null;
    }

    /** The game as one snapshot serialises it. */
    function Snapshot(): (w: World)
      reads this, Players, You
      ensures w.players == States() && w.bullets == Bullets
      ensures w.you == (if You == null then None else Some(You.State()))
    {
      World(StatesOf(Players), Bullets, Status, if You == null then None else Some(You.State()), Bounds)
    }

    /** What every snapshot shares: the game with no player marked as the
        recipient's own. */
    ghost function Scene(): World
      reads this`Players, this`Bullets, this`Status, this`Bounds, Players
    {
      World(StatesOf(Players), Bullets, Status, None, Bounds)
    }

    /** Once You is the player with this id, the snapshot is the shared
        scene with that player's state marked as the recipient's own. */
    lemma SnapshotMarks(id: Uuid)
      requires Valid() && id in playerMap && You == GetPlayer(id)
      ensures id in StateMap() && Snapshot() == Scene().(you := Some(StateMap()[id]))
    {
    }

    /** The ids of the players, in slice order. */
    function Ids(): (r: seq<Uuid>)
      reads this`Players
      ensures |r| == |Players| && forall i :: 0 <= i < |Players| ==> r[i] == Players[i].UUID
    {
      var ps := Players;
      seq(|ps|, i requires 0 <= i < |ps| => ps[i].UUID)
    }

    /** The shared scene lists the players in slice order, and its roster is
        the game's. */
    lemma SceneLists()
      requires Valid()
      ensures Scene().players == States() && IdsOf(Scene().players) == Ids()
      ensures RosterOf(Scene().players) == StateMap()
    {
    }

    /** The game after a hit scan, read as one snapshot: the players of W
        in their slots with the states H gives them, and the bullets. */
    lemma SceneAfter(W: World, H: Roster)
      requires Valid() && IdsOf(W.players) == Ids() && StateMap() == H
      requires Status == W.status && Bounds == W.bounds && W.you == None
      ensures Scene() == Aftermath(W, H, Bullets)
    {
      forall i | 0 <= i < |Players| ensures Scene().players[i] == Settled(H, W.players[i]) {
        assert W.players[i].uuid == IdsOf(W.players)[i];
        assert Players[i].UUID in H;
      }
    }

    /** The game after a tick that did not panic, read as one snapshot: the
        scene Ticked computes from the scene W before the tick. */
    lemma SceneTicked(W: World, ids: seq<Uuid>, R: Roster)
      requires Valid() && IdsOf(W.players) == Ids() && RosterOf(W.players) == R && |ids| == |W.players|
      requires Status == W.status && Bounds == W.bounds && W.you == None
      requires StateMap() == HitRoster(TurnRoster(R), Advanced(W.bullets + Volley(W.players, ids)))
      requires Bullets == Swept(MarkStruck(Advanced(W.bullets + Volley(W.players, ids)), TurnRoster(R)))
      ensures Scene() == Ticked(W, ids)
    {
      SceneAfter(W, StateMap());
      TickedFrom(W, ids, R, StateMap(), Bullets);
    }

    /** NewPlayer: x and y are the random coordinates drawn in [0, width) and
        [0, height); id is a fresh connection id. */
    method NewPlayer(id: Uuid, x: real, y: real) returns (p: Player)
      requires Valid() && id !in playerMap
      modifies this`playerMap, this`Players
      ensures Valid() && fresh(p)
      ensures p.State() == Spawned(id, x, y)
      ensures Players == old(Players) + [p]
      ensures playerMap == old(playerMap)[id := p]
    {
      p := new Player(id, x, y);
      playerMap := playerMap[id := p];
      Players := Players + [p];
    }

    /** DeletePlayer: swap-removes the player with this id from the slice and
        deletes it from the map; an absent id changes nothing. */
    method DeletePlayer(id: Uuid)
      requires Valid()
      modifies this`playerMap, this`Players
      ensures Valid()
      ensures playerMap == old(playerMap) - {id}
      ensures id !in old(playerMap) ==> Players == old(Players)
      ensures id in old(playerMap) ==>
        exists k :: 0 <= k < |old(Players)| && old(Players)[k].UUID == id && Players == SwapRemove(old(Players), k)
      ensures multiset(Players) == multiset(old(Players)) - multiset{old(GetPlayer(id))}
    {
      ghost var P0 := Players;
      ghost var at: int := -1;
      var n := |Players|;
      for i := 0 to n
        invariant playerMap == old(playerMap)
        invariant at == -1 ==> Players == P0 && forall t :: 0 <= t < i ==> P0[t].UUID != id
        invariant at != -1 ==> 0 <= at < i && P0[at].UUID == id && Players == SwapRemove(P0, at)
      {
        // once the player is found the slice is one shorter; the id does not recur
        if i < |Players| && Players[i].UUID == id {
          Players := SwapRemove(Players, i);
          at := i;
        }
      }
      if at != -1 {
        RegistryRemove(playerMap, P0, at);
        SwapRemoveKeepsOthers(P0, at);
      } else {
        RegistryAbsent(playerMap, P0, id);
      }
      playerMap := playerMap - {id};
    }

    method AddBullet(x: real, y: real, owner: Uuid, rotation: RotationDegree, damage: real, id: Uuid)
      modifies this`Bullets
      ensures Bullets == old(Bullets) + [NewBullet(id, x, y, owner, rotation, damage)]
    {
      Bullets := Bullets + [Bullet(id, x, y, owner, rotation, damage, 2.0, false)];
    }

    /** MovePlayers: every player in slice order moves, then shoots if it can;
        ids[i] is the fresh id of the bullet the i-th player would fire. */
    method MovePlayers(ids: seq<Uuid>)
      requires Valid() && |ids| == |Players|
      modifies this`Bullets, Players`X, Players`Y, Players`Rotation, Players`ReloadTime
      ensures Valid() && playerMap == old(playerMap) && Players == old(Players)
      ensures forall i :: 0 <= i < |Players| ==> Players[i].State() == Turn(old(Players[i].State()))
      ensures Bullets == old(Bullets) + Volley(old(States()), ids)
      ensures StateMap() == TurnRoster(old(StateMap()))
    {
      ghost var S0 := States();
      RegistryDistinct(playerMap, Players);
      TakeTurns(ids);
      RosterOfTurn(S0, States());
    }

    /** The loop of MovePlayers: each player in slice order takes its turn. */
    method TakeTurns(ids: seq<Uuid>)
      requires |ids| == |Players| && Distinct(Players)
      modifies this`Bullets, Players`X, Players`Y, Players`Rotation, Players`ReloadTime
      ensures playerMap == old(playerMap) && Players == old(Players)
      ensures forall i :: 0 <= i < |Players| ==> Players[i].State() == Turn(old(Players[i].State()))
      ensures Bullets == old(Bullets) + Volley(old(States()), ids)
    {
      ghost var S0 := States();
      TakenNone(ids, S0, Bullets);
      TurnsLoop(ids, S0, Bullets);
      TakenAll(ids, S0, old(Bullets), States(), Bullets);
    }

    /** The loop itself, from no turn taken to every turn taken. */
    method TurnsLoop(ids: seq<Uuid>, ghost S0: seq<PlayerState>, ghost B0: seq<Bullet>)
      requires TurnsTaken(0, ids, S0, B0)
      modifies this`Bullets, Players`X, Players`Y, Players`Rotation, Players`ReloadTime
      ensures playerMap == old(playerMap) && Players == old(Players)
      ensures TurnsTaken(|Players|, ids, S0, B0)
    {
      for i := 0 to |Players|
        invariant playerMap == old(playerMap) && Players == old(Players)
        invariant TurnsTaken(i, ids, S0, B0)
      {
        TakeTurnAt(i, ids, S0, B0);
      }
    }

    /** The state of MovePlayers after the first i players took their turn. */
    ghost predicate TurnsTaken(i: nat, ids: seq<Uuid>, S0: seq<PlayerState>, B0: seq<Bullet>)
      reads this, Players
    {
      Distinct(Players) && Taken(i, ids, S0, B0, States(), Bullets)
    }

    /** The body of MovePlayers' loop: the i-th player takes its turn. */
    method TakeTurnAt(i: nat, ids: seq<Uuid>, ghost S0: seq<PlayerState>, ghost B0: seq<Bullet>)
      requires TurnsTaken(i, ids, S0, B0) && i < |Players|
      modifies this`Bullets, Players`X, Players`Y, Players`Rotation, Players`ReloadTime
      ensures TurnsTaken(i + 1, ids, S0, B0)
    {
      ghost var ss, bs := States(), Bullets;
      TurnOne(Players[i], i, ids[i]);
      TakenStep(i, ids, S0, B0, ss, bs);
    }

    /** The i-th player takes its turn and no other player changes. */
    method TurnOne(v: Player, i: nat, id: Uuid)
      requires i < |Players| && v == Players[i] && Distinct(Players)
      modifies this`Bullets, v`X, v`Y, v`Rotation, v`ReloadTime
      ensures Players == old(Players)
      ensures States() == old(States())[i := Turn(old(States())[i])]
      ensures Bullets == old(Bullets) + Shots(old(States())[i], id)
    {
      assert forall t :: 0 <= t < |Players| && t != i ==> Players[t] != v;
      TakeTurn(v, id);
    }

    /** One turn of a player in MovePlayers: it moves, then shoots if it can. */
    method TakeTurn(v: Player, id: Uuid)
      modifies v`X, v`Y, v`Rotation, v`ReloadTime, this`Bullets
      ensures v.State() == Turn(old(v.State()))
      ensures Bullets == old(Bullets) + Shots(old(v.State()), id)
    {
      v.MovePlayer();
      if v.Fire && v.ReloadTime <= 0 {
        AddBullet(v.X, v.Y, v.UUID, v.Rotation, v.Power, id);
        v.ReloadTime := 25;
      }
    }

    /** MoveBullets: every bullet takes one step along its rotation. */
    method MoveBullets()
      modifies this`Bullets
      ensures Bullets == Advanced(old(Bullets))
      ensures playerMap == old(playerMap) && Players == old(Players)
    {
      ghost var B0 := Bullets;
      for i := 0 to |Bullets|
        invariant |Bullets| == |B0|
        invariant forall t :: 0 <= t < i ==> Bullets[t] == Advance(B0[t])
        invariant forall t :: i <= t < |Bullets| ==> Bullets[t] == B0[t]
      {
        var b := Bullets[i];
        var speed := b.speed;
        match b.rotation {
          case RotationUp => b := b.(y := b.y + speed);
          case RotationDown => b := b.(y := b.y - speed);
          case RotationLeft => b := b.(x := b.x - speed);
          case RotationRight => b := b.(x := b.x + speed);
          case RotationLeftDown => b := b.(x := b.x - speed, y := b.y - speed);
          case RotationLeftUp => b := b.(x := b.x - speed, y := b.y + speed);
          case RotationRightDown => b := b.(x := b.x + speed, y := b.y - speed);
          case RotationRightUp => b := b.(x := b.x + speed, y := b.y + speed);
          case OtherAngle =>
        }
        Bullets := Bullets[i := b];
      }
    }

    /** The hit scan of Collision, visiting the player map in an arbitrary
        order. It panics (crashed) when a hitting bullet's owner has left. */
    method ScanHits() returns (crashed: bool)
      requires Valid()
      modifies this`Bullets, playerMap.Values`Life, playerMap.Values`Score
      ensures Valid()
      ensures crashed <==> OrphanHit(old(StateMap()), old(Bullets))
      ensures !crashed ==> StateMap() == HitRoster(old(StateMap()), old(Bullets))
      ensures !crashed ==> Bullets == MarkStruck(old(Bullets), old(StateMap()))
    {
      ghost var R0 := StateMap();
      Prepared(R0);
      crashed := ScanRoster(R0);
      if crashed {
        return;
      }
      Restored(R0, old(Bullets));
    }

    /** The scan's starting point: the players are the roster R0, with the
        lives and scores R0 gives them. */
    lemma Prepared(R0: Roster)
      requires Valid() && R0 == StateMap()
      ensures Filed() && Placed(R0) && Mirrors(Lives(R0), Scores(R0)) && Unscathed(R0)
      ensures forall q :: q in R0 ==> R0[q].uuid == q
    {
    }

    /** The registered players agree with R0 in every field the hit scan
        never writes. */
    ghost predicate Unscathed(R0: Roster)
      reads this`playerMap, playerMap.Values`Name, playerMap.Values`X, playerMap.Values`Y
      reads playerMap.Values`Left, playerMap.Values`Right, playerMap.Values`Up, playerMap.Values`Down
      reads playerMap.Values`Fire, playerMap.Values`Acceleration, playerMap.Values`Velocity
      reads playerMap.Values`Rotation, playerMap.Values`Power, playerMap.Values`ReloadTime
      reads playerMap.Values`Status, playerMap.Values`You
    {
      && R0.Keys == playerMap.Keys
      && forall q :: q in R0 ==> playerMap[q].Keeps(R0[q])
    }

    /** Every registered player is filed under its own id. */
    ghost predicate Filed()
      reads this`playerMap
    {
      forall q :: q in playerMap ==> playerMap[q].UUID == q
    }

    /** The registered players stand where R0 puts them. */
    ghost predicate Placed(R0: Roster)
      reads this`playerMap, playerMap.Values`X, playerMap.Values`Y
    {
      && R0.Keys == playerMap.Keys
      && forall q :: q in playerMap ==> playerMap[q].X == R0[q].x && playerMap[q].Y == R0[q].y
    }

    /** Once the scan is over, the players are the roster H, which differs
        from R0 in lives and scores only. */
    lemma Restored(R0: Roster, B0: seq<Bullet>)
      requires Valid() && Unscathed(R0)
      requires Mirrors(Lives(HitRoster(R0, B0)), Scores(HitRoster(R0, B0)))
      ensures StateMap() == HitRoster(R0, B0)
    {
      var H := HitRoster(R0, B0);
      forall q | q in playerMap
        ensures playerMap[q].State() == H[q]
      {
        playerMap[q].KeptState(R0[q]);
      }
      RosterIs(H);
    }

    /** The registered players' Life and Score fields hold what the scan's
        bookkeeping says. */
    ghost predicate Mirrors(lives: map<Uuid, int>, scores: map<Uuid, int>)
      reads this`playerMap, playerMap.Values`Life, playerMap.Values`Score
    {
      && lives.Keys == playerMap.Keys && scores.Keys == playerMap.Keys
      && forall q :: q in playerMap ==> playerMap[q].Life == lives[q] && playerMap[q].Score == scores[q]
    }

    /** The bookkeeping of the outer loop once the players in done were
        visited and those in pending are left. */
    ghost predicate Visiting(R0: Roster, B0: seq<Bullet>, done: set<Uuid>, pending: set<Uuid>,
                             lives: map<Uuid, int>, scores: map<Uuid, int>)
      reads this`playerMap, this`Bullets, playerMap.Values`X, playerMap.Values`Y
      reads playerMap.Values`Life, playerMap.Values`Score
    {
      && Filed() && Placed(R0) && Mirrors(lives, scores) && Tallied(R0, B0, done, lives, scores)
      && Bullets == MarkedBy(B0, R0, done) && pending !! done && pending + done == R0.Keys
    }

    /** The bookkeeping of the inner loop once player k was tested against
        the first seen bullets. */
    ghost predicate Hitting(R0: Roster, B0: seq<Bullet>, done: set<Uuid>, k: Uuid, seen: nat,
                            lives: map<Uuid, int>, scores: map<Uuid, int>)
      reads this`playerMap, this`Bullets, playerMap.Values`X, playerMap.Values`Y
      reads playerMap.Values`Life, playerMap.Values`Score
    {
      && Filed() && Placed(R0) && Mirrors(lives, scores) && Midscan(R0, B0, done, k, seen, lives, scores)
      && Bullets == Marked(B0, R0, done, k, seen)
    }

    /** The outcome of a hit scan that did not panic, from the roster R0
        and the bullets B0: every player's Life and Score are those of
        HitRoster, and every bullet that hit someone is exhausted. */
    ghost predicate Scanned(R0: Roster, B0: seq<Bullet>)
      reads this`playerMap, this`Bullets, playerMap.Values`Life, playerMap.Values`Score
    {
      Mirrors(Lives(HitRoster(R0, B0)), Scores(HitRoster(R0, B0))) && Bullets == MarkStruck(B0, R0)
    }

    /** The hit scan from the roster R0 of the players' states: it leaves
        the player map and the slice alone. */
    method ScanRoster(ghost R0: Roster) returns (crashed: bool)
      requires Filed() && Placed(R0) && Mirrors(Lives(R0), Scores(R0)) && Unscathed(R0)
      requires forall q :: q in R0 ==> R0[q].uuid == q
      modifies this`Bullets, playerMap.Values`Life, playerMap.Values`Score
      ensures playerMap == old(playerMap) && Players == old(Players)
      ensures crashed <==> OrphanHit(R0, old(Bullets))
      ensures !crashed ==> Unscathed(R0) && Scanned(R0, old(Bullets))
    {
      crashed := ScanKept(R0);
    }

    /** The hit scan leaves every field but Life and Score alone. */
    method ScanKept(ghost R0: Roster) returns (crashed: bool)
      requires Filed() && Placed(R0) && Mirrors(Lives(R0), Scores(R0)) && Unscathed(R0)
      requires forall q :: q in R0 ==> R0[q].uuid == q
      modifies this`Bullets, playerMap.Values`Life, playerMap.Values`Score
      ensures crashed <==> OrphanHit(R0, old(Bullets))
      ensures !crashed ==> Unscathed(R0) && Scanned(R0, old(Bullets))
    {
      crashed := VisitAll(R0);
    }

    /** The outer loop of the hit scan over the player map, from the roster
        R0 of the players' states. */
    method VisitAll(ghost R0: Roster) returns (crashed: bool)
      requires Filed() && Placed(R0) && Mirrors(Lives(R0), Scores(R0))
      requires forall q :: q in R0 ==> R0[q].uuid == q
      modifies this`Bullets, playerMap.Values`Life, playerMap.Values`Score
      ensures crashed <==> OrphanHit(R0, old(Bullets))
      ensures !crashed ==> Scanned(R0, old(Bullets))
    {
      ghost var B0 := Bullets;
      ghost var lives, scores := Lives(R0), Scores(R0);
      VisitBegin(R0);
      var pending := playerMap.Keys;
      ghost var done: set<Uuid> := {};
      while pending != {}
        invariant Visiting(R0, B0, done, pending, lives, scores)
        decreases pending
      {
        var k :| k in pending;
        crashed, lives, scores := VisitPlayer(k, R0, B0, done, pending, lives, scores);
        if crashed {
          return;
        }
        pending := pending - {k};
        done := done + {k};
      }
      crashed := false;
      VisitEnd(R0, B0, done, lives, scores);
    }

    /** Before the outer loop nobody was visited. */
    lemma VisitBegin(R0: Roster)
      requires Filed() && Placed(R0) && Mirrors(Lives(R0), Scores(R0))
      requires forall q :: q in R0 ==> R0[q].uuid == q
      ensures Visiting(R0, Bullets, {}, playerMap.Keys, Lives(R0), Scores(R0))
    {
      TalliedStart(R0, Bullets);
      MarkedNone(Bullets, R0);
    }

    /** After the outer loop everybody was visited: the scan is complete. */
    lemma VisitEnd(R0: Roster, B0: seq<Bullet>, done: set<Uuid>, lives: map<Uuid, int>, scores: map<Uuid, int>)
      requires Visiting(R0, B0, done, {}, lives, scores)
      ensures !OrphanHit(R0, B0) && Scanned(R0, B0)
    {
      assert done == R0.Keys;
      TalliedAll(R0, B0, lives, scores);
      MarkedAll(B0, R0);
    }

    /** One turn of the outer loop: a dead player is skipped, a live one is
        tested against every bullet. */
    method VisitPlayer(k: Uuid, ghost R0: Roster, ghost B0: seq<Bullet>, ghost done: set<Uuid>, ghost pending: set<Uuid>,
                       ghost lives: map<Uuid, int>, ghost scores: map<Uuid, int>)
      returns (crashed: bool, ghost lives': map<Uuid, int>, ghost scores': map<Uuid, int>)
      requires Visiting(R0, B0, done, pending, lives, scores) && k in pending
      modifies this`Bullets, playerMap.Values`Life, playerMap.Values`Score
      ensures crashed ==> OrphanHit(R0, B0)
      ensures !crashed ==> Visiting(R0, B0, done + {k}, pending - {k}, lives', scores')
    {
      crashed, lives', scores' := false, lives, scores;
      PendingStep(pending, done, R0.Keys, k);
      var p := playerMap[k];
      if p.Life <= 0 {
        TalliedDead(R0, B0, done, k, lives, scores);
        MarkedDead(B0, R0, done, k);
        return;
      }
      MidscanStart(R0, B0, done, k, lives, scores);
      MarkedStart(B0, R0, done, k);
      crashed, lives', scores' := HitPlayer(k, p, R0, B0, done, lives, scores);
      if crashed {
        return;
      }
      MidscanFinish(R0, B0, done, k, lives', scores');
      MarkedFinish(B0, R0, done, k);
    }

    /** The inner loop of the hit scan: every bullet is tested against the
        live player p, whose id is k. */
    method HitPlayer(k: Uuid, p: Player, ghost R0: Roster, ghost B0: seq<Bullet>, ghost done: set<Uuid>,
                     ghost lives: map<Uuid, int>, ghost scores: map<Uuid, int>)
      returns (crashed: bool, ghost lives': map<Uuid, int>, ghost scores': map<Uuid, int>)
      requires Hitting(R0, B0, done, k, 0, lives, scores) && k in playerMap && p == playerMap[k]
      modifies this`Bullets, playerMap.Values`Life, playerMap.Values`Score
      ensures crashed ==> OrphanHit(R0, B0)
      ensures !crashed ==> Hitting(R0, B0, done, k, |B0|, lives', scores')
    {
      crashed, lives', scores' := false, lives, scores;
      var n := |Bullets|;
      assert n == |B0|;
      for j := 0 to n
        invariant Hitting(R0, B0, done, k, j, lives', scores')
      {
        crashed, lives', scores' := TestBullet(k, p, R0, B0, done, j, lives', scores');
        if crashed {
          return;
        }
      }
    }

    /** One bullet against one live player: the three tests of the scan,
        then the hit. */
    method TestBullet(k: Uuid, p: Player, ghost R0: Roster, ghost B0: seq<Bullet>, ghost done: set<Uuid>, j: nat,
                      ghost lives: map<Uuid, int>, ghost scores: map<Uuid, int>)
      returns (crashed: bool, ghost lives': map<Uuid, int>, ghost scores': map<Uuid, int>)
      requires Hitting(R0, B0, done, k, j, lives, scores) && j < |B0| && k in playerMap && p == playerMap[k]
      modifies this`Bullets, playerMap.Values`Life, playerMap.Values`Score
      ensures crashed ==> OrphanHit(R0, B0)
      ensures !crashed ==> Hitting(R0, B0, done, k, j + 1, lives', scores')
    {
      crashed, lives', scores' := false, lives, scores;
      var b := Bullets[j];
      assert p.X == R0[k].x && p.Y == R0[k].y && b.owner == B0[j].owner;
      MarkedStep(B0, R0, done, k, j);
      if b.owner == k || Abs(b.x - p.X) > Tolerance || Abs(b.y - p.Y) > Tolerance * 2.0 {
        MidscanMiss(R0, B0, done, k, j, lives, scores);
        return;
      }
      crashed, lives', scores' := Strike(k, p, R0, B0, done, j, lives, scores);
    }

    /** A hit: player p, whose id is k, loses a life, the bullet is exhausted
        and its owner scores; an owner that has left the game is the nil
        dereference, which panics. */
    method Strike(k: Uuid, p: Player, ghost R0: Roster, ghost B0: seq<Bullet>, ghost done: set<Uuid>, j: nat,
                  ghost lives: map<Uuid, int>, ghost scores: map<Uuid, int>)
      returns (crashed: bool, ghost lives': map<Uuid, int>, ghost scores': map<Uuid, int>)
      requires Hitting(R0, B0, done, k, j, lives, scores) && j < |B0|
      requires k in playerMap && p == playerMap[k] && Hits(B0[j], R0[k])
      modifies this`Bullets, playerMap.Values`Life, playerMap.Values`Score
      ensures crashed ==> OrphanHit(R0, B0)
      ensures !crashed ==> Hitting(R0, B0, done, k, j + 1, lives', scores')
    {
      MarkedStep(B0, R0, done, k, j);
      var owner := Bullets[j].owner;
      assert owner == B0[j].owner;
      Wound(k, p, j, R0, lives, scores);
      lives' := lives[k := lives[k] - 1];
      if owner !in playerMap {
        // the owner lookup yields nil and the score increment panics
        return true, lives', scores;
      }
      MidscanHit(R0, B0, done, k, j, owner, lives, scores);
      Credit(owner, playerMap[owner], R0, lives', scores);
      crashed, scores' := false, scores[owner := scores[owner] + 1];
    }

    /** The victim's half of a hit: its Life drops and the bullet is exhausted. */
    method Wound(k: Uuid, p: Player, j: nat, ghost R0: Roster, ghost lives: map<Uuid, int>, ghost scores: map<Uuid, int>)
      requires Filed() && Placed(R0) && Mirrors(lives, scores) && k in playerMap && p == playerMap[k] && j < |Bullets|
      modifies p`Life, this`Bullets
      ensures Filed() && Placed(R0) && Mirrors(lives[k := lives[k] - 1], scores)
      ensures Bullets == old(Bullets)[j := old(Bullets)[j].(exhausted := true)]
    {
      p.Life := p.Life - 1;
      Bullets := Bullets[j := Bullets[j].(exhausted := true)];
    }

    /** The shooter's half of a hit: the owner's Score rises. */
    method Credit(o: Uuid, owner: Player, ghost R0: Roster, ghost lives: map<Uuid, int>, ghost scores: map<Uuid, int>)
      requires Filed() && Placed(R0) && Mirrors(lives, scores) && o in playerMap && owner == playerMap[o]
      modifies owner`Score
      ensures Filed() && Placed(R0) && Mirrors(lives, scores[o := scores[o] + 1])
    {
      owner.Score := owner.Score + 1;
    }

    /** The purge of Collision: walking the bullets from the last to the
        first, drop the exhausted ones and flag those outside the arena. */
    method PurgeBullets()
      modifies this`Bullets
      ensures Bullets == Swept(old(Bullets))
    {
      ghost var B0 := Bullets;
      var i := |Bullets| - 1;
      while i >= 0
        invariant -1 <= i < |B0|
        invariant Bullets == B0[..i + 1] + Swept(B0[i + 1..])
      {
        PurgeStep(B0, i, Bullets);
        if Bullets[i].exhausted {
          Bullets := Bullets[..i] + Bullets[i + 1..];
          i := i - 1;
          continue;
        }
        if Bullets[i].y > GameHeight || Bullets[i].x > GameWidth || Bullets[i].x < 0.0 || Bullets[i].y < 0.0 {
          Bullets := Bullets[i := Bullets[i].(exhausted := true)];
        }
        i := i - 1;
      }
      assert B0[0..] == B0;
    }

    /** One tick of the game: players move and fire, bullets move, hits are
        resolved. */
    method Tick(ids: seq<Uuid>) returns (crashed: bool)
      requires Valid() && |ids| == |Players|
      modifies this`Bullets, Players`X, Players`Y, Players`Rotation, Players`ReloadTime
      modifies playerMap.Values`Life, playerMap.Values`Score
      ensures Valid() && playerMap == old(playerMap) && Players == old(Players)
      ensures crashed <==> OrphanHit(TurnRoster(old(StateMap())), Advanced(old(Bullets) + Volley(old(States()), ids)))
      ensures !crashed ==> StateMap() == HitRoster(TurnRoster(old(StateMap())), Advanced(old(Bullets) + Volley(old(States()), ids)))
      ensures !crashed ==> Bullets == Swept(MarkStruck(Advanced(old(Bullets) + Volley(old(States()), ids)), TurnRoster(old(StateMap()))))
      ensures !crashed ==> Scene() == Ticked(old(Scene()), ids)
    {
      ghost var W, R := Scene(), StateMap();
      SceneLists();
      ghost var R1, B1 := TurnRoster(StateMap()), Advanced(Bullets + Volley(States(), ids));
      Fly(ids);
      assert StateMap() == R1 && Bullets == B1;
      crashed := Collision();
      if !crashed {
        SceneTicked(W, ids, R);
      }
    }

    /** The moving half of a tick: players, then bullets. */
    method Fly(ids: seq<Uuid>)
      requires Valid() && |ids| == |Players|
      modifies this`Bullets, Players`X, Players`Y, Players`Rotation, Players`ReloadTime
      ensures Valid() && playerMap == old(playerMap) && Players == old(Players)
      ensures StateMap() == TurnRoster(old(StateMap()))
      ensures Bullets == Advanced(old(Bullets) + Volley(old(States()), ids))
    {
      MovePlayers(ids);
      MoveBullets();
    }

    /** Collision: the hit scan, then the purge. */
    method Collision() returns (crashed: bool)
      requires Valid()
      modifies this`Bullets, playerMap.Values`Life, playerMap.Values`Score
      ensures Valid() && playerMap == old(playerMap) && Players == old(Players)
      ensures crashed <==> OrphanHit(old(StateMap()), old(Bullets))
      ensures !crashed ==> StateMap() == HitRoster(old(StateMap()), old(Bullets))
      ensures !crashed ==> Bullets == Swept(MarkStruck(old(Bullets), old(StateMap())))
    {
      crashed := ScanHits();
      if crashed {
        return;
      }
      Purge();
    }

    /** PurgeBullets leaves the players alone. */
    method Purge()
      requires Valid()
      modifies this`Bullets
      ensures Valid() && StateMap() == old(StateMap())
      ensures Bullets == Swept(old(Bullets))
    {
      PurgeBullets();
      assert States() == old(States());
    }
  }
}
