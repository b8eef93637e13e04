/** The server of server/main.go around one shared game: the connection map,
    the per-connection read loop that decodes commands into the player, and
    the tick loop that advances the game and sends every connection its
    snapshot. Goroutines are modelled as whole operations one after another. */
module Server {
  import opened GameRules
  import opened Game
  import opened Commands

  /** A registered websocket connection; only its id matters here. */
  datatype CustomConn = CustomConn(id: Uuid)

  /** One snapshot written to one connection. */
  datatype Delivery = Delivery(to: Uuid, world: World)

  /** How the tick loop ended. */
  datatype Ending = Panicked | Returned | Running

  /** The intent of a player object. */
  function IntentOf(p: Player): Intent
    reads p
  {
    IntentIn(p.State())
  }

  /** The `case` bodies that set flags: the pad's keys set to v, one
      assignment per key as the switch writes them. */
  method HoldPad(p: Player, pad: Pad, v: bool)
    modifies p`Left, p`Right, p`Up, p`Down, p`Fire
    ensures IntentOf(p) == Hold(old(IntentOf(p)), Keys(pad), v)
  {
    match pad
    case Left => p.Left := v;
    case LeftUp => p.Left := v; p.Up := v;
    case LeftDown => p.Left := v; p.Down := v;
    case Right => p.Right := v;
    case RightUp => p.Right := v; p.Up := v;
    case RightDown => p.Right := v; p.Down := v;
    case Down => p.Down := v;
    case Up => p.Up := v;
    case Fire => p.Fire := v;
  }

  /** One case of the switch applied to the player. */
  method Apply(p: Player, t: Token)
    modifies p`Left, p`Right, p`Up, p`Down, p`Fire, p`Status
    ensures IntentOf(p) == Perform(old(IntentOf(p)), t)
  {
    match t
    case PauseToken => p.Status := Pause;
    case ResumeToken => p.Status := Resume;
    case Pressed(pad) => HoldPad(p, pad, true);
    case Released(pad) => HoldPad(p, pad, false);
  }

  /** One iteration of the read loop of Connect: a frame that is not text is
      skipped; a text frame may rename the player and is then matched
      against the tokens. Only the intent fields change. */
  method Read(p: Player, f: Frame)
    modifies p`Name, p`Left, p`Right, p`Up, p`Down, p`Fire, p`Status
    ensures IntentOf(p) == Receive(old(IntentOf(p)), f)
  {
    if !f.TextFrame? {
      return;
    }
    var msg := f.text;
    if Contains(msg, Setup) {
      p.Name := Strip(msg, Setup);
    }
    match Parse(msg)
    case None =>
    case Some(t) => Apply(p, t);
  }

  /** The read loop of Connect over the frames that arrive before the
      connection fails. */
  method ReadAll(p: Player, frames: seq<Frame>)
    modifies p`Name, p`Left, p`Right, p`Up, p`Down, p`Fire, p`Status
    ensures IntentOf(p) == ReceiveAll(old(IntentOf(p)), frames)
  {
    for n := 0 to |frames|
      invariant IntentOf(p) == ReceiveAll(old(IntentOf(p)), frames[..n])
    {
      ghost var before := IntentOf(p);
      Read(p, frames[n]);
      ReceiveAllAppend(old(IntentOf(p)), frames[..n], [frames[n]]);
      assert frames[..n + 1] == frames[..n] + [frames[n]];
      assert ReceiveAll(before, [frames[n]]) == Receive(before, frames[n]);
    }
    assert frames[..|frames|] == frames;
  }

  /** order lists every connection id once: one order in which a range
      over the connection map may visit them. */
  predicate Enumerates(order: seq<Uuid>, conns: map<Uuid, CustomConn>)
  {
    && (forall g :: g in conns ==> g in order)
    && (forall n :: 0 <= n < |order| ==> order[n] in conns)
    && (forall n, m :: 0 <= n < m < |order| ==> order[n] != order[m])
  }

  /** How a pass of the recipient loop ends: whether it stopped early and
      what it wrote, in order. */
  datatype Outcome = Outcome(stopped: bool, sent: seq<Delivery>)

  /** The recipient loop from some point on, over the shared scene and the
      roster of its players: rest is still to be visited and sent has been
      written already. An id without a player stops the loop, a paused
      player is skipped, every other one gets the scene with its own player
      marked. */
  function Visit(rest: seq<Uuid>, scene: World, roster: Roster, sent: seq<Delivery>): Outcome
  {
    if rest == [] then Outcome(false, sent)
    else if rest[0] !in roster then Outcome(true, sent)
    else if roster[rest[0]].status == Pause then Visit(rest[1..], scene, roster, sent)
    else Visit(rest[1..], scene, roster, sent + [Delivery(rest[0], scene.(you := Some(roster[rest[0]])))])
  }

  /** What the recipient loop writes when it visits the connections in
      order, given the scene the tick left. */
  function Broadcasts(order: seq<Uuid>, scene: World): Outcome
  {
    Visit(order, scene, RosterOf(scene.players), [])
  }

  /** One visit of the loop, at position i of order. */
  lemma VisitStep(order: seq<Uuid>, i: nat, scene: World, roster: Roster, sent: seq<Delivery>)
    requires i < |order| && order[i] in roster
    ensures Visit(order[i..], scene, roster, sent) ==
      Visit(order[i + 1..], scene, roster,
        if roster[order[i]].status == Pause then sent
        else sent + [Delivery(order[i], scene.(you := Some(roster[order[i]])))])
  {
    assert order[i..][1..] == order[i + 1..];
  }

  /** The loop stops exactly when some id still to visit has no player. */
  lemma {:induction false} VisitStops(rest: seq<Uuid>, scene: World, roster: Roster, sent: seq<Delivery>)
    ensures Visit(rest, scene, roster, sent).stopped <==> exists n :: 0 <= n < |rest| && rest[n] !in roster
  {
    if rest != [] && rest[0] in roster {
      var g := rest[0];
      var next := if roster[g].status == Pause then sent else sent + [Delivery(g, scene.(you := Some(roster[g])))];
      VisitStops(rest[1..], scene, roster, next);
      if exists n :: 0 <= n < |rest| && rest[n] !in roster {
        var n :| 0 <= n < |rest| && rest[n] !in roster;
        assert rest[1..][n - 1] == rest[n];
      }
      if exists n :: 0 <= n < |rest[1..]| && rest[1..][n] !in roster {
        var n :| 0 <= n < |rest[1..]| && rest[1..][n] !in roster;
        assert rest[n + 1] !in roster;
      }
    }
  }

  /** What was written stays written, and every new delivery goes to a
      visited id whose player is not paused and carries the scene with that
      player marked. */
  lemma {:induction false} VisitSends(rest: seq<Uuid>, scene: World, roster: Roster, sent: seq<Delivery>)
    ensures var out := Visit(rest, scene, roster, sent).sent;
      |sent| <= |out| && out[..|sent|] == sent &&
      forall n :: |sent| <= n < |out| ==>
        out[n].to in rest && out[n].to in roster && roster[out[n].to].status != Pause &&
        out[n].world == scene.(you := Some(roster[out[n].to]))
  {
    if rest != [] && rest[0] in roster {
      var g := rest[0];
      var next := if roster[g].status == Pause then sent else sent + [Delivery(g, scene.(you := Some(roster[g])))];
      VisitSends(rest[1..], scene, roster, next);
      var out := Visit(rest, scene, roster, sent).sent;
      assert out[..|next|] == next;
      assert out[..|sent|] == next[..|sent|];
      forall n | |sent| <= n < |out|
        ensures out[n].to in rest
      {
        if n >= |next| {
          assert out[n].to in rest[1..];
        } else {
          assert out[n] == next[n];
        }
      }
    }
  }

  /** Visiting distinct ids that were not written to yet writes to each id
      at most once. */
  lemma {:induction false} VisitOnce(rest: seq<Uuid>, scene: World, roster: Roster, sent: seq<Delivery>)
    requires forall n, m :: 0 <= n < m < |rest| ==> rest[n] != rest[m]
    requires forall n, m :: 0 <= n < m < |sent| ==> sent[n].to != sent[m].to
    requires forall n :: 0 <= n < |sent| ==> sent[n].to !in rest
    ensures forall n, m :: 0 <= n < m < |Visit(rest, scene, roster, sent).sent| ==>
      Visit(rest, scene, roster, sent).sent[n].to != Visit(rest, scene, roster, sent).sent[m].to
  {
    if rest != [] && rest[0] in roster {
      var g := rest[0];
      var next := if roster[g].status == Pause then sent else sent + [Delivery(g, scene.(you := Some(roster[g])))];
      forall n, m | 0 <= n < m < |next|
        ensures next[n].to != next[m].to
      {
        if m == |sent| {
          assert sent[n].to !in rest;
        }
      }
      forall n | 0 <= n < |next|
        ensures next[n].to !in rest[1..]
      {
        if n < |sent| {
          assert sent[n].to !in rest;
        } else {
          forall k | 0 <= k < |rest[1..]|
            ensures rest[1..][k] != next[n].to
          {
            assert rest[1..][k] == rest[k + 1];
          }
        }
      }
      forall n, m | 0 <= n < m < |rest[1..]|
        ensures rest[1..][n] != rest[1..][m]
      {
        assert rest[1..][n] == rest[n + 1] && rest[1..][m] == rest[m + 1];
      }
      VisitOnce(rest[1..], scene, roster, next);
    }
  }

  /** Unless the loop stopped, every id it visits whose player is not
      paused has a delivery. */
  lemma {:induction false} VisitReaches(rest: seq<Uuid>, scene: World, roster: Roster, sent: seq<Delivery>)
    ensures var out := Visit(rest, scene, roster, sent);
      !out.stopped ==> forall g :: g in rest && g in roster && roster[g].status != Pause ==>
        exists n :: 0 <= n < |out.sent| && out.sent[n].to == g
  {
    if rest != [] && rest[0] in roster {
      var g0 := rest[0];
      var next := if roster[g0].status == Pause then sent else sent + [Delivery(g0, scene.(you := Some(roster[g0])))];
      VisitReaches(rest[1..], scene, roster, next);
      VisitSends(rest[1..], scene, roster, next);
      var out := Visit(rest, scene, roster, sent);
      forall g | !out.stopped && g in rest && g in roster && roster[g].status != Pause
        ensures exists n :: 0 <= n < |out.sent| && out.sent[n].to == g
      {
        if g == g0 {
          assert out.sent[..|next|] == next;
          assert out.sent[|sent|] == next[|sent|];
        } else {
          assert g in rest[1..];
        }
      }
    }
  }

  /** The broadcast, in the terms a connection sees: it stops exactly when
      some connection has no player; every write goes to a connection whose
      player is not paused and carries the scene with that player marked,
      at most once per connection; and unless it stopped, every connection
      whose player is not paused was written to. */
  lemma BroadcastsDeliver(order: seq<Uuid>, scene: World)
    requires forall n, m :: 0 <= n < m < |order| ==> order[n] != order[m]
    ensures var roster, out := RosterOf(scene.players), Broadcasts(order, scene);
      && (out.stopped <==> exists n :: 0 <= n < |order| && order[n] !in roster)
      && (forall n :: 0 <= n < |out.sent| ==>
            out.sent[n].to in order && out.sent[n].to in roster && roster[out.sent[n].to].status != Pause &&
            out.sent[n].world == scene.(you := Some(roster[out.sent[n].to])))
      && (forall n, m :: 0 <= n < m < |out.sent| ==> out.sent[n].to != out.sent[m].to)
      && (!out.stopped ==> forall g :: g in order && g in roster && roster[g].status != Pause ==>
            exists n :: 0 <= n < |out.sent| && out.sent[n].to == g)
  {
    var roster := RosterOf(scene.players);
    VisitStops(order, scene, roster, []);
    VisitSends(order, scene, roster, []);
    VisitOnce(order, scene, roster, []);
    VisitReaches(order, scene, roster, []);
  }

  /** Each round that broadcast logs what the broadcast wrote. */
  predicate LogAgrees(log: seq<seq<Delivery>>, scenes: seq<World>, orders: seq<seq<Uuid>>)
  {
    |scenes| == |log| <= |orders| && forall n :: 0 <= n < |log| ==> log[n] == Broadcasts(orders[n], scenes[n]).sent
  }

  /** Logging one more round keeps the log in agreement. */
  lemma Logged(log: seq<seq<Delivery>>, scenes: seq<World>, orders: seq<seq<Uuid>>, sent: seq<Delivery>, scene: World)
    requires LogAgrees(log, scenes, orders) && |log| < |orders|
    requires sent == Broadcasts(orders[|log|], scene).sent
    ensures LogAgrees(log + [sent], scenes + [scene], orders)
  {
  }

  /** Registering a fresh key and deleting it again gives the map back. */
  lemma AddRemove<V>(m: map<Uuid, V>, k: Uuid, v: V)
    requires k !in m
    ensures m[k := v] - {k} == m
  {
  }

  /** The package variables of the server: the connections by id and the
      one game. */
  class Server {
    var connections: map<Uuid, CustomConn>
    var mainGame: Game

    /** Each connection is filed under its own id, and the game is well formed. */
    ghost predicate Valid()
      reads this`connections, this`mainGame, mainGame`playerMap, mainGame`Players
    {
      mainGame.Valid() && forall g :: g in connections ==> connections[g].id == g
    }

    /** A registered connection without a player in the game. */
    ghost predicate Orphan(g: Uuid)
      reads this`connections, this`mainGame, mainGame`playerMap
    {
      g in connections && g !in mainGame.playerMap
    }

    /** main: an empty connection map and a new game. */
    constructor ()
      ensures Valid() && fresh(mainGame)
      ensures connections == map[] && mainGame.playerMap == map[] && mainGame.Players == []
      ensures forall g :: !Orphan(g)
    {
      connections := map[];
      mainGame := new Game();
    }

    /** The first step of Connect: the fresh connection is registered. */
    method Accept(g: Uuid)
      requires Valid()
      modifies this`connections
      ensures Valid()
      ensures connections == old(connections)[g := CustomConn(g)]
    {
      connections := connections[g := CustomConn(g)];
    }

    /** The second step of Connect: the game gets a player for the
        connection, at the random position (x, y). */
    method Join(g: Uuid, x: real, y: real) returns (p: Player)
      requires Valid() && g !in mainGame.playerMap
      modifies mainGame`playerMap, mainGame`Players
      ensures Valid() && fresh(p)
      ensures p.State() == Spawned(g, x, y)
      ensures mainGame.playerMap == old(mainGame.playerMap)[g := p]
      ensures mainGame.Players == old(mainGame.Players) + [p]
    {
      p := mainGame.NewPlayer(g, x, y);
    }

    /** Connect up to its read loop: a fresh id is registered and then given
        a player, so it ends up in both the connections and the game. */
    method Connect(g: Uuid, x: real, y: real) returns (p: Player)
      requires Valid() && g !in connections && g !in mainGame.playerMap
      modifies this`connections, mainGame`playerMap, mainGame`Players
      ensures Valid() && fresh(p)
      ensures g in connections && g in mainGame.playerMap && mainGame.playerMap[g] == p
      ensures p.State() == Spawned(g, x, y)
      ensures connections == old(connections)[g := CustomConn(g)]
      ensures mainGame.playerMap == old(mainGame.playerMap)[g := p]
      ensures mainGame.Players == old(mainGame.Players) + [p]
      ensures forall h :: Orphan(h) <==> old(Orphan(h))
    {
      Accept(g);
      p := Join(g, x, y);
    }

    /** The deferred cleanup of Connect, run when the read loop ends: the
        connection is dropped, then the player. */
    method Disconnect(g: Uuid)
      requires Valid()
      modifies this`connections, mainGame`playerMap, mainGame`Players
      ensures Valid()
      ensures connections == old(connections) - {g}
      ensures mainGame.playerMap == old(mainGame.playerMap) - {g}
      ensures g !in old(mainGame.playerMap) ==> mainGame.Players == old(mainGame.Players)
      ensures g in old(mainGame.playerMap) ==>
        multiset(mainGame.Players) == multiset(old(mainGame.Players)) - multiset{old(mainGame.playerMap[g])}
      ensures forall h :: Orphan(h) <==> old(Orphan(h)) && h != g
    {
      connections := connections - {g};
      mainGame.DeletePlayer(g);
    }

    /** One whole Connect: register, read every frame into the player until
        the connection fails, then clean up. The player has taken every
        frame's intent, and the server is back where it was. */
    method Session(g: Uuid, x: real, y: real, frames: seq<Frame>) returns (p: Player)
      requires Valid() && g !in connections && g !in mainGame.playerMap
      modifies this`connections, mainGame`playerMap, mainGame`Players
      ensures Valid() && fresh(p)
      ensures IntentOf(p) == ReceiveAll(IntentIn(Spawned(g, x, y)), frames)
      ensures connections == old(connections) && mainGame.playerMap == old(mainGame.playerMap)
      ensures multiset(mainGame.Players) == multiset(old(mainGame.Players))
    {
      p := Connect(g, x, y);
      ReadAll(p, frames);
      Disconnect(g);
      AddRemove(old(connections), g, CustomConn(g));
      AddRemove(old(mainGame.playerMap), g, p);
    }

    /** The recipient loop of Execute, visiting the connections in the
        map's iteration order: a connection without a player ends the loop
        (stopped); a paused player is skipped; every other one has You set
        to its own player and gets the snapshot. */
    method Broadcast(order: seq<Uuid>) returns (stopped: bool, sent: seq<Delivery>)
      requires Valid() && Enumerates(order, connections)
      modifies mainGame`You
      ensures Valid()
      ensures Outcome(stopped, sent) == Broadcasts(order, old(mainGame.Scene()))
      ensures stopped <==> exists g :: Orphan(g)
    {
      ghost var W := mainGame.Scene();
      ghost var R := RosterOf(W.players);
      assert R == mainGame.StateMap();
      assert order[0..] == order;
      sent := [];
      for i := 0 to |order|
        invariant Valid() && mainGame.Scene() == W
        invariant Visit(order[i..], W, R, sent) == Broadcasts(order, W)
      {
        var c := connections[order[i]];
        var p := mainGame.GetPlayer(c.id);
        if p == null {
          stopped := true;
          VisitStops(order, W, R, []);
          assert Orphan(order[i]);
          return;
        }
        VisitStep(order, i, W, R, sent);
        if p.Status == Pause {
          continue;
        }
        mainGame.SetYou(c.id);
        var w := mainGame.Snapshot();
        mainGame.SnapshotMarks(c.id);
        sent := sent + [Delivery(c.id, w)];
      }
      stopped := false;
      VisitStops(order, W, R, []);
    }

    /** One iteration of Execute's loop: the tick, then the recipient loop
        unless the tick panicked. */
    method Round(ids: seq<Uuid>, order: seq<Uuid>) returns (ending: Ending, sent: seq<Delivery>, ghost scene: World)
      requires Valid() && |ids| == |mainGame.Players| && Enumerates(order, connections)
      modifies mainGame`Bullets, mainGame`You, mainGame.Players`X, mainGame.Players`Y, mainGame.Players`Rotation
      modifies mainGame.Players`ReloadTime, mainGame.playerMap.Values`Life, mainGame.playerMap.Values`Score
      ensures Valid() && mainGame.playerMap == old(mainGame.playerMap) && mainGame.Players == old(mainGame.Players)
      ensures (ending == Panicked) <==>
        OrphanHit(TurnRoster(old(mainGame.StateMap())), Advanced(old(mainGame.Bullets) + Volley(old(mainGame.States()), ids)))
      ensures ending != Panicked ==>
        RosterOf(scene.players) == HitRoster(TurnRoster(old(mainGame.StateMap())), Advanced(old(mainGame.Bullets) + Volley(old(mainGame.States()), ids)))
      ensures ending != Panicked ==> Outcome(ending == Returned, sent) == Broadcasts(order, scene)
      ensures ending != Panicked ==> scene == Ticked(old(mainGame.Scene()), ids)
      ensures ending == Returned ==> exists g :: Orphan(g)
      ensures ending == Running ==> forall g :: !Orphan(g)
    {
      var crashed := mainGame.Tick(ids);
      scene := mainGame.Scene();
      if crashed {
        return Panicked, [], scene;
      }
      assert RosterOf(scene.players) == mainGame.StateMap();
      var stopped;
      stopped, sent := Broadcast(order);
      ending := if stopped then Returned else Running;
    }

    /** Execute, for a bounded number of ticks: each tick advances the game
        and then broadcasts. A panic in the hit scan ends everything; a
        connection without a player ends the loop. mint gives the bullet ids
        of each tick, orders the connection map's iteration order. */
    method Execute(ticks: nat, mint: (nat, nat) -> Uuid, orders: seq<seq<Uuid>>) returns (ending: Ending, log: seq<seq<Delivery>>, ghost scenes: seq<World>)
      requires Valid() && |orders| == ticks && forall t :: 0 <= t < ticks ==> Enumerates(orders[t], connections)
      modifies mainGame`Bullets, mainGame`You, mainGame.Players`X, mainGame.Players`Y, mainGame.Players`Rotation
      modifies mainGame.Players`ReloadTime, mainGame.playerMap.Values`Life, mainGame.playerMap.Values`Score
      ensures Valid() && mainGame.playerMap == old(mainGame.playerMap)
      ensures ending == Running ==> |log| == ticks
      ensures ending == Returned ==> exists g :: Orphan(g)
      ensures ticks > 0 && (exists g :: Orphan(g)) ==> ending != Running
      ensures LogAgrees(log, scenes, orders)
    {
      ending := Running;
      log := [];
      scenes := [];
      var t := 0;
      while t < ticks && ending == Running
        invariant Valid() && t <= ticks && |log| <= t
        invariant mainGame.playerMap == old(mainGame.playerMap) && mainGame.Players == old(mainGame.Players)
        invariant ending == Running ==> |log| == t && (t > 0 ==> forall g :: !Orphan(g))
        invariant ending == Returned ==> exists g :: Orphan(g)
        invariant LogAgrees(log, scenes, orders)
      {
        var ids := seq(|mainGame.Players|, j requires 0 <= j => mint(t, j));
        var sent;
        ghost var scene;
        ending, sent, scene := Round(ids, orders[t]);
        if ending != Panicked {
          Logged(log, scenes, orders, sent, scene);
          log := log + [sent];
          scenes := scenes + [scene];
        }
        t := t + 1;
      }
    }
  }
}
