/** Interest management: which players and world objects a player is told
    about. Both queries are front-to-back scans of the registry with a strict
    radius test around the querying player; the player query also skips the
    querying player itself and every dead player. The radius is a parameter
    (the game reads it from configuration, `DefaultRadius` otherwise). */
module Interest {
  import opened Geometry
  import opened Players
  import opened World
  import opened Seqs

  /** `self` is told about the player `q`. */
  predicate SeesPlayer(self: Player, q: Player, radius: real)
  {
    q.handle != self.handle && !q.dead && WithinRadius(self.location, q.location, radius)
  }

  /** `self` is told about the world object `o`. */
  predicate SeesObject(self: Player, o: GameObject, radius: real)
  {
    WithinRadius(self.location, o.location, radius)
  }

  /** The reference answer of `getNearbyPlayers`: the registry's players that
      `self` sees, in registry order, each as often as it is registered. */
  function NearbyPlayers(state: GameState, self: Player, radius: real): (r: seq<Player>)
    ensures IsSubseq(r, state.players)
    ensures forall q :: q in r <==> q in state.players && SeesPlayer(self, q, radius)
    ensures forall q :: multiset(r)[q] == if SeesPlayer(self, q, radius) then multiset(state.players)[q] else 0
    ensures forall q :: q in r ==> q.handle != self.handle && !q.dead
  {
    FilterSpec(q => SeesPlayer(self, q, radius), state.players);
    Filter(q => SeesPlayer(self, q, radius), state.players)
  }

  /** The reference answer of `getNearbyGameObjects`: the registry's objects
      within the radius, in registry order, with no other filter. */
  function NearbyGameObjects(state: GameState, self: Player, radius: real): (r: seq<GameObject>)
    ensures IsSubseq(r, state.gameObjects)
    ensures forall o :: o in r <==> o in state.gameObjects && SeesObject(self, o, radius)
    ensures forall o :: multiset(r)[o] == if SeesObject(self, o, radius) then multiset(state.gameObjects)[o] else 0
  {
    FilterSpec(o => SeesObject(self, o, radius), state.gameObjects);
    Filter(o => SeesObject(self, o, radius), state.gameObjects)
  }

  /** `getNearbyPlayers`: the linear scan of the registry. */
  method GetNearbyPlayers(state: GameState, self: Player, radius: real) returns (players: seq<Player>)
    ensures players == NearbyPlayers(state, self, radius)
  {
    var f := q => SeesPlayer(self, q, radius);
    players := [];
    var i := 0;
    while i < |state.players|
      invariant 0 <= i <= |state.players|
      invariant players == Filter(f, state.players[..i])
    {
      var player := state.players[i];
      assert state.players[..i + 1] == state.players[..i] + [player];
      FilterSnoc(f, state.players[..i], player);
      assert f(player) == SeesPlayer(self, player, radius);
      if player.handle != self.handle && !player.dead {
        if WithinRadius(self.location, player.location, radius) {
          players := players + [player];
        }
      }
      i := i + 1;
    }
    assert state.players[..i] == state.players;
  }

  /** `getNearbyGameObjects`: the linear scan of the registry. */
  method GetNearbyGameObjects(state: GameState, self: Player, radius: real) returns (gameObjects: seq<GameObject>)
    ensures gameObjects == NearbyGameObjects(state, self, radius)
  {
    var f := o => SeesObject(self, o, radius);
    gameObjects := [];
    var i := 0;
    while i < |state.gameObjects|
      invariant 0 <= i <= |state.gameObjects|
      invariant gameObjects == Filter(f, state.gameObjects[..i])
    {
      var gameObject := state.gameObjects[i];
      assert state.gameObjects[..i + 1] == state.gameObjects[..i] + [gameObject];
      FilterSnoc(f, state.gameObjects[..i], gameObject);
      assert f(gameObject) == SeesObject(self, gameObject, radius);
      if WithinRadius(self.location, gameObject.location, radius) {
        gameObjects := gameObjects + [gameObject];
      }
      i := i + 1;
    }
    assert state.gameObjects[..i] == state.gameObjects;
  }

  /** The squared test is the game's distance test: with `d` the Euclidean
      distance between the two players, `self` sees `q` exactly when `q` is
      another, living player and `d < radius`. */
  lemma SeesPlayerByDistance(self: Player, q: Player, radius: real, d: real)
    requires 0.0 <= d && d * d == SqDist(self.location, q.location)
    ensures SeesPlayer(self, q, radius) <==> q.handle != self.handle && !q.dead && d < radius
  {
    DistanceTest(self.location, q.location, d, radius);
  }

  /** A player standing exactly on the radius is not reported. */
  lemma BoundaryPlayerExcluded(state: GameState, self: Player, q: Player, radius: real)
    requires SqDist(self.location, q.location) == radius * radius
    ensures q !in NearbyPlayers(state, self, radius)
  {
    BoundaryExcluded(self.location, q.location, radius);
  }

  /** Interest between living players is mutual: if `self` is told about `q`,
      and `self` is itself registered and alive, then `q` is told about `self`. */
  lemma NearbyPlayersMutual(state: GameState, self: Player, q: Player, radius: real)
    requires q in NearbyPlayers(state, self, radius)
    requires self in state.players && !self.dead
    ensures self in NearbyPlayers(state, q, radius)
  {
    WithinRadiusSymmetric(self.location, q.location, radius);
  }

  /** A larger radius reports everything a smaller one does, in the same order. */
  lemma NearbyPlayersMonotone(state: GameState, self: Player, r1: real, r2: real)
    requires r1 <= r2
    ensures IsSubseq(NearbyPlayers(state, self, r1), NearbyPlayers(state, self, r2))
  {
    forall q | SeesPlayer(self, q, r1)
      ensures SeesPlayer(self, q, r2)
    {
      WithinRadiusMonotone(self.location, q.location, r1, r2);
    }
    FilterMonotone(q => SeesPlayer(self, q, r1), q => SeesPlayer(self, q, r2), state.players);
  }

  /** The object query looks at the querying player's position only: its
      identity, liveness and every other field play no part. */
  lemma NearbyGameObjectsOnlyLocation(state: GameState, a: Player, b: Player, radius: real)
    requires a.location == b.location
    ensures NearbyGameObjects(state, a, radius) == NearbyGameObjects(state, b, radius)
  {
    FilterExtensional(o => SeesObject(a, o, radius), o => SeesObject(b, o, radius), state.gameObjects);
  }
}
