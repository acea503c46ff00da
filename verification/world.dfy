/** The world registry an interest query or snapshot reads: every player and
    every world object of one game, in registry order. Membership changes
    belong to the game loop; this model only reads the registry. */
module World {
  import opened Geometry
  import opened Players

  /** A world object (tree, mine, wall, ...) as far as interest queries see
      it: an id and a position. */
  datatype GameObject = GameObject(id: int, location: Vec2)

  datatype GameState = GameState(players: seq<Player>, gameObjects: seq<GameObject>)
}
