/** Outbound replication events. Every `socket.send` of a serialized packet
    in the player code becomes one `Send` appended to an event log, so that
    who is told what, and how often, is part of each operation's result.
    Serialization and the transport itself are not modelled: a `Send` to a
    connection that has since closed is dropped by the transport, which the
    log does not see. */
module Events {
  import opened Options

  /** A live client connection, by identity. */
  type ClientId = nat

  /** The four private resource counters. */
  datatype Stat = Food | Stone | Points | Wood

  /** The stat name carried on the wire in an `UPDATE_STATS` packet. */
  function StatName(s: Stat): string
  {
    match s
    case Food => "food"
    case Stone => "stone"
    case Points => "points"
    case Wood => "wood"
  }

  /** The packet types the player code sends, with their payloads:
      `UPDATE_STATS [name, value, 1]`, `HEALTH_UPDATE [id, value]`, `DEATH []`. */
  datatype Message =
    | UpdateStats(stat: string, value: int, format: int)
    | HealthUpdate(subject: int, value: int)
    | Death

  datatype Event = Send(to: ClientId, msg: Message)

  /** The defined entries of the game's client list, in list order; the list
      may hold `undefined` slots, which `client?.socket.send` skips. */
  function Connected(clients: seq<Option<ClientId>>): (r: seq<ClientId>)
    ensures |r| <= |clients|
    ensures forall c :: c in r <==> Some(c) in clients
  {
    if |clients| == 0 then []
    else
      var init := clients[..|clients| - 1];
      assert clients == init + [clients[|clients| - 1]];
      Connected(init) + (match clients[|clients| - 1] case Some(c) => [c] case None => [])
  }

  /** The health broadcast: one `HEALTH_UPDATE [subject, value]` to each
      defined client, walking the list front to back. */
  function HealthFanout(clients: seq<Option<ClientId>>, subject: int, value: int): (r: seq<Event>)
    ensures |r| == |Connected(clients)|
    ensures forall i :: 0 <= i < |r| ==> r[i] == Send(Connected(clients)[i], HealthUpdate(subject, value))
  {
    if |clients| == 0 then []
    else
      var init := clients[..|clients| - 1];
      HealthFanout(init, subject, value)
        + (match clients[|clients| - 1] case Some(c) => [Send(c, HealthUpdate(subject, value))] case None => [])
  }
}
