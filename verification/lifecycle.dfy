/** A player's life as a sequence of calls from the game loop: stat writes,
    death, movement intent and the attack flag, applied in order, with the
    events of each call appended to one outbound log. This is the order the
    game sends them in, so events about one player leave in the order of the
    writes that caused them. */
module Lifecycle {
  import opened Options
  import opened Events
  import opened Players

  /** One call the game loop makes on a player. */
  datatype Op =
    | WriteResource(stat: Stat, value: int)
    | WriteHealth(value: int)
    | Kill
    | MoveTo(direction: real)
    | Stop
    | WriteAttacking(on: bool)

  function Step(p: Player, clients: seq<Option<ClientId>>, op: Op): (r: (Player, seq<Event>))
  {
    match op
    case WriteResource(s, v) => SetResource(p, s, v)
    case WriteHealth(v) => SetHealth(p, clients, v)
    case Kill => Die(p)
    case MoveTo(d) => (Move(p, d), [])
    case Stop => (StopMove(p), [])
    case WriteAttacking(v) => (SetAttacking(p, v), [])
  }

  /** Apply the calls in order; the log is the concatenation of each call's events. */
  function Run(p: Player, clients: seq<Option<ClientId>>, ops: seq<Op>): (Player, seq<Event>)
    decreases |ops|
  {
    if |ops| == 0 then (p, [])
    else
      var (q, first) := Step(p, clients, ops[0]);
      var (last, rest) := Run(q, clients, ops[1..]);
      (last, first + rest)
  }

  /** The fields no call of this component changes: identity, ownership,
      connection, position, look and clan membership. */
  predicate SameIdentity(p: Player, q: Player)
  {
    && q.handle == p.handle && q.id == p.id && q.ownerID == p.ownerID && q.client == p.client
    && q.location == p.location && q.angle == p.angle && q.velocity == p.velocity
    && q.name == p.name && q.skinColor == p.skinColor && q.hatID == p.hatID && q.accID == p.accID
    && q.clanName == p.clanName && q.isClanLeader == p.isClanLeader
    && q.secondaryWeapon == p.secondaryWeapon && q.selectedWeapon == p.selectedWeapon
  }

  /** Every event of one call: a health broadcast about this player, or a
      private message to the owner's own connection. */
  predicate OwnEvent(p: Player, e: Event)
  {
    || (e.msg.HealthUpdate? && e.msg.subject == p.id)
    || (!e.msg.HealthUpdate? && p.client == Some(e.to))
  }

  lemma StepShape(p: Player, clients: seq<Option<ClientId>>, op: Op)
    ensures SameIdentity(p, Step(p, clients, op).0)
    ensures Step(p, clients, op).0.dead == (p.dead || op.Kill?)
    ensures forall e :: e in Step(p, clients, op).1 ==> OwnEvent(p, e)
    ensures forall c: ClientId ::
              multiset(Step(p, clients, op).1)[Send(c, Death)]
              == if op.Kill? && p.client == Some(c) then 1 else 0
  {
    var r := Step(p, clients, op);
    if op.WriteHealth? {
      forall e | e in r.1 ensures OwnEvent(p, e) {
        var i :| 0 <= i < |r.1| && r.1[i] == e;
      }
      forall c: ClientId ensures multiset(r.1)[Send(c, Death)] == 0 {
        assert Send(c, Death) !in r.1;
      }
    }
  }

  /** No sequence of calls changes who the player is, where it stands, or
      which connection its private messages go to. */
  lemma {:induction false} RunKeepsIdentity(p: Player, clients: seq<Option<ClientId>>, ops: seq<Op>)
    ensures SameIdentity(p, Run(p, clients, ops).0)
    decreases |ops|
  {
    if |ops| > 0 {
      StepShape(p, clients, ops[0]);
      RunKeepsIdentity(Step(p, clients, ops[0]).0, clients, ops[1..]);
    }
  }

  /** Death is final within this component: the player ends dead exactly when
      it started dead or one of the calls was `die()`. */
  lemma {:induction false} DeadIsFinal(p: Player, clients: seq<Option<ClientId>>, ops: seq<Op>)
    ensures Run(p, clients, ops).0.dead <==> p.dead || Kill in ops
    decreases |ops|
  {
    if |ops| > 0 {
      StepShape(p, clients, ops[0]);
      DeadIsFinal(Step(p, clients, ops[0]).0, clients, ops[1..]);
      assert ops == [ops[0]] + ops[1..];
    }
  }

  /** Visibility over a whole run: health updates are about this player,
      and every other event goes to the owner's connection; with no
      connection, only health updates are sent. */
  lemma {:induction false} RunEventsVisibility(p: Player, clients: seq<Option<ClientId>>, ops: seq<Op>)
    ensures forall e :: e in Run(p, clients, ops).1 ==> OwnEvent(p, e)
    decreases |ops|
  {
    if |ops| > 0 {
      var q := Step(p, clients, ops[0]).0;
      StepShape(p, clients, ops[0]);
      RunEventsVisibility(q, clients, ops[1..]);
      assert p.id == q.id && p.client == q.client;
    }
  }

  /** Each `die()` call sends one death notice to the owner, repeated
      deaths included; no one else ever receives one. */
  lemma {:induction false} DeathNoticePerCall(p: Player, clients: seq<Option<ClientId>>, ops: seq<Op>)
    ensures forall c: ClientId ::
              multiset(Run(p, clients, ops).1)[Send(c, Death)]
              == if p.client == Some(c) then multiset(ops)[Kill] else 0
    decreases |ops|
  {
    if |ops| > 0 {
      var q := Step(p, clients, ops[0]).0;
      StepShape(p, clients, ops[0]);
      DeathNoticePerCall(q, clients, ops[1..]);
      assert ops == [ops[0]] + ops[1..];
      assert multiset(ops) == multiset{ops[0]} + multiset(ops[1..]);
    }
  }
}
