/** The per-tick snapshot of a player that the game broadcasts: a fixed
    13-entry tuple, one entry of which is the kill-leader flag computed from
    the whole registry. */
module Snapshot {
  import opened Options
  import opened Geometry
  import opened Players
  import opened World

  /** The highest kill count in the registry, starting from 0: the scan in
      `getUpdateData` that raises `leadKills` whenever a player has strictly
      more. */
  function LeadKills(players: seq<Player>): (lead: int)
    ensures 0 <= lead
    ensures forall i :: 0 <= i < |players| ==> players[i].kills <= lead
    ensures lead == 0 || exists i :: 0 <= i < |players| && players[i].kills == lead
  {
    if |players| == 0 then 0
    else
      var init, last := players[..|players| - 1], players[|players| - 1];
      var lead := LeadKills(init);
      assert forall i :: 0 <= i < |init| ==> init[i] == players[i];
      if last.kills > lead then last.kills else lead
  }

  /** The leader flag: 1 for a player whose kills equal the registry's lead
      and are positive, 0 otherwise. */
  function LeaderFlag(self: Player, players: seq<Player>): (flag: int)
    ensures flag == 0 || flag == 1
    ensures flag == 1 ==> self.kills > 0 && forall i :: 0 <= i < |players| ==> players[i].kills <= self.kills
    ensures self.kills <= 0 ==> flag == 0
  {
    if self.kills == LeadKills(players) && self.kills > 0 then 1 else 0
  }

  /** One entry of the snapshot tuple. */
  datatype SnapField =
    | Int(i: int)
    | Num(x: real)
    | Text(s: string)
    | Null
    | VariantTag(v: WeaponVariant)

  /** The snapshot as a client reads it back. */
  datatype SnapshotView = SnapshotView(
    id: int,
    location: Vec2,
    angle: real,
    buildItem: int,
    selectedWeapon: int,
    weaponVariant: WeaponVariant,
    clanName: Option<string>,
    isClanLeader: bool,
    hatID: int,
    accID: int,
    isKillLeader: bool)

  /** What a snapshot of `self` is meant to convey. */
  function ViewOf(self: Player, players: seq<Player>): SnapshotView
  {
    SnapshotView(
      self.id, self.location, self.angle, self.buildItem, self.selectedWeapon,
      self.weaponVariant, self.clanName, self.isClanLeader, self.hatID, self.accID,
      LeaderFlag(self, players) == 1)
  }

  /** Reading a snapshot tuple: 13 entries of the expected kinds, both flags
      0 or 1, the trailing entry 0. Anything else is not a snapshot. */
  function ReadSnapshot(fields: seq<SnapField>): Option<SnapshotView>
  {
    if |fields| != 13 then None
    else if !(fields[0].Int? && fields[1].Num? && fields[2].Num? && fields[3].Num?
              && fields[4].Int? && fields[5].Int? && fields[6].VariantTag?
              && (fields[7].Text? || fields[7].Null?)
              && fields[8].Int? && fields[9].Int? && fields[10].Int? && fields[11].Int?)
    then None
    else if !(fields[8].i in {0, 1} && fields[11].i in {0, 1} && fields[12] == Int(0)) then None
    else
      Some(SnapshotView(
        fields[0].i, Vec2(fields[1].x, fields[2].x), fields[3].x,
        fields[4].i, fields[5].i, fields[6].v,
        if fields[7].Text? then Some(fields[7].s) else None,
        fields[8].i == 1, fields[9].i, fields[10].i, fields[11].i == 1))
  }

  /** `getUpdateData`: id, x, y, angle, build item, selected weapon, weapon
      variant, clan name, clan-leader bit, hat, accessory, kill-leader bit,
      and a reserved 0. */
  function GetUpdateData(self: Player, state: GameState): (r: seq<SnapField>)
    ensures |r| == 13
    ensures r[11] == Int(LeaderFlag(self, state.players))
    ensures r[12] == Int(0)
  {
    [ Int(self.id),
      Num(self.location.x),
      Num(self.location.y),
      Num(self.angle),
      Int(self.buildItem),
      Int(self.selectedWeapon),
      VariantTag(self.weaponVariant),
      match self.clanName case Some(n) => Text(n) case None => Null,
      Int(if self.isClanLeader then 1 else 0),
      Int(self.hatID),
      Int(self.accID),
      Int(LeaderFlag(self, state.players)),
      Int(0) ]
  }

  /** The snapshot carries exactly the intended view: reading it back gives
      the player's replicated fields and kill-leader status. */
  lemma SnapshotRoundTrip(self: Player, state: GameState)
    ensures ReadSnapshot(GetUpdateData(self, state)) == Some(ViewOf(self, state.players))
  {
  }

  /** The leader flag is a 0/1 bit, set exactly when the player's kills are
      positive, no registered player has more, and some registered player
      has as many. */
  lemma LeaderFlagMeaning(self: Player, players: seq<Player>)
    ensures LeaderFlag(self, players) == 0 || LeaderFlag(self, players) == 1
    ensures LeaderFlag(self, players) == 1 <==>
      && self.kills > 0
      && (forall i :: 0 <= i < |players| ==> players[i].kills <= self.kills)
      && (exists i :: 0 <= i < |players| && players[i].kills == self.kills)
  {
    var lead := LeadKills(players);
    if self.kills > 0 && (forall i :: 0 <= i < |players| ==> players[i].kills <= self.kills)
       && (exists i :: 0 <= i < |players| && players[i].kills == self.kills) {
      var j :| 0 <= j < |players| && players[j].kills == self.kills;
      assert self.kills <= lead;
      if lead != 0 {
        var k :| 0 <= k < |players| && players[k].kills == lead;
        assert lead <= self.kills;
      }
    }
  }

  /** For a registered player: the flag is set exactly when its kills are
      positive and nobody has more. Ties at the top all get the flag. */
  lemma RegisteredLeaderFlag(state: GameState, k: nat)
    requires k < |state.players|
    ensures LeaderFlag(state.players[k], state.players) == 1 <==>
      state.players[k].kills > 0
      && forall i :: 0 <= i < |state.players| ==> state.players[i].kills <= state.players[k].kills
  {
    LeaderFlagMeaning(state.players[k], state.players);
  }

  /** All flagged players have the same kill count. */
  lemma LeadersTie(a: Player, b: Player, players: seq<Player>)
    requires LeaderFlag(a, players) == 1 && LeaderFlag(b, players) == 1
    ensures a.kills == b.kills
  {
  }

  /** Kills 5, 5 and 3: both players on 5 are flagged, the one on 3 is not. */
  lemma TieScenario(a: Player, b: Player, c: Player)
    requires a.kills == 5 && b.kills == 5 && c.kills == 3
    ensures LeaderFlag(a, [a, b, c]) == 1
    ensures LeaderFlag(b, [a, b, c]) == 1
    ensures LeaderFlag(c, [a, b, c]) == 0
  {
    var players := [a, b, c];
    var lead := LeadKills(players);
    assert players[0].kills <= lead;
    assert lead != 0;
    var k :| 0 <= k < 3 && players[k].kills == lead;
    assert lead == 5;
  }

  /** Nobody with a kill: nobody in the registry is flagged. */
  lemma NoKillsNoLeader(state: GameState)
    requires forall i :: 0 <= i < |state.players| ==> state.players[i].kills == 0
    ensures forall i :: 0 <= i < |state.players| ==> LeaderFlag(state.players[i], state.players) == 0
  {
  }
}
