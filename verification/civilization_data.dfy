/** The registry the settlement commands call into: the `civilization.data`
    SettlementManager and PlayerDataManager. Their source is not part of this
    model, so each operation below carries minimal ASSUMED semantics, chosen
    to match only what the command file relies on:
      - addCitizen inserts the player into the settlement's citizen set;
      - removeCitizen deletes the player from it;
      - addInvites appends the settlement to the player's pending invites;
      - getInvites yields the player's pending list, or null without a key;
      - getInvite yields the settlement when it is among the pending invites;
      - clearInvites removes the player's key;
      - getRole is LEADER for the leader, CITIZEN for other citizens, null
        for non-citizens;
      - getSettlements()?.first() is the first settlement, in registry
        order, that has the player as citizen, or null when there is none. */
module CivilizationData {
  import opened Wrappers

  type PlayerId = int
  type SettlementId = string

  datatype JoinPolicy = Open | Invite | Closed

  datatype Role = Leader | Citizen

  datatype Settlement = Settlement(
    id: SettlementId,
    name: string,
    joinPolicy: JoinPolicy,
    leader: PlayerId,
    citizens: set<PlayerId>)

  /** Settlements in registry order, and the pending invites keyed by player. */
  datatype State = State(
    settlements: seq<Settlement>,
    invites: map<PlayerId, seq<SettlementId>>)

  /** Two settlement lists that agree on everything but citizens. */
  ghost predicate SameRoster(a: seq<Settlement>, b: seq<Settlement>)
  {
    && |a| == |b|
    && forall i :: 0 <= i < |a| ==>
         && a[i].id == b[i].id && a[i].name == b[i].name
         && a[i].joinPolicy == b[i].joinPolicy && a[i].leader == b[i].leader
  }

  /** `b` is `a` with `p` added to the citizens of the settlements named `id`. */
  ghost predicate CitizenAdded(a: seq<Settlement>, b: seq<Settlement>, p: PlayerId, id: SettlementId)
  {
    && SameRoster(a, b)
    && forall i :: 0 <= i < |a| ==>
         b[i].citizens == if a[i].id == id then a[i].citizens + {p} else a[i].citizens
  }

  /** `b` is `a` with the players `gone` removed from the settlements named `id`. */
  ghost predicate CitizensRemoved(a: seq<Settlement>, b: seq<Settlement>, gone: set<PlayerId>, id: SettlementId)
  {
    && SameRoster(a, b)
    && forall i :: 0 <= i < |a| ==>
         b[i].citizens == if a[i].id == id then a[i].citizens - gone else a[i].citizens
  }

  function AddCitizen(st: State, p: PlayerId, id: SettlementId): State
  {
    var ss := st.settlements;
    st.(settlements := seq(|ss|, i requires 0 <= i < |ss| =>
      if ss[i].id == id then ss[i].(citizens := ss[i].citizens + {p}) else ss[i]))
  }

  function RemoveCitizen(st: State, p: PlayerId, id: SettlementId): State
  {
    var ss := st.settlements;
    st.(settlements := seq(|ss|, i requires 0 <= i < |ss| =>
      if ss[i].id == id then ss[i].(citizens := ss[i].citizens - {p}) else ss[i]))
  }

  /** The pending invites of `p`, empty when `p` has no key. */
  function Pending(invites: map<PlayerId, seq<SettlementId>>, p: PlayerId): seq<SettlementId>
  {
    if p in invites then invites[p] else []
  }

  function AddInvites(invites: map<PlayerId, seq<SettlementId>>, p: PlayerId, id: SettlementId)
    : map<PlayerId, seq<SettlementId>>
  {
    invites[p := Pending(invites, p) + [id]]
  }

  function GetInvites(st: State, p: PlayerId): Option<seq<SettlementId>>
  {
    if p in st.invites then Some(st.invites[p]) else None
  }

  /** `p` holds a pending invite to the settlement named `id`. */
  predicate Invited(st: State, p: PlayerId, id: SettlementId)
  {
    p in st.invites && id in st.invites[p]
  }

  function GetInvite(st: State, p: PlayerId, s: Settlement): Option<Settlement>
  {
    if Invited(st, p, s.id) then Some(s) else None
  }

  function ClearInvites(st: State, p: PlayerId): State
  {
    st.(invites := st.invites - {p})
  }

  /** The role of `p` in the first settlement named `id`. */
  function RoleIn(ss: seq<Settlement>, p: PlayerId, id: SettlementId): (r: Option<Role>)
    ensures r.Some? <==>
      exists i :: 0 <= i < |ss| && ss[i].id == id && p in ss[i].citizens
                  && forall j :: 0 <= j < i ==> ss[j].id != id
    ensures r == Some(Leader) ==>
      exists i :: 0 <= i < |ss| && ss[i].id == id && p in ss[i].citizens && p == ss[i].leader
                  && forall j :: 0 <= j < i ==> ss[j].id != id
    ensures r == Some(Citizen) ==>
      exists i :: 0 <= i < |ss| && ss[i].id == id && p in ss[i].citizens && p != ss[i].leader
                  && forall j :: 0 <= j < i ==> ss[j].id != id
    decreases |ss|
  {
    if |ss| == 0 then None
    else if ss[0].id == id then
      if p !in ss[0].citizens then None
      else if p == ss[0].leader then Some(Leader)
      else Some(Citizen)
    else
      var r := RoleIn(ss[1..], p, id);
      assert r.Some? ==> exists i :: 0 <= i < |ss| - 1 && ss[1..][i].id == id && p in ss[1..][i].citizens
                                     && forall j :: 0 <= j < i ==> ss[1..][j].id != id;
      assert r == Some(Leader) ==> exists i :: 0 <= i < |ss| - 1 && ss[1..][i].id == id && p in ss[1..][i].citizens
                                     && p == ss[1..][i].leader && forall j :: 0 <= j < i ==> ss[1..][j].id != id;
      assert r == Some(Citizen) ==> exists i :: 0 <= i < |ss| - 1 && ss[1..][i].id == id && p in ss[1..][i].citizens
                                     && p != ss[1..][i].leader && forall j :: 0 <= j < i ==> ss[1..][j].id != id;
      r
  }

  function GetRole(st: State, p: PlayerId, id: SettlementId): Option<Role>
  {
    RoleIn(st.settlements, p, id)
  }

  /** The first settlement, in registry order, that has `p` as citizen. */
  function FirstSettlementIn(ss: seq<Settlement>, p: PlayerId): (r: Option<SettlementId>)
    ensures r.None? <==> forall i :: 0 <= i < |ss| ==> p !in ss[i].citizens
    ensures r.Some? ==>
      exists i :: 0 <= i < |ss| && ss[i].id == r.value && p in ss[i].citizens
                  && forall j :: 0 <= j < i ==> p !in ss[j].citizens
    decreases |ss|
  {
    if |ss| == 0 then None
    else if p in ss[0].citizens then Some(ss[0].id)
    else
      var r := FirstSettlementIn(ss[1..], p);
      assert r.Some? ==> exists i :: 0 <= i < |ss| - 1 && ss[1..][i].id == r.value && p in ss[1..][i].citizens
                                     && forall j :: 0 <= j < i ==> p !in ss[1..][j].citizens;
      r
  }

  function FirstSettlement(st: State, p: PlayerId): Option<SettlementId>
  {
    FirstSettlementIn(st.settlements, p)
  }

  /** Settlement ids are unique and no player is left with an empty invite list. */
  ghost predicate WellFormed(st: State)
  {
    && (forall i, j :: 0 <= i < j < |st.settlements| ==> st.settlements[i].id != st.settlements[j].id)
    && (forall p :: p in st.invites ==> |st.invites[p]| > 0)
  }
}
