/** The decision logic of the settlement commands: which registry calls each
    command makes, in which branch, and the code it returns to the command
    dispatcher (1 for success, 0 for every refusal). Messages are not
    modelled; the host's player lookup and chunk claiming are parameters. */
module SettlementCommand {
  import opened Wrappers
  import opened CivilizationData

  /** What a command hands back to the dispatcher: its return code, or an
      exception escaping it (`first()` on an empty collection). */
  datatype Exit = Code(n: int) | Thrown

  datatype Reply = Reply(exit: Exit, state: State)

  /** A reply that also carries the player count the command reports. */
  datatype CountedReply = CountedReply(exit: Exit, count: nat, state: State)

  /** `claim` changes nothing in this state; it reports which settlement it
      handed to the chunk claim, if any. */
  datatype ClaimReply = ClaimReply(exit: Exit, target: Option<SettlementId>)

  /** `join`: CLOSED refuses, INVITE needs a pending invite to the settlement,
      OPEN always admits. The command ends through `endMsg` or `endError` on
      every path, so it returns 0 even when the player joined. */
  function Join(st: State, caller: Option<PlayerId>, s: Settlement): (r: Reply)
    ensures r.exit == Code(0)
    ensures caller.None? || s.joinPolicy == Closed ==> r.state == st
    ensures caller.Some? && s.joinPolicy == Invite && !Invited(st, caller.value, s.id) ==> r.state == st
    ensures caller.Some? && (s.joinPolicy == Open || (s.joinPolicy == Invite && Invited(st, caller.value, s.id))) ==>
      && CitizenAdded(st.settlements, r.state.settlements, caller.value, s.id)
      && r.state.invites == st.invites - {caller.value}
  {
    match caller
    case None => Reply(Code(0), st)
    case Some(p) =>
      match s.joinPolicy
      case Invite =>
        (match GetInvite(st, p, s)
         case None => Reply(Code(0), st)
         case Some(setl) => Reply(Code(0), ClearInvites(AddCitizen(st, p, setl.id), p)))
      case Open => Reply(Code(0), ClearInvites(AddCitizen(st, p, s.id), p))
      case Closed => Reply(Code(0), st)
  }

  /** The settlement `leave` acts on: the named one, else the player's first. */
  function LeaveTarget(st: State, p: PlayerId, named: Option<Settlement>): Option<SettlementId>
  {
    if named.Some? then Some(named.value.id) else FirstSettlement(st, p)
  }

  /** `leave`: refused when there is no settlement to leave, when the player
      has no role in it, and when the player leads it. */
  function Leave(st: State, caller: Option<PlayerId>, named: Option<Settlement>): (r: Reply)
    ensures r.exit == Code(0) || r.exit == Code(1)
    ensures r.exit == Code(0) ==> r.state == st
    ensures caller.None? ==> r == Reply(Code(0), st)
    ensures caller.Some? && named.None? && FirstSettlement(st, caller.value).None? ==> r.exit == Code(0)
    ensures caller.Some? && LeaveTarget(st, caller.value, named).Some? ==>
      var id := LeaveTarget(st, caller.value, named).value;
      && (GetRole(st, caller.value, id) != Some(Citizen) ==> r.exit == Code(0))
      && (GetRole(st, caller.value, id) == Some(Citizen) ==>
            && r.exit == Code(1)
            && CitizensRemoved(st.settlements, r.state.settlements, {caller.value}, id)
            && r.state.invites == st.invites)
  {
    match caller
    case None => Reply(Code(0), st)
    case Some(p) =>
      match LeaveTarget(st, p, named)
      case None => Reply(Code(0), st)
      case Some(id) =>
        match GetRole(st, p, id)
        case None => Reply(Code(0), st)
        case Some(role) =>
          if role == Leader then Reply(Code(0), st)
          else
            assert role == Citizen;
            Reply(Code(1), RemoveCitizen(st, p, id))
  }

  /** `invite accept`: join the first invited settlement, whatever its join
      policy, and drop every pending invite. A key holding an empty list would
      make `first()` throw. */
  function AcceptInvite(st: State, caller: Option<PlayerId>): (r: Reply)
    ensures caller.None? || caller.value !in st.invites ==> r == Reply(Code(0), st)
    ensures caller.Some? && caller.value in st.invites && st.invites[caller.value] == [] ==>
      r == Reply(Thrown, st)
    ensures caller.Some? && caller.value in st.invites && st.invites[caller.value] != [] ==>
      && r.exit == Code(1)
      && CitizenAdded(st.settlements, r.state.settlements, caller.value, st.invites[caller.value][0])
      && r.state.invites == st.invites - {caller.value}
  {
    match caller
    case None => Reply(Code(0), st)
    case Some(p) =>
      match GetInvites(st, p)
      case None => Reply(Code(0), st)
      case Some(invites) =>
        if |invites| == 0 then Reply(Thrown, st)
        else Reply(Code(1), ClearInvites(AddCitizen(st, p, invites[0]), p))
  }

  /** `n` copies of `id`. */
  function Repeat(id: SettlementId, n: nat): (r: seq<SettlementId>)
    ensures |r| == n
    ensures n > 0 ==> r[0] == id
  {
    if n == 0 then [] else [id] + Repeat(id, n - 1)
  }

  /** Occurrences in a non-empty list split into the head and the tail. */
  lemma OccurrencesSplit(xs: seq<PlayerId>, q: PlayerId)
    requires |xs| > 0
    ensures multiset(xs)[q] == (if xs[0] == q then 1 else 0) + multiset(xs[1..])[q]
  {
    assert xs == [xs[0]] + xs[1..];
  }

  /** The loop of `invite`: every profile other than the inviter gets the
      settlement appended to its pending invites and is counted. */
  function InviteEach(invites: map<PlayerId, seq<SettlementId>>, profiles: seq<PlayerId>,
                      inviter: PlayerId, id: SettlementId): (r: (map<PlayerId, seq<SettlementId>>, nat))
    ensures r.1 == |profiles| - multiset(profiles)[inviter]
    decreases |profiles|
  {
    if |profiles| == 0 then (invites, 0)
    else
      OccurrencesSplit(profiles, inviter);
      if profiles[0] == inviter then InviteEach(invites, profiles[1..], inviter, id)
      else
      var rest := InviteEach(AddInvites(invites, profiles[0], id), profiles[1..], inviter, id);
      (rest.0, rest.1 + 1)
  }

  /** The invite loop gives a key exactly to the players that had one and to
      the profiles other than the inviter. */
  lemma {:induction false} InviteEachKeys(invites: map<PlayerId, seq<SettlementId>>, profiles: seq<PlayerId>,
                                          inviter: PlayerId, id: SettlementId)
    ensures forall q :: q in InviteEach(invites, profiles, inviter, id).0
                        <==> q in invites || (q in profiles && q != inviter)
    decreases |profiles|
  {
    if |profiles| > 0 {
      assert profiles == [profiles[0]] + profiles[1..];
      if profiles[0] == inviter {
        InviteEachKeys(invites, profiles[1..], inviter, id);
      } else {
        InviteEachKeys(AddInvites(invites, profiles[0], id), profiles[1..], inviter, id);
      }
    }
  }

  /** The invite loop leaves the inviter's pending invites alone. */
  lemma {:induction false} InviteEachSkipsInviter(invites: map<PlayerId, seq<SettlementId>>, profiles: seq<PlayerId>,
                                                  inviter: PlayerId, id: SettlementId)
    ensures Pending(InviteEach(invites, profiles, inviter, id).0, inviter) == Pending(invites, inviter)
    decreases |profiles|
  {
    if |profiles| > 0 {
      if profiles[0] == inviter {
        InviteEachSkipsInviter(invites, profiles[1..], inviter, id);
      } else {
        InviteEachSkipsInviter(AddInvites(invites, profiles[0], id), profiles[1..], inviter, id);
      }
    }
  }

  /** The invite loop appends one invite to the pending list of a player other
      than the inviter per occurrence of that player among the profiles. */
  lemma {:induction false} InviteEachAppends(invites: map<PlayerId, seq<SettlementId>>, profiles: seq<PlayerId>,
                                             inviter: PlayerId, id: SettlementId, q: PlayerId)
    requires q != inviter
    ensures Pending(InviteEach(invites, profiles, inviter, id).0, q)
            == Pending(invites, q) + Repeat(id, multiset(profiles)[q])
    decreases |profiles|
  {
    if |profiles| > 0 {
      var q0 := profiles[0];
      var tail := profiles[1..];
      var n := multiset(tail)[q];
      OccurrencesSplit(profiles, q);
      if q0 == inviter {
        InviteEachAppends(invites, tail, inviter, id, q);
      } else {
        var invites' := AddInvites(invites, q0, id);
        InviteEachAppends(invites', tail, inviter, id, q);
        if q == q0 {
          assert Pending(invites', q) == Pending(invites, q) + [id];
          assert Repeat(id, n + 1) == [id] + Repeat(id, n);
          assert Pending(invites, q) + [id] + Repeat(id, n) == Pending(invites, q) + ([id] + Repeat(id, n));
        } else {
          assert Pending(invites', q) == Pending(invites, q);
        }
      }
    }
  }

  /** `invite`: invites go out from the inviter's first settlement. */
  function InvitePlayers(st: State, caller: Option<PlayerId>, profiles: seq<PlayerId>): (r: CountedReply)
    ensures r.state.settlements == st.settlements
    ensures caller.None? || FirstSettlement(st, caller.value).None? ==> r == CountedReply(Code(0), 0, st)
    ensures caller.Some? ==>
      && Pending(r.state.invites, caller.value) == Pending(st.invites, caller.value)
      && (caller.value in r.state.invites <==> caller.value in st.invites)
    ensures caller.Some? && FirstSettlement(st, caller.value).Some? ==>
      && (r.exit == Thrown <==> profiles == [])
      && (r.exit != Thrown ==> r.exit == Code(1))
      && r.count == |profiles| - multiset(profiles)[caller.value]
      && (forall q :: q in r.state.invites <==> q in st.invites || (q in profiles && q != caller.value))
      && (forall q :: q != caller.value ==>
            Pending(r.state.invites, q)
            == Pending(st.invites, q) + Repeat(FirstSettlement(st, caller.value).value, multiset(profiles)[q]))
  {
    match caller
    case None => CountedReply(Code(0), 0, st)
    case Some(p) =>
      match FirstSettlement(st, p)
      case None => CountedReply(Code(0), 0, st)
      case Some(id) =>
        InviteEachKeys(st.invites, profiles, p, id);
        InviteEachSkipsInviter(st.invites, profiles, p, id);
        var (invites, count) := InviteEach(st.invites, profiles, p, id);
        assert forall q :: q != p ==>
                 Pending(invites, q) == Pending(st.invites, q) + Repeat(id, multiset(profiles)[q]) by {
          forall q | q != p
            ensures Pending(invites, q) == Pending(st.invites, q) + Repeat(id, multiset(profiles)[q])
          {
            InviteEachAppends(st.invites, profiles, p, id, q);
          }
        }
        CountedReply(if |profiles| == 0 then Thrown else Code(1), count, st.(invites := invites))
  }

  /** The profiles that resolve to an online player, in order. */
  function OnlineProfiles(profiles: seq<PlayerId>, online: set<PlayerId>): (r: seq<PlayerId>)
    ensures forall q :: q in r <==> q in profiles && q in online
    ensures |r| <= |profiles|
  {
    if |profiles| == 0 then []
    else if profiles[0] in online then [profiles[0]] + OnlineProfiles(profiles[1..], online)
    else OnlineProfiles(profiles[1..], online)
  }

  /** The loop of `kick`: each profile that resolves to an online player is
      removed from the settlement and counted; offline profiles are skipped. */
  function KickEach(st: State, profiles: seq<PlayerId>, online: set<PlayerId>, id: SettlementId)
    : (r: (State, nat))
    ensures CitizensRemoved(st.settlements, r.0.settlements, (set q | q in profiles && q in online), id)
    ensures r.0.invites == st.invites
    ensures r.1 == |OnlineProfiles(profiles, online)|
    decreases |profiles|
  {
    if |profiles| == 0 then (st, 0)
    else
      var q0 := profiles[0];
      var tail := profiles[1..];
      assert profiles == [q0] + tail;
      if q0 in online then
        var rest := KickEach(RemoveCitizen(st, q0, id), tail, online, id);
        assert (set q | q in profiles && q in online) == {q0} + (set q | q in tail && q in online);
        (rest.0, rest.1 + 1)
      else
        assert (set q | q in profiles && q in online) == (set q | q in tail && q in online);
        KickEach(st, tail, online, id)
  }

  /** `kick`: removes the online profiles from the kicker's first settlement.
      No role is checked: any citizen may kick, and may kick the leader. */
  function Kick(st: State, caller: Option<PlayerId>, profiles: seq<PlayerId>, online: set<PlayerId>)
    : (r: CountedReply)
    ensures r.state.invites == st.invites
    ensures caller.None? || FirstSettlement(st, caller.value).None? ==> r == CountedReply(Code(0), 0, st)
    ensures caller.Some? && FirstSettlement(st, caller.value).Some? ==>
      && (r.exit == Thrown <==> profiles == [])
      && (r.exit != Thrown ==> r.exit == Code(1))
      && r.count == |OnlineProfiles(profiles, online)|
      && CitizensRemoved(st.settlements, r.state.settlements,
                         (set q | q in profiles && q in online), FirstSettlement(st, caller.value).value)
  {
    match caller
    case None => CountedReply(Code(0), 0, st)
    case Some(p) =>
      match FirstSettlement(st, p)
      case None => CountedReply(Code(0), 0, st)
      case Some(id) =>
        var (st', count) := KickEach(st, profiles, online, id);
        CountedReply(if |profiles| == 0 then Thrown else Code(1), count, st')
  }

  /** `claim`: the named settlement, else the player's first, is handed to the
      registry's chunk claim, whose outcome `addChunk` supplies; the command
      returns 1 when that claim succeeds and 0 when it fails. No role is checked. */
  function Claim(st: State, caller: Option<PlayerId>, named: Option<Settlement>,
                 addChunk: SettlementId -> bool): (r: ClaimReply)
    ensures r.exit.Code?
    ensures caller.None? ==> r == ClaimReply(Code(0), None)
    ensures caller.Some? && named.Some? ==> r.target == Some(named.value.id)
    ensures caller.Some? && named.None? ==>
      (r.target.None? <==> forall i :: 0 <= i < |st.settlements| ==> caller.value !in st.settlements[i].citizens)
    ensures caller.Some? && named.None? && r.target.Some? ==>
      exists i :: 0 <= i < |st.settlements| && st.settlements[i].id == r.target.value
                  && caller.value in st.settlements[i].citizens
                  && forall j :: 0 <= j < i ==> caller.value !in st.settlements[j].citizens
    ensures r.target.None? ==> r.exit == Code(0)
    ensures r.target.Some? ==> r.exit == (if addChunk(r.target.value) then Code(1) else Code(0))
  {
    match caller
    case None => ClaimReply(Code(0), None)
    case Some(p) =>
      match (if named.Some? then Some(named.value.id) else FirstSettlement(st, p))
      case None => ClaimReply(Code(0), None)
      case Some(id) => ClaimReply(if addChunk(id) then Code(1) else Code(0), Some(id))
  }
}
