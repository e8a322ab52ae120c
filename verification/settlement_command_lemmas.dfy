/** Properties of the settlement commands that relate several commands, or a
    command and the well-formedness of the registry it runs against. */
module SettlementCommandLemmas {
  import opened Wrappers
  import opened CivilizationData
  import opened SettlementCommand

  /** With unique ids, the role lookup reads the one settlement carrying the id. */
  lemma RoleAt(st: State, k: nat, p: PlayerId)
    requires WellFormed(st) && k < |st.settlements|
    ensures var s := st.settlements[k];
      GetRole(st, p, s.id)
      == if p !in s.citizens then None else if p == s.leader then Some(Leader) else Some(Citizen)
  {
    var ss := st.settlements;
    var r := GetRole(st, p, ss[k].id);
    if r.Some? {
      var i :| 0 <= i < |ss| && ss[i].id == ss[k].id && p in ss[i].citizens
               && forall j :: 0 <= j < i ==> ss[j].id != ss[k].id;
      assert i == k;
      if r == Some(Leader) {
        var i' :| 0 <= i' < |ss| && ss[i'].id == ss[k].id && p in ss[i'].citizens && p == ss[i'].leader
                  && forall j :: 0 <= j < i' ==> ss[j].id != ss[k].id;
        assert i' == k;
      } else {
        assert r.value != Leader;
        assert r.value == Citizen;
        assert r == Some(Citizen);
        var i' :| 0 <= i' < |ss| && ss[i'].id == ss[k].id && p in ss[i'].citizens && p != ss[i'].leader
                  && forall j :: 0 <= j < i' ==> ss[j].id != ss[k].id;
        assert i' == k;
      }
    }
  }

  /** A leader can never leave their own settlement: the command is refused
      and nothing changes. */
  lemma LeaderCannotLeave(st: State, k: nat, s: Settlement)
    requires WellFormed(st) && k < |st.settlements|
    requires s.id == st.settlements[k].id
    ensures Leave(st, Some(st.settlements[k].leader), Some(s)) == Reply(Code(0), st)
  {
  }

  /** Joining an OPEN settlement one is not yet part of and then leaving it
      restores every citizen set; only the player's pending invites are gone. */
  lemma JoinThenLeave(st: State, k: nat, p: PlayerId)
    requires WellFormed(st) && k < |st.settlements|
    requires st.settlements[k].joinPolicy == Open
    requires p !in st.settlements[k].citizens && p != st.settlements[k].leader
    ensures var s := st.settlements[k];
            var joined := Join(st, Some(p), s).state;
            Leave(joined, Some(p), Some(s)) == Reply(Code(1), st.(invites := st.invites - {p}))
  {
  }

  /** Inviting a player with no pending invites and having them accept makes
      them a citizen of the inviter's first settlement and leaves the pending
      invites as they were. */
  lemma InviteThenAccept(st: State, p: PlayerId, q: PlayerId)
    requires FirstSettlement(st, p).Some?
    requires q != p && q !in st.invites
    ensures var invited := InvitePlayers(st, Some(p), [q]);
            && invited.exit == Code(1) && invited.count == 1
            && var accepted := AcceptInvite(invited.state, Some(q));
            && accepted.exit == Code(1)
            && CitizenAdded(st.settlements, accepted.state.settlements, q, FirstSettlement(st, p).value)
            && accepted.state.invites == st.invites
  {
    var a := FirstSettlement(st, p).value;
    var invited := InvitePlayers(st, Some(p), [q]);
    assert [q][1..] == [];
    assert Pending(st.invites, q) + [a] == [a];
    assert InviteEach(st.invites, [q], p, a) == (st.invites[q := [a]], 1);
    assert invited.state.invites == InviteEach(st.invites, [q], p, a).0;
    assert invited.state.invites - {q} == st.invites;
  }

  /** Accepting behaves, on the state, exactly like joining the first invited
      settlement when that settlement is INVITE-only; only the return code
      differs (1 against 0). */
  lemma AcceptMatchesJoinOnFirstInvite(st: State, p: PlayerId, s: Settlement)
    requires p in st.invites && st.invites[p] != []
    requires s.id == st.invites[p][0] && s.joinPolicy == Invite
    ensures AcceptInvite(st, Some(p)).state == Join(st, Some(p), s).state
    ensures AcceptInvite(st, Some(p)).exit == Code(1) && Join(st, Some(p), s).exit == Code(0)
  {
  }

  /** On a well-formed state `invite accept` never throws. */
  lemma AcceptNeverThrows(st: State, caller: Option<PlayerId>)
    requires WellFormed(st)
    ensures AcceptInvite(st, caller).exit != Thrown
  {
  }

  lemma JoinPreservesWellFormed(st: State, caller: Option<PlayerId>, s: Settlement)
    requires WellFormed(st)
    ensures WellFormed(Join(st, caller, s).state)
  {
  }

  lemma LeavePreservesWellFormed(st: State, caller: Option<PlayerId>, named: Option<Settlement>)
    requires WellFormed(st)
    ensures WellFormed(Leave(st, caller, named).state)
  {
  }

  lemma AcceptPreservesWellFormed(st: State, caller: Option<PlayerId>)
    requires WellFormed(st)
    ensures WellFormed(AcceptInvite(st, caller).state)
  {
  }

  /** `invite` never leaves a player with an empty pending list. */
  lemma InvitePreservesWellFormed(st: State, caller: Option<PlayerId>, profiles: seq<PlayerId>)
    requires WellFormed(st)
    ensures WellFormed(InvitePlayers(st, caller, profiles).state)
  {
    if caller.Some? && FirstSettlement(st, caller.value).Some? {
      var p := caller.value;
      var a := FirstSettlement(st, p).value;
      var invites := InviteEach(st.invites, profiles, p, a).0;
      InviteEachKeys(st.invites, profiles, p, a);
      forall q | q in invites
        ensures |invites[q]| > 0
      {
        if q == p {
          InviteEachSkipsInviter(st.invites, profiles, p, a);
        } else {
          InviteEachAppends(st.invites, profiles, p, a, q);
          if q !in st.invites {
            assert q in profiles;
            assert multiset(profiles)[q] > 0;
          }
        }
      }
    }
  }

  lemma KickPreservesWellFormed(st: State, caller: Option<PlayerId>, profiles: seq<PlayerId>, online: set<PlayerId>)
    requires WellFormed(st)
    ensures WellFormed(Kick(st, caller, profiles, online).state)
  {
  }

  /** No role is checked by `kick`: any citizen removes an online leader from
      the citizens of the kicker's first settlement. */
  lemma KickRemovesEvenTheLeader(st: State, k: nat, p: PlayerId, online: set<PlayerId>)
    requires k < |st.settlements|
    requires FirstSettlement(st, p) == Some(st.settlements[k].id)
    requires st.settlements[k].leader in online
    ensures var r := Kick(st, Some(p), [st.settlements[k].leader], online);
            r.exit == Code(1) && st.settlements[k].leader !in r.state.settlements[k].citizens
  {
  }

  /** Without a named settlement, `claim` acts exactly as if the player had
      named their first settlement. */
  lemma ClaimFallbackMatchesNamed(st: State, p: PlayerId, s: Settlement, addChunk: SettlementId -> bool)
    requires FirstSettlement(st, p) == Some(s.id)
    ensures Claim(st, Some(p), None, addChunk) == Claim(st, Some(p), Some(s), addChunk)
  {
  }
}
