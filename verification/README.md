# Settlement registry and membership commands, in Dafny

This project models the core of a game-server mod that lets players found
"settlements". A settlement is a named group of players that owns chunks of world
territory. The model has two parts, and each follows one source file.

- **The registry** (`SettlementsManager`, from `template/data/SettlementsManager.kt`).
  The registry holds three things:
  - a list of settlement records;
  - a parallel list of globally settled chunk coordinates;
  - each player's citizenship data, a map from settlement id to role string.

  `addSettlement` runs four guards in a fixed order and reports the first one that
  fires: the player is already a citizen, the dimension is forbidden, the chunk is
  already settled, the id is already taken. Only when no guard fires does it append
  a new BASE record. It also records the chunk globally and makes the player that
  record's "leader". `addChunk`, `updateSettlement`, `getById` and
  `getAllSettlement` are modelled as they are written. The registry invariant
  `Valid`, which holds of the empty registry and which `addSettlement` preserves, says: ids are unique, every owned chunk is in the global list, chunk
  sets are pairwise disjoint, and each leader's citizenship names exactly their own
  settlement.
- **The membership commands** (`SettlementCommand`, from
  `civilization/commands/SettlementCommand.kt`). These are the decision rules of
  `join`, `leave`, `invite accept`, `invite`, `kick` and `claim`. Each is a pure
  transition that returns the command's code to the dispatcher (0 or 1, or
  `Thrown` when Kotlin's `first()` meets an empty collection) together with the
  new state.

  The state is an abstract one. It holds the settlements, each with a join policy,
  a leader and a citizen set, plus the pending invites keyed by player. The
  registry these commands call (`civilization.data.SettlementManager` and
  `PlayerDataManager`) is not part of this model. The module `CivilizationData`
  therefore gives its operations minimal **assumed** semantics, listed in its
  header comment:
  - `addCitizen` inserts the player into the citizen set, and `removeCitizen`
    deletes them from it;
  - `addInvites` appends the settlement to the player's pending list;
  - `clearInvites` removes the player's key;
  - `getRole` is LEADER for the leader, CITIZEN for any other citizen, and null
    for a non-citizen;
  - `getSettlements()?.first()` gives the first settlement, in registry order,
    that has the player as a citizen. It gives null, never an empty list, when
    there is none.

Host types are abstracted:
- a player is an integer UUID;
- `ChunkPos` is a pair of ints;
- `BlockPos` and `Identifier` are plain records that are only ever compared;
- `formatId` is a function parameter, so nothing is assumed about it;
- a command run by a non-player (`playerOnly`) has `caller == None` and always gets code 0;
- whether a player is online (for `kick`) is a set parameter;
- the outcome of the unseen chunk claim (for `claim`) is a function parameter.

Behaviour the model makes visible:
- The dimension guard never fires, because `canCreateSettlementInDim` always
  returns true.
- `addChunk` never extends the global chunk list. Chunk exclusivity therefore
  holds only for the chunks recorded when a settlement is created (see Findings).
- `join` ends through `endMsg`/`endError` on every path. It therefore returns 0
  even when the player joined, while `invite accept` returns 1 on success.
- `invite accept` joins the first invited settlement whatever its join policy.
  This includes a settlement that has since become CLOSED.
- `invite`, `kick` and `claim` check no role. Any citizen can invite, can kick
  anyone (the leader included) out of their first settlement, and can claim for
  it.

## Model

| member | source | states |
|---|---|---|
| SettlementsManager.IndexOfFirst | src/main/kotlin/org/teamvoided/template/data/SettlementsManager.kt:97 | the index is -1 exactly when no record has the id; otherwise it holds the id and no earlier record does |
| SettlementsManager.GetById | src/main/kotlin/org/teamvoided/template/data/SettlementsManager.kt:45 | none exactly when no record has the id; otherwise the first record with that id |
| SettlementsManager.GetAllSettlement | src/main/kotlin/org/teamvoided/template/data/SettlementsManager.kt:100-102 | the snapshot has the registry's length and the registry's record at every position |
| SettlementsManager.CanCreateSettlementInDim | src/main/kotlin/org/teamvoided/template/data/SettlementsManager.kt:104-106 | every dimension is allowed, so the dimension guard of addSettlement never fires |
| SettlementsManager.AddSettlement | src/main/kotlin/org/teamvoided/template/data/SettlementsManager.kt:46-84 | guards in order, each failure reported only when no earlier guard fired: citizenship non-empty, then chunk already settled, then id taken; the dimension guard never fires; any failure leaves the state untouched; success appends exactly the new BASE record (id formatId(name), citizens and leader the player, chunks {chunkPos}, no parent), appends chunkPos to the global list and sets the player's citizenship to {id: "leader"} |
| SettlementsManager.UpdateSettlement | src/main/kotlin/org/teamvoided/template/data/SettlementsManager.kt:96-99 | throws (none) exactly when no record has the id; otherwise replaces the first such record and keeps the length, the other records, the chunk list and the player data |
| SettlementsManager.UpdateThenGetById | src/main/kotlin/org/teamvoided/template/data/SettlementsManager.kt:96-99 | after a write-back, getById on that id returns the record just written |
| SettlementsManager.AddChunk | src/main/kotlin/org/teamvoided/template/data/SettlementsManager.kt:86-94 | refuses, with no state change, exactly when the chunk is in the global list; throws only for an unregistered settlement; on success the first record with the settlement's id is replaced by the settlement plus the chunk, every other record and the length are kept, and the global chunk list and player data are unchanged |
| SettlementsManager.AddChunkCorrected | src/main/kotlin/org/teamvoided/template/data/SettlementsManager.kt:86-94 | the intended addChunk: the same refusal, exception and write-back of the first record with the id (all other records kept), and on success the chunk is also appended to the global list |
| SettlementsManagerLemmas.GetByIdFindsRegistered | src/main/kotlin/org/teamvoided/template/data/SettlementsManager.kt:45 | with unique ids, getById yields a record exactly when that record is registered under the id |
| SettlementsManagerLemmas.AddSettlementKeepsIdsUnique | src/main/kotlin/org/teamvoided/template/data/SettlementsManager.kt:60-78 | the duplicate-id guard keeps the ids of the registry pairwise distinct |
| SettlementsManagerLemmas.AddSettlementKeepsChunksExclusive | src/main/kotlin/org/teamvoided/template/data/SettlementsManager.kt:57-79 | creation keeps every owned chunk in the global list and the chunk sets pairwise disjoint |
| SettlementsManagerLemmas.AddSettlementKeepsLeaders | src/main/kotlin/org/teamvoided/template/data/SettlementsManager.kt:50-81 | creation keeps each leader's citizenship equal to {own id: "leader"}; the citizenship guard stops a leader founding a second base |
| SettlementsManagerLemmas.EmptyIsValid | src/main/kotlin/org/teamvoided/template/data/SettlementsManager.kt:29-30 | the registry as it starts, with no settlements, no settled chunks and no player data, satisfies the registry invariant |
| SettlementsManagerLemmas.AddSettlementPreservesValid | src/main/kotlin/org/teamvoided/template/data/SettlementsManager.kt:46-84 | addSettlement preserves the whole registry invariant |
| SettlementsManagerLemmas.AddSettlementThenGetById | src/main/kotlin/org/teamvoided/template/data/SettlementsManager.kt:67-78 | after a successful creation, getById on formatId(name) returns the new base |
| SettlementsManagerLemmas.AddSettlementExtendsSnapshot | src/main/kotlin/org/teamvoided/template/data/SettlementsManager.kt:100-102 | a getAllSettlement snapshot taken before a creation is a prefix of one taken after it |
| SettlementsManagerLemmas.AddChunkAllowsDoubleClaim | src/main/kotlin/org/teamvoided/template/data/SettlementsManager.kt:86-94 | in any valid registry, two different settlements can both claim the same unsettled chunk, one after the other, which breaks chunk disjointness |
| SettlementsManagerLemmas.AddChunkCorrectedPreservesValid | src/main/kotlin/org/teamvoided/template/data/SettlementsManager.kt:86-94 | the corrected addChunk, applied to a registered settlement, preserves the registry invariant |
| SettlementsManagerLemmas.AddChunkCorrectedRefusesSecondClaim | src/main/kotlin/org/teamvoided/template/data/SettlementsManager.kt:87-89 | with the correction, after a successful claim any later claim of that chunk is refused and changes nothing |
| CivilizationData.RoleIn | src/main/kotlin/org/teamvoided/civilization/commands/SettlementCommand.kt:272-275 | (assumed getRole) a role exists exactly when the player is a citizen of the first settlement with the id; LEADER only for its leader, CITIZEN only for anyone else |
| CivilizationData.FirstSettlementIn | src/main/kotlin/org/teamvoided/civilization/commands/SettlementCommand.kt:269-270 | (assumed getSettlements()?.first()) none exactly when the player is a citizen nowhere; otherwise the first settlement that has the player |
| SettlementCommand.Join | src/main/kotlin/org/teamvoided/civilization/commands/SettlementCommand.kt:285-307 | always returns 0; CLOSED, and INVITE without a pending invite to that settlement, change nothing; OPEN, and INVITE with such an invite, add the player to that settlement's citizens, drop all of the player's invites and change nothing else |
| SettlementCommand.Leave | src/main/kotlin/org/teamvoided/civilization/commands/SettlementCommand.kt:265-282 | a non-player caller gets code 0 and no change; refused with code 0 and no change when there is no target settlement, when the player has no role in it or when the player leads it; otherwise code 1 and the player alone is removed from that settlement's citizens |
| SettlementCommand.AcceptInvite | src/main/kotlin/org/teamvoided/civilization/commands/SettlementCommand.kt:230-242 | with no pending key, code 0 and no change; otherwise code 1, the player joins the first invited settlement and all of their invites are dropped (an empty list would throw) |
| SettlementCommand.InviteEach | src/main/kotlin/org/teamvoided/civilization/commands/SettlementCommand.kt:214-221 | the invite loop's count is the number of profiles less those equal to the inviter; its effect on the pending invites is stated by the three lemmas below |
| SettlementCommand.InviteEachKeys | src/main/kotlin/org/teamvoided/civilization/commands/SettlementCommand.kt:214-221 | the invite loop gives a pending-invite key exactly to the players that had one and to the profiles other than the inviter |
| SettlementCommand.InviteEachSkipsInviter | src/main/kotlin/org/teamvoided/civilization/commands/SettlementCommand.kt:214-215 | the invite loop leaves the inviter's pending invites unchanged |
| SettlementCommand.InviteEachAppends | src/main/kotlin/org/teamvoided/civilization/commands/SettlementCommand.kt:214-221 | every other player's pending list gains the settlement once per occurrence among the profiles, appended after their earlier invites |
| SettlementCommand.InvitePlayers | src/main/kotlin/org/teamvoided/civilization/commands/SettlementCommand.kt:207-228 | a non-player or a player in no settlement gets code 0 and no change; otherwise the inviter's pending invites are untouched, the keys become exactly the old keys plus the non-inviter profiles, and every other player's pending list gains the inviter's first settlement once per occurrence among the profiles (players outside the profiles keep theirs); the count excludes the inviter; an empty profile list throws; the settlements are untouched |
| SettlementCommand.KickEach | src/main/kotlin/org/teamvoided/civilization/commands/SettlementCommand.kt:251-255 | the kick loop removes exactly the online profiles from the settlement's citizens, counts them and touches nothing else |
| SettlementCommand.Kick | src/main/kotlin/org/teamvoided/civilization/commands/SettlementCommand.kt:244-262 | a kicker in no settlement gets code 0 and no change; otherwise the online profiles leave the kicker's first settlement, the count is the number of online profiles, and an empty profile list throws |
| SettlementCommand.Claim | src/main/kotlin/org/teamvoided/civilization/commands/SettlementCommand.kt:172-190 | the named settlement, else the player's first one, is handed to the chunk claim; a player in no settlement gets code 0 and nothing is claimed; otherwise the code is 1 when the claim succeeds and 0 when it fails |
| SettlementCommandLemmas.RoleAt | src/main/kotlin/org/teamvoided/civilization/commands/SettlementCommand.kt:272-275 | with unique ids, a player's role in a settlement is read from that settlement's own leader and citizens |
| SettlementCommandLemmas.LeaderCannotLeave | src/main/kotlin/org/teamvoided/civilization/commands/SettlementCommand.kt:275-276 | in a well-formed state a settlement's leader cannot leave it: code 0, nothing changes |
| SettlementCommandLemmas.JoinThenLeave | src/main/kotlin/org/teamvoided/civilization/commands/SettlementCommand.kt:265-303 | a non-member joining an OPEN settlement and then leaving it gets code 1 and restores every citizen set; only their invites are gone |
| SettlementCommandLemmas.InviteThenAccept | src/main/kotlin/org/teamvoided/civilization/commands/SettlementCommand.kt:207-242 | a player invited with no earlier invites who then accepts becomes a citizen of the inviter's first settlement, and the pending invites return to what they were |
| SettlementCommandLemmas.AcceptMatchesJoinOnFirstInvite | src/main/kotlin/org/teamvoided/civilization/commands/SettlementCommand.kt:234-297 | accepting yields the same state as joining the first invited settlement when it is INVITE-only; the codes differ (1 against 0) |
| SettlementCommandLemmas.AcceptNeverThrows | src/main/kotlin/org/teamvoided/civilization/commands/SettlementCommand.kt:234-236 | when no player holds an empty invite list, accept never reaches first() on an empty list |
| SettlementCommandLemmas.JoinPreservesWellFormed | src/main/kotlin/org/teamvoided/civilization/commands/SettlementCommand.kt:285-307 | join keeps ids unique and leaves no empty invite list |
| SettlementCommandLemmas.LeavePreservesWellFormed | src/main/kotlin/org/teamvoided/civilization/commands/SettlementCommand.kt:265-282 | leave keeps ids unique and leaves no empty invite list |
| SettlementCommandLemmas.AcceptPreservesWellFormed | src/main/kotlin/org/teamvoided/civilization/commands/SettlementCommand.kt:230-242 | accept keeps ids unique and leaves no empty invite list |
| SettlementCommandLemmas.InvitePreservesWellFormed | src/main/kotlin/org/teamvoided/civilization/commands/SettlementCommand.kt:207-228 | invite never creates an empty pending list |
| SettlementCommandLemmas.KickPreservesWellFormed | src/main/kotlin/org/teamvoided/civilization/commands/SettlementCommand.kt:244-262 | kick keeps ids unique and the invites untouched |
| SettlementCommandLemmas.KickRemovesEvenTheLeader | src/main/kotlin/org/teamvoided/civilization/commands/SettlementCommand.kt:249-254 | no role is checked: any citizen removes an online leader from their first settlement's citizens |
| SettlementCommandLemmas.ClaimFallbackMatchesNamed | src/main/kotlin/org/teamvoided/civilization/commands/SettlementCommand.kt:178-182 | claim without a named settlement behaves exactly as claim naming the player's first settlement |

## Findings

| source | as written | input that shows it | evidently intended | confidence | as-written member | corrected member |
|---|---|---|---|---|---|---|
| src/main/kotlin/org/teamvoided/template/data/SettlementsManager.kt:86-94 | `addChunk` adds the chunk to the settlement's own chunk set but never to the global `settledChunks` list, which is the only list the exclusivity guard consults | a valid registry with settlements A and B and an unsettled chunk c: `addChunk(A, c)` succeeds, then `addChunk(B, c)` also succeeds, and both own c | append the chunk to `settledChunks` on success, as `addSettlement` does, so that a chunk belongs to at most one settlement | high (not executed) | SettlementsManagerLemmas.AddChunkAllowsDoubleClaim | SettlementsManagerLemmas.AddChunkCorrectedPreservesValid |

## Left out

- `save` and `load` (SettlementsManager.kt:108-167) are left out. They are file I/O, JSON encoding and unsynchronised writer threads.
- `PlayerDataApi` registration and the `JsonDataStorage` store are left out. They are host storage, and only the resulting citizenship map is modelled.
- `WebMaps.addSettlement` and `WebMaps.modifySettlement` are left out. They are foreign side-effect calls with no visible result.
- The command-tree wiring, the argument types and the `setl` alias (SettlementCommand.kt:28-111) are left out. They are glue over the host's command framework.
- The `createSettlement`, `deleteSettlement` and `desert` commands are left out. They only forward to `addSettlement`, `removeSettlement` and `removeChunk` of the civilization registry, which is not part of this model. The `list`, `info` and `menu` commands are left out because they only print.
- Message texts and the text helpers (`endMsg`, `endError`, styled click/hover text) are left out. Each result is a return code, or a `Failure` reason in the registry.
- The "you have been invited" message sent to online invitees is left out, because it is presentation only.
- The bodies of the civilization `SettlementManager`, `PlayerDataManager` and `formatId` are not part of this model. Their assumed semantics are listed above and in `CivilizationData`.
- SettlementsManager.AddChunk: when the settlement is not registered, the Kotlin code adds the chunk to the caller's settlement object before `updateSettlement` throws. The value model returns `None` and does not keep that object mutation.
- SettlementCommand.Claim: the chunk position and the chunk claim itself belong to the unseen civilization registry. The claim is therefore a parameter reporting success, and the model states only which settlement is handed to it and the code that follows.
- Aliasing between a settlement object held by a caller and the registry's own list entry is left out. Records are values, and a write-back replaces the entry.
