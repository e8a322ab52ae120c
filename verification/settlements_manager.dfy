/** The settlement registry of the `template.data` package: an unindexed list of
    settlement records, a parallel list of globally settled chunks, and the
    per-player citizenship data kept in the host's player-data store.

    The Kotlin object is a mutable singleton; here its state is an immutable
    value and every operation returns the state it leaves behind. */
module SettlementsManager {
  import opened Wrappers

  /** A player's UUID. */
  type Uuid = int

  /** A chunk coordinate (`ChunkPos`): the unit of land claiming. */
  datatype ChunkPos = ChunkPos(x: int, z: int)

  /** Host block position and dimension identifier; only compared for equality. */
  datatype BlockPos = BlockPos(x: int, y: int, z: int)
  datatype Identifier = Identifier(namespace: string, path: string)

  /** The only settlement type the registry ever creates. */
  datatype SettlementType = Base

  datatype Settlement = Settlement(
    id: string,
    name: string,
    settlementType: SettlementType,
    citizens: set<Uuid>,
    chunks: set<ChunkPos>,
    capitalPos: BlockPos,
    leader: Uuid,
    parent: Option<string>,
    dimension: Identifier)

  /** Per-player data: settlement id to role string. */
  datatype PlayerData = PlayerData(citizenship: map<string, string>)

  const LeaderRole: string := "leader"

  datatype State = State(
    settlements: seq<Settlement>,
    settledChunks: seq<ChunkPos>,
    playerData: map<Uuid, PlayerData>)

  /** Which guard refused the operation; stands in for the message text. */
  datatype Failure = AlreadyCitizen | ForbiddenDimension | ChunkAlreadySettled | DuplicateId

  /** `ResultType`: SUCCESS or FAIL, the failure carrying its reason. */
  datatype ResultType = Success | Fail(reason: Failure)

  /** The result of an operation together with the state it leaves. */
  datatype Step = Step(result: ResultType, state: State)

  const Empty: State := State([], [], map[])

  predicate HasId(ss: seq<Settlement>, id: string)
  {
    exists i :: 0 <= i < |ss| && ss[i].id == id
  }

  /** `indexOfFirst { it.id == id }`: the first position holding `id`, or -1. */
  function IndexOfFirst(ss: seq<Settlement>, id: string): (i: int)
    ensures -1 <= i < |ss|
    ensures i == -1 <==> !HasId(ss, id)
    ensures 0 <= i ==> ss[i].id == id && forall j :: 0 <= j < i ==> ss[j].id != id
    decreases |ss|
  {
    if |ss| == 0 then -1
    else if ss[0].id == id then 0
    else
      var k := IndexOfFirst(ss[1..], id);
      if k == -1 then -1 else k + 1
  }

  /** `getById`: the first settlement carrying `id`, if any. */
  function GetById(st: State, id: string): (r: Option<Settlement>)
    ensures r.None? <==> !HasId(st.settlements, id)
    ensures r.Some? ==> r.value.id == id
    ensures r.Some? ==>
      exists i :: 0 <= i < |st.settlements| && st.settlements[i] == r.value
                  && forall j :: 0 <= j < i ==> st.settlements[j].id != id
  {
    var i := IndexOfFirst(st.settlements, id);
    if i == -1 then None else Some(st.settlements[i])
  }

  /** `getAllSettlement`: a snapshot copy of the registry's list, element by
      element. */
  function GetAllSettlement(st: State): (r: seq<Settlement>)
    ensures |r| == |st.settlements|
    ensures forall i :: 0 <= i < |r| ==> r[i] == st.settlements[i]
  {
    st.settlements
  }

  /** `canCreateSettlementInDim`: every dimension is allowed. */
  function CanCreateSettlementInDim(dimension: Identifier): (allowed: bool)
    ensures allowed
  {
    true
  }

  /** `data != null && data.citizenship.isNotEmpty()`. */
  predicate HasCitizenship(st: State, player: Uuid)
  {
    player in st.playerData && |st.playerData[player].citizenship| > 0
  }

  /** The record `addSettlement` builds for a new base. */
  function NewBase(id: string, name: string, player: Uuid, chunkPos: ChunkPos,
                   capitalPos: BlockPos, dimension: Identifier): Settlement
  {
    Settlement(id, name, Base, {player}, {chunkPos}, capitalPos, player, None, dimension)
  }

  /** `addSettlement`: the guards run in order and the first that fires is
      reported; only when none fires is the new base recorded. */
  function AddSettlement(st: State, formatId: string -> string, name: string, player: Uuid,
                         chunkPos: ChunkPos, capitalPos: BlockPos, dimension: Identifier): (r: Step)
    ensures r.result == Fail(AlreadyCitizen) <==> HasCitizenship(st, player)
    ensures r.result != Fail(ForbiddenDimension)
    ensures r.result == Fail(ChunkAlreadySettled) <==>
      !HasCitizenship(st, player) && chunkPos in st.settledChunks
    ensures r.result == Fail(DuplicateId) <==>
      !HasCitizenship(st, player) && chunkPos !in st.settledChunks
      && HasId(st.settlements, formatId(name))
    ensures r.result.Fail? ==> r.state == st
    ensures r.result == Success ==>
      && r.state.settlements
         == st.settlements + [NewBase(formatId(name), name, player, chunkPos, capitalPos, dimension)]
      && r.state.settledChunks == st.settledChunks + [chunkPos]
      && r.state.playerData
         == st.playerData[player := PlayerData(map[formatId(name) := LeaderRole])]
  {
    if HasCitizenship(st, player) then Step(Fail(AlreadyCitizen), st)
    else if !CanCreateSettlementInDim(dimension) then Step(Fail(ForbiddenDimension), st)
    else if chunkPos in st.settledChunks then Step(Fail(ChunkAlreadySettled), st)
    else if GetById(st, formatId(name)).Some? then Step(Fail(DuplicateId), st)
    else
      var newSet := NewBase(formatId(name), name, player, chunkPos, capitalPos, dimension);
      Step(Success, State(st.settlements + [newSet],
                          st.settledChunks + [chunkPos],
                          st.playerData[player := PlayerData(map[newSet.id := LeaderRole])]))
  }

  /** `updateSettlement`: overwrite the first entry with the same id. When no
      entry has it, `indexOfFirst` yields -1 and the list write throws; that
      exception is `None`. */
  function UpdateSettlement(st: State, s: Settlement): (r: Option<State>)
    ensures r.None? <==> !HasId(st.settlements, s.id)
    ensures r.Some? ==>
      && |r.value.settlements| == |st.settlements|
      && r.value.settledChunks == st.settledChunks
      && r.value.playerData == st.playerData
      && exists i :: 0 <= i < |st.settlements| && st.settlements[i].id == s.id
           && (forall j :: 0 <= j < i ==> st.settlements[j].id != s.id)
           && r.value.settlements == st.settlements[i := s]
  {
    var i := IndexOfFirst(st.settlements, s.id);
    if i == -1 then None else Some(st.(settlements := st.settlements[i := s]))
  }

  /** Writing a settlement back makes it the one `getById` finds. */
  lemma UpdateThenGetById(st: State, s: Settlement)
    requires HasId(st.settlements, s.id)
    ensures UpdateSettlement(st, s).Some?
    ensures GetById(UpdateSettlement(st, s).value, s.id) == Some(s)
  {
    var i := IndexOfFirst(st.settlements, s.id);
    var ss' := st.settlements[i := s];
    assert forall j :: 0 <= j < i ==> ss'[j].id != s.id;
    assert ss'[i].id == s.id;
    assert IndexOfFirst(ss', s.id) == i;
  }

  /** `addChunk` as written: refuse a chunk in the global list, otherwise add
      it to the settlement's own chunk set and write the settlement back. The
      global `settledChunks` list is NOT extended. `None` is the exception
      thrown by `updateSettlement` when the settlement is not registered. */
  function AddChunk(st: State, s: Settlement, pos: ChunkPos): (r: Option<Step>)
    ensures r.None? <==> pos !in st.settledChunks && !HasId(st.settlements, s.id)
    ensures r.Some? && r.value.result.Fail? ==>
      r.value.result == Fail(ChunkAlreadySettled) && r.value.state == st
    ensures r.Some? ==> (r.value.result == Success <==> pos !in st.settledChunks)
    ensures r.Some? && r.value.result == Success ==>
      && r.value.state.settledChunks == st.settledChunks
      && r.value.state.playerData == st.playerData
      && GetById(r.value.state, s.id) == Some(s.(chunks := s.chunks + {pos}))
      && r.value.state.settlements
         == st.settlements[IndexOfFirst(st.settlements, s.id) := s.(chunks := s.chunks + {pos})]
  {
    if pos in st.settledChunks then Some(Step(Fail(ChunkAlreadySettled), st))
    else
      match UpdateSettlement(st, s.(chunks := s.chunks + {pos}))
      case None => None
      case Some(st') =>
        UpdateThenGetById(st, s.(chunks := s.chunks + {pos}));
        Some(Step(Success, st'))
  }

  /** `addChunk` as evidently intended: the claimed chunk is also appended to
      the global list, so that a later claim of it is refused. */
  function AddChunkCorrected(st: State, s: Settlement, pos: ChunkPos): (r: Option<Step>)
    ensures r.None? <==> pos !in st.settledChunks && !HasId(st.settlements, s.id)
    ensures r.Some? && r.value.result.Fail? ==>
      r.value.result == Fail(ChunkAlreadySettled) && r.value.state == st
    ensures r.Some? ==> (r.value.result == Success <==> pos !in st.settledChunks)
    ensures r.Some? && r.value.result == Success ==>
      && r.value.state.settledChunks == st.settledChunks + [pos]
      && r.value.state.playerData == st.playerData
      && GetById(r.value.state, s.id) == Some(s.(chunks := s.chunks + {pos}))
      && r.value.state.settlements
         == st.settlements[IndexOfFirst(st.settlements, s.id) := s.(chunks := s.chunks + {pos})]
  {
    if pos in st.settledChunks then Some(Step(Fail(ChunkAlreadySettled), st))
    else
      match UpdateSettlement(st, s.(chunks := s.chunks + {pos}))
      case None => None
      case Some(st') =>
        UpdateThenGetById(st, s.(chunks := s.chunks + {pos}));
        Some(Step(Success, st'.(settledChunks := st.settledChunks + [pos])))
  }

  // ---------------------------------------------------------------------------
  // The registry invariant: what the empty registry satisfies, `addSettlement`
  // preserves and the corrected `addChunk` keeps.

  /** No two records share an id. */
  ghost predicate UniqueIds(ss: seq<Settlement>)
  {
    forall i, j :: 0 <= i < j < |ss| ==> ss[i].id != ss[j].id
  }

  /** Every chunk a settlement owns is in the global list. */
  ghost predicate ChunksRecorded(st: State)
  {
    forall i, c :: 0 <= i < |st.settlements| && c in st.settlements[i].chunks ==> c in st.settledChunks
  }

  /** A chunk belongs to at most one settlement. */
  ghost predicate ChunksDisjoint(ss: seq<Settlement>)
  {
    forall i, j :: 0 <= i < j < |ss| ==> ss[i].chunks !! ss[j].chunks
  }

  /** Each leader's citizenship names exactly their settlement, as leader. */
  ghost predicate LeadersRecorded(st: State)
  {
    forall i :: 0 <= i < |st.settlements| ==>
      && st.settlements[i].leader in st.playerData
      && st.playerData[st.settlements[i].leader].citizenship == map[st.settlements[i].id := LeaderRole]
  }

  ghost predicate Valid(st: State)
  {
    && UniqueIds(st.settlements)
    && ChunksRecorded(st)
    && ChunksDisjoint(st.settlements)
    && LeadersRecorded(st)
  }
}
