/** Properties of the settlement registry that relate several operations, or
    an operation and the registry invariant `Valid`. */
module SettlementsManagerLemmas {
  import opened Wrappers
  import opened SettlementsManager

  /** With unique ids, `getById` finds a record exactly when it is registered
      under that id. */
  lemma GetByIdFindsRegistered(st: State, id: string, s: Settlement)
    requires UniqueIds(st.settlements)
    ensures GetById(st, id) == Some(s) <==> s in st.settlements && s.id == id
  {
  }

  /** A successful `addSettlement` never registers an id twice. */
  lemma AddSettlementKeepsIdsUnique(st: State, formatId: string -> string, name: string, player: Uuid,
                                    chunkPos: ChunkPos, capitalPos: BlockPos, dimension: Identifier)
    requires UniqueIds(st.settlements)
    ensures UniqueIds(AddSettlement(st, formatId, name, player, chunkPos, capitalPos, dimension).state.settlements)
  {
  }

  /** A successful `addSettlement` keeps every owned chunk in the global list
      and keeps chunk ownership exclusive. */
  lemma AddSettlementKeepsChunksExclusive(st: State, formatId: string -> string, name: string, player: Uuid,
                                          chunkPos: ChunkPos, capitalPos: BlockPos, dimension: Identifier)
    requires ChunksRecorded(st) && ChunksDisjoint(st.settlements)
    ensures var st' := AddSettlement(st, formatId, name, player, chunkPos, capitalPos, dimension).state;
            ChunksRecorded(st') && ChunksDisjoint(st'.settlements)
  {
  }

  /** A successful `addSettlement` leaves every leader's citizenship naming
      exactly their own settlement. */
  lemma AddSettlementKeepsLeaders(st: State, formatId: string -> string, name: string, player: Uuid,
                                  chunkPos: ChunkPos, capitalPos: BlockPos, dimension: Identifier)
    requires LeadersRecorded(st)
    ensures LeadersRecorded(AddSettlement(st, formatId, name, player, chunkPos, capitalPos, dimension).state)
  {
  }

  /** The registry starts empty, and the empty registry satisfies `Valid`;
      with `AddSettlementPreservesValid` every registry built by
      `addSettlement` alone is valid. */
  lemma EmptyIsValid()
    ensures Valid(Empty)
  {
  }

  lemma AddSettlementPreservesValid(st: State, formatId: string -> string, name: string, player: Uuid,
                                    chunkPos: ChunkPos, capitalPos: BlockPos, dimension: Identifier)
    requires Valid(st)
    ensures Valid(AddSettlement(st, formatId, name, player, chunkPos, capitalPos, dimension).state)
  {
  }

  /** The base a successful `addSettlement` creates is what `getById` then
      returns for its formatted name. */
  lemma AddSettlementThenGetById(st: State, formatId: string -> string, name: string, player: Uuid,
                                 chunkPos: ChunkPos, capitalPos: BlockPos, dimension: Identifier)
    requires AddSettlement(st, formatId, name, player, chunkPos, capitalPos, dimension).result == Success
    ensures GetById(AddSettlement(st, formatId, name, player, chunkPos, capitalPos, dimension).state, formatId(name))
            == Some(NewBase(formatId(name), name, player, chunkPos, capitalPos, dimension))
  {
    var st' := AddSettlement(st, formatId, name, player, chunkPos, capitalPos, dimension).state;
    var ss := st'.settlements;
    forall j | 0 <= j < |st.settlements|
      ensures ss[j].id != formatId(name)
    {
      assert ss[j] == st.settlements[j];
    }
    assert ss[|st.settlements|] == NewBase(formatId(name), name, player, chunkPos, capitalPos, dimension);
    assert IndexOfFirst(ss, formatId(name)) == |st.settlements|;
  }

  /** A snapshot taken by `getAllSettlement` before a creation is a prefix of
      one taken after it: creation only appends. */
  lemma AddSettlementExtendsSnapshot(st: State, formatId: string -> string, name: string, player: Uuid,
                                     chunkPos: ChunkPos, capitalPos: BlockPos, dimension: Identifier)
    ensures GetAllSettlement(st)
            <= GetAllSettlement(AddSettlement(st, formatId, name, player, chunkPos, capitalPos, dimension).state)
  {
  }

  /** After a successful `addChunk` the chunk is still absent from the global
      list, so a second settlement's claim of the same chunk is accepted too
      and two settlements own it. */
  lemma AddChunkAllowsDoubleClaim(st: State, i: nat, j: nat, pos: ChunkPos)
    requires Valid(st)
    requires i < |st.settlements| && j < |st.settlements| && i != j
    requires pos !in st.settledChunks
    ensures var r1 := AddChunk(st, st.settlements[i], pos);
            && r1.Some? && r1.value.result == Success
            && var r2 := AddChunk(r1.value.state, r1.value.state.settlements[j], pos);
            && r2.Some? && r2.value.result == Success
            && !ChunksDisjoint(r2.value.state.settlements)
  {
    var ss := st.settlements;
    var a := ss[i].(chunks := ss[i].chunks + {pos});
    assert IndexOfFirst(ss, ss[i].id) == i;
    var st1 := AddChunk(st, ss[i], pos).value.state;
    assert st1.settlements == ss[i := a];
    var b := ss[j].(chunks := ss[j].chunks + {pos});
    assert st1.settlements[j] == ss[j];
    assert IndexOfFirst(st1.settlements, ss[j].id) == j by {
      assert forall k :: 0 <= k < j ==> st1.settlements[k].id == ss[k].id;
    }
    var st2 := AddChunk(st1, st1.settlements[j], pos).value.state;
    assert st2.settlements == ss[i := a][j := b];
    assert pos in st2.settlements[i].chunks && pos in st2.settlements[j].chunks;
    if i < j {
      assert !(st2.settlements[i].chunks !! st2.settlements[j].chunks);
    } else {
      assert !(st2.settlements[j].chunks !! st2.settlements[i].chunks);
    }
  }

  /** The corrected `addChunk` keeps the registry invariant when it is handed a
      registered settlement. */
  lemma AddChunkCorrectedPreservesValid(st: State, k: nat, pos: ChunkPos)
    requires Valid(st) && k < |st.settlements|
    ensures var r := AddChunkCorrected(st, st.settlements[k], pos);
            r.Some? && Valid(r.value.state)
  {
  }

  /** With the correction, once a chunk has been claimed every later claim of
      it, by any settlement, is refused. */
  lemma AddChunkCorrectedRefusesSecondClaim(st: State, s: Settlement, t: Settlement, pos: ChunkPos)
    requires AddChunkCorrected(st, s, pos).Some?
    requires AddChunkCorrected(st, s, pos).value.result == Success
    ensures AddChunkCorrected(AddChunkCorrected(st, s, pos).value.state, t, pos)
            == Some(Step(Fail(ChunkAlreadySettled), AddChunkCorrected(st, s, pos).value.state))
  {
  }
}
