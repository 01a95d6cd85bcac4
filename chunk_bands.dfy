/** Search priority bands: each record's `searchPriority` selects one of four worker chunks. */
module ChunkBands {
  import opened Js

  /** One band: an inclusive priority range and its chunk index. */
  datatype ChunkMeta = ChunkMeta(min: int, max: int, chunkIndex: nat)

  const WorkerChunkOne := ChunkMeta(1, 25000, 0)          // equities
  const WorkerChunkTwo := ChunkMeta(25001, 125000, 1)     // futures
  const WorkerChunkThree := ChunkMeta(125001, 150000, 2)  // options
  const WorkerChunkFour := ChunkMeta(150001, 199999, 3)   // underlyings

  const WorkerChunkMeta: seq<ChunkMeta> :=
    [WorkerChunkOne, WorkerChunkTwo, WorkerChunkThree, WorkerChunkFour]

  /** The priority used when a record has none (or 0). */
  const DefaultChunkPriority: int := 100

  /** The size at or under which a worker searches its records as a single chunk. */
  const MaxFuseChunkSize: nat := 20000

  predicate InBand(m: ChunkMeta, p: int) {
    m.min <= p <= m.max
  }

  /** `priority || 100`: JavaScript's `||` replaces both null and 0. */
  function EffectivePriority(priority: Option<int>): (p: int)
    ensures p != 0
    ensures priority.None? || priority.value == 0 ==> p == DefaultChunkPriority
    ensures priority.Some? && priority.value != 0 ==> p == priority.value
  {
    if priority.Some? && priority.value != 0 then priority.value else DefaultChunkPriority
  }

  /** The band a priority falls in; the last band also catches everything outside the first three. */
  function GetChunkIndex(priority: Option<int>): (r: nat)
    ensures r <= 3
  {
    var p := EffectivePriority(priority);
    if InBand(WorkerChunkOne, p) then WorkerChunkOne.chunkIndex
    else if InBand(WorkerChunkTwo, p) then WorkerChunkTwo.chunkIndex
    else if InBand(WorkerChunkThree, p) then WorkerChunkThree.chunkIndex
    else WorkerChunkFour.chunkIndex
  }

  /** The table's entries are listed by chunk index, with contiguous inclusive ranges. */
  lemma MetaIsIndexedAndContiguous()
    ensures |WorkerChunkMeta| == 4
    ensures forall i :: 0 <= i < 4 ==> WorkerChunkMeta[i].chunkIndex == i
    ensures forall i :: 0 <= i < 4 ==> WorkerChunkMeta[i].min <= WorkerChunkMeta[i].max
    ensures forall i :: 0 <= i < 3 ==> WorkerChunkMeta[i + 1].min == WorkerChunkMeta[i].max + 1
  {
  }

  /** A missing or zero priority is replaced by 100 and lands in the first band. */
  lemma DefaultPriorityLandsInBandZero(priority: Option<int>)
    requires priority.None? || priority.value == 0
    ensures GetChunkIndex(priority) == 0
  {
  }

  /** Band boundaries are inclusive and leave no integer gap. */
  lemma BandBoundaries()
    ensures GetChunkIndex(Some(1)) == 0 && GetChunkIndex(Some(25000)) == 0
    ensures GetChunkIndex(Some(25001)) == 1 && GetChunkIndex(Some(125000)) == 1
    ensures GetChunkIndex(Some(125001)) == 2 && GetChunkIndex(Some(150000)) == 2
    ensures GetChunkIndex(Some(150001)) == 3 && GetChunkIndex(Some(199999)) == 3
  {
  }

  /** Any non-zero priority outside `[1, 150000]` falls to the last band, even above 199999. */
  lemma OutOfRangeFallsToLastBand(p: int)
    requires p != 0 && (p < 1 || p > 150000)
    ensures GetChunkIndex(Some(p)) == 3
  {
  }

  /** For a real priority, the band returned is the one of the table that contains it. */
  lemma ChunkIndexAgreesWithMeta(p: int)
    requires 1 <= p <= 199999
    ensures InBand(WorkerChunkMeta[GetChunkIndex(Some(p))], p)
    ensures forall i :: 0 <= i < 4 && InBand(WorkerChunkMeta[i], p) ==> i == GetChunkIndex(Some(p))
  {
  }

  /** On the covered range, a larger priority never moves to a lower band. */
  lemma ChunkIndexMonotone(p: int, q: int)
    requires 1 <= p <= q <= 199999
    ensures GetChunkIndex(Some(p)) <= GetChunkIndex(Some(q))
  {
  }
}
