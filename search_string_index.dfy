/** The search-string index: tradable records grouped into the four priority bands. */
module SearchStringIndexing {
  import opened Js
  import opened Segments
  import opened Records
  import opened ChunkBands

  /** What `addRow` reads from a visit: the allow-flag and the search record it would store.
      The branch is chosen by testing the segment name for `EQUITY`, then `UNDERLYING`; every other
      segment is read as a leg of a group. */
  function Read(v: Visit): (r: (string, SearchEntry))
    requires Shaped(v)
    ensures KindOf(v.segment) == FlatEquity ==>
      r == (v.row.equity.aslAllowed,
            SearchEntry(v.row.equity.searchable, Flat(v.segment, v.itemIndex),
                        v.row.equity.searchPriority, v.row.equity.exchangeSymbol))
    ensures KindOf(v.segment) == FlatUnderlying ==>
      r == (v.row.underlyingRow.aslAllowed,
            SearchEntry(v.row.underlyingRow.searchable, Flat(v.segment, v.itemIndex),
                        v.row.underlyingRow.searchPriority, v.row.underlyingRow.exchangeSymbol))
    ensures KindOf(v.segment) == Nested ==>
      r == (v.leg.aslAllowed,
            SearchEntry(v.leg.searchable, Leg(v.segment, v.itemIndex, LegsPosition, v.legIndex),
                        v.leg.searchPriority, v.group.exchangeSymbol))
  {
    IncludesEquityIffFlatEquity(v.segment);
    IncludesUnderlyingIffFlatUnderlying(v.segment);
    if Includes(Name(v.segment), "EQUITY") then
      var item := v.row.equity;
      (item.aslAllowed,
       SearchEntry(item.searchable, Flat(v.segment, v.itemIndex), item.searchPriority, item.exchangeSymbol))
    else if Includes(Name(v.segment), "UNDERLYING") then
      var item := v.row.underlyingRow;
      (item.aslAllowed,
       SearchEntry(item.searchable, Flat(v.segment, v.itemIndex), item.searchPriority, item.exchangeSymbol))
    else
      (v.leg.aslAllowed,
       SearchEntry(v.leg.searchable, Leg(v.segment, v.itemIndex, LegsPosition, v.legIndex),
                   v.leg.searchPriority, v.group.exchangeSymbol))
  }

  predicate Contributes(v: Visit)
    requires Shaped(v)
  {
    Read(v).0 != "N"
  }

  /** The index after one `addRow`: a tradable record is appended to its band's bucket, the bucket
      being created on first use. */
  function Step(index: SearchStringIndex, v: Visit): SearchStringIndex
    requires Shaped(v)
  {
    var (isAslAllowed, entry) := Read(v);
    if isAslAllowed == "N" then index
    else
      var b := GetChunkIndex(entry.searchPriority);
      index[b := (if b in index then index[b] else []) + [entry]]
  }

  /** Buckets are keyed by band, are never empty, and hold only records of their band. */
  predicate WellFormed(index: SearchStringIndex) {
    forall b :: b in index ==>
      0 <= b <= 3 && |index[b]| > 0 &&
      forall e :: e in index[b] ==> GetChunkIndex(e.searchPriority) == b
  }

  /** A record flagged `"N"` changes nothing; otherwise it goes to the end of its band's bucket and
      every other bucket is unchanged. */
  lemma StepEffect(index: SearchStringIndex, v: Visit)
    requires Shaped(v)
    ensures !Contributes(v) ==> Step(index, v) == index
    ensures Contributes(v) ==>
      var b := GetChunkIndex(Read(v).1.searchPriority);
      && Step(index, v).Keys == index.Keys + {b}
      && Step(index, v)[b] == (if b in index then index[b] else []) + [Read(v).1]
      && forall k :: k in index && k != b ==> Step(index, v)[k] == index[k]
  {
  }

  lemma StepKeepsWellFormed(index: SearchStringIndex, v: Visit)
    requires Shaped(v) && WellFormed(index)
    ensures WellFormed(Step(index, v))
  {
  }

  /** The index after a sequence of `addRow` calls, starting from `index`. */
  function Fold(index: SearchStringIndex, vs: seq<Visit>): SearchStringIndex
    requires AllShaped(vs)
    decreases |vs|
  {
    if |vs| == 0 then index
    else Step(Fold(index, vs[..|vs| - 1]), vs[|vs| - 1])
  }

  lemma FoldAppend(index: SearchStringIndex, vs: seq<Visit>, v: Visit)
    requires AllShaped(vs) && Shaped(v)
    ensures AllShaped(vs + [v])
    ensures Fold(index, vs + [v]) == Step(Fold(index, vs), v)
  {
    assert (vs + [v])[..|vs|] == vs;
  }

  /** Reference definition: the records of the tradable visits of band `b`, in visiting order. */
  function Bucket(vs: seq<Visit>, b: int): (es: seq<SearchEntry>)
    requires AllShaped(vs)
    ensures |es| <= |vs|
    decreases |vs|
  {
    if |vs| == 0 then []
    else
      var v := vs[|vs| - 1];
      var pre := Bucket(vs[..|vs| - 1], b);
      if Contributes(v) && GetChunkIndex(Read(v).1.searchPriority) == b then pre + [Read(v).1] else pre
  }

  /** The built index is well formed, has a bucket exactly for the bands that received a record,
      and each bucket holds that band's records in visiting order. */
  lemma {:induction false} FoldIsBuckets(vs: seq<Visit>)
    requires AllShaped(vs)
    ensures WellFormed(Fold(map[], vs))
    ensures forall b :: b in Fold(map[], vs) <==> Bucket(vs, b) != []
    ensures forall b :: b in Fold(map[], vs) ==> Fold(map[], vs)[b] == Bucket(vs, b)
    decreases |vs|
  {
    if |vs| > 0 {
      var pre := vs[..|vs| - 1];
      var v := vs[|vs| - 1];
      FoldIsBuckets(pre);
      StepEffect(Fold(map[], pre), v);
      StepKeepsWellFormed(Fold(map[], pre), v);
    }
  }

  /** `searchStringIndexHandler`. */
  class SearchStringIndexHandler {
    var index: SearchStringIndex

    constructor()
      ensures index == map[]
    {
      index := map[];
    }

    method AddRow(v: Visit)
      requires Shaped(v)
      modifies this
      ensures index == Step(old(index), v)
    {
      var exchangeSymbol, searchString, searchPriority, location, isAslAllowed;
      IncludesEquityIffFlatEquity(v.segment);
      IncludesUnderlyingIffFlatUnderlying(v.segment);
      if Includes(Name(v.segment), "EQUITY") {
        var item := v.row.equity;
        exchangeSymbol := item.exchangeSymbol;
        isAslAllowed := item.aslAllowed;
        searchString := item.searchable;
        searchPriority := item.searchPriority;
        location := Flat(v.segment, v.itemIndex);
      } else if Includes(Name(v.segment), "UNDERLYING") {
        var item := v.row.underlyingRow;
        exchangeSymbol := item.exchangeSymbol;
        isAslAllowed := item.aslAllowed;
        searchString := item.searchable;
        searchPriority := item.searchPriority;
        location := Flat(v.segment, v.itemIndex);
      } else {
        exchangeSymbol := v.group.exchangeSymbol;
        isAslAllowed := v.leg.aslAllowed;
        searchString := v.leg.searchable;
        searchPriority := v.leg.searchPriority;
        location := Leg(v.segment, v.itemIndex, LegsPosition, v.legIndex);
      }
      if isAslAllowed == "N" {
        return;
      }
      var searchObj := SearchEntry(searchString, location, searchPriority, exchangeSymbol);
      var chunkIndex := GetChunkIndex(searchPriority);
      if chunkIndex !in index {
        index := index[chunkIndex := []];
      }
      index := index[chunkIndex := index[chunkIndex] + [searchObj]];
    }

    function GetIndex(): (r: SearchStringIndex)
      reads this
      ensures r == index
    {
      index
    }
  }
}
