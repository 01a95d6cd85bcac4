/** The snapshot's record layouts, locations and index shapes. Each positional tuple of the
    snapshot is a datatype whose fields are listed in tuple order; fields the catalogue code
    inspects carry their own type, the others stay JSON scalars. */
module Records {
  import opened Js
  import opened Segments

  /** A scalar that is a number or null, and a scalar that is a string or null. */
  predicate NumOrNull(v: Value) { v.Num? || v.Null? }
  predicate StrOrNull(v: Value) { v.Str? || v.Null? }

  function OptNum(v: Value): (o: Option<int>)
    requires NumOrNull(v)
    ensures OfNum(o) == v
  {
    if v.Num? then Some(v.n) else None
  }

  function OptStr(v: Value): (o: Option<string>)
    requires StrOrNull(v)
    ensures OfStr(o) == v
  {
    if v.Str? then Some(v.s) else None
  }

  /** One record of an equity segment (25 positions). */
  datatype EquityRow = EquityRow(
    scriptId: int,  // 0
    odinTokenId: Value,  // 1
    exchangeSecurityId: Value,  // 2
    aslAllowed: string,  // 3
    exchangeSymbol: Option<string>,  // 4
    exchangeSeries: Value,  // 5
    isinCode: Option<string>,  // 6
    coName: Value,  // 7
    lotSize: Value,  // 8
    tickSize: Value,  // 9
    nriAllowed: Value,  // 10
    closePrice: Value,  // 11
    assetClass: Value,  // 12
    searchable: string,  // 13
    searchPriority: Option<int>,  // 14
    yesterdayOpenInt: Value,  // 15
    maxSingleOrderQty: Value,  // 16
    underlying: Option<int>,  // 17
    asmFlag: Value,  // 18
    odinLlfcSegmentId: Value,  // 19
    cmotsCoCode: Value,  // 20
    dprLow: Value,  // 21
    dprHigh: Value,  // 22
    fiftyTwoWeekLow: Value,  // 23
    fiftyTwoWeekHigh: Value)  // 24

  /** One record of an underlying segment (22 positions: no series, no ISIN, no order-quantity cap). */
  datatype UnderlyingRow = UnderlyingRow(
    scriptId: int,  // 0
    odinTokenId: Value,  // 1
    exchangeSecurityId: Value,  // 2
    aslAllowed: string,  // 3
    exchangeSymbol: Option<string>,  // 4
    coName: Value,  // 5
    lotSize: Value,  // 6
    tickSize: Value,  // 7
    nriAllowed: Value,  // 8
    closePrice: Value,  // 9
    assetClass: Value,  // 10
    searchable: string,  // 11
    searchPriority: Option<int>,  // 12
    yesterdayOpenInt: Value,  // 13
    underlying: Option<int>,  // 14
    asmFlag: Value,  // 15
    odinLlfcSegmentId: Value,  // 16
    cmotsCoCode: Value,  // 17
    dprLow: Value,  // 18
    dprHigh: Value,  // 19
    fiftyTwoWeekLow: Value,  // 20
    fiftyTwoWeekHigh: Value)  // 21

  /** One contract inside a derivative group (24 positions). */
  datatype DerivativeLeg = DerivativeLeg(
    scriptId: int,  // 0
    odinTokenId: Value,  // 1
    exchangeSecurityId: Value,  // 2
    aslAllowed: string,  // 3
    coName: Value,  // 4
    expiryDate: Value,  // 5
    strikePrice: Value,  // 6
    optionType: Value,  // 7
    lotSize: Value,  // 8
    tickSize: Value,  // 9
    nriAllowed: Value,  // 10
    closePrice: Value,  // 11
    searchable: string,  // 12
    searchPriority: Option<int>,  // 13
    yesterdayOpenInt: Value,  // 14
    maxSingleOrderQty: Value,  // 15
    underlying: Option<int>,  // 16
    asmFlag: Value,  // 17
    odinLlfcSegmentId: Value,  // 18
    cmotsCoCode: Value,  // 19
    dprLow: Value,  // 20
    dprHigh: Value,  // 21
    fiftyTwoWeekLow: Value,  // 22
    fiftyTwoWeekHigh: Value)  // 23

  /** One record of a nested segment: four positions, the legs array always at position 3. */
  datatype DerivativeGroup = DerivativeGroup(
    exchangeSymbol: Option<string>,  // 0
    underlying: Option<int>,     // 1
    assetClass: Value,           // 2
    legs: seq<DerivativeLeg>)    // 3

  /** The position of the legs array inside a group tuple. */
  const LegsPosition: nat := 3

  /** The row as the positional JSON array it arrives as. */
  function EquityTuple(r: EquityRow): (t: seq<Value>)
    ensures |t| == 25
  {
    [ Num(r.scriptId),
      r.odinTokenId,
      r.exchangeSecurityId,
      Str(r.aslAllowed),
      OfStr(r.exchangeSymbol),
      r.exchangeSeries,
      OfStr(r.isinCode),
      r.coName,
      r.lotSize,
      r.tickSize,
      r.nriAllowed,
      r.closePrice,
      r.assetClass,
      Str(r.searchable),
      OfNum(r.searchPriority),
      r.yesterdayOpenInt,
      r.maxSingleOrderQty,
      OfNum(r.underlying),
      r.asmFlag,
      r.odinLlfcSegmentId,
      r.cmotsCoCode,
      r.dprLow,
      r.dprHigh,
      r.fiftyTwoWeekLow,
      r.fiftyTwoWeekHigh ]
  }

  /** Reads a positional JSON array as a row: exactly 25 positions, each of its field's type. */
  function EquityOfTuple(t: seq<Value>): Option<EquityRow>
  {
    if |t| == 25
      && t[0].Num?
      && t[3].Str?
      && StrOrNull(t[4])
      && StrOrNull(t[6])
      && t[13].Str?
      && NumOrNull(t[14])
      && NumOrNull(t[17])
    then Some(EquityRow(
      t[0].n,
      t[1],
      t[2],
      t[3].s,
      OptStr(t[4]),
      t[5],
      OptStr(t[6]),
      t[7],
      t[8],
      t[9],
      t[10],
      t[11],
      t[12],
      t[13].s,
      OptNum(t[14]),
      t[15],
      t[16],
      OptNum(t[17]),
      t[18],
      t[19],
      t[20],
      t[21],
      t[22],
      t[23],
      t[24]))
    else None
  }

  /** The row as the positional JSON array it arrives as. */
  function UnderlyingTuple(r: UnderlyingRow): (t: seq<Value>)
    ensures |t| == 22
  {
    [ Num(r.scriptId),
      r.odinTokenId,
      r.exchangeSecurityId,
      Str(r.aslAllowed),
      OfStr(r.exchangeSymbol),
      r.coName,
      r.lotSize,
      r.tickSize,
      r.nriAllowed,
      r.closePrice,
      r.assetClass,
      Str(r.searchable),
      OfNum(r.searchPriority),
      r.yesterdayOpenInt,
      OfNum(r.underlying),
      r.asmFlag,
      r.odinLlfcSegmentId,
      r.cmotsCoCode,
      r.dprLow,
      r.dprHigh,
      r.fiftyTwoWeekLow,
      r.fiftyTwoWeekHigh ]
  }

  /** Reads a positional JSON array as a row: exactly 22 positions, each of its field's type. */
  function UnderlyingOfTuple(t: seq<Value>): Option<UnderlyingRow>
  {
    if |t| == 22
      && t[0].Num?
      && t[3].Str?
      && StrOrNull(t[4])
      && t[11].Str?
      && NumOrNull(t[12])
      && NumOrNull(t[14])
    then Some(UnderlyingRow(
      t[0].n,
      t[1],
      t[2],
      t[3].s,
      OptStr(t[4]),
      t[5],
      t[6],
      t[7],
      t[8],
      t[9],
      t[10],
      t[11].s,
      OptNum(t[12]),
      t[13],
      OptNum(t[14]),
      t[15],
      t[16],
      t[17],
      t[18],
      t[19],
      t[20],
      t[21]))
    else None
  }

  /** The row as the positional JSON array it arrives as. */
  function LegTuple(r: DerivativeLeg): (t: seq<Value>)
    ensures |t| == 24
  {
    [ Num(r.scriptId),
      r.odinTokenId,
      r.exchangeSecurityId,
      Str(r.aslAllowed),
      r.coName,
      r.expiryDate,
      r.strikePrice,
      r.optionType,
      r.lotSize,
      r.tickSize,
      r.nriAllowed,
      r.closePrice,
      Str(r.searchable),
      OfNum(r.searchPriority),
      r.yesterdayOpenInt,
      r.maxSingleOrderQty,
      OfNum(r.underlying),
      r.asmFlag,
      r.odinLlfcSegmentId,
      r.cmotsCoCode,
      r.dprLow,
      r.dprHigh,
      r.fiftyTwoWeekLow,
      r.fiftyTwoWeekHigh ]
  }

  /** Reads a positional JSON array as a row: exactly 24 positions, each of its field's type. */
  function LegOfTuple(t: seq<Value>): Option<DerivativeLeg>
  {
    if |t| == 24
      && t[0].Num?
      && t[3].Str?
      && t[12].Str?
      && NumOrNull(t[13])
      && NumOrNull(t[16])
    then Some(DerivativeLeg(
      t[0].n,
      t[1],
      t[2],
      t[3].s,
      t[4],
      t[5],
      t[6],
      t[7],
      t[8],
      t[9],
      t[10],
      t[11],
      t[12].s,
      OptNum(t[13]),
      t[14],
      t[15],
      OptNum(t[16]),
      t[17],
      t[18],
      t[19],
      t[20],
      t[21],
      t[22],
      t[23]))
    else None
  }

  /** A well-typed row survives the trip to its JSON array and back. */
  lemma EquityTupleRoundTrip(r: EquityRow)
    ensures EquityOfTuple(EquityTuple(r)) == Some(r)
  {
  }

  /** Conversely, an array that reads as a row is exactly that row's array. */
  lemma EquityTupleFaithful(t: seq<Value>)
    requires EquityOfTuple(t).Some?
    ensures EquityTuple(EquityOfTuple(t).value) == t
  {
  }

  lemma UnderlyingTupleRoundTrip(r: UnderlyingRow)
    ensures UnderlyingOfTuple(UnderlyingTuple(r)) == Some(r)
  {
  }

  lemma UnderlyingTupleFaithful(t: seq<Value>)
    requires UnderlyingOfTuple(t).Some?
    ensures UnderlyingTuple(UnderlyingOfTuple(t).value) == t
  {
  }

  lemma LegTupleRoundTrip(r: DerivativeLeg)
    ensures LegOfTuple(LegTuple(r)) == Some(r)
  {
  }

  lemma LegTupleFaithful(t: seq<Value>)
    requires LegOfTuple(t).Some?
    ensures LegTuple(LegOfTuple(t).value) == t
  {
  }

  /** One record of a segment's list, of the segment's structural kind. */
  datatype Row =
    | Equity(equity: EquityRow)
    | Underlying(underlyingRow: UnderlyingRow)
    | Derivatives(group: DerivativeGroup)

  /** The scheme-independent fields every flat row shares. */
  function RowScriptId(row: Row): int
    requires !row.Derivatives?
  {
    if row.Equity? then row.equity.scriptId else row.underlyingRow.scriptId
  }

  predicate RowFits(kind: StructureKind, row: Row) {
    match kind
    case FlatEquity => row.Equity?
    case FlatUnderlying => row.Underlying?
    case Nested => row.Derivatives?
  }

  /** The snapshot: each present segment maps to its row list. */
  type MasterData = map<Segment, seq<Row>>

  /** Every row has the layout its segment's structural kind prescribes. */
  predicate WellShaped(md: MasterData) {
    forall s, i :: s in md && 0 <= i < |md[s]| ==> RowFits(KindOf(s), md[s][i])
  }

  /** Where a script lives: a flat row, or a leg of a group (the middle `3` is the legs position). */
  datatype Location =
    | Flat(segment: Segment, itemIndex: nat)
    | Leg(segment: Segment, itemIndex: nat, legsPosition: nat, legIndex: nat)

  /** The location as the array the index stores (`TScriptIdIndexValue`): `[segmentKey, itemIndex]`,
      or `[segmentKey, itemIndex, legsPosition, legIndex]` for a leg. */
  function LocationArray(loc: Location): seq<Value> {
    match loc
    case Flat(s, i) => [Str(Name(s)), Num(i)]
    case Leg(s, i, p, k) => [Str(Name(s)), Num(i), Num(p), Num(k)]
  }

  /** The stored array determines the location: no two locations are stored alike. */
  lemma LocationArrayInjective(a: Location, b: Location)
    ensures LocationArray(a) == LocationArray(b) ==> a == b
  {
    if LocationArray(a) == LocationArray(b) {
      assert LocationArray(a)[0] == LocationArray(b)[0];
      NameInjective(a.segment, b.segment);
    }
  }

  /** Script id to location. */
  type ScriptIdIndex = map<int, Location>

  /** ISIN to the ids of its tradable equity scripts, in visiting order. */
  type IsinCodeIndex = map<string, seq<int>>

  /** The `{ FUTURES, OPTIONS }` pair of id lists for one underlying. */
  datatype DerivativeIds = DerivativeIds(futures: seq<int>, options: seq<int>)

  /** Underlying script id to the ids of its derivative contracts. */
  type DerivativesIndex = map<int, DerivativeIds>

  /** One searchable record. */
  datatype SearchEntry = SearchEntry(
    searchString: string,
    data: Location,
    searchPriority: Option<int>,
    exchangeSymbol: Option<string>)

  /** Priority band to its search records, in visiting order. */
  type SearchStringIndex = map<int, seq<SearchEntry>>

  /** One call of a handler's `addRow`: a flat row, or one leg of a group together with the group. */
  datatype Visit =
    | FlatVisit(segment: Segment, itemIndex: nat, row: Row)
    | LegVisit(segment: Segment, itemIndex: nat, group: DerivativeGroup, legIndex: nat, leg: DerivativeLeg)

  /** The visits the traversal produces: flat rows of a flat segment, legs of a nested one. */
  predicate Shaped(v: Visit) {
    match v
    case FlatVisit(s, _, row) => KindOf(s) != Nested && RowFits(KindOf(s), row)
    case LegVisit(s, _, _, _, _) => KindOf(s) == Nested
  }

  predicate AllShaped(vs: seq<Visit>) {
    forall j :: 0 <= j < |vs| ==> Shaped(vs[j])
  }
}
