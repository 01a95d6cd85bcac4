/** The lookup layer: decoding a location into a script record, field projection, and the
    lookups by script id, by ISIN and of derivatives. The store is passed in as values. */
module SecMaster {
  import opened Js
  import opened Segments
  import opened Records
  import F = ScriptFields
  import S0 = ScriptIdIndexing

  type Script = F.Script

  /** `_getSegmentDetails`: the three `_`-separated tokens of a segment name. */
  datatype SegmentDetails = SegmentDetails(exchange: string, segment: string, instrumentType: string)

  function GetSegmentDetails(s: Segment): (d: SegmentDetails)
  {
    SegmentDetails(Parts(s).0, Parts(s).1, Parts(s).2)
  }

  /** The details are `_`-free and join back to the segment name, and the instrument type names
      the segment's structure. */
  lemma SegmentDetailsSplitName(s: Segment)
    ensures var d := GetSegmentDetails(s);
      && Split(Name(s), '_') == [d.exchange, d.segment, d.instrumentType]
      && Name(s) == d.exchange + "_" + d.segment + "_" + d.instrumentType
      && '_' !in d.exchange && '_' !in d.segment && '_' !in d.instrumentType
      && (d.instrumentType == "EQUITY" <==> KindOf(s) == FlatEquity)
      && (d.instrumentType == "UNDERLYING" <==> KindOf(s) == FlatUnderlying)
  {
    NameJoinsParts(s);
    var t := Tokens(s);
    KindFollowsInstrumentToken(s);
  }

  /** The property names of an equity record. */
  const EquityFields: set<F.Field> := {F.segment, F.exchange, F.instrumentType, F.scriptId, F.odinTokenId, F.exchangeSecurityId, F.aslAllowed, F.exchangeSymbol, F.exchangeSeries, F.isinCode, F.coName, F.lotSize, F.tickSize, F.nriAllowed, F.closePrice, F.assetClass, F.searchable, F.searchPriority, F.yesterdayOpenInt, F.maxSingleOrderQty, F.underlying, F.asmFlag, F.odinLlfcSegmentId, F.cmotsCoCode, F.dprLow, F.dprHigh, F.fiftyTwoWeekLow, F.fiftyTwoWeekHigh}

  /** The value of one property of an equity record. */
  function EquityValue(d: SegmentDetails, r: EquityRow, f: F.Field): Value
    requires f in EquityFields
  {
    match f
    case segment => Str(d.segment)
    case exchange => Str(d.exchange)
    case instrumentType => Str(d.instrumentType)
    case scriptId => Num(r.scriptId)
    case odinTokenId => r.odinTokenId
    case exchangeSecurityId => r.exchangeSecurityId
    case aslAllowed => Str(r.aslAllowed)
    case exchangeSymbol => OfStr(r.exchangeSymbol)
    case exchangeSeries => r.exchangeSeries
    case isinCode => OfStr(r.isinCode)
    case coName => r.coName
    case lotSize => r.lotSize
    case tickSize => r.tickSize
    case nriAllowed => r.nriAllowed
    case closePrice => r.closePrice
    case assetClass => r.assetClass
    case searchable => Str(r.searchable)
    case searchPriority => OfNum(r.searchPriority)
    case yesterdayOpenInt => r.yesterdayOpenInt
    case maxSingleOrderQty => r.maxSingleOrderQty
    case underlying => OfNum(r.underlying)
    case asmFlag => r.asmFlag
    case odinLlfcSegmentId => r.odinLlfcSegmentId
    case cmotsCoCode => r.cmotsCoCode
    case dprLow => r.dprLow
    case dprHigh => r.dprHigh
    case fiftyTwoWeekLow => r.fiftyTwoWeekLow
    case fiftyTwoWeekHigh => r.fiftyTwoWeekHigh
  }

  /** `_mapFlattenEquityScriptToScript` on a found row: the segment's tokens, then the tuple's
      positions under their names. */
  function EquityScript(d: SegmentDetails, r: EquityRow): Script {
    map f | f in EquityFields :: EquityValue(d, r, f)
  }

  /** The property names of an underlying record. */
  const UnderlyingFields: set<F.Field> := {F.segment, F.exchange, F.instrumentType, F.scriptId, F.odinTokenId, F.exchangeSecurityId, F.aslAllowed, F.exchangeSymbol, F.coName, F.lotSize, F.tickSize, F.nriAllowed, F.closePrice, F.assetClass, F.searchable, F.searchPriority, F.yesterdayOpenInt, F.underlying, F.asmFlag, F.odinLlfcSegmentId, F.cmotsCoCode, F.dprLow, F.dprHigh, F.fiftyTwoWeekLow, F.fiftyTwoWeekHigh}

  /** The value of one property of an underlying record. */
  function UnderlyingValue(d: SegmentDetails, r: UnderlyingRow, f: F.Field): Value
    requires f in UnderlyingFields
  {
    match f
    case segment => Str(d.segment)
    case exchange => Str(d.exchange)
    case instrumentType => Str(d.instrumentType)
    case scriptId => Num(r.scriptId)
    case odinTokenId => r.odinTokenId
    case exchangeSecurityId => r.exchangeSecurityId
    case aslAllowed => Str(r.aslAllowed)
    case exchangeSymbol => OfStr(r.exchangeSymbol)
    case coName => r.coName
    case lotSize => r.lotSize
    case tickSize => r.tickSize
    case nriAllowed => r.nriAllowed
    case closePrice => r.closePrice
    case assetClass => r.assetClass
    case searchable => Str(r.searchable)
    case searchPriority => OfNum(r.searchPriority)
    case yesterdayOpenInt => r.yesterdayOpenInt
    case underlying => OfNum(r.underlying)
    case asmFlag => r.asmFlag
    case odinLlfcSegmentId => r.odinLlfcSegmentId
    case cmotsCoCode => r.cmotsCoCode
    case dprLow => r.dprLow
    case dprHigh => r.dprHigh
    case fiftyTwoWeekLow => r.fiftyTwoWeekLow
    case fiftyTwoWeekHigh => r.fiftyTwoWeekHigh
  }

  /** `_mapFlattenUnderlingScriptToScript` on a found row. */
  function UnderlyingScript(d: SegmentDetails, r: UnderlyingRow): Script {
    map f | f in UnderlyingFields :: UnderlyingValue(d, r, f)
  }

  /** The property names of a leg's record. */
  const DerivativeFields: set<F.Field> := {F.segment, F.exchange, F.instrumentType, F.exchangeSymbol, F.assetClass, F.scriptId, F.odinTokenId, F.exchangeSecurityId, F.aslAllowed, F.coName, F.expiryDate, F.strikePrice, F.optionType, F.lotSize, F.tickSize, F.nriAllowed, F.closePrice, F.searchable, F.searchPriority, F.yesterdayOpenInt, F.maxSingleOrderQty, F.underlying, F.asmFlag, F.odinLlfcSegmentId, F.cmotsCoCode, F.dprLow, F.dprHigh, F.fiftyTwoWeekLow, F.fiftyTwoWeekHigh}

  /** The value of one property of a leg's record. */
  function DerivativeValue(d: SegmentDetails, g: DerivativeGroup, r: DerivativeLeg, f: F.Field): Value
    requires f in DerivativeFields
  {
    match f
    case segment => Str(d.segment)
    case exchange => Str(d.exchange)
    case instrumentType => Str(d.instrumentType)
    case exchangeSymbol => OfStr(g.exchangeSymbol)
    case assetClass => g.assetClass
    case scriptId => Num(r.scriptId)
    case odinTokenId => r.odinTokenId
    case exchangeSecurityId => r.exchangeSecurityId
    case aslAllowed => Str(r.aslAllowed)
    case coName => r.coName
    case expiryDate => r.expiryDate
    case strikePrice => r.strikePrice
    case optionType => r.optionType
    case lotSize => r.lotSize
    case tickSize => r.tickSize
    case nriAllowed => r.nriAllowed
    case closePrice => r.closePrice
    case searchable => Str(r.searchable)
    case searchPriority => OfNum(r.searchPriority)
    case yesterdayOpenInt => r.yesterdayOpenInt
    case maxSingleOrderQty => r.maxSingleOrderQty
    case underlying => OfNum(r.underlying)
    case asmFlag => r.asmFlag
    case odinLlfcSegmentId => r.odinLlfcSegmentId
    case cmotsCoCode => r.cmotsCoCode
    case dprLow => r.dprLow
    case dprHigh => r.dprHigh
    case fiftyTwoWeekLow => r.fiftyTwoWeekLow
    case fiftyTwoWeekHigh => r.fiftyTwoWeekHigh
  }

  /** `_mapFlattenDerivativeScriptToScript` on a found leg: the segment's tokens, the group's symbol
      and asset class, then the leg's own fields. */
  function DerivativeScript(d: SegmentDetails, g: DerivativeGroup, r: DerivativeLeg): Script {
    map f | f in DerivativeFields :: DerivativeValue(d, g, r, f)
  }

  /** An equity record carries the segment name's tokens and the row's id, ISIN and underlying. */
  lemma EquityScriptFields(d: SegmentDetails, r: EquityRow)
    ensures EquityScript(d, r)[F.exchange] == Str(d.exchange)
    ensures EquityScript(d, r)[F.segment] == Str(d.segment)
    ensures EquityScript(d, r)[F.instrumentType] == Str(d.instrumentType)
    ensures EquityScript(d, r)[F.scriptId] == Num(r.scriptId)
    ensures EquityScript(d, r)[F.isinCode] == OfStr(r.isinCode)
    ensures EquityScript(d, r)[F.underlying] == OfNum(r.underlying)
  {
  }

  /** An underlying record carries the tokens and the row's id and underlying, and no ISIN. */
  lemma UnderlyingScriptFields(d: SegmentDetails, r: UnderlyingRow)
    ensures UnderlyingScript(d, r)[F.exchange] == Str(d.exchange)
    ensures UnderlyingScript(d, r)[F.segment] == Str(d.segment)
    ensures UnderlyingScript(d, r)[F.instrumentType] == Str(d.instrumentType)
    ensures UnderlyingScript(d, r)[F.scriptId] == Num(r.scriptId)
    ensures UnderlyingScript(d, r)[F.underlying] == OfNum(r.underlying)
    ensures F.isinCode !in UnderlyingScript(d, r)
  {
  }

  /** A leg's record carries the tokens, the leg's own id and underlying and the group's symbol and
      asset class, and no ISIN. */
  lemma DerivativeScriptFields(d: SegmentDetails, g: DerivativeGroup, r: DerivativeLeg)
    ensures DerivativeScript(d, g, r)[F.exchange] == Str(d.exchange)
    ensures DerivativeScript(d, g, r)[F.segment] == Str(d.segment)
    ensures DerivativeScript(d, g, r)[F.instrumentType] == Str(d.instrumentType)
    ensures DerivativeScript(d, g, r)[F.scriptId] == Num(r.scriptId)
    ensures DerivativeScript(d, g, r)[F.underlying] == OfNum(r.underlying)
    ensures DerivativeScript(d, g, r)[F.exchangeSymbol] == OfStr(g.exchangeSymbol)
    ensures DerivativeScript(d, g, r)[F.assetClass] == g.assetClass
    ensures F.isinCode !in DerivativeScript(d, g, r)
  {
  }

  /** A location whose segment and row exist in the snapshot. */
  predicate Resolvable(md: MasterData, loc: Location) {
    loc.segment in md && loc.itemIndex < |md[loc.segment]|
  }

  /** `_mapFlattenEquityScriptToScript`: an absent segment or row makes the destructuring throw. */
  function DecodeEquity(md: MasterData, loc: Location): (r: Outcome<Option<Script>>)
    requires WellShaped(md) && KindOf(loc.segment) == FlatEquity
    ensures r.Crash? <==> !Resolvable(md, loc)
    ensures r.Done? ==> r.value == Some(EquityScript(GetSegmentDetails(loc.segment), md[loc.segment][loc.itemIndex].equity))
  {
    if !Resolvable(md, loc) then Crash
    else Done(Some(EquityScript(GetSegmentDetails(loc.segment), md[loc.segment][loc.itemIndex].equity)))
  }

  /** `_mapFlattenUnderlingScriptToScript`. */
  function DecodeUnderlying(md: MasterData, loc: Location): (r: Outcome<Option<Script>>)
    requires WellShaped(md) && KindOf(loc.segment) == FlatUnderlying
    ensures r.Crash? <==> !Resolvable(md, loc)
    ensures r.Done? ==> r.value == Some(UnderlyingScript(GetSegmentDetails(loc.segment), md[loc.segment][loc.itemIndex].underlyingRow))
  {
    if !Resolvable(md, loc) then Crash
    else Done(Some(UnderlyingScript(GetSegmentDetails(loc.segment), md[loc.segment][loc.itemIndex].underlyingRow)))
  }

  /** `_mapFlattenDerivativeScriptToScript`: the leg is picked from the group's leg list by the
      location's last element; a two-element location, or one past the last leg, gives undefined.
      The location's third element is not read. */
  function DecodeDerivative(md: MasterData, loc: Location): (r: Outcome<Option<Script>>)
    requires WellShaped(md) && KindOf(loc.segment) == Nested
    ensures r.Crash? <==> !Resolvable(md, loc)
    ensures r.Done? ==>
      var g := md[loc.segment][loc.itemIndex].group;
      r.value == if loc.Leg? && loc.legIndex < |g.legs|
                 then Some(DerivativeScript(GetSegmentDetails(loc.segment), g, g.legs[loc.legIndex])) else None
  {
    if !Resolvable(md, loc) then Crash
    else
      var g := md[loc.segment][loc.itemIndex].group;
      if loc.Flat? || loc.legIndex >= |g.legs| then Done(None)
      else Done(Some(DerivativeScript(GetSegmentDetails(loc.segment), g, g.legs[loc.legIndex])))
  }

  /** A record carries the `_` tokens of its segment's name as exchange, segment and instrument type. */
  predicate CarriesTokens(script: Script, s: Segment) {
    && F.exchange in script && script[F.exchange] == Str(Tokens(s)[0])
    && F.segment in script && script[F.segment] == Str(Tokens(s)[1])
    && F.instrumentType in script && script[F.instrumentType] == Str(Tokens(s)[2])
  }

  /** What a decoded equity row holds: exactly the equity layout's properties, the segment name's
      tokens, and the row's id, ISIN and underlying. */
  lemma DecodedEquityRecord(md: MasterData, loc: Location)
    requires WellShaped(md) && KindOf(loc.segment) == FlatEquity
    ensures var r := DecodeEquity(md, loc);
      r.Done? ==>
        var row := md[loc.segment][loc.itemIndex].equity;
        && r.value.Some? && r.value.value.Keys == EquityFields
        && CarriesTokens(r.value.value, loc.segment)
        && r.value.value[F.scriptId] == Num(row.scriptId)
        && r.value.value[F.isinCode] == OfStr(row.isinCode)
        && r.value.value[F.underlying] == OfNum(row.underlying)
  {
    if Resolvable(md, loc) {
      EquityScriptFields(GetSegmentDetails(loc.segment), md[loc.segment][loc.itemIndex].equity);
    }
  }

  /** What a decoded underlying row holds: exactly the underlying layout's properties, the segment
      name's tokens, the row's id and underlying, and no ISIN. */
  lemma DecodedUnderlyingRecord(md: MasterData, loc: Location)
    requires WellShaped(md) && KindOf(loc.segment) == FlatUnderlying
    ensures var r := DecodeUnderlying(md, loc);
      r.Done? ==>
        var row := md[loc.segment][loc.itemIndex].underlyingRow;
        && r.value.Some? && r.value.value.Keys == UnderlyingFields
        && CarriesTokens(r.value.value, loc.segment)
        && r.value.value[F.scriptId] == Num(row.scriptId)
        && r.value.value[F.underlying] == OfNum(row.underlying)
        && F.isinCode !in r.value.value
  {
    if Resolvable(md, loc) {
      UnderlyingScriptFields(GetSegmentDetails(loc.segment), md[loc.segment][loc.itemIndex].underlyingRow);
    }
  }

  /** What decoding a leg location gives: undefined exactly for a two-element location or a leg past
      the last; otherwise exactly the leg layout's properties, the segment name's tokens, the leg's
      id and underlying, and the group's symbol and asset class. */
  lemma DecodedDerivativeRecord(md: MasterData, loc: Location)
    requires WellShaped(md) && KindOf(loc.segment) == Nested
    ensures var r := DecodeDerivative(md, loc);
      r.Done? ==>
        var g := md[loc.segment][loc.itemIndex].group;
        && (r.value.None? <==> loc.Flat? || loc.legIndex >= |g.legs|)
        && (r.value.Some? ==>
              var leg := g.legs[loc.legIndex];
              && r.value.value.Keys == DerivativeFields
              && CarriesTokens(r.value.value, loc.segment)
              && r.value.value[F.scriptId] == Num(leg.scriptId)
              && r.value.value[F.underlying] == OfNum(leg.underlying)
              && r.value.value[F.exchangeSymbol] == OfStr(g.exchangeSymbol)
              && r.value.value[F.assetClass] == g.assetClass)
  {
    if Resolvable(md, loc) {
      var g := md[loc.segment][loc.itemIndex].group;
      if loc.Leg? && loc.legIndex < |g.legs| {
        DerivativeScriptFields(GetSegmentDetails(loc.segment), g, g.legs[loc.legIndex]);
      }
    }
  }

  /** `Object.fromEntries(populate.filter(key => key in script).map(...))`. */
  function Project(script: Script, populate: seq<F.Field>): (r: Script)
    ensures forall k :: k in r <==> k in script && k in populate
    ensures forall k :: k in r ==> r[k] == script[k]
    decreases |populate|
  {
    if |populate| == 0 then map[]
    else
      var r := Project(script, populate[..|populate| - 1]);
      var k := populate[|populate| - 1];
      if k in script then r[k := script[k]] else r
  }

  /** `getScriptByScriptIdIndexValue`: decode by the segment's instrument type, then keep only the
      requested properties when a non-empty `populate` is given and a record was found. */
  function GetScriptByScriptIdIndexValue(md: MasterData, loc: Location, populate: seq<F.Field>): Outcome<Option<Script>>
    requires WellShaped(md)
  {
    var instrumentType := GetSegmentDetails(loc.segment).instrumentType;
    var script :=
      if instrumentType == "EQUITY" then DecodeEquity(md, loc)
      else if instrumentType == "UNDERLYING" then DecodeUnderlying(md, loc)
      else DecodeDerivative(md, loc);
    if script.Done? && |populate| > 0 && script.value.Some? then Done(Some(Project(script.value.value, populate)))
    else script
  }

  /** The full record is decoded by the segment's structure; with a non-empty `populate` the result
      holds exactly the requested properties the record has, with the record's values. */
  lemma DecodeDispatchesOnKind(md: MasterData, loc: Location, populate: seq<F.Field>)
    requires WellShaped(md)
    ensures KindOf(loc.segment) == FlatEquity ==> GetScriptByScriptIdIndexValue(md, loc, []) == DecodeEquity(md, loc)
    ensures KindOf(loc.segment) == FlatUnderlying ==>
      GetScriptByScriptIdIndexValue(md, loc, []) == DecodeUnderlying(md, loc)
    ensures KindOf(loc.segment) == Nested ==> GetScriptByScriptIdIndexValue(md, loc, []) == DecodeDerivative(md, loc)
    ensures GetScriptByScriptIdIndexValue(md, loc, populate).Crash? <==> !Resolvable(md, loc)
    ensures GetScriptByScriptIdIndexValue(md, loc, populate).Done? ==>
      var full := GetScriptByScriptIdIndexValue(md, loc, []).value;
      var r := GetScriptByScriptIdIndexValue(md, loc, populate).value;
      && (r.Some? <==> full.Some?)
      && (r.Some? && |populate| == 0 ==> r == full)
      && (r.Some? && |populate| > 0 ==>
            (forall k :: k in r.value <==> k in full.value && k in populate) &&
            (forall k :: k in r.value ==> r.value[k] == full.value[k]))
  {
  }

  /** `_getScripByScripId`: an id missing from the script index gives undefined. */
  function GetScripByScripId(md: MasterData, sidx: ScriptIdIndex, id: int, populate: seq<F.Field>): Outcome<Option<Script>>
    requires WellShaped(md)
  {
    if id !in sidx then Done(None) else GetScriptByScriptIdIndexValue(md, sidx[id], populate)
  }

  /** The `.map` of `getScripsByScripIds`: one lookup per id, in order. */
  function LookupAll(md: MasterData, sidx: ScriptIdIndex, ids: seq<int>, populate: seq<F.Field>): (rs: seq<Outcome<Option<Script>>>)
    requires WellShaped(md)
    ensures |rs| == |ids|
  {
    seq(|ids|, i requires 0 <= i < |ids| => GetScripByScripId(md, sidx, ids[i], populate))
  }

  /** The `.filter(script => script !== undefined)`, after a `.map` in which any lookup may throw. */
  function KeepDefined(rs: seq<Outcome<Option<Script>>>): Outcome<seq<Script>>
    decreases |rs|
  {
    if |rs| == 0 then Done([])
    else
      var pre := KeepDefined(rs[..|rs| - 1]);
      var last := rs[|rs| - 1];
      if pre.Crash? || last.Crash? then Crash
      else if last.value.Some? then Done(pre.value + [last.value.value])
      else pre
  }

  /** `getScripsByScripIds`: a missing id list gives the empty list. */
  function GetScripsByScripIds(md: MasterData, sidx: ScriptIdIndex, ids: Option<seq<int>>, populate: seq<F.Field>): Outcome<seq<Script>>
    requires WellShaped(md)
  {
    if ids.None? then Done([]) else KeepDefined(LookupAll(md, sidx, ids.value, populate))
  }

  /** Reference definition, front to back: the found records in order; `None` when a lookup throws. */
  function Found(rs: seq<Outcome<Option<Script>>>): Option<seq<Script>>
    decreases |rs|
  {
    if |rs| == 0 then Some([])
    else
      var rest := Found(rs[1..]);
      if rs[0].Crash? || rest.None? then None
      else if rs[0].value.Some? then Some([rs[0].value.value] + rest.value)
      else rest
  }

  /** Filtering a concatenation concatenates the filtered parts. */
  lemma {:induction false} KeepDefinedAppend(a: seq<Outcome<Option<Script>>>, b: seq<Outcome<Option<Script>>>)
    ensures KeepDefined(a + b) ==
      if KeepDefined(a).Crash? || KeepDefined(b).Crash? then Crash
      else Done(KeepDefined(a).value + KeepDefined(b).value)
    decreases |b|
  {
    if |b| == 0 {
      assert a + b == a;
      if KeepDefined(a).Done? {
        assert KeepDefined(a).value + [] == KeepDefined(a).value;
      }
    } else {
      var b' := b[..|b| - 1];
      assert (a + b)[..|a + b| - 1] == a + b';
      assert (a + b)[|a + b| - 1] == b[|b| - 1];
      KeepDefinedAppend(a, b');
      var ka, kb' := KeepDefined(a), KeepDefined(b');
      var last := b[|b| - 1];
      if !ka.Crash? && !kb'.Crash? && !last.Crash? && last.value.Some? {
        assert ka.value + kb'.value + [last.value.value] == ka.value + (kb'.value + [last.value.value]);
      }
    }
  }

  /** The left-to-right filter agrees with the front-to-back reference. */
  lemma {:induction false} KeepDefinedIsFound(rs: seq<Outcome<Option<Script>>>)
    ensures KeepDefined(rs).Done? <==> Found(rs).Some?
    ensures KeepDefined(rs).Done? ==> KeepDefined(rs).value == Found(rs).value
    decreases |rs|
  {
    if |rs| > 0 {
      KeepDefinedIsFound(rs[1..]);
      KeepDefinedAppend([rs[0]], rs[1..]);
      assert [rs[0]] + rs[1..] == rs;
      assert [rs[0]][..0] == [];
    }
  }

  /** The filter throws exactly when some lookup throws; it keeps at most one record per lookup,
      exactly one when every lookup finds its record, and none when every lookup gives undefined. */
  lemma {:induction false} KeepDefinedCounts(rs: seq<Outcome<Option<Script>>>)
    ensures KeepDefined(rs).Crash? <==> exists i :: 0 <= i < |rs| && rs[i].Crash?
    ensures KeepDefined(rs).Done? ==> |KeepDefined(rs).value| <= |rs|
    ensures (forall i :: 0 <= i < |rs| ==> rs[i] == Done(None)) ==> KeepDefined(rs) == Done([])
    ensures (forall i :: 0 <= i < |rs| ==> rs[i].Done? && rs[i].value.Some?) ==>
      KeepDefined(rs).Done? && |KeepDefined(rs).value| == |rs|
    decreases |rs|
  {
    if |rs| > 0 {
      var pre := rs[..|rs| - 1];
      KeepDefinedCounts(pre);
      if exists i :: 0 <= i < |pre| && pre[i].Crash? {
        var i :| 0 <= i < |pre| && pre[i].Crash?;
        assert rs[i] == pre[i];
      }
      if exists i :: 0 <= i < |rs| && rs[i].Crash? {
        var i :| 0 <= i < |rs| && rs[i].Crash?;
        if i < |pre| {
          assert pre[i] == rs[i];
        }
      }
    }
  }

  /** The records come back in the order of the ids; ids the index does not know are skipped. */
  lemma LookupOfUnknownIds(md: MasterData, sidx: ScriptIdIndex, ids: seq<int>, populate: seq<F.Field>)
    requires WellShaped(md)
    ensures (forall i :: 0 <= i < |ids| ==> ids[i] !in sidx) ==> GetScripsByScripIds(md, sidx, Some(ids), populate) == Done([])
    ensures GetScripsByScripIds(md, sidx, None, populate) == Done([])
  {
    KeepDefinedCounts(LookupAll(md, sidx, ids, populate));
  }

  /** `getScripsByIsinCode`: a falsy ISIN gives the empty list, and so does one the ISIN index does
      not know. */
  function GetScripsByIsinCode(md: MasterData, sidx: ScriptIdIndex, isinIdx: IsinCodeIndex,
                               isinCode: Option<string>, populate: seq<F.Field>): Outcome<seq<Script>>
    requires WellShaped(md)
  {
    if isinCode.None? || isinCode.value == "" then Done([])
    else GetScripsByScripIds(md, sidx, if isinCode.value in isinIdx then Some(isinIdx[isinCode.value]) else None, populate)
  }
}
