/** What the lookups return on the indexes a full build produces. */
module LookupConsistency {
  import opened Js
  import opened Segments
  import opened Records
  import F = ScriptFields
  import S0 = ScriptIdIndexing
  import S1 = IsinCodeIndexing
  import S2 = DerivativesIndexing
  import opened IndexBuilder
  import opened SecMaster
  import opened DerivativeLookup

  /** Every location the built script index holds names a segment and row of the snapshot. */
  lemma BuiltLocationsResolvable(md: MasterData)
    requires WellShaped(md)
    ensures AllResolvable(md, BuiltScriptIdIndex(md))
  {
    VisitsShaped(md);
    VisitsAreGenuine(md);
    var vs := Visits(md);
    S0.FoldValues(vs);
    forall id | id in BuiltScriptIdIndex(md)
      ensures Resolvable(md, BuiltScriptIdIndex(md)[id])
    {
      var j :| 0 <= j < |vs| && S0.ScriptIdOf(vs[j]) == id && S0.Fold(map[], vs)[id] == S0.LocationOf(vs[j]);
      assert Genuine(md, vs[j]);
    }
  }

  /** A visit carrying an id no later visit carries: the one the script index keeps. */
  predicate LastWithItsId(md: MasterData, v: Visit)
    requires WellShaped(md)
  {
    VisitsShaped(md);
    && v in Visits(md)
    && Shaped(v)
    && forall w :: w in Visits(md) && Shaped(w) && Before(v, w) ==> S0.ScriptIdOf(w) != S0.ScriptIdOf(v)
  }

  /** A flat row's recorded location decodes to a record of that row, carrying its id. */
  lemma FlatLocationDecodesToItsRow(md: MasterData, v: Visit)
    requires WellShaped(md) && v in Visits(md) && v.FlatVisit?
    ensures Shaped(v)
    ensures var r := GetScriptByScriptIdIndexValue(md, S0.LocationOf(v), []);
      r.Done? && r.value.Some? && r.value.value[F.scriptId] == Num(S0.ScriptIdOf(v))
  {
    VisitsShaped(md);
    VisitsAreGenuine(md);
    assert Genuine(md, v);
    var loc := S0.LocationOf(v);
    var d := GetSegmentDetails(v.segment);
    DecodeDispatchesOnKind(md, loc, []);
    if KindOf(v.segment) == FlatEquity {
      EquityScriptFields(d, v.row.equity);
    } else {
      UnderlyingScriptFields(d, v.row.underlyingRow);
    }
  }

  /** The location recorded for the leg at index `k > 0` decodes to that leg's record. The first leg
      of every group is recorded with a two-element location, which the derivative decoder reads
      as no leg at all: that leg's record cannot be found through its id. */
  lemma LegLocationAsRecorded(md: MasterData, v: Visit)
    requires WellShaped(md) && v in Visits(md) && v.LegVisit?
    ensures var r := GetScriptByScriptIdIndexValue(md, S0.LocationOf(v), []);
      && (v.legIndex == 0 ==> r == Done(None))
      && (v.legIndex != 0 ==> r.Done? && r.value.Some? && r.value.value[F.scriptId] == Num(v.leg.scriptId))
  {
    VisitsAreGenuine(md);
    assert Genuine(md, v);
    var loc := S0.LocationOf(v);
    DecodeDispatchesOnKind(md, loc, []);
    DerivativeScriptFields(GetSegmentDetails(v.segment), v.group, v.leg);
  }

  /** With the intended location every leg, the first included, decodes to its own record. */
  lemma LegLocationAsIntended(md: MasterData, v: Visit)
    requires WellShaped(md) && v in Visits(md) && v.LegVisit?
    ensures var r := GetScriptByScriptIdIndexValue(md, S0.IntendedLocationOf(v), []);
      r == Done(Some(DerivativeScript(GetSegmentDetails(v.segment), v.group, v.leg)))
      && r.value.value[F.scriptId] == Num(v.leg.scriptId)
  {
    VisitsAreGenuine(md);
    assert Genuine(md, v);
    DecodeDispatchesOnKind(md, S0.IntendedLocationOf(v), []);
    DerivativeScriptFields(GetSegmentDetails(v.segment), v.group, v.leg);
  }

  /** Looking an id up on the built index finds the record of the last row or leg carrying it,
      except when that is the first leg of a group, which gives undefined. */
  lemma LookupFindsLastOccurrence(md: MasterData, v: Visit)
    requires WellShaped(md) && LastWithItsId(md, v)
    ensures var r := GetScripByScripId(md, BuiltScriptIdIndex(md), S0.ScriptIdOf(v), []);
      && (v.LegVisit? && v.legIndex == 0 ==> r == Done(None))
      && (v.FlatVisit? || v.legIndex != 0 ==>
            r.Done? && r.value.Some? && r.value.value[F.scriptId] == Num(S0.ScriptIdOf(v)))
  {
    LaterOccurrenceWins(md, v);
    if v.FlatVisit? {
      FlatLocationDecodesToItsRow(md, v);
    } else {
      LegLocationAsRecorded(md, v);
    }
  }

  /** Neither ISIN sentinel, `"0"` or the empty string, is ever a key of the built ISIN index. */
  lemma SentinelIsinNeverIndexed(md: MasterData)
    requires WellShaped(md)
    ensures "0" !in BuiltIsinCodeIndex(md)
    ensures "" !in BuiltIsinCodeIndex(md)
  {
    VisitsShaped(md);
    S1.FoldIsIdsWithIsin(Visits(md));
  }

  /** An NSE equity row without a truthy underlying looks its derivatives up under its own id, and
      finds the futures and options of the legs whose group names that id as underlying; without
      a truthy ISIN it gives `{}` before looking. */
  lemma NseEquityUsesOwnId(md: MasterData, v: Visit, derivativeType: DerivativeType)
    requires WellShaped(md) && LastWithItsId(md, v)
    requires v.FlatVisit? && v.segment == NSE_EQ_EQUITY
    requires v.row.Equity? && (v.row.equity.underlying.None? || v.row.equity.underlying == Some(0))
    ensures var id := v.row.equity.scriptId;
      var r := GetDerivativeScripsByScripId(md, BuiltScriptIdIndex(md), BuiltIsinCodeIndex(md),
                                            BuiltDerivativesIndex(md), id, derivativeType, []);
      && (v.row.equity.isinCode.None? || v.row.equity.isinCode == Some("") ==> r == Done(EmptyObject))
      && (v.row.equity.isinCode.Some? && v.row.equity.isinCode != Some("") ==>
            r == DerivativesFor(md, BuiltScriptIdIndex(md), BuiltDerivativesIndex(md), Some(Num(id)), derivativeType, []))
  {
    var id := v.row.equity.scriptId;
    var sidx := BuiltScriptIdIndex(md);
    LaterOccurrenceWins(md, v);
    VisitsAreGenuine(md);
    assert Genuine(md, v);
    var loc := S0.LocationOf(v);
    assert sidx[id] == loc;
    DecodeDispatchesOnKind(md, loc, []);
    var d := GetSegmentDetails(v.segment);
    assert d == SegmentDetails("NSE", "EQ", "EQUITY");
    EquityScriptFields(d, v.row.equity);
    var script := EquityScript(d, v.row.equity);
    assert GetScripByScripId(md, sidx, id, []) == Done(Some(script));
    assert Prop(script, F.exchange) == Some(Str("NSE"));
    assert Prop(script, F.instrumentType) == Some(Str("EQUITY"));
    assert !TruthyProp(Prop(script, F.underlying));
    if v.row.equity.isinCode.None? || v.row.equity.isinCode == Some("") {
      NoUnderlyingNoIsinGivesEmptyObject(script, id, BuiltIsinCodeIndex(md));
    } else {
      NseEquityUsesOwnIdChoice(script, id, BuiltIsinCodeIndex(md));
    }
  }

  /** The ids the built ISIN index lists under `isin`; none when it is not a key. */
  function BuiltIdsWithIsin(md: MasterData, isin: string): seq<int>
    requires WellShaped(md)
  {
    if isin in BuiltIsinCodeIndex(md) then BuiltIsinCodeIndex(md)[isin] else []
  }

  /** The ids of the snapshot's equity rows that carry `isin` with an allow-flag other than `"N"`,
      in the order the build visits them. */
  function ContributorIds(md: MasterData, isin: string): seq<int>
    requires WellShaped(md)
  {
    VisitsShaped(md);
    S1.IdsWithIsin(Visits(md), isin)
  }

  /** An equity row whose allow-flag is not `"N"` and whose ISIN is valid is listed, by id, under
      its ISIN in the built ISIN index. */
  lemma ContributingIsinIndexed(md: MasterData, v: Visit)
    requires WellShaped(md) && v in Visits(md) && Shaped(v) && S1.Contributes(v)
    ensures v.row.equity.isinCode.value in BuiltIsinCodeIndex(md)
    ensures v.row.equity.scriptId in BuiltIdsWithIsin(md, v.row.equity.isinCode.value)
  {
    VisitsShaped(md);
    S1.FoldIsIdsWithIsin(Visits(md));
    S1.ContributorListed(Visits(md), v);
  }

  /** The BSE listing of a company whose NSE equity row has no truthy underlying: when both rows
      carry the same valid ISIN, the BSE row has no truthy underlying either, and the NSE row's id
      is the first other id the built ISIN index lists under that ISIN, looking the BSE id up
      gives exactly what the NSE id gives: the derivatives filed under the NSE id. */
  lemma BseTwinSharesDerivatives(md: MasterData, n: Visit, b: Visit, derivativeType: DerivativeType)
    requires WellShaped(md) && LastWithItsId(md, n) && LastWithItsId(md, b)
    requires n.FlatVisit? && n.segment == NSE_EQ_EQUITY && n.row.Equity?
    requires b.FlatVisit? && b.segment == BSE_EQ_EQUITY && b.row.Equity?
    requires n.row.equity.underlying.None? || n.row.equity.underlying == Some(0)
    requires b.row.equity.underlying.None? || b.row.equity.underlying == Some(0)
    requires S1.ValidIsin(b.row.equity.isinCode) && n.row.equity.isinCode == b.row.equity.isinCode
    requires FirstOther(BuiltIdsWithIsin(md, b.row.equity.isinCode.value), b.row.equity.scriptId)
               == Some(Num(n.row.equity.scriptId))
    ensures var sidx, didx := BuiltScriptIdIndex(md), BuiltDerivativesIndex(md);
      var viaNse := GetDerivativeScripsByScripId(md, sidx, BuiltIsinCodeIndex(md), didx, n.row.equity.scriptId, derivativeType, []);
      && GetDerivativeScripsByScripId(md, sidx, BuiltIsinCodeIndex(md), didx, b.row.equity.scriptId, derivativeType, []) == viaNse
      && viaNse == DerivativesFor(md, sidx, didx, Some(Num(n.row.equity.scriptId)), derivativeType, [])
  {
    var isin := b.row.equity.isinCode.value;
    var iidx := BuiltIsinCodeIndex(md);
    assert isin in iidx;
    NseEquityUsesOwnId(md, n, derivativeType);
    var id := b.row.equity.scriptId;
    LaterOccurrenceWins(md, b);
    VisitsAreGenuine(md);
    assert Genuine(md, b);
    DecodeDispatchesOnKind(md, S0.LocationOf(b), []);
    var d := GetSegmentDetails(b.segment);
    assert d == SegmentDetails("BSE", "EQ", "EQUITY");
    EquityScriptFields(d, b.row.equity);
    var script := EquityScript(d, b.row.equity);
    assert GetScripByScripId(md, BuiltScriptIdIndex(md), id, []) == Done(Some(script));
    BseUsesOtherListing(script, id, iidx, isin);
  }

  /** `getScripsByIsinCode` on the built indexes never throws. A missing or sentinel ISIN gives
      `[]`; any ISIN gives the records found for the ids of the equity rows that carry it with an
      allow-flag other than `"N"`, in the order the build visits those rows. */
  lemma BuiltIsinLookup(md: MasterData, isinCode: Option<string>, populate: seq<F.Field>)
    requires WellShaped(md)
    ensures var r := GetScripsByIsinCode(md, BuiltScriptIdIndex(md), BuiltIsinCodeIndex(md), isinCode, populate);
      && r.Done?
      && (!S1.ValidIsin(isinCode) ==> r.value == [])
      && (isinCode.Some? ==>
            Found(LookupAll(md, BuiltScriptIdIndex(md), ContributorIds(md, isinCode.value), populate)) == Some(r.value))
  {
    var sidx := BuiltScriptIdIndex(md);
    VisitsShaped(md);
    S1.FoldIsIdsWithIsin(Visits(md));
    BuiltLocationsResolvable(md);
    if isinCode.Some? {
      var ids := ContributorIds(md, isinCode.value);
      LookupsNeverThrow(md, sidx, ids, populate);
      KeepDefinedIsFound(LookupAll(md, sidx, ids, populate));
      if !S1.ValidIsin(isinCode) {
        assert ids == [];
      }
    }
  }

  /** The derivatives index built from the snapshot has an entry for `u` exactly when some tradable
      leg names `u` as underlying, holding those legs' ids by list. */
  lemma BuiltDerivativesEntry(md: MasterData, u: int)
    ensures u in BuiltDerivativesIndex(md) <==> S2.Touched(Visits(md), u)
    ensures u in BuiltDerivativesIndex(md) ==>
      BuiltDerivativesIndex(md)[u] == DerivativeIds(S2.IdsFor(Visits(md), u, S2.FuturesKey), S2.IdsFor(Visits(md), u, S2.OptionsKey))
  {
    S2.FoldKeys(Visits(md), u);
    if u in BuiltDerivativesIndex(md) {
      S2.FoldEntry(Visits(md), u);
    }
  }

  /** As written, a BSE equity row without a truthy underlying whose ISIN is not a key of the ISIN
      index makes the derivative lookup throw. The sentinel ISIN `"0"` is never a key, and an ISIN
      whose only row has allow-flag `"N"` is not one either. */
  lemma BseUnindexedIsinThrows(md: MasterData, v: Visit, derivativeType: DerivativeType)
    requires WellShaped(md) && LastWithItsId(md, v)
    requires v.FlatVisit? && v.segment == BSE_EQ_EQUITY && v.row.Equity?
    requires v.row.equity.underlying.None? || v.row.equity.underlying == Some(0)
    requires v.row.equity.isinCode.Some? && v.row.equity.isinCode.value != ""
    requires v.row.equity.isinCode.value !in BuiltIsinCodeIndex(md)
    ensures GetDerivativeScripsByScripId(md, BuiltScriptIdIndex(md), BuiltIsinCodeIndex(md),
                                         BuiltDerivativesIndex(md), v.row.equity.scriptId, derivativeType, []) == Crash
  {
    var id := v.row.equity.scriptId;
    var sidx := BuiltScriptIdIndex(md);
    LaterOccurrenceWins(md, v);
    VisitsAreGenuine(md);
    assert Genuine(md, v);
    var loc := S0.LocationOf(v);
    DecodeDispatchesOnKind(md, loc, []);
    var d := GetSegmentDetails(v.segment);
    assert d == SegmentDetails("BSE", "EQ", "EQUITY");
    EquityScriptFields(d, v.row.equity);
    var script := EquityScript(d, v.row.equity);
    assert GetScripByScripId(md, sidx, id, []) == Done(Some(script));
    BseUsesOtherListing(script, id, BuiltIsinCodeIndex(md), v.row.equity.isinCode.value);
  }

  /** With the correction, no derivative lookup on the built indexes throws. */
  lemma IntendedNeverThrowsOnBuiltIndexes(md: MasterData, id: int, derivativeType: DerivativeType, populate: seq<F.Field>)
    requires WellShaped(md)
    ensures GetDerivativeScripsByScripIdIntended(md, BuiltScriptIdIndex(md), BuiltIsinCodeIndex(md),
                                                 BuiltDerivativesIndex(md), id, derivativeType, populate).Done?
  {
    BuiltLocationsResolvable(md);
    IntendedNeverThrows(md, BuiltScriptIdIndex(md), BuiltIsinCodeIndex(md), BuiltDerivativesIndex(md), id, derivativeType, populate);
  }
}
