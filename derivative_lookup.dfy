/** `getDerivativeScripsByScripId`: the futures and options of a script's underlying. */
module DerivativeLookup {
  import opened Js
  import opened Records
  import F = ScriptFields
  import opened SecMaster

  /** The `derivativeType` argument; `BOTH` is its default. */
  datatype DerivativeType = FUTURES | OPTIONS | BOTH

  /** The result: `{}`, `undefined`, or an object holding the requested lists. */
  datatype DerivativeScrips =
    | EmptyObject
    | Undefined
    | Lists(futures: Option<seq<Script>>, options: Option<seq<Script>>)

  /** A property read from a record; `None` is a property the record does not have. */
  function Prop(script: Script, f: F.Field): (o: Option<Value>)
    ensures o.Some? <==> f in script
    ensures o.Some? ==> o.value == script[f]
  {
    if f in script then Some(script[f]) else None
  }

  predicate TruthyProp(o: Option<Value>) {
    o.Some? && Truthy(o.value)
  }

  /** `scriptIds.filter(x => x !== scriptId)[0]`: the first other listing, if any. */
  function FirstOther(ids: seq<int>, id: int): Option<Value>
    decreases |ids|
  {
    if |ids| == 0 then None
    else if ids[0] != id then Some(Num(ids[0]))
    else FirstOther(ids[1..], id)
  }

  /** The filter's first element is the first id that differs from the script's own. */
  lemma {:induction false} FirstOtherIsFirst(ids: seq<int>, id: int)
    ensures FirstOther(ids, id).Some? <==> exists i :: 0 <= i < |ids| && ids[i] != id
    ensures FirstOther(ids, id).Some? ==>
      exists i :: 0 <= i < |ids| && ids[i] != id && FirstOther(ids, id).value == Num(ids[i]) &&
        forall j :: 0 <= j < i ==> ids[j] == id
    decreases |ids|
  {
    if |ids| > 0 && ids[0] == id {
      var rest := ids[1..];
      FirstOtherIsFirst(rest, id);
      if exists i :: 0 <= i < |ids| && ids[i] != id {
        var i :| 0 <= i < |ids| && ids[i] != id;
        assert rest[i - 1] == ids[i];
      }
      if FirstOther(rest, id).Some? {
        var i :| 0 <= i < |rest| && rest[i] != id && FirstOther(rest, id).value == Num(rest[i]) &&
          forall j :: 0 <= j < i ==> rest[j] == id;
        assert ids[i + 1] == rest[i];
        forall j | 0 <= j < i + 1
          ensures ids[j] == id
        {
          if j > 0 {
            assert ids[j] == rest[j - 1];
          }
        }
      }
    }
  }

  /** How the underlying is chosen: `GiveUp` is the early `return {}`, `Use` carries the value of
      `underlyingId` after the `if (!underlyingId)` block. */
  datatype UnderlyingChoice = GiveUp | Use(underlyingId: Option<Value>)

  /** The `if (!underlyingId)` block as written. The ISIN is read as a string key; the decoded
      records carry a string or null there. On BSE an ISIN the ISIN index lacks makes `.filter`
      run on `undefined`, which throws. */
  function ChooseUnderlying(script: Script, id: int, isinIdx: IsinCodeIndex): Outcome<UnderlyingChoice> {
    var underlying := Prop(script, F.underlying);
    if TruthyProp(underlying) then Done(Use(underlying))
    else
      var exchange := Prop(script, F.exchange);
      var own := if exchange == Some(Str("NSE")) && Prop(script, F.instrumentType) == Some(Str("EQUITY"))
                 then Some(Num(id)) else underlying;
      var isinCode := Prop(script, F.isinCode);
      if !TruthyProp(isinCode) then Done(GiveUp)
      else if exchange == Some(Str("BSE")) then
        if isinCode.value.Str? && isinCode.value.s in isinIdx
        then Done(Use(FirstOther(isinIdx[isinCode.value.s], id)))
        else Crash
      else Done(Use(own))
  }

  /** The key the derivatives index is read under: a truthy numeric `underlyingId`. */
  function UnderlyingKey(u: Option<Value>): Option<int> {
    if TruthyProp(u) && u.value.Num? then Some(u.value.n) else None
  }

  /** `(underlyingId && derivativesIndex[underlyingId]) || null` and what follows: the requested
      lists, or `undefined` when the index has no entry. */
  function DerivativesFor(md: MasterData, sidx: ScriptIdIndex, derivIdx: DerivativesIndex,
                          u: Option<Value>, derivativeType: DerivativeType,
                          populate: seq<F.Field>): (r: Outcome<DerivativeScrips>)
    requires WellShaped(md)
    ensures r.Done? ==> r.value != EmptyObject
  {
    var key := UnderlyingKey(u);
    if key.None? || key.value !in derivIdx then Done(Undefined)
    else
      var e := derivIdx[key.value];
      var futures := GetScripsByScripIds(md, sidx, Some(e.futures), populate);
      var options := GetScripsByScripIds(md, sidx, Some(e.options), populate);
      match derivativeType
      case BOTH =>
        if futures.Crash? || options.Crash? then Crash else Done(Lists(Some(futures.value), Some(options.value)))
      case FUTURES => if futures.Crash? then Crash else Done(Lists(Some(futures.value), None))
      case OPTIONS => if options.Crash? then Crash else Done(Lists(None, Some(options.value)))
  }

  /** `getDerivativeScripsByScripId`, on the store's snapshot and indexes. The script is looked up
      with the same `populate`, so a projection without `underlying`, `isinCode`, `exchange` or
      `instrumentType` changes the branch taken. */
  function GetDerivativeScripsByScripId(md: MasterData, sidx: ScriptIdIndex, isinIdx: IsinCodeIndex,
                                        derivIdx: DerivativesIndex, id: int,
                                        derivativeType: DerivativeType,
                                        populate: seq<F.Field>): Outcome<DerivativeScrips>
    requires WellShaped(md)
  {
    var looked := GetScripByScripId(md, sidx, id, populate);
    if looked.Crash? then Crash
    else if looked.value.None? then Done(EmptyObject)
    else
      var choice := ChooseUnderlying(looked.value.value, id, isinIdx);
      if choice.Crash? then Crash
      else if choice.value.GiveUp? then Done(EmptyObject)
      else DerivativesFor(md, sidx, derivIdx, choice.value.underlyingId, derivativeType, populate)
  }

  /** The result when the derivatives index has an entry under key `u`: the lists `derivativeType`
      asks for, and only those. */
  lemma DerivativesForSelectsLists(md: MasterData, sidx: ScriptIdIndex, derivIdx: DerivativesIndex,
                                   u: int, derivativeType: DerivativeType, populate: seq<F.Field>)
    requires WellShaped(md) && u != 0
    ensures u !in derivIdx ==> DerivativesFor(md, sidx, derivIdx, Some(Num(u)), derivativeType, populate) == Done(Undefined)
    ensures u in derivIdx ==>
      var r := DerivativesFor(md, sidx, derivIdx, Some(Num(u)), derivativeType, populate);
      var futures := GetScripsByScripIds(md, sidx, Some(derivIdx[u].futures), populate);
      var options := GetScripsByScripIds(md, sidx, Some(derivIdx[u].options), populate);
      && (r.Done? ==>
            && r.value.Lists?
            && (r.value.futures.Some? <==> derivativeType != OPTIONS)
            && (r.value.options.Some? <==> derivativeType != FUTURES)
            && (r.value.futures.Some? ==> futures == Done(r.value.futures.value))
            && (r.value.options.Some? ==> options == Done(r.value.options.value)))
      && (r.Crash? <==>
            (derivativeType != OPTIONS && futures.Crash?) || (derivativeType != FUTURES && options.Crash?))
  {
  }

  /** An id the script index does not know gives `{}`. */
  lemma UnknownScriptGivesEmptyObject(md: MasterData, sidx: ScriptIdIndex, isinIdx: IsinCodeIndex,
                                      derivIdx: DerivativesIndex, id: int,
                                      derivativeType: DerivativeType, populate: seq<F.Field>)
    requires WellShaped(md) && id !in sidx
    ensures GetDerivativeScripsByScripId(md, sidx, isinIdx, derivIdx, id, derivativeType, populate) == Done(EmptyObject)
  {
  }

  /** A record without a truthy underlying and without a truthy ISIN gives `{}`, even for an NSE
      equity whose own id would have served. */
  lemma NoUnderlyingNoIsinGivesEmptyObject(script: Script, id: int, isinIdx: IsinCodeIndex)
    requires !TruthyProp(Prop(script, F.underlying)) && !TruthyProp(Prop(script, F.isinCode))
    ensures ChooseUnderlying(script, id, isinIdx) == Done(GiveUp)
  {
  }

  /** Without a truthy underlying, an NSE equity record with a truthy ISIN uses its own id. */
  lemma NseEquityUsesOwnIdChoice(script: Script, id: int, isinIdx: IsinCodeIndex)
    requires !TruthyProp(Prop(script, F.underlying)) && TruthyProp(Prop(script, F.isinCode))
    requires Prop(script, F.exchange) == Some(Str("NSE")) && Prop(script, F.instrumentType) == Some(Str("EQUITY"))
    ensures ChooseUnderlying(script, id, isinIdx) == Done(Use(Some(Num(id))))
  {
  }

  /** Without a truthy underlying, a BSE record whose ISIN the index holds uses the first other
      listing of that ISIN; one whose ISIN the index lacks throws. */
  lemma BseUsesOtherListing(script: Script, id: int, isinIdx: IsinCodeIndex, isin: string)
    requires !TruthyProp(Prop(script, F.underlying))
    requires Prop(script, F.exchange) == Some(Str("BSE")) && Prop(script, F.isinCode) == Some(Str(isin)) && isin != ""
    ensures isin in isinIdx ==> ChooseUnderlying(script, id, isinIdx) == Done(Use(FirstOther(isinIdx[isin], id)))
    ensures isin !in isinIdx ==> ChooseUnderlying(script, id, isinIdx) == Crash
  {
  }

  /** The corrected block: `(isinCodeIndex[isinCode] || [])`, so a BSE ISIN the index lacks gives
      no underlying instead of throwing. */
  function ChooseUnderlyingIntended(script: Script, id: int, isinIdx: IsinCodeIndex): (r: UnderlyingChoice)
    ensures ChooseUnderlying(script, id, isinIdx).Done? ==> r == ChooseUnderlying(script, id, isinIdx).value
  {
    var underlying := Prop(script, F.underlying);
    if TruthyProp(underlying) then Use(underlying)
    else
      var exchange := Prop(script, F.exchange);
      var own := if exchange == Some(Str("NSE")) && Prop(script, F.instrumentType) == Some(Str("EQUITY"))
                 then Some(Num(id)) else underlying;
      var isinCode := Prop(script, F.isinCode);
      if !TruthyProp(isinCode) then GiveUp
      else if exchange == Some(Str("BSE")) then
        var ids := if isinCode.value.Str? && isinCode.value.s in isinIdx then isinIdx[isinCode.value.s] else [];
        Use(FirstOther(ids, id))
      else Use(own)
  }

  /** `getDerivativeScripsByScripId` with the corrected block. */
  function GetDerivativeScripsByScripIdIntended(md: MasterData, sidx: ScriptIdIndex, isinIdx: IsinCodeIndex,
                                                derivIdx: DerivativesIndex, id: int,
                                                derivativeType: DerivativeType,
                                                populate: seq<F.Field>): (r: Outcome<DerivativeScrips>)
    requires WellShaped(md)
    ensures GetDerivativeScripsByScripId(md, sidx, isinIdx, derivIdx, id, derivativeType, populate).Done? ==>
      r == GetDerivativeScripsByScripId(md, sidx, isinIdx, derivIdx, id, derivativeType, populate)
  {
    var looked := GetScripByScripId(md, sidx, id, populate);
    if looked.Crash? then Crash
    else if looked.value.None? then Done(EmptyObject)
    else
      var choice := ChooseUnderlyingIntended(looked.value.value, id, isinIdx);
      if choice.GiveUp? then Done(EmptyObject)
      else DerivativesFor(md, sidx, derivIdx, choice.underlyingId, derivativeType, populate)
  }

  /** A script index whose every location resolves in the snapshot. */
  predicate AllResolvable(md: MasterData, sidx: ScriptIdIndex) {
    forall id :: id in sidx ==> Resolvable(md, sidx[id])
  }

  /** Lookups through such an index never throw. */
  lemma {:induction false} LookupsNeverThrow(md: MasterData, sidx: ScriptIdIndex, ids: seq<int>, populate: seq<F.Field>)
    requires WellShaped(md) && AllResolvable(md, sidx)
    ensures forall id :: GetScripByScripId(md, sidx, id, populate).Done?
    ensures GetScripsByScripIds(md, sidx, Some(ids), populate).Done?
  {
    forall id
      ensures GetScripByScripId(md, sidx, id, populate).Done?
    {
      if id in sidx {
        DecodeDispatchesOnKind(md, sidx[id], populate);
      }
    }
    KeepDefinedCounts(LookupAll(md, sidx, ids, populate));
  }

  /** With the correction, the derivative lookup never throws on such an index. */
  lemma IntendedNeverThrows(md: MasterData, sidx: ScriptIdIndex, isinIdx: IsinCodeIndex,
                            derivIdx: DerivativesIndex, id: int,
                            derivativeType: DerivativeType, populate: seq<F.Field>)
    requires WellShaped(md) && AllResolvable(md, sidx)
    ensures GetDerivativeScripsByScripIdIntended(md, sidx, isinIdx, derivIdx, id, derivativeType, populate).Done?
  {
    var looked := GetScripByScripId(md, sidx, id, populate);
    LookupsNeverThrow(md, sidx, [], populate);
    if looked.value.Some? {
      var choice := ChooseUnderlyingIntended(looked.value.value, id, isinIdx);
      if choice.Use? {
        var key := UnderlyingKey(choice.underlyingId);
        if key.Some? && key.value in derivIdx {
          LookupsNeverThrow(md, sidx, derivIdx[key.value].futures, populate);
          LookupsNeverThrow(md, sidx, derivIdx[key.value].options, populate);
        }
      }
    }
  }
}
