/** The ISIN index: each valid ISIN of a tradable equity row maps to the ids sharing it. */
module IsinCodeIndexing {
  import opened Js
  import opened Segments
  import opened Records

  /** `isinCode && isinCode !== '0'`: null, the empty string and the sentinel `"0"` are invalid. */
  predicate ValidIsin(isin: Option<string>) {
    isin.Some? && isin.value != "" && isin.value != "0"
  }

  /** Whether an `addRow` call adds to the index: an equity row (not a leg, not an underlying
      segment) whose allow-flag is not `"N"` and whose ISIN is valid. */
  predicate Contributes(v: Visit)
    requires Shaped(v)
  {
    v.FlatVisit? && !Includes(Name(v.segment), "UNDERLYING") && v.row.Equity?
    && v.row.equity.aslAllowed != "N" && ValidIsin(v.row.equity.isinCode)
  }

  /** The index after one `addRow`. */
  function Step(index: IsinCodeIndex, v: Visit): IsinCodeIndex
    requires Shaped(v)
  {
    if v.LegVisit? || Includes(Name(v.segment), "UNDERLYING") then index
    else
      IncludesUnderlyingIffFlatUnderlying(v.segment);
      var e := v.row.equity;
      if e.aslAllowed == "N" || !ValidIsin(e.isinCode) then index
      else
        var isin := e.isinCode.value;
        var ids := if isin in index then index[isin] else [];
        index[isin := ids + [e.scriptId]]
  }

  /** No key is invalid and no key maps to an empty list. */
  predicate WellFormed(index: IsinCodeIndex) {
    forall isin :: isin in index ==> ValidIsin(Some(isin)) && |index[isin]| > 0
  }

  /** An `addRow` that does not contribute changes nothing; one that does appends the row's id to
      the end of its ISIN's list (creating it if needed) and changes no other key. */
  lemma StepEffect(index: IsinCodeIndex, v: Visit)
    requires Shaped(v)
    ensures !Contributes(v) ==> Step(index, v) == index
    ensures Contributes(v) ==>
      var isin := v.row.equity.isinCode.value;
      && Step(index, v).Keys == index.Keys + {isin}
      && Step(index, v)[isin] == (if isin in index then index[isin] else []) + [v.row.equity.scriptId]
      && forall k :: k in index && k != isin ==> Step(index, v)[k] == index[k]
  {
    IncludesUnderlyingIffFlatUnderlying(v.segment);
  }

  lemma StepKeepsWellFormed(index: IsinCodeIndex, v: Visit)
    requires Shaped(v) && WellFormed(index)
    ensures WellFormed(Step(index, v))
  {
  }

  /** The index after a sequence of `addRow` calls, starting from `index`. */
  function Fold(index: IsinCodeIndex, vs: seq<Visit>): IsinCodeIndex
    requires AllShaped(vs)
    decreases |vs|
  {
    if |vs| == 0 then index
    else Step(Fold(index, vs[..|vs| - 1]), vs[|vs| - 1])
  }

  lemma FoldAppend(index: IsinCodeIndex, vs: seq<Visit>, v: Visit)
    requires AllShaped(vs) && Shaped(v)
    ensures AllShaped(vs + [v])
    ensures Fold(index, vs + [v]) == Step(Fold(index, vs), v)
  {
    assert (vs + [v])[..|vs|] == vs;
  }

  /** Reference definition: the ids of the contributing visits with this ISIN, in visiting order. */
  function IdsWithIsin(vs: seq<Visit>, isin: string): (ids: seq<int>)
    requires AllShaped(vs)
    ensures |ids| <= |vs|
    decreases |vs|
  {
    if |vs| == 0 then []
    else
      var v := vs[|vs| - 1];
      var pre := IdsWithIsin(vs[..|vs| - 1], isin);
      if Contributes(v) && v.row.equity.isinCode.value == isin then pre + [v.row.equity.scriptId] else pre
  }

  /** The built index holds exactly the ISINs with a contributing row, each mapped to the ids of
      those rows in visiting order; rows sharing an ISIN (such as the NSE and BSE listing of one
      company) share its list. */
  lemma {:induction false} FoldIsIdsWithIsin(vs: seq<Visit>)
    requires AllShaped(vs)
    ensures WellFormed(Fold(map[], vs))
    ensures forall isin :: isin in Fold(map[], vs) <==> IdsWithIsin(vs, isin) != []
    ensures forall isin :: isin in Fold(map[], vs) ==> Fold(map[], vs)[isin] == IdsWithIsin(vs, isin)
    decreases |vs|
  {
    if |vs| > 0 {
      var pre := vs[..|vs| - 1];
      var v := vs[|vs| - 1];
      FoldIsIdsWithIsin(pre);
      StepEffect(Fold(map[], pre), v);
      StepKeepsWellFormed(Fold(map[], pre), v);
    }
  }

  /** A contributing row's id is among the ids listed for its ISIN. */
  lemma {:induction false} ContributorListed(vs: seq<Visit>, v: Visit)
    requires AllShaped(vs) && v in vs && Shaped(v) && Contributes(v)
    ensures v.row.equity.scriptId in IdsWithIsin(vs, v.row.equity.isinCode.value)
    decreases |vs|
  {
    var pre := vs[..|vs| - 1];
    assert vs == pre + [vs[|vs| - 1]];
    if v != vs[|vs| - 1] {
      assert v in pre;
      ContributorListed(pre, v);
    }
  }

  /** `isinCodeIndexHandler`. */
  class IsinCodeIndexHandler {
    var index: IsinCodeIndex

    constructor()
      ensures index == map[]
    {
      index := map[];
    }

    method AddRow(v: Visit)
      requires Shaped(v)
      modifies this
      ensures index == Step(old(index), v)
    {
      if v.LegVisit? || Includes(Name(v.segment), "UNDERLYING") {
        return;
      }
      IncludesUnderlyingIffFlatUnderlying(v.segment);
      var item := v.row.equity;
      var isValidIsinCode := ValidIsin(item.isinCode);
      if item.aslAllowed == "N" || !isValidIsinCode {
        return;
      }
      var isin := item.isinCode.value;
      if isin !in index {
        index := index[isin := []];
      }
      index := index[isin := index[isin] + [item.scriptId]];
    }

    function GetIndex(): (r: IsinCodeIndex)
      reads this
      ensures r == index
    {
      index
    }
  }
}
