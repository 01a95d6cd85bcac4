/** The derivatives index: each underlying script id maps to the ids of its futures and options. */
module DerivativesIndexing {
  import opened Js
  import opened Segments
  import opened Records

  /** Instrument types that count as futures, and as options. */
  const Futures: seq<string> := ["FUTSTK", "FUTIDX", "FUTCUR", "FUTCOM"]
  const Options: seq<string> := ["OPTSTK", "OPTCUR", "OPTFUT", "OPTIDX"]

  /** Which list a leg's id goes to; futures are checked first. */
  datatype ListKey = FuturesKey | OptionsKey

  /** The list for a segment, from the third `_` token of its name; `None` when it is neither. */
  function KeyOf(s: Segment): (k: Option<ListKey>)
    ensures k == Some(FuturesKey) <==> Tokens(s)[2] in Futures
    ensures k == Some(OptionsKey) <==> Tokens(s)[2] !in Futures && Tokens(s)[2] in Options
  {
    var instrumentType := Tokens(s)[2];
    if instrumentType in Futures then Some(FuturesKey)
    else if instrumentType in Options then Some(OptionsKey)
    else None
  }

  /** Which segments have a futures, and which an options, instrument type. */
  lemma TokenClassifiesSegment(s: Segment)
    ensures InstrumentToken(s) in Futures <==>
      s in {NSE_FO_FUTSTK, NSE_FO_FUTIDX, NSE_CURR_FUTCUR, MCX_COMM_FUTCOM, NCDEX_COMM_FUTCOM}
    ensures InstrumentToken(s) in Options <==>
      s in {NSE_FO_OPTIDX, NSE_FO_OPTSTK, NSE_CURR_OPTCUR, MCX_COMM_OPTFUT, NCDEX_COMM_OPTFUT}
    ensures InstrumentToken(s) !in Futures && InstrumentToken(s) !in Options <==> KindOf(s) != Nested
  {
    match s
    case NSE_EQ_EQUITY =>
    case BSE_EQ_EQUITY =>
    case NSE_FO_FUTSTK =>
    case NSE_FO_FUTIDX =>
    case NSE_FO_OPTIDX =>
    case NSE_FO_OPTSTK =>
    case NSE_CURR_FUTCUR =>
    case NSE_CURR_OPTCUR =>
    case MCX_COMM_OPTFUT =>
    case MCX_COMM_FUTCOM =>
    case NCDEX_COMM_OPTFUT =>
    case NCDEX_COMM_FUTCOM =>
    case NSE_CURR_UNDERLYING =>
    case MCX_COMM_UNDERLYING =>
    case NCDEX_COMM_UNDERLYING =>
    case NSE_EQ_UNDERLYING =>
    case BSE_EQ_UNDERLYING =>
  }

  /** The classification by segment: the five futures segments get FUTURES, the five options
      segments OPTIONS, and the flat segments no list. */
  lemma KeyOfBySegment(s: Segment)
    ensures KeyOf(s) == Some(FuturesKey) <==>
      s in {NSE_FO_FUTSTK, NSE_FO_FUTIDX, NSE_CURR_FUTCUR, MCX_COMM_FUTCOM, NCDEX_COMM_FUTCOM}
    ensures KeyOf(s) == Some(OptionsKey) <==>
      s in {NSE_FO_OPTIDX, NSE_FO_OPTSTK, NSE_CURR_OPTCUR, MCX_COMM_OPTFUT, NCDEX_COMM_OPTFUT}
    ensures KeyOf(s).None? <==> KindOf(s) != Nested
  {
    TokenClassifiesSegment(s);
    assert Tokens(s)[2] == InstrumentToken(s);
  }

  /** Every instrument type of a nested segment in the table is a future or an option. */
  lemma NestedSegmentsAreClassified(s: Segment)
    requires KindOf(s) == Nested
    ensures KeyOf(s).Some?
  {
  }

  /** `!underlying`: null and 0 are both treated as missing. */
  predicate HasUnderlying(g: DerivativeGroup) {
    g.underlying.Some? && g.underlying.value != 0
  }

  /** Whether an `addRow` call creates or extends an entry: a tradable leg of a group with an
      underlying. */
  predicate Contributes(v: Visit) {
    v.LegVisit? && v.leg.aslAllowed != "N" && HasUnderlying(v.group)
  }

  function Push(e: DerivativeIds, k: Option<ListKey>, id: int): DerivativeIds {
    match k
    case None => e
    case Some(FuturesKey) => e.(futures := e.futures + [id])
    case Some(OptionsKey) => e.(options := e.options + [id])
  }

  /** The index after one `addRow`. */
  function Step(index: DerivativesIndex, v: Visit): DerivativesIndex {
    if !Contributes(v) then index
    else
      var u := v.group.underlying.value;
      var e := if u in index then index[u] else DerivativeIds([], []);
      index[u := Push(e, KeyOf(v.segment), v.leg.scriptId)]
  }

  /** A call that does not contribute changes nothing. One that does creates its underlying's entry
      with both lists empty if needed, then appends the leg's id to the end of the chosen list;
      the other list and every other key are unchanged. */
  lemma StepEffect(index: DerivativesIndex, v: Visit)
    ensures !Contributes(v) ==> Step(index, v) == index
    ensures Contributes(v) ==>
      var u := v.group.underlying.value;
      var e := if u in index then index[u] else DerivativeIds([], []);
      var e' := Step(index, v)[u];
      && Step(index, v).Keys == index.Keys + {u}
      && (KeyOf(v.segment) == Some(FuturesKey) ==>
            e'.futures == e.futures + [v.leg.scriptId] && e'.options == e.options)
      && (KeyOf(v.segment) == Some(OptionsKey) ==>
            e'.options == e.options + [v.leg.scriptId] && e'.futures == e.futures)
      && (KeyOf(v.segment).None? ==> e' == e)
      && forall k :: k in index && k != u ==> Step(index, v)[k] == index[k]
  {
  }

  /** No entry has both lists empty and no key is a falsy underlying. */
  predicate WellFormed(index: DerivativesIndex) {
    forall u :: u in index ==> u != 0 && |index[u].futures| + |index[u].options| > 0
  }

  /** Visits made by the traversal keep every entry non-empty: a created entry always gets a push. */
  lemma StepKeepsWellFormed(index: DerivativesIndex, v: Visit)
    requires Shaped(v) && WellFormed(index)
    ensures WellFormed(Step(index, v))
  {
    if Contributes(v) {
      NestedSegmentsAreClassified(v.segment);
    }
  }

  /** The index after a sequence of `addRow` calls, starting from `index`. */
  function Fold(index: DerivativesIndex, vs: seq<Visit>): DerivativesIndex
    decreases |vs|
  {
    if |vs| == 0 then index
    else Step(Fold(index, vs[..|vs| - 1]), vs[|vs| - 1])
  }

  lemma FoldAppend(index: DerivativesIndex, vs: seq<Visit>, v: Visit)
    ensures Fold(index, vs + [v]) == Step(Fold(index, vs), v)
  {
    assert (vs + [v])[..|vs|] == vs;
  }

  /** Reference definition: the ids of contributing legs of underlying `u` whose segment's list is
      `k`, in visiting order. */
  function IdsFor(vs: seq<Visit>, u: int, k: ListKey): (ids: seq<int>)
    ensures |ids| <= |vs|
    decreases |vs|
  {
    if |vs| == 0 then []
    else
      var v := vs[|vs| - 1];
      var pre := IdsFor(vs[..|vs| - 1], u, k);
      if Contributes(v) && v.group.underlying.value == u && KeyOf(v.segment) == Some(k)
      then pre + [v.leg.scriptId]
      else pre
  }

  /** Whether some visit creates the entry of `u`. */
  predicate Touched(vs: seq<Visit>, u: int) {
    exists j :: 0 <= j < |vs| && Contributes(vs[j]) && vs[j].group.underlying.value == u
  }

  /** The built index has an entry exactly for the underlyings of contributing legs. */
  lemma {:induction false} FoldKeys(vs: seq<Visit>, u: int)
    ensures u in Fold(map[], vs) <==> Touched(vs, u)
    decreases |vs|
  {
    if |vs| > 0 {
      var pre := vs[..|vs| - 1];
      var v := vs[|vs| - 1];
      FoldKeys(pre, u);
      StepEffect(Fold(map[], pre), v);
      if Touched(pre, u) {
        var j :| 0 <= j < |pre| && Contributes(pre[j]) && pre[j].group.underlying.value == u;
        assert vs[j] == pre[j];
      }
      if Touched(vs, u) {
        var j :| 0 <= j < |vs| && Contributes(vs[j]) && vs[j].group.underlying.value == u;
        if j < |pre| {
          assert pre[j] == vs[j];
        }
      }
    }
  }

  /** An underlying no leg touches has no ids on either list. */
  lemma {:induction false} UntouchedHasNoIds(vs: seq<Visit>, u: int, k: ListKey)
    requires !Touched(vs, u)
    ensures IdsFor(vs, u, k) == []
    decreases |vs|
  {
    if |vs| > 0 {
      var pre := vs[..|vs| - 1];
      forall j | 0 <= j < |pre|
        ensures !(Contributes(pre[j]) && pre[j].group.underlying.value == u)
      {
        assert pre[j] == vs[j];
      }
      UntouchedHasNoIds(pre, u, k);
      assert !(Contributes(vs[|vs| - 1]) && vs[|vs| - 1].group.underlying.value == u);
    }
  }

  /** Each entry's FUTURES and OPTIONS lists are the ids of the contributing legs of its
      underlying, in visiting order. */
  lemma {:induction false} FoldEntry(vs: seq<Visit>, u: int)
    requires u in Fold(map[], vs)
    ensures Fold(map[], vs)[u] == DerivativeIds(IdsFor(vs, u, FuturesKey), IdsFor(vs, u, OptionsKey))
    decreases |vs|
  {
    var pre := vs[..|vs| - 1];
    var v := vs[|vs| - 1];
    StepEffect(Fold(map[], pre), v);
    if u in Fold(map[], pre) {
      FoldEntry(pre, u);
    } else {
      FoldKeys(pre, u);
      UntouchedHasNoIds(pre, u, FuturesKey);
      UntouchedHasNoIds(pre, u, OptionsKey);
    }
  }

  /** A traversal's index has no empty entry. */
  lemma {:induction false} FoldWellFormed(vs: seq<Visit>)
    requires AllShaped(vs)
    ensures WellFormed(Fold(map[], vs))
    decreases |vs|
  {
    if |vs| > 0 {
      FoldWellFormed(vs[..|vs| - 1]);
      StepKeepsWellFormed(Fold(map[], vs[..|vs| - 1]), vs[|vs| - 1]);
    }
  }

  /** `derivativesIndexHandler`. */
  class DerivativesIndexHandler {
    var index: DerivativesIndex

    constructor()
      ensures index == map[]
    {
      index := map[];
    }

    method AddRow(v: Visit)
      modifies this
      ensures index == Step(old(index), v)
    {
      if !v.LegVisit? {
        return;
      }
      var underlying := v.group.underlying;
      var scriptId := v.leg.scriptId;
      var isAslAllowed := v.leg.aslAllowed;
      if isAslAllowed == "N" || !(underlying.Some? && underlying.value != 0) {
        return;
      }
      var u := underlying.value;
      if u !in index {
        index := index[u := DerivativeIds([], [])];
      }
      var key := KeyOf(v.segment);
      if key == Some(FuturesKey) {
        index := index[u := index[u].(futures := index[u].futures + [scriptId])];
      } else if key == Some(OptionsKey) {
        index := index[u := index[u].(options := index[u].options + [scriptId])];
      }
    }

    function GetIndex(): (r: DerivativesIndex)
      reads this
      ensures r == index
    {
      index
    }
  }
}
