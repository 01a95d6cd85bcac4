/** `createIndexes`: one pass over the snapshot in table order, feeding every flat row and every
    leg to each index handler. */
module IndexBuilder {
  import opened Js
  import opened Segments
  import opened Records
  import S0 = ScriptIdIndexing
  import S1 = IsinCodeIndexing
  import S2 = DerivativesIndexing
  import S3 = SearchStringIndexing

  /** The visits of the first `n` legs of group `g`, row `i` of segment `s`. */
  function LegVisits(s: Segment, i: nat, g: DerivativeGroup, n: nat): (vs: seq<Visit>)
    requires n <= |g.legs|
    ensures |vs| == n
  {
    if n == 0 then [] else LegVisits(s, i, g, n - 1) + [LegVisit(s, i, g, n - 1, g.legs[n - 1])]
  }

  /** The visits for row `i` of segment `s`: the row itself when the segment is flat, each of its
      legs when it is nested. */
  function RowVisit(s: Segment, i: nat, row: Row): seq<Visit> {
    if KindOf(s) != Nested then [FlatVisit(s, i, row)]
    else if row.Derivatives? then LegVisits(s, i, row.group, |row.group.legs|)
    else []
  }

  /** The visits for the first `n` rows of segment `s`. */
  function RowVisits(s: Segment, rows: seq<Row>, n: nat): seq<Visit>
    requires n <= |rows|
  {
    if n == 0 then [] else RowVisits(s, rows, n - 1) + RowVisit(s, n - 1, rows[n - 1])
  }

  /** The visits for one segment; an absent segment has none. */
  function SegmentVisits(md: MasterData, s: Segment): seq<Visit> {
    if s in md then RowVisits(s, md[s], |md[s]|) else []
  }

  /** The visits for the first `n` entries of the segment table. */
  function TableVisits(md: MasterData, n: nat): seq<Visit>
    requires n <= |SecSegments|
  {
    if n == 0 then [] else TableVisits(md, n - 1) + SegmentVisits(md, SecSegments[n - 1].name)
  }

  /** Every handler call the builder makes, in order. */
  function Visits(md: MasterData): seq<Visit> {
    TableVisits(md, |SecSegments|)
  }

  /** A visit that corresponds to one flat row, or one leg, of the snapshot. */
  predicate Genuine(md: MasterData, v: Visit) {
    v.segment in md && v.itemIndex < |md[v.segment]| &&
    match v
    case FlatVisit(s, i, row) => KindOf(s) != Nested && row == md[s][i]
    case LegVisit(s, i, g, k, leg) =>
      KindOf(s) == Nested && md[s][i] == Derivatives(g) && k < |g.legs| && leg == g.legs[k]
  }

  /** The leg index of a visit, 0 for a flat row. */
  function LegOrder(v: Visit): nat {
    if v.LegVisit? then v.legIndex else 0
  }

  /** Visiting order: by table position of the segment, then item index, then leg index. */
  predicate Before(v: Visit, w: Visit) {
    Position(v.segment) < Position(w.segment)
    || (v.segment == w.segment && v.itemIndex < w.itemIndex)
    || (v.segment == w.segment && v.itemIndex == w.itemIndex && LegOrder(v) < LegOrder(w))
  }

  predicate Ordered(vs: seq<Visit>) {
    forall j, k :: 0 <= j < k < |vs| ==> Before(vs[j], vs[k])
  }

  lemma OrderedConcat(a: seq<Visit>, b: seq<Visit>)
    requires Ordered(a) && Ordered(b)
    requires forall x, y :: x in a && y in b ==> Before(x, y)
    ensures Ordered(a + b)
  {
    forall j, k | 0 <= j < k < |a + b|
      ensures Before((a + b)[j], (a + b)[k])
    {
      if k < |a| {
        assert (a + b)[j] == a[j] && (a + b)[k] == a[k];
      } else if j >= |a| {
        assert (a + b)[j] == b[j - |a|] && (a + b)[k] == b[k - |a|];
      } else {
        assert (a + b)[j] in a && (a + b)[k] in b;
      }
    }
  }

  /** The legs of a group are visited once each, in ascending leg order. */
  lemma {:induction false} LegVisitsAreLegs(s: Segment, i: nat, g: DerivativeGroup, n: nat)
    requires n <= |g.legs|
    ensures forall k :: 0 <= k < n ==> LegVisits(s, i, g, n)[k] == LegVisit(s, i, g, k, g.legs[k])
    ensures Ordered(LegVisits(s, i, g, n))
    decreases n
  {
    if n > 0 {
      LegVisitsAreLegs(s, i, g, n - 1);
    }
  }

  /** Every visit of row `i` belongs to segment `s` and item `i`, and they are in leg order. */
  lemma RowVisitShape(s: Segment, i: nat, row: Row)
    ensures forall v :: v in RowVisit(s, i, row) ==> v.segment == s && v.itemIndex == i
    ensures Ordered(RowVisit(s, i, row))
  {
    if KindOf(s) == Nested && row.Derivatives? {
      LegVisitsAreLegs(s, i, row.group, |row.group.legs|);
    }
  }

  lemma {:induction false} RowVisitsShape(s: Segment, rows: seq<Row>, n: nat)
    requires n <= |rows|
    ensures forall v :: v in RowVisits(s, rows, n) ==> v.segment == s && v.itemIndex < n
    ensures Ordered(RowVisits(s, rows, n))
    decreases n
  {
    if n > 0 {
      var a, b := RowVisits(s, rows, n - 1), RowVisit(s, n - 1, rows[n - 1]);
      RowVisitsShape(s, rows, n - 1);
      RowVisitShape(s, n - 1, rows[n - 1]);
      forall x, y | x in a && y in b
        ensures Before(x, y)
      {
        assert x.segment == y.segment && x.itemIndex < y.itemIndex;
      }
      OrderedConcat(a, b);
    }
  }

  lemma PositionOfEntry(k: nat)
    requires k < |SecSegments|
    ensures Position(SecSegments[k].name) == k
  {
    TableListsEverySegmentOnce();
  }

  lemma {:induction false} TableVisitsShape(md: MasterData, n: nat)
    requires n <= |SecSegments|
    ensures forall v :: v in TableVisits(md, n) ==> Position(v.segment) < n
    ensures Ordered(TableVisits(md, n))
    decreases n
  {
    if n > 0 {
      var s := SecSegments[n - 1].name;
      PositionOfEntry(n - 1);
      TableVisitsShape(md, n - 1);
      if s in md {
        RowVisitsShape(s, md[s], |md[s]|);
      }
      OrderedConcat(TableVisits(md, n - 1), SegmentVisits(md, s));
    }
  }

  /** The builder's calls are strictly ordered by (table position, item index, leg index): segments
      in table order, rows ascending, legs ascending, and no call repeated. */
  lemma VisitsOrdered(md: MasterData)
    ensures Ordered(Visits(md))
    ensures forall j, k :: 0 <= j < k < |Visits(md)| ==> Visits(md)[j] != Visits(md)[k]
  {
    TableVisitsShape(md, |SecSegments|);
  }

  lemma {:induction false} RowVisitsGenuine(md: MasterData, s: Segment, n: nat)
    requires WellShaped(md) && s in md && n <= |md[s]|
    ensures forall v :: v in RowVisits(s, md[s], n) <==> Genuine(md, v) && v.segment == s && v.itemIndex < n
    decreases n
  {
    if n > 0 {
      RowVisitsGenuine(md, s, n - 1);
      RowVisitGenuine(md, s, n - 1);
      var pre, last := RowVisits(s, md[s], n - 1), RowVisit(s, n - 1, md[s][n - 1]);
      assert RowVisits(s, md[s], n) == pre + last;
      forall v
        ensures v in pre + last <==> Genuine(md, v) && v.segment == s && v.itemIndex < n
      {
        assert v in pre + last <==> v in pre || v in last;
      }
    }
  }

  /** The visits of one row are exactly the genuine visits of that row. */
  lemma RowVisitGenuine(md: MasterData, s: Segment, i: nat)
    requires WellShaped(md) && s in md && i < |md[s]|
    ensures forall v :: v in RowVisit(s, i, md[s][i]) <==> Genuine(md, v) && v.segment == s && v.itemIndex == i
  {
    var row := md[s][i];
    assert RowFits(KindOf(s), row);
    if KindOf(s) == Nested {
      LegVisitsAreLegs(s, i, row.group, |row.group.legs|);
      forall v | Genuine(md, v) && v.segment == s && v.itemIndex == i
        ensures v in RowVisit(s, i, row)
      {
        assert LegVisits(s, i, row.group, |row.group.legs|)[v.legIndex] == v;
      }
    }
  }

  lemma {:induction false} TableVisitsGenuine(md: MasterData, n: nat)
    requires WellShaped(md) && n <= |SecSegments|
    ensures forall v :: v in TableVisits(md, n) <==> Genuine(md, v) && Position(v.segment) < n
    decreases n
  {
    if n > 0 {
      var s := SecSegments[n - 1].name;
      PositionOfEntry(n - 1);
      TableVisitsGenuine(md, n - 1);
      if s in md {
        RowVisitsGenuine(md, s, |md[s]|);
      }
      forall v: Visit | Position(v.segment) == n - 1
        ensures v.segment == s
      {
        TableListsEverySegmentOnce();
      }
    }
  }

  /** The builder calls the handlers exactly for the rows of the flat segments and the legs of the
      nested ones present in the snapshot; keys outside the table are not representable, and a
      group without legs gives no call. */
  lemma VisitsAreGenuine(md: MasterData)
    requires WellShaped(md)
    ensures forall v :: v in Visits(md) <==> Genuine(md, v)
  {
    TableVisitsGenuine(md, |SecSegments|);
  }

  /** Each call has the layout its handler expects. */
  lemma VisitsShaped(md: MasterData)
    requires WellShaped(md)
    ensures AllShaped(Visits(md))
  {
    VisitsAreGenuine(md);
    forall j | 0 <= j < |Visits(md)|
      ensures Shaped(Visits(md)[j])
    {
      assert Genuine(md, Visits(md)[j]);
    }
  }

  /** A flat segment's rows are visited once each, with their item index, in ascending order. */
  lemma {:induction false} FlatRowsVisitedInOrder(s: Segment, rows: seq<Row>, n: nat)
    requires KindOf(s) != Nested && n <= |rows|
    ensures RowVisits(s, rows, n) == seq(n, i requires 0 <= i < n => FlatVisit(s, i, rows[i]))
    decreases n
  {
    if n > 0 {
      FlatRowsVisitedInOrder(s, rows, n - 1);
    }
  }

  /** The indexes a full pass builds. */
  function BuiltScriptIdIndex(md: MasterData): ScriptIdIndex
    requires WellShaped(md)
  {
    VisitsShaped(md);
    S0.Fold(map[], Visits(md))
  }

  function BuiltIsinCodeIndex(md: MasterData): IsinCodeIndex
    requires WellShaped(md)
  {
    VisitsShaped(md);
    S1.Fold(map[], Visits(md))
  }

  function BuiltDerivativesIndex(md: MasterData): DerivativesIndex {
    S2.Fold(map[], Visits(md))
  }

  function BuiltSearchStringIndex(md: MasterData): SearchStringIndex
    requires WellShaped(md)
  {
    VisitsShaped(md);
    S3.Fold(map[], Visits(md))
  }

  /** When a script id occurs more than once, the script index keeps the location of the occurrence
      visited last: the one in the later segment in table order, or the later row or leg. */
  lemma LaterOccurrenceWins(md: MasterData, v: Visit)
    requires WellShaped(md) && v in Visits(md)
    requires Shaped(v)
    requires forall w :: w in Visits(md) && Shaped(w) && Before(v, w) ==> S0.ScriptIdOf(w) != S0.ScriptIdOf(v)
    ensures S0.ScriptIdOf(v) in BuiltScriptIdIndex(md)
    ensures BuiltScriptIdIndex(md)[S0.ScriptIdOf(v)] == S0.LocationOf(v)
  {
    VisitsShaped(md);
    VisitsOrdered(md);
    var vs := Visits(md);
    var j :| 0 <= j < |vs| && vs[j] == v;
    forall k | j < k < |vs|
      ensures S0.ScriptIdOf(vs[k]) != S0.ScriptIdOf(vs[j])
    {
      assert Before(vs[j], vs[k]);
    }
    S0.LastWriteWins(vs, j);
  }

  /** The four handlers, fed one call. */
  method AddRowToAll(h0: S0.ScriptIdIndexHandler, h1: S1.IsinCodeIndexHandler,
                     h2: S2.DerivativesIndexHandler, h3: S3.SearchStringIndexHandler?,
                     ghost trace: seq<Visit>, v: Visit)
    requires Shaped(v) && AllShaped(trace)
    requires h0.index == S0.Fold(map[], trace) && h1.index == S1.Fold(map[], trace)
    requires h2.index == S2.Fold(map[], trace)
    requires h3 != null ==> h3.index == S3.Fold(map[], trace)
    modifies h0, h1, h2, h3
    ensures AllShaped(trace + [v])
    ensures h0.index == S0.Fold(map[], trace + [v]) && h1.index == S1.Fold(map[], trace + [v])
    ensures h2.index == S2.Fold(map[], trace + [v])
    ensures h3 != null ==> h3.index == S3.Fold(map[], trace + [v])
  {
    S0.FoldAppend(map[], trace, v);
    S1.FoldAppend(map[], trace, v);
    S2.FoldAppend(map[], trace, v);
    S3.FoldAppend(map[], trace, v);
    h0.AddRow(v);
    h1.AddRow(v);
    h2.AddRow(v);
    if h3 != null {
      h3.AddRow(v);
    }
  }

  /** The handlers, each holding the index of the calls made so far. */
  predicate Holds(h0: S0.ScriptIdIndexHandler, h1: S1.IsinCodeIndexHandler,
                  h2: S2.DerivativesIndexHandler, h3: S3.SearchStringIndexHandler?, trace: seq<Visit>)
    reads h0, h1, h2, h3
  {
    AllShaped(trace)
    && h0.index == S0.Fold(map[], trace) && h1.index == S1.Fold(map[], trace)
    && h2.index == S2.Fold(map[], trace)
    && (h3 != null ==> h3.index == S3.Fold(map[], trace))
  }

  /** The row loop of a flat segment. */
  method AddFlatSegment(h0: S0.ScriptIdIndexHandler, h1: S1.IsinCodeIndexHandler,
                        h2: S2.DerivativesIndexHandler, h3: S3.SearchStringIndexHandler?,
                        ghost trace: seq<Visit>, s: Segment, segmentData: seq<Row>)
    requires KindOf(s) != Nested
    requires forall i :: 0 <= i < |segmentData| ==> RowFits(KindOf(s), segmentData[i])
    requires Holds(h0, h1, h2, h3, trace)
    modifies h0, h1, h2, h3
    ensures Holds(h0, h1, h2, h3, trace + RowVisits(s, segmentData, |segmentData|))
  {
    assert trace + RowVisits(s, segmentData, 0) == trace;
    var itemIndex := 0;
    while itemIndex < |segmentData|
      invariant 0 <= itemIndex <= |segmentData|
      invariant Holds(h0, h1, h2, h3, trace + RowVisits(s, segmentData, itemIndex))
    {
      AddFlatRow(h0, h1, h2, h3, trace, s, segmentData, itemIndex);
      itemIndex := itemIndex + 1;
    }
  }

  /** One pass of the row loop of a flat segment: row `itemIndex` given to every handler. */
  method AddFlatRow(h0: S0.ScriptIdIndexHandler, h1: S1.IsinCodeIndexHandler,
                    h2: S2.DerivativesIndexHandler, h3: S3.SearchStringIndexHandler?,
                    ghost trace: seq<Visit>, s: Segment, segmentData: seq<Row>, itemIndex: nat)
    requires KindOf(s) != Nested && itemIndex < |segmentData|
    requires RowFits(KindOf(s), segmentData[itemIndex])
    requires Holds(h0, h1, h2, h3, trace + RowVisits(s, segmentData, itemIndex))
    modifies h0, h1, h2, h3
    ensures Holds(h0, h1, h2, h3, trace + RowVisits(s, segmentData, itemIndex + 1))
  {
    ghost var t := trace + RowVisits(s, segmentData, itemIndex);
    var v := FlatVisit(s, itemIndex, segmentData[itemIndex]);
    FlatRowVisits(trace, t, s, segmentData, itemIndex);
    AddRowToAll(h0, h1, h2, h3, t, v);
  }

  /** The leg loop of one group. */
  method AddGroup(h0: S0.ScriptIdIndexHandler, h1: S1.IsinCodeIndexHandler,
                  h2: S2.DerivativesIndexHandler, h3: S3.SearchStringIndexHandler?,
                  ghost trace: seq<Visit>, s: Segment, itemIndex: nat, itemData: DerivativeGroup)
    requires KindOf(s) == Nested
    requires Holds(h0, h1, h2, h3, trace)
    modifies h0, h1, h2, h3
    ensures Holds(h0, h1, h2, h3, trace + LegVisits(s, itemIndex, itemData, |itemData.legs|))
  {
    var derivativeItems := itemData.legs;
    ghost var t := trace;
    var derivativeItemIndex := 0;
    while derivativeItemIndex < |derivativeItems|
      invariant 0 <= derivativeItemIndex <= |derivativeItems|
      invariant t == trace + LegVisits(s, itemIndex, itemData, derivativeItemIndex)
      invariant Holds(h0, h1, h2, h3, t)
    {
      var v := LegVisit(s, itemIndex, itemData, derivativeItemIndex, derivativeItems[derivativeItemIndex]);
      LegVisitsStep(trace, t, s, itemIndex, itemData, derivativeItemIndex);
      AddRowToAll(h0, h1, h2, h3, t, v);
      t := t + [v];
      derivativeItemIndex := derivativeItemIndex + 1;
    }
  }

  /** The visits so far, extended by the next row of a flat segment. */
  lemma FlatRowVisits(trace: seq<Visit>, t: seq<Visit>, s: Segment, rows: seq<Row>, i: nat)
    requires KindOf(s) != Nested && i < |rows|
    requires t == trace + RowVisits(s, rows, i)
    ensures t + [FlatVisit(s, i, rows[i])] == trace + RowVisits(s, rows, i + 1)
  {
  }

  /** The visits so far, extended by the next leg of a group. */
  lemma LegVisitsStep(trace: seq<Visit>, t: seq<Visit>, s: Segment, i: nat, g: DerivativeGroup, k: nat)
    requires k < |g.legs|
    requires t == trace + LegVisits(s, i, g, k)
    ensures t + [LegVisit(s, i, g, k, g.legs[k])] == trace + LegVisits(s, i, g, k + 1)
  {
  }

  /** The visits so far, extended by the legs of the next row of a nested segment. */
  lemma NestedRowVisits(trace: seq<Visit>, t: seq<Visit>, s: Segment, rows: seq<Row>, i: nat)
    requires KindOf(s) == Nested && i < |rows| && rows[i].Derivatives?
    requires t == trace + RowVisits(s, rows, i)
    ensures t + LegVisits(s, i, rows[i].group, |rows[i].group.legs|) == trace + RowVisits(s, rows, i + 1)
  {
  }

  /** One pass of the row loop of a nested segment: the legs of row `itemIndex`. */
  method AddNestedRow(h0: S0.ScriptIdIndexHandler, h1: S1.IsinCodeIndexHandler,
                      h2: S2.DerivativesIndexHandler, h3: S3.SearchStringIndexHandler?,
                      ghost trace: seq<Visit>, s: Segment, segmentData: seq<Row>, itemIndex: nat)
    requires KindOf(s) == Nested && itemIndex < |segmentData| && segmentData[itemIndex].Derivatives?
    requires Holds(h0, h1, h2, h3, trace + RowVisits(s, segmentData, itemIndex))
    modifies h0, h1, h2, h3
    ensures Holds(h0, h1, h2, h3, trace + RowVisits(s, segmentData, itemIndex + 1))
  {
    var itemData := segmentData[itemIndex].group;
    ghost var t := trace + RowVisits(s, segmentData, itemIndex);
    NestedRowVisits(trace, t, s, segmentData, itemIndex);
    AddGroup(h0, h1, h2, h3, t, s, itemIndex, itemData);
  }

  /** The row loop of a nested segment. */
  method AddNestedSegment(h0: S0.ScriptIdIndexHandler, h1: S1.IsinCodeIndexHandler,
                          h2: S2.DerivativesIndexHandler, h3: S3.SearchStringIndexHandler?,
                          ghost trace: seq<Visit>, s: Segment, segmentData: seq<Row>)
    requires KindOf(s) == Nested
    requires forall i :: 0 <= i < |segmentData| ==> segmentData[i].Derivatives?
    requires Holds(h0, h1, h2, h3, trace)
    modifies h0, h1, h2, h3
    ensures Holds(h0, h1, h2, h3, trace + RowVisits(s, segmentData, |segmentData|))
  {
    assert trace + RowVisits(s, segmentData, 0) == trace;
    var itemIndex := 0;
    while itemIndex < |segmentData|
      invariant 0 <= itemIndex <= |segmentData|
      invariant Holds(h0, h1, h2, h3, trace + RowVisits(s, segmentData, itemIndex))
    {
      AddNestedRow(h0, h1, h2, h3, trace, s, segmentData, itemIndex);
      itemIndex := itemIndex + 1;
    }
  }

  /** One entry of the segment table: its rows fed to the handlers, if the snapshot has it. */
  method AddSegment(h0: S0.ScriptIdIndexHandler, h1: S1.IsinCodeIndexHandler,
                    h2: S2.DerivativesIndexHandler, h3: S3.SearchStringIndexHandler?,
                    ghost trace: seq<Visit>, md: MasterData, s: Segment, kind: StructureKind)
    requires WellShaped(md) && kind == KindOf(s)
    requires Holds(h0, h1, h2, h3, trace)
    modifies h0, h1, h2, h3
    ensures Holds(h0, h1, h2, h3, trace + SegmentVisits(md, s))
  {
    if s in md {
      var segmentData := md[s];
      if kind == FlatEquity || kind == FlatUnderlying {
        AddFlatSegment(h0, h1, h2, h3, trace, s, segmentData);
      } else {
        AddNestedSegment(h0, h1, h2, h3, trace, s, segmentData);
      }
    } else {
      assert trace + SegmentVisits(md, s) == trace;
    }
  }

  /** The loop over the segment table. */
  method AddSegments(h0: S0.ScriptIdIndexHandler, h1: S1.IsinCodeIndexHandler,
                     h2: S2.DerivativesIndexHandler, h3: S3.SearchStringIndexHandler?, md: MasterData)
    requires WellShaped(md)
    requires Holds(h0, h1, h2, h3, [])
    modifies h0, h1, h2, h3
    ensures Holds(h0, h1, h2, h3, Visits(md))
  {
    ghost var trace: seq<Visit> := [];
    TableKindFollowsInstrumentToken();
    var k := 0;
    while k < |SecSegments|
      invariant 0 <= k <= |SecSegments|
      invariant trace == TableVisits(md, k)
      invariant Holds(h0, h1, h2, h3, trace)
    {
      var segment := SecSegments[k];
      AddSegment(h0, h1, h2, h3, trace, md, segment.name, segment.kind);
      trace := trace + SegmentVisits(md, segment.name);
      k := k + 1;
    }
  }

  /** The result of `createIndexes`; the search index is present only when it was required. */
  datatype Indexes = Indexes(
    scriptIdIndex: ScriptIdIndex,
    isinCodeIndex: IsinCodeIndex,
    derivativesIndex: DerivativesIndex,
    searchStringIndex: Option<SearchStringIndex>)

  /** `createIndexes(masterData, options)`, where `requireSearchModule` is the truthiness of
      `options && options.requireSearchModule`. Handlers 0 to 2 are always present; the search
      handler is the fourth one, added only on request. */
  method CreateIndexes(md: MasterData, requireSearchModule: bool) returns (r: Indexes)
    requires WellShaped(md)
    ensures r.scriptIdIndex == BuiltScriptIdIndex(md)
    ensures r.isinCodeIndex == BuiltIsinCodeIndex(md)
    ensures r.derivativesIndex == BuiltDerivativesIndex(md)
    ensures r.searchStringIndex.Some? <==> requireSearchModule
    ensures requireSearchModule ==> r.searchStringIndex == Some(BuiltSearchStringIndex(md))
  {
    var h0 := new S0.ScriptIdIndexHandler();
    var h1 := new S1.IsinCodeIndexHandler();
    var h2 := new S2.DerivativesIndexHandler();
    var h3: S3.SearchStringIndexHandler? := null;
    if requireSearchModule {
      h3 := new S3.SearchStringIndexHandler();
    }
    AddSegments(h0, h1, h2, h3, md);
    VisitsShaped(md);
    var searchStringIndex: Option<SearchStringIndex> := None;
    if h3 != null {
      searchStringIndex := Some(h3.GetIndex());
    }
    r := Indexes(h0.GetIndex(), h1.GetIndex(), h2.GetIndex(), searchStringIndex);
  }
}
