/** The segment enum and the static segment table: every segment name is
    `<exchange>_<market>_<instrumentType>`, and the table gives each segment its structural kind
    and the order in which the index builder visits it. */
module Segments {
  import opened Js

  /** The seventeen members of the segment enum, in declaration order. */
  datatype Segment =
    | NSE_EQ_EQUITY
    | BSE_EQ_EQUITY
    | NSE_FO_FUTSTK
    | NSE_FO_FUTIDX
    | NSE_FO_OPTIDX
    | NSE_FO_OPTSTK
    | NSE_CURR_FUTCUR
    | NSE_CURR_OPTCUR
    | MCX_COMM_OPTFUT
    | MCX_COMM_FUTCOM
    | NCDEX_COMM_OPTFUT
    | NCDEX_COMM_FUTCOM
    | NSE_CURR_UNDERLYING
    | MCX_COMM_UNDERLYING
    | NCDEX_COMM_UNDERLYING
    | NSE_EQ_UNDERLYING
    | BSE_EQ_UNDERLYING

  /** The enum's string value, which is also the snapshot key of the segment:
      its three tokens joined by underscores (`"NSE" + "_" + "EQ" + "_" + "EQUITY"`). */
  function Name(s: Segment): string
  {
    var (exchange, market, instrumentType) := Parts(s);
    exchange + "_" + market + "_" + instrumentType
  }

  /** The three tokens each name is written from. */
  function Parts(s: Segment): (string, string, string)
  {
    match s
    case NSE_EQ_EQUITY => ("NSE", "EQ", "EQUITY")
    case BSE_EQ_EQUITY => ("BSE", "EQ", "EQUITY")
    case NSE_FO_FUTSTK => ("NSE", "FO", "FUTSTK")
    case NSE_FO_FUTIDX => ("NSE", "FO", "FUTIDX")
    case NSE_FO_OPTIDX => ("NSE", "FO", "OPTIDX")
    case NSE_FO_OPTSTK => ("NSE", "FO", "OPTSTK")
    case NSE_CURR_FUTCUR => ("NSE", "CURR", "FUTCUR")
    case NSE_CURR_OPTCUR => ("NSE", "CURR", "OPTCUR")
    case MCX_COMM_OPTFUT => ("MCX", "COMM", "OPTFUT")
    case MCX_COMM_FUTCOM => ("MCX", "COMM", "FUTCOM")
    case NCDEX_COMM_OPTFUT => ("NCDEX", "COMM", "OPTFUT")
    case NCDEX_COMM_FUTCOM => ("NCDEX", "COMM", "FUTCOM")
    case NSE_CURR_UNDERLYING => ("NSE", "CURR", "UNDERLYING")
    case MCX_COMM_UNDERLYING => ("MCX", "COMM", "UNDERLYING")
    case NCDEX_COMM_UNDERLYING => ("NCDEX", "COMM", "UNDERLYING")
    case NSE_EQ_UNDERLYING => ("NSE", "EQ", "UNDERLYING")
    case BSE_EQ_UNDERLYING => ("BSE", "EQ", "UNDERLYING")
  }

  lemma NameJoinsParts(s: Segment)
    ensures Name(s) == Parts(s).0 + "_" + Parts(s).1 + "_" + Parts(s).2
    ensures '_' !in Parts(s).0 && '_' !in Parts(s).1 && '_' !in Parts(s).2
  {
  }

  /** `name.split('_')`: every segment name splits into exactly its three tokens. */
  function Tokens(s: Segment): (t: seq<string>)
    ensures |t| == 3
    ensures t == [Parts(s).0, Parts(s).1, Parts(s).2]
  {
    NameJoinsParts(s);
    SplitThree(Parts(s).0, Parts(s).1, Parts(s).2, '_');
    Split(Name(s), '_')
  }

  /** Distinct segments have distinct names, so a name stored in an index identifies its segment. */
  lemma NameInjective(s: Segment, t: Segment)
    ensures Name(s) == Name(t) ==> s == t
  {
    if Name(s) == Name(t) {
      var ts, tt := Tokens(s), Tokens(t);
      assert Parts(s) == Parts(t);
    }
  }

  /** The instrument-type token, the third part of the name. */
  function InstrumentToken(s: Segment): string { Parts(s).2 }

  datatype StructureKind = FlatEquity | FlatUnderlying | Nested

  /** The structural kind a segment's instrument-type token stands for. */
  function KindOf(s: Segment): StructureKind
  {
    match s
    case NSE_EQ_EQUITY => FlatEquity
    case BSE_EQ_EQUITY => FlatEquity
    case NSE_FO_FUTSTK => Nested
    case NSE_FO_FUTIDX => Nested
    case NSE_FO_OPTIDX => Nested
    case NSE_FO_OPTSTK => Nested
    case NSE_CURR_FUTCUR => Nested
    case NSE_CURR_OPTCUR => Nested
    case MCX_COMM_OPTFUT => Nested
    case MCX_COMM_FUTCOM => Nested
    case NCDEX_COMM_OPTFUT => Nested
    case NCDEX_COMM_FUTCOM => Nested
    case NSE_CURR_UNDERLYING => FlatUnderlying
    case MCX_COMM_UNDERLYING => FlatUnderlying
    case NCDEX_COMM_UNDERLYING => FlatUnderlying
    case NSE_EQ_UNDERLYING => FlatUnderlying
    case BSE_EQ_UNDERLYING => FlatUnderlying
  }

  /** The kind is the one the instrument-type token names: `EQUITY`, `UNDERLYING`, or anything else. */
  lemma KindFollowsInstrumentToken(s: Segment)
    ensures KindOf(s) == FlatEquity <==> InstrumentToken(s) == "EQUITY"
    ensures KindOf(s) == FlatUnderlying <==> InstrumentToken(s) == "UNDERLYING"
  {
  }

  datatype SegmentEntry = SegmentEntry(name: Segment, kind: StructureKind)

  /** `SEC_SEGMENTS`, in its source order. */
  const SecSegments: seq<SegmentEntry> := [
    SegmentEntry(NSE_EQ_EQUITY, FlatEquity),
    SegmentEntry(BSE_EQ_EQUITY, FlatEquity),
    SegmentEntry(NSE_FO_FUTSTK, Nested),
    SegmentEntry(NSE_FO_FUTIDX, Nested),
    SegmentEntry(NSE_FO_OPTIDX, Nested),
    SegmentEntry(NSE_FO_OPTSTK, Nested),
    SegmentEntry(NSE_CURR_FUTCUR, Nested),
    SegmentEntry(NSE_CURR_OPTCUR, Nested),
    SegmentEntry(MCX_COMM_OPTFUT, Nested),
    SegmentEntry(MCX_COMM_FUTCOM, Nested),
    SegmentEntry(NCDEX_COMM_OPTFUT, Nested),
    SegmentEntry(NCDEX_COMM_FUTCOM, Nested),
    SegmentEntry(NSE_CURR_UNDERLYING, FlatUnderlying),
    SegmentEntry(MCX_COMM_UNDERLYING, FlatUnderlying),
    SegmentEntry(NCDEX_COMM_UNDERLYING, FlatUnderlying),
    SegmentEntry(NSE_EQ_UNDERLYING, FlatUnderlying),
    SegmentEntry(BSE_EQ_UNDERLYING, FlatUnderlying)
  ]

  /** Where a segment stands in the table. */
  function Position(s: Segment): (i: nat)
    ensures i < |SecSegments| && SecSegments[i].name == s
  {
    match s
    case NSE_EQ_EQUITY => 0
    case BSE_EQ_EQUITY => 1
    case NSE_FO_FUTSTK => 2
    case NSE_FO_FUTIDX => 3
    case NSE_FO_OPTIDX => 4
    case NSE_FO_OPTSTK => 5
    case NSE_CURR_FUTCUR => 6
    case NSE_CURR_OPTCUR => 7
    case MCX_COMM_OPTFUT => 8
    case MCX_COMM_FUTCOM => 9
    case NCDEX_COMM_OPTFUT => 10
    case NCDEX_COMM_FUTCOM => 11
    case NSE_CURR_UNDERLYING => 12
    case MCX_COMM_UNDERLYING => 13
    case NCDEX_COMM_UNDERLYING => 14
    case NSE_EQ_UNDERLYING => 15
    case BSE_EQ_UNDERLYING => 16
  }

  /** The table lists each of the seventeen enum members exactly once. */
  lemma TableListsEverySegmentOnce()
    ensures |SecSegments| == 17
    ensures forall i, j :: 0 <= i < j < |SecSegments| ==> SecSegments[i].name != SecSegments[j].name
    ensures forall s: Segment :: SecSegments[Position(s)].name == s
  {
  }

  /** The table's kind is the one the name's third token stands for. */
  lemma TableKindFollowsInstrumentToken()
    ensures forall i :: 0 <= i < |SecSegments| ==> SecSegments[i].kind == KindOf(SecSegments[i].name)
    ensures forall i :: 0 <= i < |SecSegments| ==>
      (SecSegments[i].kind == FlatEquity <==> InstrumentToken(SecSegments[i].name) == "EQUITY")
    ensures forall i :: 0 <= i < |SecSegments| ==>
      (SecSegments[i].kind == FlatUnderlying <==> InstrumentToken(SecSegments[i].name) == "UNDERLYING")
  {
    forall i | 0 <= i < |SecSegments| {
      KindFollowsInstrumentToken(SecSegments[i].name);
    }
  }

  /** Equities first, then the ten nested segments, then the five underlyings. */
  lemma TableOrder()
    ensures forall i :: 0 <= i < 2 ==> SecSegments[i].kind == FlatEquity
    ensures forall i :: 2 <= i < 12 ==> SecSegments[i].kind == Nested
    ensures forall i :: 12 <= i < |SecSegments| ==> SecSegments[i].kind == FlatUnderlying
    ensures Position(NSE_EQ_EQUITY) < Position(BSE_EQ_EQUITY)
  {
  }

  /** `segmentKey.includes('EQUITY')` holds exactly for the flat equity segments. */
  lemma IncludesEquityIffFlatEquity(s: Segment)
    ensures Includes(Name(s), "EQUITY") <==> KindOf(s) == FlatEquity
  {
    NameJoinsParts(s);
    var p := Parts(s);
    if KindOf(s) == FlatEquity {
      assert Name(s) == (p.0 + "_" + p.1 + "_") + "EQUITY";
      IncludesSuffix(p.0 + "_" + p.1 + "_", "EQUITY");
    } else if p.1 == "EQ" {
      MissingCharExcludes(Name(s), "EQUITY", 'T');
    } else {
      MissingCharExcludes(Name(s), "EQUITY", 'Q');
    }
  }

  /** `segmentKey.includes('UNDERLYING')` holds exactly for the flat underlying segments. */
  lemma IncludesUnderlyingIffFlatUnderlying(s: Segment)
    ensures Includes(Name(s), "UNDERLYING") <==> KindOf(s) == FlatUnderlying
  {
    NameJoinsParts(s);
    var p := Parts(s);
    if KindOf(s) == FlatUnderlying {
      assert Name(s) == (p.0 + "_" + p.1 + "_") + "UNDERLYING";
      IncludesSuffix(p.0 + "_" + p.1 + "_", "UNDERLYING");
    } else {
      MissingCharExcludes(Name(s), "UNDERLYING", 'G');
    }
  }
}
