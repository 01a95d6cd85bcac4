/** The script-id index: every visited script id maps to the location of its record. */
module ScriptIdIndexing {
  import opened Js
  import opened Segments
  import opened Records

  /** The id of the visited script: the leg's own id for a leg, the row's id otherwise. */
  function ScriptIdOf(v: Visit): int
    requires Shaped(v)
  {
    match v
    case FlatVisit(_, _, row) => RowScriptId(row)
    case LegVisit(_, _, _, _, leg) => leg.scriptId
  }

  /** The location recorded for a visit. The leg extension is added only for a truthy leg index,
      so the first leg of a group (index 0) gets a flat two-element location. */
  function LocationOf(v: Visit): (loc: Location)
    ensures loc.segment == v.segment && loc.itemIndex == v.itemIndex
    ensures loc.Leg? <==> v.LegVisit? && v.legIndex != 0
    ensures loc.Leg? ==> loc.legsPosition == 3 && loc.legIndex == v.legIndex
    ensures LocationArray(loc) == [Str(Name(v.segment)), Num(v.itemIndex)] +
      (if v.LegVisit? && Truthy(Num(v.legIndex)) then [Num(3), Num(v.legIndex)] else [])
  {
    match v
    case FlatVisit(s, i, _) => Flat(s, i)
    case LegVisit(s, i, _, k, _) => if k != 0 then Leg(s, i, LegsPosition, k) else Flat(s, i)
  }

  /** The location the handler evidently means to record: every leg, the first one included, gets
      the four-element location that names its position in the leg list. */
  function IntendedLocationOf(v: Visit): (loc: Location)
    ensures loc.segment == v.segment && loc.itemIndex == v.itemIndex
    ensures loc.Leg? <==> v.LegVisit?
    ensures loc.Leg? ==> loc.legsPosition == 3 && loc.legIndex == v.legIndex
    ensures v.FlatVisit? || v.legIndex != 0 ==> loc == LocationOf(v)
  {
    match v
    case FlatVisit(s, i, _) => Flat(s, i)
    case LegVisit(s, i, _, k, _) => Leg(s, i, LegsPosition, k)
  }

  /** The index after one `addRow`. */
  function Step(index: ScriptIdIndex, v: Visit): ScriptIdIndex
    requires Shaped(v)
  {
    index[ScriptIdOf(v) := LocationOf(v)]
  }

  /** One `addRow` sets its script's entry, whatever the allow-flag, and leaves every other key. */
  lemma StepSetsOneKey(index: ScriptIdIndex, v: Visit)
    requires Shaped(v)
    ensures Step(index, v).Keys == index.Keys + {ScriptIdOf(v)}
    ensures Step(index, v)[ScriptIdOf(v)] == LocationOf(v)
    ensures forall id :: id in index && id != ScriptIdOf(v) ==> Step(index, v)[id] == index[id]
  {
  }

  /** The index after a sequence of `addRow` calls, starting from `index`. */
  function Fold(index: ScriptIdIndex, vs: seq<Visit>): ScriptIdIndex
    requires AllShaped(vs)
    decreases |vs|
  {
    if |vs| == 0 then index
    else Step(Fold(index, vs[..|vs| - 1]), vs[|vs| - 1])
  }

  lemma FoldAppend(index: ScriptIdIndex, vs: seq<Visit>, v: Visit)
    requires AllShaped(vs) && Shaped(v)
    ensures AllShaped(vs + [v])
    ensures Fold(index, vs + [v]) == Step(Fold(index, vs), v)
  {
    assert (vs + [v])[..|vs|] == vs;
  }

  /** The keys of a built index are exactly the ids visited. */
  lemma {:induction false} FoldKeys(vs: seq<Visit>)
    requires AllShaped(vs)
    ensures forall id :: id in Fold(map[], vs) <==> exists j :: 0 <= j < |vs| && ScriptIdOf(vs[j]) == id
    decreases |vs|
  {
    if |vs| > 0 {
      var pre := vs[..|vs| - 1];
      FoldKeys(pre);
      forall id
        ensures id in Fold(map[], vs) <==> exists j :: 0 <= j < |vs| && ScriptIdOf(vs[j]) == id
      {
        if id in Fold(map[], vs) && id != ScriptIdOf(vs[|vs| - 1]) {
          assert id in Fold(map[], pre);
          var j :| 0 <= j < |pre| && ScriptIdOf(pre[j]) == id;
          assert vs[j] == pre[j];
        }
        if exists j :: 0 <= j < |vs| && ScriptIdOf(vs[j]) == id {
          var j :| 0 <= j < |vs| && ScriptIdOf(vs[j]) == id;
          if j < |pre| {
            assert pre[j] == vs[j];
          }
        }
      }
    }
  }

  /** Every entry of a built index is the location of a visit carrying its id. */
  lemma {:induction false} FoldValues(vs: seq<Visit>)
    requires AllShaped(vs)
    ensures forall id :: id in Fold(map[], vs) ==>
      exists j :: 0 <= j < |vs| && ScriptIdOf(vs[j]) == id && Fold(map[], vs)[id] == LocationOf(vs[j])
    decreases |vs|
  {
    if |vs| > 0 {
      var pre := vs[..|vs| - 1];
      FoldValues(pre);
      forall id | id in Fold(map[], vs)
        ensures exists j :: 0 <= j < |vs| && ScriptIdOf(vs[j]) == id && Fold(map[], vs)[id] == LocationOf(vs[j])
      {
        if id == ScriptIdOf(vs[|vs| - 1]) {
          assert Fold(map[], vs)[id] == LocationOf(vs[|vs| - 1]);
        } else {
          assert id in Fold(map[], pre) && Fold(map[], vs)[id] == Fold(map[], pre)[id];
          var j :| 0 <= j < |pre| && ScriptIdOf(pre[j]) == id && Fold(map[], pre)[id] == LocationOf(pre[j]);
          assert vs[j] == pre[j];
        }
      }
    }
  }

  /** Last write wins: the entry for an id is the location of the last visit carrying that id. */
  lemma {:induction false} LastWriteWins(vs: seq<Visit>, j: nat)
    requires AllShaped(vs)
    requires j < |vs|
    requires forall k :: j < k < |vs| ==> ScriptIdOf(vs[k]) != ScriptIdOf(vs[j])
    ensures ScriptIdOf(vs[j]) in Fold(map[], vs)
    ensures Fold(map[], vs)[ScriptIdOf(vs[j])] == LocationOf(vs[j])
    decreases |vs|
  {
    if j < |vs| - 1 {
      var pre := vs[..|vs| - 1];
      assert pre[j] == vs[j];
      forall k | j < k < |pre|
        ensures ScriptIdOf(pre[k]) != ScriptIdOf(pre[j])
      {
        assert pre[k] == vs[k];
      }
      LastWriteWins(pre, j);
    }
  }

  /** `scriptIdIndexHandler`: an accumulator over which the builder calls `addRow`. */
  class ScriptIdIndexHandler {
    var index: ScriptIdIndex

    constructor()
      ensures index == map[]
    {
      index := map[];
    }

    method AddRow(v: Visit)
      requires Shaped(v)
      modifies this
      ensures index == Step(old(index), v)
    {
      var scriptId;
      if v.LegVisit? {
        scriptId := v.leg.scriptId;
      } else {
        scriptId := RowScriptId(v.row);
      }
      var location := Flat(v.segment, v.itemIndex);
      if v.LegVisit? && v.legIndex != 0 {
        location := Leg(v.segment, v.itemIndex, LegsPosition, v.legIndex);
      }
      index := index[scriptId := location];
    }

    function GetIndex(): (r: ScriptIdIndex)
      reads this
      ensures r == index
    {
      index
    }
  }
}
