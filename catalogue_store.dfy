/** The process-wide store of the snapshot and its indexes: five optional slots. */
module CatalogueStore {
  import opened Js
  import opened Records

  /** The recognised store keys. */
  datatype StoreKey = MASTER_DATA | SCRIPT_ID_INDEX | SEARCH_STRING_INDEX | DERIVATIVES_INDEX | ISIN_CODE_INDEX

  /** The value under one recognised key; `None` is a key present with an undefined value. */
  datatype StoreValue =
    | MasterDataValue(masterData: Option<MasterData>)
    | ScriptIdIndexValue(scriptIdIndex: Option<ScriptIdIndex>)
    | SearchStringIndexValue(searchStringIndex: Option<SearchStringIndex>)
    | DerivativesIndexValue(derivativesIndex: Option<DerivativesIndex>)
    | IsinCodeIndexValue(isinCodeIndex: Option<IsinCodeIndex>)

  function KeyOf(v: StoreValue): StoreKey {
    match v
    case MasterDataValue(_) => MASTER_DATA
    case ScriptIdIndexValue(_) => SCRIPT_ID_INDEX
    case SearchStringIndexValue(_) => SEARCH_STRING_INDEX
    case DerivativesIndexValue(_) => DERIVATIVES_INDEX
    case IsinCodeIndexValue(_) => ISIN_CODE_INDEX
  }

  /** One own property of the object given to `addStore`, in enumeration order. */
  datatype StoreEntry = Recognised(value: StoreValue) | Unrecognised(key: string)

  /** The five slots as one value. */
  datatype Slots = Slots(
    masterData: Option<MasterData>,
    scriptIdIndex: Option<ScriptIdIndex>,
    searchStringIndex: Option<SearchStringIndex>,
    derivativesIndex: Option<DerivativesIndex>,
    isinCodeIndex: Option<IsinCodeIndex>)

  /** The slot for a key, as a value under that key. */
  function Slot(st: Slots, k: StoreKey): (v: StoreValue)
    ensures KeyOf(v) == k
  {
    match k
    case MASTER_DATA => MasterDataValue(st.masterData)
    case SCRIPT_ID_INDEX => ScriptIdIndexValue(st.scriptIdIndex)
    case SEARCH_STRING_INDEX => SearchStringIndexValue(st.searchStringIndex)
    case DERIVATIVES_INDEX => DerivativesIndexValue(st.derivativesIndex)
    case ISIN_CODE_INDEX => IsinCodeIndexValue(st.isinCodeIndex)
  }

  /** What one `add*` setter does. */
  function Put(st: Slots, v: StoreValue): Slots {
    match v
    case MasterDataValue(d) => st.(masterData := d)
    case ScriptIdIndexValue(d) => st.(scriptIdIndex := d)
    case SearchStringIndexValue(d) => st.(searchStringIndex := d)
    case DerivativesIndexValue(d) => st.(derivativesIndex := d)
    case IsinCodeIndexValue(d) => st.(isinCodeIndex := d)
  }

  /** A setter overwrites its own slot, even with undefined, and no other. */
  lemma PutOverwritesOneSlot(st: Slots, v: StoreValue, k: StoreKey)
    ensures Slot(Put(st, v), k) == if k == KeyOf(v) then v else Slot(st, k)
  {
  }

  /** The `switch` over the entries of `addStore`'s input; unrecognised keys are skipped. */
  function ApplyEntries(st: Slots, entries: seq<StoreEntry>): Slots
    decreases |entries|
  {
    if |entries| == 0 then st
    else
      var pre := ApplyEntries(st, entries[..|entries| - 1]);
      match entries[|entries| - 1]
      case Recognised(v) => Put(pre, v)
      case Unrecognised(_) => pre
  }

  /** `addStore`: a falsy input (`None`) changes nothing. */
  function AddStoreSpec(st: Slots, input: Option<seq<StoreEntry>>): Slots {
    if input.None? then st else ApplyEntries(st, input.value)
  }

  /** Reference definition: the last value given for key `k`, if any. */
  function LastFor(entries: seq<StoreEntry>, k: StoreKey): Option<StoreValue>
    decreases |entries|
  {
    if |entries| == 0 then None
    else
      var e := entries[|entries| - 1];
      if e.Recognised? && KeyOf(e.value) == k then Some(e.value) else LastFor(entries[..|entries| - 1], k)
  }

  /** After `addStore`, each slot holds the value its key was given in the input, and a slot whose
      key is absent from the input (or every slot, for a falsy input) is unchanged. */
  lemma {:induction false} AddStoreSetsGivenSlots(st: Slots, input: Option<seq<StoreEntry>>, k: StoreKey)
    ensures input.None? ==> AddStoreSpec(st, input) == st
    ensures input.Some? && LastFor(input.value, k).Some? ==>
      Slot(AddStoreSpec(st, input), k) == LastFor(input.value, k).value
    ensures input.Some? && LastFor(input.value, k).None? ==>
      Slot(AddStoreSpec(st, input), k) == Slot(st, k)
  {
    if input.Some? {
      ApplyEntriesSlot(st, input.value, k);
    }
  }

  lemma {:induction false} ApplyEntriesSlot(st: Slots, entries: seq<StoreEntry>, k: StoreKey)
    ensures Slot(ApplyEntries(st, entries), k)
      == if LastFor(entries, k).Some? then LastFor(entries, k).value else Slot(st, k)
    decreases |entries|
  {
    if |entries| > 0 {
      var pre := entries[..|entries| - 1];
      ApplyEntriesSlot(st, pre, k);
      var e := entries[|entries| - 1];
      if e.Recognised? {
        PutOverwritesOneSlot(ApplyEntries(st, pre), e.value, k);
      }
    }
  }

  /** `x || {}` for a slot: an undefined slot reads as the empty object. */
  function OrEmpty<K, V>(slot: Option<map<K, V>>): map<K, V> {
    if slot.Some? then slot.value else map[]
  }

  /** The module-level store object. */
  class Store {
    var masterData: Option<MasterData>
    var scriptIdIndex: Option<ScriptIdIndex>
    var searchStringIndex: Option<SearchStringIndex>
    var derivativesIndex: Option<DerivativesIndex>
    var isinCodeIndex: Option<IsinCodeIndex>

    function Contents(): Slots
      reads this
    {
      Slots(masterData, scriptIdIndex, searchStringIndex, derivativesIndex, isinCodeIndex)
    }

    /** The store starts as `{}`. */
    constructor()
      ensures Contents() == Slots(None, None, None, None, None)
    {
      masterData := None;
      scriptIdIndex := None;
      searchStringIndex := None;
      derivativesIndex := None;
      isinCodeIndex := None;
    }

    method AddMasterData(data: Option<MasterData>)
      modifies this
      ensures Contents() == old(Contents()).(masterData := data)
    {
      masterData := data;
    }

    method AddScripIdIndexes(data: Option<ScriptIdIndex>)
      modifies this
      ensures Contents() == old(Contents()).(scriptIdIndex := data)
    {
      scriptIdIndex := data;
    }

    method AddDerivativeIndexes(data: Option<DerivativesIndex>)
      modifies this
      ensures Contents() == old(Contents()).(derivativesIndex := data)
    {
      derivativesIndex := data;
    }

    method AddIsinCodeIndexes(data: Option<IsinCodeIndex>)
      modifies this
      ensures Contents() == old(Contents()).(isinCodeIndex := data)
    {
      isinCodeIndex := data;
    }

    method AddSearchStringIndexes(data: Option<SearchStringIndex>)
      modifies this
      ensures Contents() == old(Contents()).(searchStringIndex := data)
    {
      searchStringIndex := data;
    }

    /** `addStore(inputStore)`: each own property dispatched by key to its setter. */
    method AddStore(inputStore: Option<seq<StoreEntry>>)
      modifies this
      ensures Contents() == AddStoreSpec(old(Contents()), inputStore)
    {
      if inputStore.None? {
        return;
      }
      var entries := inputStore.value;
      var i := 0;
      while i < |entries|
        invariant 0 <= i <= |entries|
        invariant Contents() == ApplyEntries(old(Contents()), entries[..i])
      {
        assert entries[..i + 1][..i] == entries[..i];
        match entries[i] {
          case Recognised(v) =>
            match v {
              case MasterDataValue(d) => AddMasterData(d);
              case ScriptIdIndexValue(d) => AddScripIdIndexes(d);
              case DerivativesIndexValue(d) => AddDerivativeIndexes(d);
              case SearchStringIndexValue(d) => AddSearchStringIndexes(d);
              case IsinCodeIndexValue(d) => AddIsinCodeIndexes(d);
            }
          case Unrecognised(_) =>
        }
        i := i + 1;
      }
      assert entries[..|entries|] == entries;
    }

    function GetMasterData(): (r: MasterData)
      reads this
      ensures masterData.Some? ==> r == masterData.value
      ensures masterData.None? ==> r == map[]
    {
      OrEmpty(masterData)
    }

    function GetScripIndex(): (r: ScriptIdIndex)
      reads this
      ensures scriptIdIndex.Some? ==> r == scriptIdIndex.value
      ensures scriptIdIndex.None? ==> r == map[]
    {
      OrEmpty(scriptIdIndex)
    }

    function GetDerivativeIndex(): (r: DerivativesIndex)
      reads this
      ensures derivativesIndex.Some? ==> r == derivativesIndex.value
      ensures derivativesIndex.None? ==> r == map[]
    {
      OrEmpty(derivativesIndex)
    }

    function GetSearchIndex(): (r: SearchStringIndex)
      reads this
      ensures searchStringIndex.Some? ==> r == searchStringIndex.value
      ensures searchStringIndex.None? ==> r == map[]
    {
      OrEmpty(searchStringIndex)
    }

    function GetIsinIndex(): (r: IsinCodeIndex)
      reads this
      ensures isinCodeIndex.Some? ==> r == isinCodeIndex.value
      ensures isinCodeIndex.None? ==> r == map[]
    {
      OrEmpty(isinCodeIndex)
    }
  }
}
