/** The property names of a decoded script record (`IScript`). */
module ScriptFields {
  import opened Js

  /** One property of a decoded record, named as in the record object. */
  datatype Field =
    | segment
    | exchange
    | instrumentType
    | scriptId
    | odinTokenId
    | exchangeSecurityId
    | aslAllowed
    | exchangeSymbol
    | exchangeSeries
    | isinCode
    | coName
    | expiryDate
    | strikePrice
    | optionType
    | lotSize
    | tickSize
    | nriAllowed
    | closePrice
    | assetClass
    | searchable
    | searchPriority
    | yesterdayOpenInt
    | maxSingleOrderQty
    | underlying
    | asmFlag
    | odinLlfcSegmentId
    | cmotsCoCode
    | dprLow
    | dprHigh
    | fiftyTwoWeekLow
    | fiftyTwoWeekHigh

  /** A decoded (or projected) record: the properties it has, with their values. */
  type Script = map<Field, Value>

}
