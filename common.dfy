/** Facts about plain sequences shared by the availability registry and the label pool. */
module Sequences {

  /** No element occurs twice. */
  predicate Distinct<T(==)>(s: seq<T>) {
    forall i, j :: 0 <= i < j < |s| ==> s[i] != s[j]
  }
}

/** DateTime values are modelled as tick counts. */
module DateTimes {

  /** DateTime.MinValue, the value of an unset DateTime field. */
  const MinValue: int := 0
}
