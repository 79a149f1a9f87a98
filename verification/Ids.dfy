/** Identifiers and small shared datatypes. Only equality of identifiers matters to the
    source, so they are numbers here. */
module Ids {
  type WsId = nat
  type ColId = nat
  type DocId = nat
  type JobId = nat
  type TagId = nat
  type Model = string

  datatype Option<+T> = None | Some(value: T)

  /** Places in a sequence, each once and in order. */
  predicate Ascending(places: seq<nat>) {
    forall i, j :: 0 <= i < j < |places| ==> places[i] < places[j]
  }
}
