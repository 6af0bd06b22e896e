/** The records a query collects, and the handles they are collected under. */
module Answers {
  type Bytes = seq<bv8>

  /** A proto-layer query handle. The endpoint never issues the same one twice. */
  type QueryHandle = nat

  /** One collected record. `rdataKey` is the case-folded identity of the rdata; `rdata` keeps the display case. */
  datatype CollectedAnswer = CollectedAnswer(rtype: nat, rclass: nat, rdata: Bytes, rdataKey: Bytes, seqNo: nat)

  /** A lookup: the slab slot it occupies, and which of the slot's occupants it is. */
  datatype LookupHandle = LookupHandle(key: nat, generation: nat)

  /** The driver's context of one query: how far its answers were read, and the lookup it is a leg of, if any. */
  datatype QueryCtx = QueryCtx(lastSeq: nat, owner: Option<LookupHandle>)

  datatype Option<+T> = None | Some(value: T)
}
