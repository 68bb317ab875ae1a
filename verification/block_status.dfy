/**
 The write-block summary of a collection of indices. A missing or empty list
 is answered locally with an empty status; any other list goes to the backend
 adapter, which owns the per-index block queries.
 */
module BlockStatus {
  import opened Wrappers

  /** Blocked indices, each with the block reasons the backend reports for it. */
  datatype IndicesBlockStatus = IndicesBlockStatus(blockedIndices: map<string, set<string>>)

  /** The number of indices the status reports as blocked. */
  function CountBlockedIndices(status: IndicesBlockStatus): nat {
    |status.blockedIndices|
  }

  /** The backend adapter's block-status query for a non-empty list of index names. */
  type BlockStatusAdapter = seq<string> -> IndicesBlockStatus

  /** `getIndicesBlocksStatus(indices)`; None stands for Java's null list. */
  function GetIndicesBlocksStatus(indices: Option<seq<string>>, adapter: BlockStatusAdapter)
    : (status: IndicesBlockStatus)
    ensures (indices.None? || indices.value == []) ==>
              CountBlockedIndices(status) == 0 && status.blockedIndices == map[]
    ensures indices.Some? && indices.value != [] ==> status == adapter(indices.value)
  {
    match indices
    case None => IndicesBlockStatus(map[])
    case Some(names) => if |names| == 0 then IndicesBlockStatus(map[]) else adapter(names)
  }

  /** A null or empty list never reaches the backend: every adapter gives the same status. */
  lemma EmptyQueryNeedsNoBackend(indices: Option<seq<string>>, adapter1: BlockStatusAdapter,
                                 adapter2: BlockStatusAdapter)
    requires indices.None? || indices.value == []
    ensures GetIndicesBlocksStatus(indices, adapter1) == GetIndicesBlocksStatus(indices, adapter2)
  {
  }
}
