/** The transcript entry: what the tree (`Transcript`) and the rewriter (`Compaction`) both work on. */
module Entries {
  import opened Base

  type EntryId = string

  /** The summary a compaction leaves behind. `prose` stands for the fields the summariser writes. */
  datatype Summary = Summary(prose: string, filesTouched: seq<string>)

  datatype Kind =
    | UserTurn
    | AssistantTurn
    | ToolExchange(toolUseId: Option<string>, isError: bool)
    | CanonicalContext
    | MemoryRecall
    | DelegationRequest(request: string)
    | DelegationResult(result: string)
    | CompactionSummary(summary: Summary)

  datatype Item = Item(id: EntryId, parent: Option<EntryId>, kind: Kind,
                       message: Option<string>, details: Option<map<string, string>>)

  /** The active path with the parent links it implies filled in; a link that is there stays as it is. */
  function Link(items: seq<Item>): (r: seq<Item>)
    ensures |r| == |items|
  {
    seq(|items|, i requires 0 <= i < |items| =>
      if i > 0 && items[i].parent.None? then items[i].(parent := Some(items[i - 1].id)) else items[i])
  }
}
