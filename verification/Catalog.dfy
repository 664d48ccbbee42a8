/** The tool catalog (apps/mcp_server/catalog.py), which is also the graph's allowlist. */
module Catalog {

  datatype Tool =
    | QueryMetrics | QueryLogs | GetTrace | GetHealth | SearchKnowledge | GetRunbook | GetCurrentRelease
    | Simulate | Rollback | TicketCreate
    | UnknownTool(name: string)

  datatype Category = Read | Analysis | Write | Destructive | NotListed

  function CategoryOf(t: Tool): Category {
    match t
    case Simulate => Analysis
    case Rollback => Write
    case TicketCreate => Write
    case UnknownTool(_) => NotListed
    case _ => Read
  }

  predicate IsWriteTool(t: Tool) { t.Rollback? || t.TicketCreate? }
}
