/** The audit-log page (frontend/src/pages/Logs.js): the limit field's
    clamping, the admin-only view, and the load that always fails. */
module Logs {
  import opened Common

  const INITIAL_LIMIT := 100
  const MAX_LIMIT := 500
  const LOGS_FAILED := "Failed to load logs"

  /** One audit row as the page lists it. */
  datatype LogEntry = LogEntry(logId: int, tableName: string, operation: string)

  /** `Math.max(1, Math.min(500, parseInt(text) || 100))`, where `input`
      is what `parseInt` made of the field (None for NaN). */
  function ClampLimit(input: Option<int>): (limit: int)
    ensures 1 <= limit <= MAX_LIMIT
    ensures input.None? || input == Some(0) ==> limit == INITIAL_LIMIT
    ensures input.Some? && 1 <= input.value <= MAX_LIMIT ==> limit == input.value
    ensures input.Some? && input.value > MAX_LIMIT ==> limit == MAX_LIMIT
    ensures input.Some? && input.value < 0 ==> limit == 1
  {
    var n := if input.None? || input.value == 0 then INITIAL_LIMIT else input.value;
    var capped := if n < MAX_LIMIT then n else MAX_LIMIT;
    if capped > 1 then capped else 1
  }

  /** Clamping twice gives what clamping once gave: a clamped limit typed
      back into the field stays put. */
  lemma ClampLimitIdempotent(input: Option<int>)
    ensures ClampLimit(Some(ClampLimit(input))) == ClampLimit(input)
  {
  }

  /** What the page renders. */
  datatype View = AdminRequired | LogTable

  /** `user?.Role !== 'admin'`: anyone else, and a missing user, sees the
      refusal banner. */
  function PageView(user: Option<User>): (v: View)
    ensures v == LogTable <==> user.Some? && user.value.role == "admin"
  {
    if user.Some? && user.value.role == "admin" then LogTable else AdminRequired
  }

  class LogsPage {
    const user: Option<User>
    var logs: seq<LogEntry>
    var loading: bool
    var error: string
    var tableFilter: string
    var limit: int

    ghost predicate Valid()
      reads this
    {
      1 <= limit <= MAX_LIMIT
    }

    constructor (u: Option<User>)
      ensures Valid()
      ensures user == u && logs == [] && loading && error == "" && tableFilter == "" && limit == INITIAL_LIMIT
    {
      user := u;
      logs := [];
      loading := true;
      error := "";
      tableFilter := "";
      limit := INITIAL_LIMIT;
    }

    method EditTableFilter(text: string)
      modifies this`tableFilter
      ensures tableFilter == text
    {
      tableFilter := text;
    }

    /** The limit field's change handler: whatever is typed, the limit
        stays within [1, 500]. */
    method EditLimit(input: Option<int>)
      requires Valid()
      modifies this`limit
      ensures Valid()
      ensures limit == ClampLimit(input)
    {
      limit := ClampLimit(input);
    }

    /** loadLogs, run on mount, after each change of the filter or the
        limit, and by the Refresh button. Logs.js imports `getLogs` from the
        API module, which exports no such function, and the server has no
        log route: the call throws before any request is sent, the error
        carries no server response, and the page always ends on the fallback
        message with the rows it already had. */
    method LoadLogs()
      requires Valid()
      modifies this`loading, this`error
      ensures Valid()
      ensures logs == old(logs) && error == LOGS_FAILED && !loading
    {
      loading := true;
      error := "";
      error := ErrorText(None, LOGS_FAILED);
      loading := false;
    }
  }
}
