/**
 * internal/handler/log.go: the `task_id` filter of the backup-log list and the
 * paginated response. The log service is an input: `query` gives the rows and
 * the total for a filter.
 */
module LogHandler {
  import opened Wrappers
  import opened Strings
  import opened Pagination

  datatype LogError = InvalidTaskID // 400 "invalid task_id"

  /** The `task_id` query parameter (Gin reads a missing one as ""): no filter, or a 32-bit id. */
  function TaskIDFilter(query: string): (r: Result<Option<nat>, LogError>)
    ensures r == Ok(None) <==> query == ""
    ensures query != "" ==> (r.Ok? <==> ParseUint32(query).Some?)
    ensures r.Ok? && r.value.Some? ==> r.value.value <= MaxUint32 && r.value == ParseUint32(query)
  {
    if query == "" then Ok(None)
    else
      match ParseUint32(query)
      case None => Err(InvalidTaskID)
      case Some(id) => Ok(Some(id))
  }

  /** The id the front end prints is read back as a filter on exactly that task. */
  lemma TaskIDFilterRoundTrip(id: nat)
    requires id <= MaxUint32
    ensures TaskIDFilter(NatToString(id)) == Ok(Some(id))
  {
    ParseUint32RoundTrip(id);
  }

  /**
   * GetLogs: the filter is passed to the query; the response echoes the page as it was
   * bound (the service normalises its own copy) and the size as GetLimit settles it.
   */
  method GetLogs<T>(params: PaginationParams, taskIDQuery: string, query: Option<nat> -> (T, int))
    returns (r: Result<PaginatedResponse<T>, LogError>)
    modifies params
    ensures TaskIDFilter(taskIDQuery).Err? <==> r.Err?
    ensures r.Ok? ==>
      r.value.data == query(TaskIDFilter(taskIDQuery).value).0
      && r.value.pagination.total == query(TaskIDFilter(taskIDQuery).value).1
      && r.value.pagination.page == old(params.page)
      && r.value.pagination.pageSize == LimitFor(old(params.pageSize))
      && 1 <= r.value.pagination.pageSize <= MaxPageSize
  {
    var taskID := TaskIDFilter(taskIDQuery);
    if taskID.Err? {
      return Err(taskID.error);
    }
    var (logs, total) := query(taskID.value);
    var page := params.page;
    var limit := params.GetLimit();
    r := Ok(NewPaginatedResponse(logs, page, limit, total));
  }
}
