/**
 * The task cache: the array of tasks last fetched and a loading flag. A
 * refresh replaces the array wholesale on an ok response and keeps it
 * otherwise; loading ends after the first completed fetch and never
 * resumes.
 */
module TasksContext {
  import opened Wrappers
  import opened Domain

  const TasksPath := "/api/tasks"
  const BoardQueryPrefix := "/api/tasks?board_id="

  /** The URL `fetchTasks(boardId)` requests: scoped by a `board_id` query only when a non-empty id is given. */
  function TasksUrl(boardId: Option<Id>): (url: string)
    ensures |url| >= |TasksPath| && url[..|TasksPath|] == TasksPath
    ensures ScopeOf(url) == if Present(boardId) then boardId else None
  {
    if Present(boardId) then BoardQueryPrefix + boardId.value else TasksPath
  }

  /** The board a tasks URL is scoped to, read back from its query. */
  function ScopeOf(url: string): Option<Id> {
    if |url| > |BoardQueryPrefix| && url[..|BoardQueryPrefix|] == BoardQueryPrefix
    then Some(url[|BoardQueryPrefix|..])
    else None
  }

  /** The cache after a fetch answered with `response`. */
  function CacheAfter(cache: seq<Task>, response: Response<seq<Task>>): (r: seq<Task>)
    ensures response.Ok? ==> r == response.body
    ensures !response.Ok? ==> r == cache
  {
    if response.Ok? then response.body else cache
  }

  /** Replacement is wholesale: after an ok response the old cache has no trace. */
  lemma CacheForgetsOld(c1: seq<Task>, c2: seq<Task>, data: seq<Task>)
    ensures CacheAfter(c1, Ok(data)) == CacheAfter(c2, Ok(data))
  {
  }

  /** Two refreshes answered alike leave the cache as one does. */
  lemma RefreshIdempotent(cache: seq<Task>, response: Response<seq<Task>>)
    ensures CacheAfter(CacheAfter(cache, response), response) == CacheAfter(cache, response)
  {
  }

  class TaskStore {
    var tasks: seq<Task>
    var isLoading: bool

    /** The provider's initial state: no tasks, loading. */
    constructor ()
      ensures tasks == [] && isLoading
    {
      tasks := [];
      isLoading := true;
    }

    /**
     * `fetchTasks(boardId)` (what `refreshTasks` starts): requests
     * `TasksUrl(boardId)`, replaces the cache on an ok response, keeps it on
     * a non-ok response or a thrown error, and clears the loading flag in
     * its `finally`.
     */
    method RefreshTasks(boardId: Option<Id>, server: string -> Response<seq<Task>>) returns (url: string)
      modifies this
      ensures url == TasksUrl(boardId)
      ensures tasks == CacheAfter(old(tasks), server(url))
      ensures !isLoading
    {
      url := TasksUrl(boardId);
      var response := server(url);
      if response.Ok? {
        tasks := response.body;
      }
      isLoading := false;
    }

    /** The mount effect: the first fetch carries no board scope. */
    method Mount(server: string -> Response<seq<Task>>) returns (url: string)
      modifies this
      ensures url == TasksPath
      ensures tasks == CacheAfter(old(tasks), server(TasksPath))
      ensures !isLoading
    {
      url := RefreshTasks(None, server);
    }
  }
}
