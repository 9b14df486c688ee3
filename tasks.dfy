/**
 * The shared progress record `taskState` of src/index.js, written by the
 * request handler and the visit loop and read by the status endpoint.
 */
module Tasks {
  import opened Wrappers

  class TaskState {
    var isRunning: bool
    var totalUrls: nat
    /** One entry per URL visited so far: the URL, or the URL with the failure. */
    var visitedUrls: seq<string>
    var currentUrl: Option<string>
    var error: Option<string>

    /**
     * A run that ended in an error is no longer running: every write of
     * `error` is paired with clearing `isRunning`.
     */
    ghost predicate Valid()
      reads this
    {
      error.Some? ==> !isRunning
    }

    /** The record as the process starts: idle, nothing found or visited. */
    constructor ()
      ensures Valid()
      ensures !isRunning && totalUrls == 0 && visitedUrls == []
      ensures currentUrl == None && error == None
    {
      isRunning := false;
      totalUrls := 0;
      visitedUrls := [];
      currentUrl := None;
      error := None;
    }
  }
}
