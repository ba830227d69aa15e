/** The Toggl side as the engine sees it: `get(days)` returns the time entries of the window. */
module Toggl {
  import opened Entries

  /** A Toggl helper that returns the entries it holds and records each request. */
  class TogglSource {
    var entries: seq<TogglEntry>
    var requests: seq<int>

    constructor (entries: seq<TogglEntry>)
      ensures this.entries == entries && requests == []
    {
      this.entries := entries;
      this.requests := [];
    }

    /** `get(days)`: the entries of the last `days` days. */
    method Get(days: int) returns (r: seq<TogglEntry>)
      modifies this`requests
      ensures r == entries
      ensures requests == old(requests) + [days]
    {
      r := entries;
      requests := requests + [days];
    }
  }

}
