/** The in-memory counting store: a process-local map from token to window. */
module MemoryStores {
  import opened Wrappers
  import opened Windows

  class MemoryStore {
    /** The private `Map<string, {count, expiresAt}>`. Its entry objects are never handed
        out, so changing an entry in place is modelled as replacing the map value. */
    var entries: Table

    constructor ()
      ensures entries == map[]
    {
      entries := map[];
    }

    /** `increment(token, interval)` at time `now`: returns the new count for `token` and
        leaves the map as `MemoryIncrement` says. */
    method Increment(token: string, interval: int, now: int) returns (count: int)
      modifies this
      ensures Step(Ok(count), entries) == MemoryIncrement(old(entries), token, interval, now)
    {
      if token !in entries || entries[token].expiresAt < now {
        entries := entries[token := Window(1, now + interval)];
        return 1;
      }
      var entry := entries[token];
      entry := entry.(count := entry.count + 1);
      entries := entries[token := entry];
      count := entry.count;
    }
  }
}
