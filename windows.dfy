/**
 * The per-token counting rule shared by the two counting stores: a table from token to
 * window, one increment step for the in-memory store (fixed expiry) and one for the durable
 * `rate_limits` table (expiry refreshed on every hit), and what sequences of steps do.
 */
module Windows {
  import opened Wrappers

  /** One row of the counter table: requests seen and the absolute expiry time in milliseconds. */
  datatype Window = Window(count: int, expiresAt: int)

  /** An error thrown by the limiter or a store; callers tell them apart only by message. */
  datatype Thrown = Thrown(message: string)

  const RateLimitExceeded: string := "Rate limit exceeded"

  type Table = map<string, Window>

  /** The window is stale at `now` only when its expiry is strictly earlier; a window whose
      expiry equals `now` is still current. */
  predicate Expired(w: Window, now: int) {
    w.expiresAt < now
  }

  /** True when the next increment for `token` at `now` starts a fresh window. */
  predicate NoCurrentWindow(t: Table, token: string, now: int) {
    token !in t || Expired(t[token], now)
  }

  /** Every stored window has counted at least one request. */
  predicate WellFormed(t: Table) {
    forall token :: token in t ==> t[token].count >= 1
  }

  /** What the durable store's two backend calls return: whether the `select` failed, and the
      error of the following `upsert`/`update`, if any. */
  datatype StoreIo = StoreIo(readFails: bool, writeError: Option<Thrown>)

  const Healthy: StoreIo := StoreIo(false, None)

  /** The outcome of one `increment`: the returned count (or the thrown error) and the table after. */
  datatype Step = Step(result: Result<int, Thrown>, table: Table)

  /** The in-memory store's `increment`: a missing or expired entry is replaced by a fresh window
      with count 1; a current entry has its count raised by one and keeps its expiry. */
  function MemoryIncrement(t: Table, token: string, interval: int, now: int): (s: Step)
    ensures s.result.Ok? && token in s.table && s.table[token].count == s.result.value
    ensures s.table - {token} == t - {token}
    ensures s.table.Keys == t.Keys + {token}
  {
    if NoCurrentWindow(t, token, now) then
      Step(Ok(1), t[token := Window(1, now + interval)])
    else
      var w := t[token];
      Step(Ok(w.count + 1), t[token := w.(count := w.count + 1)])
  }

  /** The durable store's `increment`. A failed read is treated like a missing row. Both the
      fresh window and the increment write `expires_at = now + interval`; a failed write throws
      its error and leaves the table as it was. */
  function DurableIncrement(t: Table, token: string, interval: int, now: int, io: StoreIo): (s: Step)
    ensures s.result.Ok? ==> token in s.table && s.table[token] == Window(s.result.value, now + interval)
    ensures s.table - {token} == t - {token}
    ensures s.result.Err? <==> io.writeError.Some?
    ensures s.result.Err? ==> s.result.error == io.writeError.value && s.table == t
  {
    var reset := io.readFails || NoCurrentWindow(t, token, now);
    var newCount := if reset then 1 else t[token].count + 1;
    match io.writeError
    case Some(e) => Step(Err(e), t)
    case None => Step(Ok(newCount), t[token := Window(newCount, now + interval)])
  }

  /** Which counting store a limiter uses. */
  datatype StoreKind = InMemory | Durable

  function Increment(kind: StoreKind, t: Table, token: string, interval: int, now: int, io: StoreIo): Step
  {
    match kind
    case InMemory => MemoryIncrement(t, token, interval, now)
    case Durable => DurableIncrement(t, token, interval, now, io)
  }

  // ---------------------------------------------------------------------------------------
  // One step

  /** Both stores return 1 exactly when no current window exists for the token (or, for the
      durable store, when the read failed), provided the stored counts are positive. */
  lemma ResetIff(kind: StoreKind, t: Table, token: string, interval: int, now: int, io: StoreIo)
    requires WellFormed(t) && io.writeError.None?
    ensures var s := Increment(kind, t, token, interval, now, io);
      s.result == Ok(1) <==> NoCurrentWindow(t, token, now) || (kind == Durable && io.readFails)
  {
  }

  /** A current window is incremented and never reset; in particular a window whose expiry is
      exactly `now`. The in-memory store keeps the expiry, the durable store moves it to
      `now + interval`. */
  lemma LiveWindowIncrements(kind: StoreKind, t: Table, token: string, interval: int, now: int)
    requires token in t && now <= t[token].expiresAt
    ensures var s := Increment(kind, t, token, interval, now, Healthy);
      s.result == Ok(t[token].count + 1) &&
      s.table[token].expiresAt == (if kind == InMemory then t[token].expiresAt else now + interval)
  {
  }

  /** An expired window is replaced, whatever its count: the call returns 1 and the new window
      expires `interval` after `now`. */
  lemma ExpiredWindowResets(kind: StoreKind, t: Table, token: string, interval: int, now: int)
    requires token in t && t[token].expiresAt < now
    ensures var s := Increment(kind, t, token, interval, now, Healthy);
      s.result == Ok(1) && s.table[token] == Window(1, now + interval)
  {
  }

  /** Steps keep every stored count positive. */
  lemma IncrementPreservesWellFormed(kind: StoreKind, t: Table, token: string, interval: int, now: int, io: StoreIo)
    requires WellFormed(t)
    ensures WellFormed(Increment(kind, t, token, interval, now, io).table)
  {
    var s := Increment(kind, t, token, interval, now, io);
    forall u | u in s.table ensures s.table[u].count >= 1 {
      if u != token {
        assert u in s.table - {token};
      }
    }
  }

  // ---------------------------------------------------------------------------------------
  // Sequences of steps on one token

  /** The counts returned by successive increments of one token at the given times, and the
      table left at the end. */
  datatype Trace = Trace(counts: seq<int>, table: Table)

  function Run(kind: StoreKind, t: Table, token: string, interval: int, times: seq<int>): (r: Trace)
    ensures |r.counts| == |times|
    ensures |times| > 0 ==> token in r.table
    decreases |times|
  {
    if times == [] then Trace([], t)
    else
      var s := Increment(kind, t, token, interval, times[0], Healthy);
      var rest := Run(kind, s.table, token, interval, times[1..]);
      Trace([s.result.value] + rest.counts, rest.table)
  }

  /** Incrementing one token never changes another token's window. */
  lemma {:induction false} RunIsolatesTokens(kind: StoreKind, t: Table, token: string, interval: int, times: seq<int>, other: string)
    requires other != token
    ensures var r := Run(kind, t, token, interval, times).table;
      (other in r <==> other in t) && (other in t ==> r[other] == t[other])
    decreases |times|
  {
    if times != [] {
      var s := Increment(kind, t, token, interval, times[0], Healthy);
      assert other in s.table - {token} <==> other in t - {token};
      RunIsolatesTokens(kind, s.table, token, interval, times[1..], other);
    }
  }

  /** In-memory store: while every call falls at or before the stored expiry, the counts go
      c+1, c+2, ... and the expiry never moves. */
  lemma {:induction false} MemoryCountsUp(t: Table, token: string, interval: int, times: seq<int>)
    requires token in t
    requires forall k :: 0 <= k < |times| ==> times[k] <= t[token].expiresAt
    ensures var r := Run(InMemory, t, token, interval, times);
      (forall k :: 0 <= k < |times| ==> r.counts[k] == t[token].count + k + 1) &&
      r.table[token] == Window(t[token].count + |times|, t[token].expiresAt)
  {
    if times != [] {
      var s := Increment(InMemory, t, token, interval, times[0], Healthy);
      MemoryCountsUp(s.table, token, interval, times[1..]);
    }
  }

  /** In-memory store, within one window: when the first call opens a fresh window, the Nth
      call that falls no later than `interval` after the first returns N, and the window keeps
      the expiry set by the first call. */
  lemma {:induction false} MemoryNthCallReturnsN(t: Table, token: string, interval: int, times: seq<int>)
    requires |times| > 0 && NoCurrentWindow(t, token, times[0])
    requires forall k :: 0 <= k < |times| ==> times[k] <= times[0] + interval
    ensures var r := Run(InMemory, t, token, interval, times);
      (forall k :: 0 <= k < |times| ==> r.counts[k] == k + 1) &&
      r.table[token] == Window(|times|, times[0] + interval)
  {
    var s := Increment(InMemory, t, token, interval, times[0], Healthy);
    MemoryCountsUp(s.table, token, interval, times[1..]);
  }

  /** Durable store: while each call comes no later than `interval` after the previous one, the
      counts go c+1, c+2, ... and each call pushes the expiry to its own time plus `interval`. */
  lemma {:induction false} DurableCountsUp(t: Table, token: string, interval: int, times: seq<int>, prev: int)
    requires token in t && t[token].expiresAt == prev + interval
    requires |times| > 0 ==> times[0] <= prev + interval
    requires forall k :: 0 < k < |times| ==> times[k] <= times[k - 1] + interval
    ensures var r := Run(Durable, t, token, interval, times);
      (forall k :: 0 <= k < |times| ==> r.counts[k] == t[token].count + k + 1) &&
      r.table[token] == Window(t[token].count + |times|, (if times == [] then prev else times[|times| - 1]) + interval)
  {
    if times != [] {
      var s := Increment(Durable, t, token, interval, times[0], Healthy);
      assert s.result == Ok(t[token].count + 1);
      var rest := times[1..];
      forall k | 0 < k < |rest| ensures rest[k] <= rest[k - 1] + interval {
        assert rest[k] == times[k + 1] && rest[k - 1] == times[k];
      }
      DurableCountsUp(s.table, token, interval, rest, times[0]);
      var r := Run(Durable, t, token, interval, times);
      forall k | 0 <= k < |times| ensures r.counts[k] == t[token].count + k + 1 {
        if k > 0 {
          assert r.counts[k] == Run(Durable, s.table, token, interval, rest).counts[k - 1];
        }
      }
    }
  }

  /** Durable store: the window slides. When the first call opens a fresh window and no gap
      between consecutive calls exceeds `interval`, the Nth call returns N however long the run
      lasts, and the row expires `interval` after the last call. */
  lemma {:induction false} DurableNthCallReturnsN(t: Table, token: string, interval: int, times: seq<int>)
    requires |times| > 0 && NoCurrentWindow(t, token, times[0])
    requires forall k :: 0 < k < |times| ==> times[k] <= times[k - 1] + interval
    ensures var r := Run(Durable, t, token, interval, times);
      (forall k :: 0 <= k < |times| ==> r.counts[k] == k + 1) &&
      r.table[token] == Window(|times|, times[|times| - 1] + interval)
  {
    var s := Increment(Durable, t, token, interval, times[0], Healthy);
    var rest := times[1..];
    forall k | 0 < k < |rest| ensures rest[k] <= rest[k - 1] + interval {
      assert rest[k] == times[k + 1] && rest[k - 1] == times[k];
    }
    DurableCountsUp(s.table, token, interval, rest, times[0]);
  }
}
