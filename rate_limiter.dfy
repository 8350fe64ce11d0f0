/**
 * `rateLimit(options)`: a limiter holding a window length and a counting store, whose
 * `check(limit, token)` increments the token's counter once and throws
 * "Rate limit exceeded" when the new count is above `limit`.
 */
module RateLimiter {
  import opened Wrappers
  import opened Windows
  import opened MemoryStores
  import opened SupabaseStores

  const DefaultInterval: int := 60000

  /** The pluggable counting store: either implementation of `increment`. */
  datatype Store = MemoryBacked(memory: MemoryStore) | SupabaseBacked(durable: SupabaseStore) {

    function Kind(): StoreKind {
      if MemoryBacked? then InMemory else Durable
    }

    /** The objects an increment may change. */
    function Footprint(): set<object> {
      match this
      case MemoryBacked(m) => {m}
      case SupabaseBacked(d) => {d.client}
    }

    /** The windows the store currently holds. */
    function Table(): Table
      reads Footprint()
    {
      match this
      case MemoryBacked(m) => m.entries
      case SupabaseBacked(d) => d.client.rateLimits
    }

    method Increment(token: string, interval: int, now: int, io: StoreIo) returns (r: Result<int, Thrown>)
      modifies Footprint()
      ensures Step(r, Table()) == Windows.Increment(Kind(), old(Table()), token, interval, now, io)
    {
      match this
      case MemoryBacked(m) =>
        var count := m.Increment(token, interval, now);
        r := Ok(count);
      case SupabaseBacked(d) =>
        r := d.Increment(token, interval, now, io);
    }
  }

  /** The decision `check` takes on what `increment` returned: a store error propagates,
      a count above `limit` throws "Rate limit exceeded", anything else passes. */
  function Verdict(limit: int, counted: Result<int, Thrown>): (r: Result<(), Thrown>)
    ensures r.Ok? <==> counted.Ok? && counted.value <= limit
    ensures counted.Ok? && counted.value > limit ==> r == Err(Thrown(RateLimitExceeded))
    ensures counted.Err? ==> r == Err(counted.error)
  {
    match counted
    case Err(e) => Err(e)
    case Ok(current) => if current > limit then Err(Thrown(RateLimitExceeded)) else Ok(())
  }

  /** The limit is inclusive: the call that brings the count to `limit` passes, the next one
      is rejected, and so is every later one in the same window. */
  lemma ThresholdBoundary(limit: int, count: int)
    ensures Verdict(limit, Ok(limit)) == Ok(())
    ensures Verdict(limit, Ok(limit + 1)) == Err(Thrown(RateLimitExceeded))
    ensures count > limit ==> Verdict(limit, Ok(count)) == Err(Thrown(RateLimitExceeded))
  {
  }

  class Limiter {
    const interval: int
    const store: Store

    constructor (interval: int, store: Store)
      ensures this.interval == interval && this.store == store
    {
      this.interval := interval;
      this.store := store;
    }

    /** The counting step one `check` performs: exactly one increment of `token`. */
    function CheckStep(token: string, now: int, io: StoreIo): Step
      reads store.Footprint()
    {
      Windows.Increment(store.Kind(), store.Table(), token, interval, now, io)
    }

    /** `check(limit, token)` at time `now`: increments first, whatever the outcome, then
        decides; a rejected call has still consumed one unit of the window. */
    method Check(limit: int, token: string, now: int, io: StoreIo) returns (r: Result<(), Thrown>)
      modifies store.Footprint()
      ensures store.Table() == old(CheckStep(token, now, io)).table
      ensures r == Verdict(limit, old(CheckStep(token, now, io)).result)
    {
      var current := store.Increment(token, interval, now, io);
      match current
      case Err(e) =>
        r := Err(e);
      case Ok(n) =>
        if n > limit {
          r := Err(Thrown(RateLimitExceeded));
        } else {
          r := Ok(());
        }
    }
  }

  /** The options `rateLimit` reads. */
  datatype Options = Options(interval: Option<int>, store: Option<Store>, supabaseClient: Option<Database>)

  /** `rateLimit(options)`: the window length defaults to 60000 ms; an injected store is used
      as it is, otherwise a durable store is built (which throws without credentials). */
  method RateLimit(options: Options, env: Env, backend: Database) returns (r: Result<Limiter, Thrown>)
    ensures r.Ok? ==> fresh(r.value) && r.value.interval == options.interval.GetOr(DefaultInterval)
    ensures options.store.Some? ==> r.Ok? && r.value.store == options.store.value
    ensures options.store.None? && options.supabaseClient.Some? ==>
      r.Ok? && r.value.store.SupabaseBacked? && r.value.store.durable.client == options.supabaseClient.value
    ensures options.store.None? && options.supabaseClient.None? ==>
      (r.Ok? <==> Credentials(env).Some?) &&
      (r.Ok? ==> r.value.store.SupabaseBacked? && r.value.store.durable.client == backend)
    ensures r.Err? ==> r.error == Thrown(CredentialsMissing)
  {
    var interval := options.interval.GetOr(DefaultInterval);
    var store: Store;
    if options.store.Some? {
      store := options.store.value;
    } else {
      var made := NewSupabaseStore(options.supabaseClient, env, backend);
      if made.Err? {
        return Err(made.error);
      }
      store := SupabaseBacked(made.value);
    }
    var limiter := new Limiter(interval, store);
    return Ok(limiter);
  }
}
