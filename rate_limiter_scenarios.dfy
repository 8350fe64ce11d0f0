/**
 * Concrete runs of the limiter: two limiters sharing one in-memory store, and the window
 * boundary of the in-memory store.
 */
module RateLimiterScenarios {
  import opened Wrappers
  import opened Windows
  import opened MemoryStores
  import opened SupabaseStores
  import opened RateLimiter

  /** Two limiters with limit 3 built over one in-memory store enforce one combined budget for
      the token: checks by A, B and A pass and the fourth, by B, is rejected, as long as every
      call falls within the window the first call opened. */
  method SharedStoreAcrossInstances(t1: int, t2: int, t3: int, t4: int, env: Env)
    returns (a1: Result<(), Thrown>, b1: Result<(), Thrown>, a2: Result<(), Thrown>, b2: Result<(), Thrown>)
    requires t2 <= t1 + 1000 && t3 <= t1 + 1000 && t4 <= t1 + 1000
    ensures a1.Ok? && b1.Ok? && a2.Ok?
    ensures b2 == Err(Thrown(RateLimitExceeded))
  {
    var store := new MemoryStore();
    var unused := new Database(map[]);
    var madeA := RateLimit(Options(Some(1000), Some(MemoryBacked(store)), None), env, unused);
    var madeB := RateLimit(Options(Some(1000), Some(MemoryBacked(store)), None), env, unused);
    var limiterA, limiterB := madeA.value, madeB.value;
    var token := "test-token";
    a1 := limiterA.Check(3, token, t1, Healthy);
    b1 := limiterB.Check(3, token, t2, Healthy);
    a2 := limiterA.Check(3, token, t3, Healthy);
    b2 := limiterB.Check(3, token, t4, Healthy);
  }

  /** With a 1000 ms window and limit 3, three calls pass and a fourth is rejected; a call
      exactly 1000 ms after the first still lands in the same window (the expiry test is a
      strict `<`) and is rejected too, while a call any later opens a fresh window and passes. */
  method WindowBoundary(t: int, late: int)
    returns (r1: Result<(), Thrown>, r2: Result<(), Thrown>, r3: Result<(), Thrown>, r4: Result<(), Thrown>,
             atExpiry: Result<(), Thrown>, after: Result<(), Thrown>)
    requires late > t + 1000
    ensures r1.Ok? && r2.Ok? && r3.Ok?
    ensures r4 == Err(Thrown(RateLimitExceeded))
    ensures atExpiry == Err(Thrown(RateLimitExceeded))
    ensures after.Ok?
  {
    var store := new MemoryStore();
    var limiter := new Limiter(1000, MemoryBacked(store));
    r1 := limiter.Check(3, "t", t, Healthy);
    r2 := limiter.Check(3, "t", t, Healthy);
    r3 := limiter.Check(3, "t", t, Healthy);
    r4 := limiter.Check(3, "t", t, Healthy);
    atExpiry := limiter.Check(3, "t", t + 1000, Healthy);
    after := limiter.Check(3, "t", late, Healthy);
  }
}
