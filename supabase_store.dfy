/**
 * The durable counting store: windows kept in the backend's `rate_limits` table, reached
 * through a client. The table is shared by every store built on the same backend.
 */
module SupabaseStores {
  import opened Wrappers
  import opened Windows

  /** The `rate_limits` table as seen through one backend client, keyed by token. */
  class Database {
    var rateLimits: Table

    constructor (rows: Table)
      ensures rateLimits == rows
    {
      rateLimits := rows;
    }
  }

  /** The environment variables the store reads; an unset variable is the empty string. */
  datatype Env = Env(url: string, serviceRoleKey: string, anonKey: string)

  const CredentialsMissing: string := "Supabase credentials are not configured"

  /** The URL and key a client is created from: the service-role key is preferred and the
      anonymous key used when it is unset. Nothing when either part is missing. */
  function Credentials(env: Env): (r: Option<(string, string)>)
    ensures r.Some? <==> env.url != "" && (env.serviceRoleKey != "" || env.anonKey != "")
    ensures r.Some? ==> r.value.0 == env.url
    ensures r.Some? ==> r.value.1 == (if env.serviceRoleKey != "" then env.serviceRoleKey else env.anonKey)
  {
    var key := if env.serviceRoleKey != "" then env.serviceRoleKey else env.anonKey;
    if env.url == "" || key == "" then None else Some((env.url, key))
  }

  class SupabaseStore {
    const client: Database

    constructor (client: Database)
      ensures this.client == client
    {
      this.client := client;
    }

    /** `increment(token, interval)` at time `now`: select the row, then either upsert a fresh
        window or update the count, both with `expires_at = now + interval`. `io` says whether
        the select and the write fail. */
    method Increment(token: string, interval: int, now: int, io: StoreIo) returns (r: Result<int, Thrown>)
      modifies client
      ensures Step(r, client.rateLimits) == DurableIncrement(old(client.rateLimits), token, interval, now, io)
    {
      var expiresAt := now + interval;
      var data: Option<Window> :=
        if io.readFails || token !in client.rateLimits then None else Some(client.rateLimits[token]);
      if data.None? || data.value.expiresAt < now {
        if io.writeError.Some? {
          return Err(io.writeError.value);
        }
        client.rateLimits := client.rateLimits[token := Window(1, expiresAt)];
        return Ok(1);
      }
      var newCount := data.value.count + 1;
      if io.writeError.Some? {
        return Err(io.writeError.value);
      }
      client.rateLimits := client.rateLimits[token := Window(newCount, expiresAt)];
      return Ok(newCount);
    }
  }

  /** `new SupabaseStore(client)`: uses the given client, or else one created from the
      environment (`backend` is the database that client reaches); throws when the
      environment lacks the URL or both keys. */
  method NewSupabaseStore(client: Option<Database>, env: Env, backend: Database) returns (r: Result<SupabaseStore, Thrown>)
    ensures r.Ok? ==> fresh(r.value)
    ensures client.Some? ==> r.Ok? && r.value.client == client.value
    ensures client.None? ==> (r.Ok? <==> Credentials(env).Some?)
    ensures client.None? && r.Ok? ==> r.value.client == backend
    ensures r.Err? ==> r.error == Thrown(CredentialsMissing)
  {
    if client.Some? {
      var store := new SupabaseStore(client.value);
      return Ok(store);
    }
    if Credentials(env).None? {
      return Err(Thrown(CredentialsMissing));
    }
    var store := new SupabaseStore(backend);
    return Ok(store);
  }
}
