/** APIClient: fetches a feed document over HTTP, retrying with exponential back-off.

    The HTTP session is opened and closed by the client's context manager; an attempt made
    without an open session fails before anything is sent. Every failed attempt but the last
    is followed by a sleep of 2^attempt seconds. */
module Api {
  import opened Py
  import opened Template
  import opened Configuration
  import opened Environment

  function Pow2(n: nat): (r: nat)
    ensures r >= 1
  {
    if n == 0 then 1 else 2 * Pow2(n - 1)
  }

  /** `range(retries + 1)` has this many elements (none when retries < 0). */
  function Attempts(retries: int): nat {
    if retries >= 0 then retries + 1 else 0
  }

  /** An attempt succeeds only on status 200 with a body that decodes as JSON; a timeout, a
      client error, any other exception, another status or an undecodable body is a failed
      attempt. */
  function AttemptResult(outcome: HttpOutcome): Option<Json> {
    if outcome.Response? && outcome.status == 200 && outcome.body.Some? then Some(outcome.body.value)
    else None
  }

  /** fetch_data from attempt `attempt` on, starting from the world `log`: the value returned
      (None is JNull) and the world afterwards. `open` says whether the session is open. */
  function FetchFrom(respond: nat -> HttpOutcome, open: bool, url: string, retries: int, attempt: nat, log: Log): (Json, Log)
    decreases Attempts(retries) - attempt
  {
    if attempt >= Attempts(retries) then (JNull, log)
    else
      var body := if open then AttemptResult(respond(log.requests)) else None;
      var afterGet := if open then AfterRequest(log, url) else log;
      if body.Some? then (body.value, afterGet)
      else
        var afterWait := if attempt < retries then AfterSleep(afterGet, Pow2(attempt)) else afterGet;
        FetchFrom(respond, open, url, retries, attempt + 1, afterWait)
  }

  /** Where fetch_endpoint goes: a URL, nowhere (it returns None), or an exception. */
  datatype Target = Url(url: string) | NoTarget | Fails

  /** An unknown key or a missing keyword argument gives None; without keyword arguments the
      configured URL is used as it is; a malformed template raises. */
  function EndpointTarget(c: Config, key: string, kwargs: seq<(string, Json)>): Target {
    if key !in Endpoints(c) then NoTarget
    else if kwargs == [] then Url(Endpoints(c)[key])
    else
      match Format(Endpoints(c)[key], kwargs)
      case Formatted(s) => Url(s)
      case MissingKey(_) => NoTarget
      case Malformed => Fails
  }

  /** fetch_endpoint: its outcome and the world afterwards. */
  function EndpointFetch(respond: nat -> HttpOutcome, open: bool, c: Config, key: string,
                         kwargs: seq<(string, Json)>, log: Log): (Result<Json>, Log)
  {
    match EndpointTarget(c, key, kwargs)
    case Url(u) =>
      var fetched := FetchFrom(respond, open, u, c.maxRetries, 0, log);
      (Ok(fetched.0), fetched.1)
    case NoTarget => (Ok(JNull), log)
    case Fails => (Raise, log)
  }

  /** fetch_data makes at most one request per attempt, at least one when the session is open
      and an attempt is allowed, and delivers nothing; without an open session it sends
      nothing and returns None; a value other than None is the body of the
      last response, which was a 200. */
  lemma {:induction false} FetchFacts(respond: nat -> HttpOutcome, open: bool, url: string, retries: int, a: nat, log: Log)
    requires a <= Attempts(retries)
    ensures var r := FetchFrom(respond, open, url, retries, a, log);
      r.1.deliveries == log.deliveries
      && log.requests <= r.1.requests <= log.requests + (Attempts(retries) - a)
      && (!open ==> r.0 == JNull && r.1.requests == log.requests)
      && (open && a < Attempts(retries) ==> r.1.requests > log.requests)
      && (r.0 != JNull ==> r.1.requests > log.requests && AttemptResult(respond(r.1.requests - 1)) == Some(r.0))
    decreases Attempts(retries) - a
  {
    if a < Attempts(retries) {
      var body := if open then AttemptResult(respond(log.requests)) else None;
      var afterGet := if open then AfterRequest(log, url) else log;
      if body.None? {
        var afterWait := if a < retries then AfterSleep(afterGet, Pow2(a)) else afterGet;
        FetchFacts(respond, open, url, retries, a + 1, afterWait);
      }
    }
  }

  /** fetch_data only appends to the trace, and only requests of its own URL and sleeps. */
  lemma {:induction false} FetchTrace(respond: nat -> HttpOutcome, open: bool, url: string, retries: int, a: nat, log: Log)
    ensures var r := FetchFrom(respond, open, url, retries, a, log);
      |log.trace| <= |r.1.trace| && r.1.trace[..|log.trace|] == log.trace
      && forall i :: |log.trace| <= i < |r.1.trace| ==> r.1.trace[i] == Request(url) || r.1.trace[i].Sleep?
    decreases Attempts(retries) - a
  {
    if a < Attempts(retries) {
      var body := if open then AttemptResult(respond(log.requests)) else None;
      var afterGet := if open then AfterRequest(log, url) else log;
      if body.None? {
        var afterWait := if a < retries then AfterSleep(afterGet, Pow2(a)) else afterGet;
        FetchTrace(respond, open, url, retries, a + 1, afterWait);
        var r := FetchFrom(respond, open, url, retries, a, log);
        assert r == FetchFrom(respond, open, url, retries, a + 1, afterWait);
        assert afterWait.trace[..|log.trace|] == log.trace;
        assert forall i :: |log.trace| <= i < |afterWait.trace| ==>
          afterWait.trace[i] == Request(url) || afterWait.trace[i].Sleep?;
        assert r.1.trace[..|log.trace|] == r.1.trace[..|afterWait.trace|][..|log.trace|];
      }
    }
  }

  /** When the first m attempts fail and the next one succeeds, fetch_data returns that
      body after exactly m + 1 requests. */
  lemma {:induction false} FetchFirstSuccess(respond: nat -> HttpOutcome, url: string, retries: int, a: nat, log: Log, m: nat)
    requires a + m < Attempts(retries)
    requires forall j :: log.requests <= j < log.requests + m ==> AttemptResult(respond(j)).None?
    requires AttemptResult(respond(log.requests + m)).Some?
    ensures FetchFrom(respond, true, url, retries, a, log).0 == AttemptResult(respond(log.requests + m)).value
    ensures FetchFrom(respond, true, url, retries, a, log).1.requests == log.requests + m + 1
    decreases m
  {
    if m > 0 {
      var afterGet := AfterRequest(log, url);
      var afterWait := if a < retries then AfterSleep(afterGet, Pow2(a)) else afterGet;
      FetchFirstSuccess(respond, url, retries, a + 1, afterWait, m - 1);
    }
  }

  /** When every attempt fails, fetch_data returns None after one request per attempt, and
      the requests alternate with sleeps of 1, 2, 4, ... seconds. */
  lemma {:induction false} FetchAllFail(respond: nat -> HttpOutcome, url: string, retries: int, a: nat, log: Log)
    requires a < Attempts(retries)
    requires forall j :: log.requests <= j < log.requests + (Attempts(retries) - a) ==> AttemptResult(respond(j)).None?
    ensures var r := FetchFrom(respond, true, url, retries, a, log);
      var n := Attempts(retries) - a;
      r.0 == JNull && r.1.requests == log.requests + n && r.1.deliveries == log.deliveries
      && |r.1.trace| == |log.trace| + 2 * n - 1 && r.1.trace[..|log.trace|] == log.trace
      && forall i :: 0 <= i < 2 * n - 1 ==>
           r.1.trace[|log.trace| + i] == if i % 2 == 0 then Request(url) else Sleep(Pow2(a + i / 2))
    decreases Attempts(retries) - a
  {
    var afterGet := AfterRequest(log, url);
    if a + 1 < Attempts(retries) {
      var afterWait := AfterSleep(afterGet, Pow2(a));
      FetchAllFail(respond, url, retries, a + 1, afterWait);
      var r := FetchFrom(respond, true, url, retries, a, log);
      assert r == FetchFrom(respond, true, url, retries, a + 1, afterWait);
      var t := |log.trace|;
      assert afterWait.trace == log.trace + [Request(url), Sleep(Pow2(a))];
      forall i | 0 <= i < 2 * (Attempts(retries) - a) - 1
        ensures r.1.trace[t + i] == if i % 2 == 0 then Request(url) else Sleep(Pow2(a + i / 2))
      {
        if i >= 2 {
          assert r.1.trace[t + i] == r.1.trace[|afterWait.trace| + (i - 2)];
          assert (i - 2) % 2 == i % 2 && a + 1 + (i - 2) / 2 == a + i / 2;
        } else {
          assert r.1.trace[..|afterWait.trace|] == afterWait.trace;
          assert r.1.trace[t + i] == afterWait.trace[t + i];
        }
      }
      assert r.1.trace[..t] == afterWait.trace[..t];
    }
  }

  /** With the default of three retries and a feed that never answers, fetch_data makes four
      requests with sleeps of 1, 2 and 4 seconds between them. */
  lemma DefaultBackoff(respond: nat -> HttpOutcome, url: string, log: Log)
    requires forall j :: log.requests <= j < log.requests + 4 ==> AttemptResult(respond(j)).None?
    ensures FetchFrom(respond, true, url, 3, 0, log)
            == (JNull, Log(log.requests + 4, log.deliveries,
                           log.trace + [Request(url), Sleep(1), Request(url), Sleep(2), Request(url), Sleep(4), Request(url)]))
  {
    FetchAllFail(respond, url, 3, 0, log);
    var r := FetchFrom(respond, true, url, 3, 0, log);
    var t := |log.trace|;
    assert Pow2(0) == 1 && Pow2(1) == 2 && Pow2(2) == 4;
    assert r.1.trace[t + 0] == Request(url) && r.1.trace[t + 1] == Sleep(1);
    assert r.1.trace[t + 2] == Request(url) && r.1.trace[t + 3] == Sleep(2);
    assert r.1.trace[t + 4] == Request(url) && r.1.trace[t + 5] == Sleep(4);
    assert r.1.trace[t + 6] == Request(url);
    assert r.1.trace == log.trace + [Request(url), Sleep(1), Request(url), Sleep(2), Request(url), Sleep(4), Request(url)];
  }

  /** With a year free of braces the configured URLs never make fetch_endpoint raise: every
      category but shots is fetched from its configured URL, and shots from the player's
      track file, or not at all when no player_id is given. */
  lemma EndpointTargets(c: Config, key: string, kwargs: seq<(string, Json)>)
    requires NoBraces(c.tournamentYear)
    ensures EndpointTarget(c, key, kwargs) != Fails
    ensures key in Categories && key != "shots" ==> EndpointTarget(c, key, kwargs) == Url(Endpoints(c)[key])
    ensures key == "shots" && kwargs != [] ==>
      EndpointTarget(c, key, kwargs)
      == match Find(kwargs, "player_id")
         case None => NoTarget
         case Some(v) => Url(ShotsPrefix(c) + Str(v) + ".json")
    ensures key !in Categories ==> EndpointTarget(c, key, kwargs) == NoTarget
  {
    if key in Endpoints(c) {
      EndpointFormatting(c, key, kwargs);
    }
  }

  /** The state of the client's aiohttp session. */
  datatype SessionState = NoSession | Open | Closed

  class ApiClient {
    const config: Config
    /** The HTTP side of the world the client talks to. */
    const world: World
    var session: SessionState

    constructor(config: Config, world: World)
      ensures this.config == config && this.world == world && session == NoSession
    {
      this.config := config;
      this.world := world;
      session := NoSession;
    }

    /** `__aenter__`: a new session. */
    method Enter()
      modifies this
      ensures session == Open
    {
      session := Open;
    }

    /** `__aexit__`: closes the session if there is one (closing twice does nothing). */
    method Exit()
      modifies this
      ensures session == if old(session) == NoSession then NoSession else Closed
    {
      if session != NoSession {
        session := Closed;
      }
    }

    /** fetch_data: `retries` None means the configured maximum. */
    method FetchData(endpoint: string, retries: Option<int>) returns (data: Json)
      modifies world
      ensures (data, world.State())
              == FetchFrom(world.respond, session == Open, endpoint, retries.GetOr(config.maxRetries), 0, old(world.State()))
    {
      var n := retries.GetOr(config.maxRetries);
      ghost var spec := FetchFrom(world.respond, session == Open, endpoint, n, 0, world.State());
      var attempt := 0;
      while attempt < n + 1
        invariant FetchFrom(world.respond, session == Open, endpoint, n, attempt, world.State()) == spec
        decreases n + 1 - attempt
      {
        var body: Option<Json> := None;
        if session == Open {
          var outcome := world.Get(endpoint);
          body := AttemptResult(outcome);
        }
        if body.Some? {
          return body.value;
        }
        if attempt < n {
          world.Sleep(Pow2(attempt));
        }
        attempt := attempt + 1;
      }
      return JNull;
    }

    /** fetch_endpoint */
    method FetchEndpoint(key: string, kwargs: seq<(string, Json)>) returns (r: Result<Json>)
      modifies world
      ensures (r, world.State())
              == EndpointFetch(world.respond, session == Open, config, key, kwargs, old(world.State()))
    {
      if key !in Endpoints(config) {
        return Ok(JNull);
      }
      var endpoint := Endpoints(config)[key];
      if kwargs != [] {
        var formatted := Format(endpoint, kwargs);
        if formatted.MissingKey? {
          return Ok(JNull);
        } else if formatted.Malformed? {
          return Raise;
        }
        endpoint := formatted.s;
      }
      var data := FetchData(endpoint, None);
      return Ok(data);
    }

    method FetchEntrylist() returns (r: Result<Json>)
      modifies world
      ensures (r, world.State())
              == EndpointFetch(world.respond, session == Open, config, "entrylist", [], old(world.State()))
    {
      r := FetchEndpoint("entrylist", []);
    }

    method FetchTeetimes() returns (r: Result<Json>)
      modifies world
      ensures (r, world.State())
              == EndpointFetch(world.respond, session == Open, config, "teetimes", [], old(world.State()))
    {
      r := FetchEndpoint("teetimes", []);
    }

    method FetchLeaderboard() returns (r: Result<Json>)
      modifies world
      ensures (r, world.State())
              == EndpointFetch(world.respond, session == Open, config, "leaderboard", [], old(world.State()))
    {
      r := FetchEndpoint("leaderboard", []);
    }

    method FetchShots(playerId: string) returns (r: Result<Json>)
      modifies world
      ensures (r, world.State())
              == EndpointFetch(world.respond, session == Open, config, "shots",
                               [("player_id", JStr(playerId))], old(world.State()))
    {
      r := FetchEndpoint("shots", [("player_id", JStr(playerId))]);
    }
  }
}
