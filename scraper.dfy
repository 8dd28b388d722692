/** The scraper service: one broker client shared by the four fetchers, and the loop that runs
    them in a fixed order, then waits for the scrape interval. The loop body's try/except
    turns an error into a 60-second pause before the next cycle. Only the entrylist fetcher
    lets an error out.

    The loop runs as an asyncio task until shutdown clears `running`. The model has no
    concurrency. `ScrapeLoop` is given the number of cycles that pass before the flag is
    cleared. */
module Scraper {
  import opened Py
  import opened Template
  import opened Configuration
  import opened Environment
  import opened Api
  import opened Broker
  import opened Fetchers

  /** The handle of the background scrape task. */
  datatype Task = NoTask | Scheduled | Cancelled

  /** The part of the service that start and shutdown change. */
  datatype Service = Service(running: bool, task: Task, connection: Connection)

  /** Scraper.start: connect first. If that raises, the error propagates and neither the
      flag nor the task is set. */
  function AfterStart(s: Service, brokerUp: bool): (r: (bool, Service))
    ensures r.0 == !brokerUp
    ensures brokerUp ==> r.1.running && r.1.task == Scheduled && r.1.connection == Connected
    ensures !brokerUp ==> r.1 == s
  {
    if brokerUp then (false, Service(true, Scheduled, Connected)) else (true, s)
  }

  /** Scraper.shutdown: clear the flag, cancel the task if there is one, close the
      connection. */
  function AfterShutdown(s: Service): Service {
    Service(false,
            if s.task == NoTask then NoTask else Cancelled,
            if s.connection == Connected then Disconnected else s.connection)
  }

  /** Shutting down twice is the same as shutting down once, and afterwards nothing runs and
      nothing is connected. */
  lemma ShutdownIdempotent(s: Service)
    ensures AfterShutdown(AfterShutdown(s)) == AfterShutdown(s)
    ensures !AfterShutdown(s).running && AfterShutdown(s).task != Scheduled
    ensures AfterShutdown(s).connection != Connected
  {
  }

  /** A successful start followed by shutdown leaves the task cancelled and the connection
      closed, whatever the state before the start. */
  lemma StartThenShutdown(s: Service)
    ensures AfterShutdown(AfterStart(s, true).1) == Service(false, Cancelled, Disconnected)
    ensures AfterStart(AfterShutdown(s), true).1 == Service(true, Scheduled, Connected)
  {
  }

  // ---------------------------------------------------------------------------------------
  // One cycle of the loop and a run of cycles

  /** The body of Scraper._scrape_loop. */
  function Cycle(w: World, connected: bool, c: Config, log: Log): Log {
    var e := EntrylistRun(w, connected, c, log);
    if e.0.Raise? then AfterSleep(e.1, 60)
    else
      var t := TeetimesRun(w, connected, c, e.1);
      var l := LeaderboardRun(w, connected, c, t);
      AfterSleep(ShotsRun(w, connected, c, l), c.scrapeInterval)
  }

  /** `n` passes of a loop body `step`, starting from `log`. */
  function Repeat(step: Log -> Log, n: nat, log: Log): Log
    decreases n
  {
    if n == 0 then log else step(Repeat(step, n - 1, log))
  }

  /** `step` is one cycle of the loop, for this world, broker connection state and
      configuration. */
  ghost predicate IsCycle(step: Log -> Log, w: World, connected: bool, c: Config) {
    forall l {:trigger Cycle(w, connected, c, l)} :: step(l) == Cycle(w, connected, c, l)
  }

  /** The loop body as a function value. */
  function CycleStep(w: World, connected: bool, c: Config): (step: Log -> Log)
    ensures IsCycle(step, w, connected, c)
  {
    (l: Log) => Cycle(w, connected, c, l)
  }

  /** A cycle runs the fetchers in order: entrylist, tee times, leaderboard, shots. Each
      leaves only its own requests and topics in the trace, and one pause ends the cycle.
      If the entrylist run raises, the other three do not run and the pause is 60 seconds. */
  lemma CycleOrder(w: World, connected: bool, c: Config, log: Log)
    requires NoBraces(c.tournamentYear)
    ensures var E := Endpoints(c)["entrylist"];
      var T := Endpoints(c)["teetimes"];
      var L := Endpoints(c)["leaderboard"];
      var e := EntrylistRun(w, connected, c, log);
      var t := TeetimesRun(w, connected, c, e.1);
      var l := LeaderboardRun(w, connected, c, t);
      var s := ShotsRun(w, connected, c, l);
      Extends(log, e.1, E, E, "masters.Entrylist*")
      && (e.0.Raise? ==> Cycle(w, connected, c, log) == AfterSleep(e.1, 60))
      && (e.0.Ok? ==>
            Extends(e.1, t, T, T, "masters.TeeTimes*")
            && Extends(t, l, L, L, "masters.Leaderboard*")
            && Extends(l, s, E, ShotsPrefix(c), "masters.Shots*")
            && Cycle(w, connected, c, log) == AfterSleep(s, c.scrapeInterval))
  {
    var e := EntrylistRun(w, connected, c, log);
    EntrylistPhase(w, connected, c, log);
    if e.0.Ok? {
      var t := TeetimesRun(w, connected, c, e.1);
      var l := LeaderboardRun(w, connected, c, t);
      TeetimesPhase(w, connected, c, e.1);
      LeaderboardPhase(w, connected, c, t);
      ShotsPhase(w, connected, c, l);
    }
  }

  /** With the feeds down and the default three retries, a cycle makes four entrylist
      requests with back-off pauses of 1, 2 and 4 seconds. The fetch returns None, so the
      entrylist fetcher raises, and the loop pauses 60 seconds. Nothing is published. */
  lemma DeadFeedCycle(w: World, connected: bool, c: Config, log: Log)
    requires NoBraces(c.tournamentYear) && c.maxRetries == 3
    requires forall j :: log.requests <= j < log.requests + 4 ==> AttemptResult(w.respond(j)).None?
    ensures var E := Endpoints(c)["entrylist"];
      Cycle(w, connected, c, log)
      == Log(log.requests + 4, log.deliveries,
             log.trace + [Request(E), Sleep(1), Request(E), Sleep(2), Request(E), Sleep(4), Request(E), Sleep(60)])
  {
    var E := Endpoints(c)["entrylist"];
    DefaultBackoff(w.respond, E, log);
    EntrylistRunFacts(w, connected, c, log);
    var f := Fetched(w, c, "entrylist", log);
    assert f.1.trace + [Sleep(60)]
        == log.trace + [Request(E), Sleep(1), Request(E), Sleep(2), Request(E), Sleep(4), Request(E), Sleep(60)];
  }

  /** While the feeds stay down, every cycle makes four requests and adds eight events, and
      nothing is ever published. */
  lemma {:induction false} DeadFeedCycles(w: World, connected: bool, c: Config, step: Log -> Log, n: nat, log: Log)
    requires NoBraces(c.tournamentYear) && c.maxRetries == 3 && IsCycle(step, w, connected, c)
    requires forall j :: log.requests <= j ==> AttemptResult(w.respond(j)).None?
    ensures var r := Repeat(step, n, log);
      r.requests == log.requests + 4 * n && r.deliveries == log.deliveries
      && |r.trace| == |log.trace| + 8 * n && r.trace[..|log.trace|] == log.trace
    decreases n
  {
    if n > 0 {
      var prev := Repeat(step, n - 1, log);
      DeadFeedCycles(w, connected, c, step, n - 1, log);
      DeadFeedCycle(w, connected, c, prev);
      var r := Repeat(step, n, log);
      assert r.trace[..|log.trace|] == r.trace[..|prev.trace|][..|log.trace|];
    }
  }

  /** Every cycle requests the entrylist feed at least once, so `n` cycles make at least `n`
      requests. */
  lemma {:induction false} CyclesRequest(w: World, connected: bool, c: Config, step: Log -> Log, n: nat, log: Log)
    requires NoBraces(c.tournamentYear) && c.maxRetries >= 0 && IsCycle(step, w, connected, c)
    ensures Repeat(step, n, log).requests >= log.requests + n
    decreases n
  {
    if n > 0 {
      CyclesRequest(w, connected, c, step, n - 1, log);
      StepRequests(w, connected, c, step, Repeat(step, n - 1, log));
    }
  }

  lemma StepRequests(w: World, connected: bool, c: Config, step: Log -> Log, log: Log)
    requires NoBraces(c.tournamentYear) && c.maxRetries >= 0 && IsCycle(step, w, connected, c)
    ensures step(log).requests > log.requests
  {
    CycleRequests(w, connected, c, log);
  }

  lemma CycleRequests(w: World, connected: bool, c: Config, log: Log)
    requires NoBraces(c.tournamentYear) && c.maxRetries >= 0
    ensures Cycle(w, connected, c, log).requests > log.requests
  {
    var f := Fetched(w, c, "entrylist", log);
    FetchFacts(w.respond, true, Endpoints(c)["entrylist"], c.maxRetries, 0, log);
    EntrylistRunFacts(w, connected, c, log);
    var e := EntrylistRun(w, connected, c, log);
    if e.0.Ok? {
      var t := TeetimesRun(w, connected, c, e.1);
      var l := LeaderboardRun(w, connected, c, t);
      assert e.1.requests == f.1.requests;
      TeetimesRequests(w, connected, c, e.1);
      LeaderboardRequests(w, connected, c, t);
      ShotsRequests(w, connected, c, l);
    }
  }

  lemma TeetimesRequests(w: World, connected: bool, c: Config, log: Log)
    requires NoBraces(c.tournamentYear)
    ensures TeetimesRun(w, connected, c, log).requests >= log.requests
  {
    TeetimesPhase(w, connected, c, log);
    FetchFacts(w.respond, true, Endpoints(c)["teetimes"], c.maxRetries, 0, log);
    TeetimesRunFacts(w, connected, c, log);
  }

  lemma LeaderboardRequests(w: World, connected: bool, c: Config, log: Log)
    requires NoBraces(c.tournamentYear)
    ensures LeaderboardRun(w, connected, c, log).requests >= log.requests
  {
    FetchFacts(w.respond, true, Endpoints(c)["leaderboard"], c.maxRetries, 0, log);
    LeaderboardRunFacts(w, connected, c, log);
  }

  lemma ShotsRequests(w: World, connected: bool, c: Config, log: Log)
    requires NoBraces(c.tournamentYear)
    ensures ShotsRun(w, connected, c, log).requests >= log.requests
  {
    FetchFacts(w.respond, true, Endpoints(c)["entrylist"], c.maxRetries, 0, log);
    ShotsRunFacts(w, connected, c, log);
  }

  // ---------------------------------------------------------------------------------------
  // The service object

  class Scraper {
    const config: Config
    const broker: RabbitMQClient
    const entrylist: EntrylistFetcher
    const teetimes: TeetimesFetcher
    const leaderboard: LeaderboardFetcher
    const shots: ShotsFetcher
    var running: bool
    var task: Task

    /** All four fetchers share this scraper's configuration and broker client. */
    ghost predicate Valid()
      reads this, broker
    {
      broker.config == config && broker.Valid()
      && entrylist.config == config && entrylist.broker == broker
      && teetimes.config == config && teetimes.broker == broker
      && leaderboard.config == config && leaderboard.broker == broker
      && shots.config == config && shots.broker == broker
    }

    function State(): Service
      reads this, broker
    {
      Service(running, task, broker.connection)
    }

    constructor(config: Config, world: World)
      ensures Valid() && this.config == config && broker.world == world
      ensures fresh(broker) && State() == Service(false, NoTask, NotConnected)
    {
      this.config := config;
      var client := new RabbitMQClient(config, world);
      this.broker := client;
      this.entrylist := new EntrylistFetcher(config, client);
      this.teetimes := new TeetimesFetcher(config, client);
      this.leaderboard := new LeaderboardFetcher(config, client);
      this.shots := new ShotsFetcher(config, client);
      this.running := false;
      this.task := NoTask;
    }

    method Start() returns (raised: bool)
      requires Valid()
      modifies this, broker
      ensures Valid()
      ensures (raised, State()) == AfterStart(old(State()), broker.world.brokerUp)
    {
      raised := broker.Connect();
      if raised {
        return;
      }
      running := true;
      task := Scheduled;
    }

    method Shutdown()
      requires Valid()
      modifies this, broker
      ensures Valid()
      ensures State() == AfterShutdown(old(State()))
    {
      running := false;
      if task != NoTask {
        task := Cancelled;
      }
      broker.Disconnect();
    }

    /** One pass of the loop body. */
    method RunCycle(ghost step: Log -> Log)
      requires Valid() && IsCycle(step, broker.world, broker.connection == Connected, config)
      modifies broker.world
      ensures broker.world.State() == step(old(broker.world.State()))
    {
      ghost var spec := Cycle(broker.world, broker.connection == Connected, config, broker.world.State());
      var r := entrylist.Start();
      if r.Raise? {
        broker.world.Sleep(60);
        return;
      }
      teetimes.Start();
      leaderboard.Start();
      shots.Start();
      broker.world.Sleep(config.scrapeInterval);
    }

    /** Scraper._scrape_loop, up to `cycles` passes: none when the service is not running.
        `step` names the loop body, one cycle, as a function of the log. */
    method ScrapeLoop(cycles: nat, ghost step: Log -> Log)
      requires Valid() && IsCycle(step, broker.world, broker.connection == Connected, config)
      modifies broker.world
      ensures broker.world.State() == Repeat(step, if running then cycles else 0, old(broker.world.State()))
    {
      var k := 0;
      while k < cycles && running
        invariant 0 <= k <= cycles && Valid() && (!running ==> k == 0)
        invariant broker.world.State() == Repeat(step, k, old(broker.world.State()))
      {
        RunCycle(step);
        k := k + 1;
      }
    }
  }
}
