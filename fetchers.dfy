/** The four category fetchers the scrape loop runs. Each opens its own API session, fetches
    its feed, normalises it and publishes the records.

    entrylist.py re-raises every error. The teetimes, leaderboard and shots fetchers log
    errors and return normally, and shots isolates errors per player. Each fetcher is a
    class whose `Start` is proved equal to a function of the world before it; the lemmas
    state what those functions publish. */
module Fetchers {
  import opened Py
  import opened Template
  import opened Configuration
  import opened Environment
  import opened DataProcessors
  import opened Api
  import opened Broker

  // ---------------------------------------------------------------------------------------
  // The records as the dicts that are published

  function EntryJsons(players: seq<PlayerRecord>): seq<Json> {
    MapSeq((p: PlayerRecord) => p.ToJson(), players)
  }

  function TeeJsons(records: seq<TeeRecord>): seq<Json> {
    MapSeq((t: TeeRecord) => t.ToJson(), records)
  }

  function RowJsons(rows: seq<LeaderboardRecord>): seq<Json> {
    MapSeq((row: LeaderboardRecord) => row.ToJson(), rows)
  }

  // ---------------------------------------------------------------------------------------
  // What a run of each fetcher does, as a function of the world before it. `connected` says
  // whether the broker connection is open; the API session is always open inside `start`.

  /** The publishing loop of entrylist.py and teetimes.py: every record in order; a False
      result is only logged, an exception ends the loop. */
  function PublishEach(w: World, connected: bool, c: Config, key: string, records: seq<Json>, log: Log): (Result<()>, Log)
    decreases |records|
  {
    if records == [] then (Ok(()), log)
    else
      var p := PlayerPublish(w.accept, connected, c, key, records[0], log);
      if p.0.Raise? then (Raise, p.1) else PublishEach(w, connected, c, key, records[1..], p.1)
  }

  /** EntrylistFetcher.start: a failed fetch (None), a normaliser error or a publish error
      is re-raised. */
  function EntrylistRun(w: World, connected: bool, c: Config, log: Log): (Result<()>, Log) {
    var f := EndpointFetch(w.respond, true, c, "entrylist", [], log);
    if f.0.Raise? || f.0.value == JNull then (Raise, f.1)
    else
      match Entrylist(f.0.value)
      case Raise => (Raise, f.1)
      case Ok(players) => PublishEach(w, connected, c, "entrylist", EntryJsons(players), f.1)
  }

  /** TeetimesFetcher.start: the same steps, every error logged and swallowed. */
  function TeetimesRun(w: World, connected: bool, c: Config, log: Log): Log {
    var f := EndpointFetch(w.respond, true, c, "teetimes", [], log);
    if f.0.Raise? || f.0.value == JNull then f.1
    else
      match Teetimes(f.0.value)
      case Raise => f.1
      case Ok(records) => PublishEach(w, connected, c, "teetimes", TeeJsons(records), f.1).1
  }

  /** LeaderboardFetcher.start: one publish of the whole normalised list; errors swallowed. */
  function LeaderboardRun(w: World, connected: bool, c: Config, log: Log): Log {
    var f := EndpointFetch(w.respond, true, c, "leaderboard", [], log);
    if f.0.Raise? || f.0.value == JNull then f.1
    else
      match Leaderboard(f.0.value)
      case Raise => f.1
      case Ok(rows) => LeaderboardPublish(w.accept, connected, c, RowJsons(rows), f.1).1
  }

  /** One player in ShotsFetcher.start: falsy shots data is skipped, and an error ends this
      player's turn only. */
  function PlayerShots(w: World, connected: bool, c: Config, pid: string, log: Log): Log {
    var f := EndpointFetch(w.respond, true, c, "shots", [("player_id", JStr(pid))], log);
    if f.0.Raise? || !Truthy(f.0.value) then f.1
    else
      match Shots(f.0.value, pid)
      case Raise => f.1
      case Ok(record) => PlayerPublish(w.accept, connected, c, "shots", ShotRecordJson(record), f.1).1
  }

  /** The per-player loop of ShotsFetcher.start, over the players in order. */
  function ShotsEach(w: World, connected: bool, c: Config, players: seq<PlayerRecord>, log: Log): Log
    decreases |players|
  {
    if players == [] then log
    else ShotsEach(w, connected, c, players[1..], PlayerShots(w, connected, c, players[0].playerId, log))
  }

  /** ShotsFetcher.start: a fresh entrylist; falsy entrylist data ends the run; errors
      outside the per-player loop are swallowed. */
  function ShotsRun(w: World, connected: bool, c: Config, log: Log): Log {
    var f := EndpointFetch(w.respond, true, c, "entrylist", [], log);
    if f.0.Raise? || !Truthy(f.0.value) then f.1
    else
      match Entrylist(f.0.value)
      case Raise => f.1
      case Ok(players) => ShotsEach(w, connected, c, players, f.1)
  }

  // ---------------------------------------------------------------------------------------
  // What the runs publish

  /** Records that are dicts whose first key is "player_id", as every normaliser builds them. */
  predicate PlayerIdFirst(records: seq<Json>) {
    forall k :: 0 <= k < |records| ==>
      records[k].JObj? && records[k].fields != [] && records[k].fields[0].0 == "player_id"
  }

  /** The messages for such records: each on its category's topic for its own player_id. */
  function PlayerMessages(c: Config, key: string, records: seq<Json>): (ms: seq<Message>)
    requires key in Categories && key != "leaderboard" && PlayerIdFirst(records)
    ensures |ms| == |records|
  {
    seq(|records|, k requires 0 <= k < |records| =>
      JsonMessage(TopicHead(c, key) + Str(records[k].fields[0].1), records[k]))
  }

  /** `after` is `before` with the messages `ms` handed to the broker, in order, when the
      connection is open, and with nothing else happening; each delivery is confirmed or not
      as the broker decides. */
  ghost predicate PublishedInOrder(w: World, connected: bool, before: Log, after: Log, ms: seq<Message>) {
    after.requests == before.requests
    && (!connected ==> after == before)
    && (connected ==>
          after.deliveries == before.deliveries + |ms|
          && |after.trace| == |before.trace| + |ms| && after.trace[..|before.trace|] == before.trace
          && forall k :: 0 <= k < |ms| ==> after.trace[|before.trace| + k] == Deliver(ms[k], w.accept(before.deliveries + k)))
  }

  /** The publishing loop never raises on such records: it publishes one message per record,
      in order, and a record the broker refuses does not stop the ones after it. */
  lemma {:induction false} PublishEachFacts(w: World, connected: bool, c: Config, key: string, records: seq<Json>, log: Log)
    requires NoBraces(c.tournamentYear) && key in Categories && key != "leaderboard" && PlayerIdFirst(records)
    ensures PublishEach(w, connected, c, key, records, log).0.Ok?
    ensures PublishedInOrder(w, connected, log, PublishEach(w, connected, c, key, records, log).1,
                             PlayerMessages(c, key, records))
    decreases |records|
  {
    if records != [] {
      var rec := records[0];
      PlayerPublishRoute(w.accept, connected, c, key, rec, log);
      assert Find(rec.fields, "player_id") == Some(rec.fields[0].1);
      var p := PlayerPublish(w.accept, connected, c, key, rec, log);
      var rest := records[1..];
      assert PlayerIdFirst(rest) by {
        forall k | 0 <= k < |rest| ensures rest[k].JObj? && rest[k].fields != [] && rest[k].fields[0].0 == "player_id" {
          assert rest[k] == records[k + 1];
        }
      }
      PublishEachFacts(w, connected, c, key, rest, p.1);
      var ms := PlayerMessages(c, key, records);
      var ms' := PlayerMessages(c, key, rest);
      assert ms == [ms[0]] + ms';
      var r := PublishEach(w, connected, c, key, records, log);
      assert r == PublishEach(w, connected, c, key, rest, p.1);
      if connected {
        PublishedCons(w, log, p.1, r.1, ms[0], ms');
      }
    }
  }

  /** One delivery followed by deliveries in order are deliveries in order. */
  lemma PublishedCons(w: World, before: Log, middle: Log, after: Log, m: Message, ms: seq<Message>)
    requires middle == AfterDeliver(before, m, w.accept(before.deliveries))
    requires PublishedInOrder(w, true, middle, after, ms)
    ensures PublishedInOrder(w, true, before, after, [m] + ms)
  {
    var t := |before.trace|;
    assert after.trace[..t] == middle.trace[..t];
    forall k | 0 <= k < |[m] + ms|
      ensures after.trace[t + k] == Deliver(([m] + ms)[k], w.accept(before.deliveries + k))
    {
      if k > 0 {
        assert after.trace[t + k] == after.trace[|middle.trace| + (k - 1)];
      } else {
        assert after.trace[t] == middle.trace[t];
      }
    }
  }

  /** publish_message hands exactly its one message over when the connection is open. */
  lemma PublishedOne(w: World, connected: bool, m: Message, log: Log)
    ensures PublishedInOrder(w, connected, log, PublishOutcome(w.accept, connected, m, log).1, [m])
  {
    if connected {
      var after := PublishOutcome(w.accept, connected, m, log).1;
      assert after.trace[|log.trace| + 0] == Deliver(m, w.accept(log.deliveries));
    }
  }

  lemma EntryRecordsKeyed(players: seq<PlayerRecord>)
    ensures PlayerIdFirst(EntryJsons(players))
    ensures forall c: Config, k :: 0 <= k < |players| ==>
      PlayerMessages(c, "entrylist", EntryJsons(players))[k]
      == JsonMessage(TopicHead(c, "entrylist") + players[k].playerId, players[k].ToJson())
  {
  }

  lemma TeeRecordsKeyed(records: seq<TeeRecord>)
    ensures PlayerIdFirst(TeeJsons(records))
    ensures forall c: Config, k :: 0 <= k < |records| ==>
      PlayerMessages(c, "teetimes", TeeJsons(records))[k]
      == JsonMessage(TopicHead(c, "teetimes") + records[k].playerId, records[k].ToJson())
  {
  }

  /** The feed fetch each run starts with, for a category fetched without keyword arguments. */
  function Fetched(w: World, c: Config, key: string, log: Log): (Json, Log)
    requires key in Categories
  {
    FetchFrom(w.respond, true, Endpoints(c)[key], c.maxRetries, 0, log)
  }

  /** entrylist.py: a fetch that gives None, or a feed the normaliser rejects, raises out of
      start with nothing published; otherwise start returns normally after publishing one
      message per normalised player, in order, on the topic of that player's id. */
  lemma EntrylistRunFacts(w: World, connected: bool, c: Config, log: Log)
    requires NoBraces(c.tournamentYear)
    ensures var f := Fetched(w, c, "entrylist", log);
      var r := EntrylistRun(w, connected, c, log);
      (f.0 == JNull || Entrylist(f.0).Raise? ==> r == (Raise, f.1))
      && (f.0 != JNull && Entrylist(f.0).Ok? ==>
            var players := Entrylist(f.0).value;
            r.0.Ok?
            && PublishedInOrder(w, connected, f.1, r.1, PlayerMessages(c, "entrylist", EntryJsons(players)))
            && forall k :: 0 <= k < |players| ==>
                 PlayerMessages(c, "entrylist", EntryJsons(players))[k]
                 == JsonMessage(TopicHead(c, "entrylist") + players[k].playerId, players[k].ToJson()))
  {
    var f := Fetched(w, c, "entrylist", log);
    if f.0 != JNull && Entrylist(f.0).Ok? {
      var players := Entrylist(f.0).value;
      EntryRecordsKeyed(players);
      PublishEachFacts(w, connected, c, "entrylist", EntryJsons(players), f.1);
    }
  }

  /** teetimes.py: start never raises; a fetch that gives None or a feed the normaliser
      rejects publishes nothing; otherwise one message per merged record, in first-seen
      order, on the topic of that player's id. */
  lemma TeetimesRunFacts(w: World, connected: bool, c: Config, log: Log)
    requires NoBraces(c.tournamentYear)
    ensures var f := Fetched(w, c, "teetimes", log);
      var r := TeetimesRun(w, connected, c, log);
      (f.0 == JNull || Teetimes(f.0).Raise? ==> r == f.1)
      && (f.0 != JNull && Teetimes(f.0).Ok? ==>
            var records := Teetimes(f.0).value;
            PublishedInOrder(w, connected, f.1, r, PlayerMessages(c, "teetimes", TeeJsons(records)))
            && forall k :: 0 <= k < |records| ==>
                 PlayerMessages(c, "teetimes", TeeJsons(records))[k]
                 == JsonMessage(TopicHead(c, "teetimes") + records[k].playerId, records[k].ToJson()))
  {
    var f := Fetched(w, c, "teetimes", log);
    if f.0 != JNull && Teetimes(f.0).Ok? {
      var records := Teetimes(f.0).value;
      TeeRecordsKeyed(records);
      PublishEachFacts(w, connected, c, "teetimes", TeeJsons(records), f.1);
    }
  }

  /** leaderboard.py: start never raises; a fetch that gives None or a feed the normaliser
      rejects publishes nothing; otherwise exactly one message, carrying the whole normalised
      list under "players", on the leaderboard topic. */
  lemma LeaderboardRunFacts(w: World, connected: bool, c: Config, log: Log)
    requires NoBraces(c.tournamentYear)
    ensures var f := Fetched(w, c, "leaderboard", log);
      var r := LeaderboardRun(w, connected, c, log);
      (f.0 == JNull || Leaderboard(f.0).Raise? ==> r == f.1)
      && (f.0 != JNull && Leaderboard(f.0).Ok? ==>
            PublishedInOrder(w, connected, f.1, r,
              [JsonMessage("masters.Leaderboard*" + c.tournamentYear,
                           JObj([("players", JArr(RowJsons(Leaderboard(f.0).value)))]))]))
  {
    var f := Fetched(w, c, "leaderboard", log);
    if f.0 != JNull && Leaderboard(f.0).Ok? {
      LeaderboardPublished(w, connected, c, RowJsons(Leaderboard(f.0).value), f.1);
    }
  }

  lemma LeaderboardPublished(w: World, connected: bool, c: Config, rows: seq<Json>, log: Log)
    requires NoBraces(c.tournamentYear)
    ensures PublishedInOrder(w, connected, log, LeaderboardPublish(w.accept, connected, c, rows, log).1,
              [JsonMessage("masters.Leaderboard*" + c.tournamentYear, JObj([("players", JArr(rows))]))])
  {
    LeaderboardPublishRoute(w.accept, connected, c, rows, log);
    PublishedOne(w, connected, JsonMessage("masters.Leaderboard*" + c.tournamentYear, JObj([("players", JArr(rows))])), log);
  }

  /** shots.py, one player: the player's track file is fetched; falsy data or a feed
      process_shots rejects publishes nothing; otherwise exactly one message, the normalised
      record, on the shots topic of the record's player_id, which is the player's own id
      unless a round with id "player_id" replaced it. */
  lemma PlayerShotsFacts(w: World, connected: bool, c: Config, pid: string, log: Log)
    requires NoBraces(c.tournamentYear)
    ensures var f := FetchFrom(w.respond, true, ShotsPrefix(c) + pid + ".json", c.maxRetries, 0, log);
      var r := PlayerShots(w, connected, c, pid, log);
      (!Truthy(f.0) || Shots(f.0, pid).Raise? ==> r == f.1)
      && (Truthy(f.0) && Shots(f.0, pid).Ok? ==>
            var record := ShotRecordJson(Shots(f.0, pid).value);
            record.fields != []
            && PublishedInOrder(w, connected, f.1, r, [JsonMessage(TopicHead(c, "shots") + Str(record.fields[0].1), record)])
            && (Shots(f.0, pid).value[0].1.PlayerIdEntry? ==> record.fields[0].1 == JStr(pid)))
  {
    ShotsUrl(w, c, pid, log);
    var f := FetchFrom(w.respond, true, ShotsPrefix(c) + pid + ".json", c.maxRetries, 0, log);
    if Truthy(f.0) && Shots(f.0, pid).Ok? {
      ShotsSpec(f.0, pid);
      ShotPublished(w, connected, c, pid, Shots(f.0, pid).value, f.1);
    }
  }

  /** fetch_shots(pid) fetches the player's track file. */
  lemma ShotsUrl(w: World, c: Config, pid: string, log: Log)
    requires NoBraces(c.tournamentYear)
    ensures var f := FetchFrom(w.respond, true, ShotsPrefix(c) + pid + ".json", c.maxRetries, 0, log);
      EndpointFetch(w.respond, true, c, "shots", [("player_id", JStr(pid))], log) == (Ok(f.0), f.1)
  {
    var kwargs := [("player_id", JStr(pid))];
    assert Find(kwargs, "player_id") == Some(JStr(pid));
    EndpointTargets(c, "shots", kwargs);
  }

  lemma ShotPublished(w: World, connected: bool, c: Config, pid: string, shots: ShotRecord, log: Log)
    requires NoBraces(c.tournamentYear) && ValidRecord(pid, shots)
    ensures var record := ShotRecordJson(shots);
      record.fields != [] && record.fields[0].0 == "player_id"
      && PublishedInOrder(w, connected, log, PlayerPublish(w.accept, connected, c, "shots", record, log).1,
                          [JsonMessage(TopicHead(c, "shots") + Str(record.fields[0].1), record)])
      && (shots[0].1.PlayerIdEntry? ==> record.fields[0].1 == JStr(pid))
  {
    var record := ShotRecordJson(shots);
    assert shots[0] in shots;
    assert Find(record.fields, "player_id") == Some(record.fields[0].1);
    PlayerPublishRoute(w.accept, connected, c, "shots", record, log);
    PublishedOne(w, connected, JsonMessage(TopicHead(c, "shots") + Str(record.fields[0].1), record), log);
  }

  /** The per-player loop fetches for every player, so at least one request each when retries
      are not negative and at most one per attempt, and publishes at most one message per
      player. */
  lemma {:induction false} ShotsEachFacts(w: World, connected: bool, c: Config, players: seq<PlayerRecord>, log: Log)
    requires NoBraces(c.tournamentYear)
    ensures var r := ShotsEach(w, connected, c, players, log);
      log.deliveries <= r.deliveries <= log.deliveries + |players|
      && log.requests + (if c.maxRetries >= 0 then |players| else 0) <= r.requests
      && r.requests <= log.requests + |players| * Attempts(c.maxRetries)
    decreases |players|
  {
    if players != [] {
      var pid := players[0].playerId;
      var next := PlayerShots(w, connected, c, pid, log);
      PlayerShotsBounds(w, connected, c, pid, log);
      ShotsEachFacts(w, connected, c, players[1..], next);
      TimesStep(|players|, Attempts(c.maxRetries));
    }
  }

  lemma TimesStep(n: nat, a: nat)
    requires n > 0
    ensures n * a == a + (n - 1) * a
  {
  }

  lemma PlayerShotsBounds(w: World, connected: bool, c: Config, pid: string, log: Log)
    requires NoBraces(c.tournamentYear)
    ensures var r := PlayerShots(w, connected, c, pid, log);
      log.deliveries <= r.deliveries <= log.deliveries + 1
      && log.requests + (if c.maxRetries >= 0 then 1 else 0) <= r.requests <= log.requests + Attempts(c.maxRetries)
  {
    PlayerShotsFacts(w, connected, c, pid, log);
    FetchFacts(w.respond, true, ShotsPrefix(c) + pid + ".json", c.maxRetries, 0, log);
  }

  /** The log before each player's turn of the per-player loop, followed by the log after
      the last turn. */
  function Turns(w: World, connected: bool, c: Config, players: seq<PlayerRecord>, log: Log): (ts: seq<Log>)
    ensures |ts| == |players| + 1 && ts[0] == log
    decreases |players|
  {
    if players == [] then [log]
    else [log] + Turns(w, connected, c, players[1..], PlayerShots(w, connected, c, players[0].playerId, log))
  }

  /** One player's turn of shots.py: `after` is `before` followed by the requests of that
      player's track file and the back-off sleeps between them, at least one request when
      retries are not negative; then, when the data is truthy and process_shots accepts it,
      exactly one message, the normalised record on the shots topic of its player_id, and
      nothing else. */
  ghost predicate ShotsTurn(w: World, connected: bool, c: Config, pid: string, before: Log, after: Log) {
    var url := ShotsPrefix(c) + pid + ".json";
    var f := FetchFrom(w.respond, true, url, c.maxRetries, 0, before);
    |before.trace| <= |f.1.trace| && f.1.trace[..|before.trace|] == before.trace
    && (forall i :: |before.trace| <= i < |f.1.trace| ==> f.1.trace[i] == Request(url) || f.1.trace[i].Sleep?)
    && (c.maxRetries >= 0 ==> f.1.requests > before.requests)
    && (!Truthy(f.0) || Shots(f.0, pid).Raise? ==> after == f.1)
    && (Truthy(f.0) && Shots(f.0, pid).Ok? ==>
          var record := ShotRecordJson(Shots(f.0, pid).value);
          record.fields != []
          && PublishedInOrder(w, connected, f.1, after, [JsonMessage(TopicHead(c, "shots") + Str(record.fields[0].1), record)]))
  }

  lemma PlayerShotsTurn(w: World, connected: bool, c: Config, pid: string, log: Log)
    requires NoBraces(c.tournamentYear)
    ensures ShotsTurn(w, connected, c, pid, log, PlayerShots(w, connected, c, pid, log))
  {
    var url := ShotsPrefix(c) + pid + ".json";
    PlayerShotsFacts(w, connected, c, pid, log);
    FetchTrace(w.respond, true, url, c.maxRetries, 0, log);
    FetchFacts(w.respond, true, url, c.maxRetries, 0, log);
  }

  /** The per-player loop takes the players in order, one turn each: player k's turn starts
      where player k-1's ended, fetches player k's own track file and publishes at most
      player k's record, and the run ends where the last turn ended. */
  lemma {:induction false} ShotsInOrder(w: World, connected: bool, c: Config, players: seq<PlayerRecord>, log: Log)
    requires NoBraces(c.tournamentYear)
    ensures var ts := Turns(w, connected, c, players, log);
      ts[|players|] == ShotsEach(w, connected, c, players, log)
      && forall k :: 0 <= k < |players| ==> ShotsTurn(w, connected, c, players[k].playerId, ts[k], ts[k + 1])
    decreases |players|
  {
    if players != [] {
      var next := PlayerShots(w, connected, c, players[0].playerId, log);
      var ts := Turns(w, connected, c, players, log);
      var rest := Turns(w, connected, c, players[1..], next);
      ShotsInOrder(w, connected, c, players[1..], next);
      PlayerShotsTurn(w, connected, c, players[0].playerId, log);
      assert ts == [log] + rest;
      forall k | 0 <= k < |players|
        ensures ShotsTurn(w, connected, c, players[k].playerId, ts[k], ts[k + 1])
      {
        if k > 0 {
          assert players[k] == players[1..][k - 1];
          assert ts[k] == rest[k - 1] && ts[k + 1] == rest[k];
        }
      }
    }
  }

  /** shots.py: a falsy entrylist (None, {} or an empty list) or one the normaliser rejects
      ends the run after that one fetch, with no shots fetched and nothing published;
      otherwise the normalised players are taken in order, one turn each (`ShotsTurn`), at
      least one request and at most one message per player. */
  lemma ShotsRunFacts(w: World, connected: bool, c: Config, log: Log)
    requires NoBraces(c.tournamentYear)
    ensures var f := Fetched(w, c, "entrylist", log);
      var r := ShotsRun(w, connected, c, log);
      (!Truthy(f.0) || Entrylist(f.0).Raise? ==> r == f.1)
      && (Truthy(f.0) && Entrylist(f.0).Ok? ==>
            var players := Entrylist(f.0).value;
            var ts := Turns(w, connected, c, players, f.1);
            r == ts[|players|]
            && (forall k :: 0 <= k < |players| ==> ShotsTurn(w, connected, c, players[k].playerId, ts[k], ts[k + 1]))
            && f.1.deliveries <= r.deliveries <= f.1.deliveries + |players|
            && f.1.requests + (if c.maxRetries >= 0 then |players| else 0) <= r.requests
            && r.requests <= f.1.requests + |players| * Attempts(c.maxRetries))
  {
    var f := Fetched(w, c, "entrylist", log);
    if Truthy(f.0) && Entrylist(f.0).Ok? {
      ShotsEachFacts(w, connected, c, Entrylist(f.0).value, f.1);
      ShotsInOrder(w, connected, c, Entrylist(f.0).value, f.1);
    }
  }

  // ---------------------------------------------------------------------------------------
  // Which events each run produces

  /** An event of a phase that requests only URLs starting with `urlA` or `urlB` and
      publishes only on routing keys starting with `topic`. */
  predicate InPhase(e: Event, urlA: string, urlB: string, topic: string) {
    match e
    case Request(u) => StartsWith(u, urlA) || StartsWith(u, urlB)
    case Deliver(m, _) => StartsWith(m.routingKey, topic)
    case Sleep(_) => true
  }

  /** `after` is `before` followed only by events of that phase. */
  ghost predicate Extends(before: Log, after: Log, urlA: string, urlB: string, topic: string) {
    |before.trace| <= |after.trace| && after.trace[..|before.trace|] == before.trace
    && forall i :: |before.trace| <= i < |after.trace| ==> InPhase(after.trace[i], urlA, urlB, topic)
  }

  lemma ExtendsTrans(l1: Log, l2: Log, l3: Log, urlA: string, urlB: string, topic: string)
    requires Extends(l1, l2, urlA, urlB, topic) && Extends(l2, l3, urlA, urlB, topic)
    ensures Extends(l1, l3, urlA, urlB, topic)
  {
    assert l3.trace[..|l1.trace|] == l3.trace[..|l2.trace|][..|l1.trace|];
    forall i | |l1.trace| <= i < |l3.trace| ensures InPhase(l3.trace[i], urlA, urlB, topic) {
      if i < |l2.trace| {
        assert l3.trace[i] == l3.trace[..|l2.trace|][i];
      }
    }
  }

  lemma StartsWithConcat(a: string, b: string)
    ensures StartsWith(a + b, a)
  {
    assert (a + b)[..|a|] == a;
  }

  /** A per-player topic with anything after it starts with its category's stem. */
  lemma TopicStem(c: Config, key: string, x: string, stem: string)
    requires key in Categories && key != "leaderboard"
    requires stem == if key == "entrylist" then "masters.Entrylist*"
                     else if key == "teetimes" then "masters.TeeTimes*" else "masters.Shots*"
    ensures StartsWith(TopicHead(c, key) + x, stem)
  {
    assert TopicHead(c, key) == stem + (c.tournamentYear + ".");
    StartsWithConcat(stem, c.tournamentYear + ".");
    assert (TopicHead(c, key) + x)[..|stem|] == TopicHead(c, key)[..|stem|];
  }

  lemma FetchPhase(respond: nat -> HttpOutcome, url: string, retries: int, log: Log, urlA: string, urlB: string, topic: string)
    requires StartsWith(url, urlA) || StartsWith(url, urlB)
    ensures Extends(log, FetchFrom(respond, true, url, retries, 0, log).1, urlA, urlB, topic)
  {
    FetchTrace(respond, true, url, retries, 0, log);
  }

  lemma PublishedPhase(w: World, connected: bool, before: Log, after: Log, ms: seq<Message>,
                       urlA: string, urlB: string, topic: string)
    requires PublishedInOrder(w, connected, before, after, ms)
    requires forall k :: 0 <= k < |ms| ==> StartsWith(ms[k].routingKey, topic)
    ensures Extends(before, after, urlA, urlB, topic)
  {
    if connected {
      forall i | |before.trace| <= i < |after.trace| ensures InPhase(after.trace[i], urlA, urlB, topic) {
        var k := i - |before.trace|;
        assert after.trace[|before.trace| + k] == Deliver(ms[k], w.accept(before.deliveries + k));
        assert StartsWith(ms[k].routingKey, topic);
      }
    }
  }

  lemma PlayerMessagesPhase(c: Config, key: string, records: seq<Json>, stem: string)
    requires key in Categories && key != "leaderboard" && PlayerIdFirst(records)
    requires stem == if key == "entrylist" then "masters.Entrylist*"
                     else if key == "teetimes" then "masters.TeeTimes*" else "masters.Shots*"
    ensures forall k :: 0 <= k < |records| ==> StartsWith(PlayerMessages(c, key, records)[k].routingKey, stem)
  {
    forall k | 0 <= k < |records| ensures StartsWith(PlayerMessages(c, key, records)[k].routingKey, stem) {
      TopicStem(c, key, Str(records[k].fields[0].1), stem);
    }
  }

  /** The entrylist run only requests the entrylist feed and only publishes entrylist topics. */
  lemma EntrylistPhase(w: World, connected: bool, c: Config, log: Log)
    requires NoBraces(c.tournamentYear)
    ensures Extends(log, EntrylistRun(w, connected, c, log).1,
                    Endpoints(c)["entrylist"], Endpoints(c)["entrylist"], "masters.Entrylist*")
  {
    var e := Endpoints(c)["entrylist"];
    var f := Fetched(w, c, "entrylist", log);
    FetchPhase(w.respond, e, c.maxRetries, log, e, e, "masters.Entrylist*");
    EntrylistRunFacts(w, connected, c, log);
    if f.0 != JNull && Entrylist(f.0).Ok? {
      var records := EntryJsons(Entrylist(f.0).value);
      EntryRecordsKeyed(Entrylist(f.0).value);
      PlayerMessagesPhase(c, "entrylist", records, "masters.Entrylist*");
      PublishedPhase(w, connected, f.1, EntrylistRun(w, connected, c, log).1,
                     PlayerMessages(c, "entrylist", records), e, e, "masters.Entrylist*");
      ExtendsTrans(log, f.1, EntrylistRun(w, connected, c, log).1, e, e, "masters.Entrylist*");
    }
  }

  /** The tee-times run only requests the pairings feed and only publishes tee-time topics. */
  lemma TeetimesPhase(w: World, connected: bool, c: Config, log: Log)
    requires NoBraces(c.tournamentYear)
    ensures Extends(log, TeetimesRun(w, connected, c, log),
                    Endpoints(c)["teetimes"], Endpoints(c)["teetimes"], "masters.TeeTimes*")
  {
    var e := Endpoints(c)["teetimes"];
    var f := Fetched(w, c, "teetimes", log);
    FetchPhase(w.respond, e, c.maxRetries, log, e, e, "masters.TeeTimes*");
    TeetimesRunFacts(w, connected, c, log);
    if f.0 != JNull && Teetimes(f.0).Ok? {
      var records := TeeJsons(Teetimes(f.0).value);
      TeeRecordsKeyed(Teetimes(f.0).value);
      PlayerMessagesPhase(c, "teetimes", records, "masters.TeeTimes*");
      PublishedPhase(w, connected, f.1, TeetimesRun(w, connected, c, log),
                     PlayerMessages(c, "teetimes", records), e, e, "masters.TeeTimes*");
      ExtendsTrans(log, f.1, TeetimesRun(w, connected, c, log), e, e, "masters.TeeTimes*");
    }
  }

  /** The leaderboard run only requests the scores feed and only publishes the leaderboard
      topic. */
  lemma LeaderboardPhase(w: World, connected: bool, c: Config, log: Log)
    requires NoBraces(c.tournamentYear)
    ensures Extends(log, LeaderboardRun(w, connected, c, log),
                    Endpoints(c)["leaderboard"], Endpoints(c)["leaderboard"], "masters.Leaderboard*")
  {
    var e := Endpoints(c)["leaderboard"];
    var f := Fetched(w, c, "leaderboard", log);
    FetchPhase(w.respond, e, c.maxRetries, log, e, e, "masters.Leaderboard*");
    LeaderboardRunFacts(w, connected, c, log);
    if f.0 != JNull && Leaderboard(f.0).Ok? {
      var m := JsonMessage("masters.Leaderboard*" + c.tournamentYear,
                           JObj([("players", JArr(RowJsons(Leaderboard(f.0).value)))]));
      StartsWithConcat("masters.Leaderboard*", c.tournamentYear);
      PublishedPhase(w, connected, f.1, LeaderboardRun(w, connected, c, log), [m], e, e, "masters.Leaderboard*");
      ExtendsTrans(log, f.1, LeaderboardRun(w, connected, c, log), e, e, "masters.Leaderboard*");
    }
  }

  /** One player of the shots run only requests that player's track file and only publishes
      shots topics. */
  lemma PlayerShotsPhase(w: World, connected: bool, c: Config, pid: string, log: Log)
    requires NoBraces(c.tournamentYear)
    ensures Extends(log, PlayerShots(w, connected, c, pid, log), Endpoints(c)["entrylist"], ShotsPrefix(c), "masters.Shots*")
  {
    var e := Endpoints(c)["entrylist"];
    var url := ShotsPrefix(c) + pid + ".json";
    var f := FetchFrom(w.respond, true, url, c.maxRetries, 0, log);
    assert url == ShotsPrefix(c) + (pid + ".json");
    StartsWithConcat(ShotsPrefix(c), pid + ".json");
    FetchPhase(w.respond, url, c.maxRetries, log, e, ShotsPrefix(c), "masters.Shots*");
    PlayerShotsFacts(w, connected, c, pid, log);
    if Truthy(f.0) && Shots(f.0, pid).Ok? {
      var record := ShotRecordJson(Shots(f.0, pid).value);
      var m := JsonMessage(TopicHead(c, "shots") + Str(record.fields[0].1), record);
      TopicStem(c, "shots", Str(record.fields[0].1), "masters.Shots*");
      PublishedPhase(w, connected, f.1, PlayerShots(w, connected, c, pid, log), [m], e, ShotsPrefix(c), "masters.Shots*");
      ExtendsTrans(log, f.1, PlayerShots(w, connected, c, pid, log), e, ShotsPrefix(c), "masters.Shots*");
    }
  }

  lemma {:induction false} ShotsEachPhase(w: World, connected: bool, c: Config, players: seq<PlayerRecord>, log: Log)
    requires NoBraces(c.tournamentYear)
    ensures Extends(log, ShotsEach(w, connected, c, players, log), Endpoints(c)["entrylist"], ShotsPrefix(c), "masters.Shots*")
    decreases |players|
  {
    if players != [] {
      var next := PlayerShots(w, connected, c, players[0].playerId, log);
      PlayerShotsPhase(w, connected, c, players[0].playerId, log);
      ShotsEachPhase(w, connected, c, players[1..], next);
      ExtendsTrans(log, next, ShotsEach(w, connected, c, players, log), Endpoints(c)["entrylist"], ShotsPrefix(c), "masters.Shots*");
    }
  }

  /** The shots run only requests the entrylist feed and track files, and only publishes
      shots topics. */
  lemma ShotsPhase(w: World, connected: bool, c: Config, log: Log)
    requires NoBraces(c.tournamentYear)
    ensures Extends(log, ShotsRun(w, connected, c, log), Endpoints(c)["entrylist"], ShotsPrefix(c), "masters.Shots*")
  {
    var e := Endpoints(c)["entrylist"];
    var f := Fetched(w, c, "entrylist", log);
    FetchPhase(w.respond, e, c.maxRetries, log, e, ShotsPrefix(c), "masters.Shots*");
    if Truthy(f.0) && Entrylist(f.0).Ok? {
      ShotsEachPhase(w, connected, c, Entrylist(f.0).value, f.1);
      ExtendsTrans(log, f.1, ShotsRun(w, connected, c, log), e, ShotsPrefix(c), "masters.Shots*");
    }
  }

  // ---------------------------------------------------------------------------------------
  // The fetchers

  class EntrylistFetcher {
    const config: Config
    const broker: RabbitMQClient

    constructor(config: Config, broker: RabbitMQClient)
      ensures this.config == config && this.broker == broker
    {
      this.config := config;
      this.broker := broker;
    }

    method Start() returns (r: Result<()>)
      requires broker.config == config
      modifies broker.world
      ensures (r, broker.world.State())
              == EntrylistRun(broker.world, broker.connection == Connected, config, old(broker.world.State()))
    {
      var api := new ApiClient(config, broker.world);
      api.Enter();
      var raw := api.FetchEntrylist();
      if raw.Raise? || raw.value == JNull {
        api.Exit();
        return Raise;
      }
      var players := ProcessEntrylist(raw.value);
      if players.Raise? {
        api.Exit();
        return Raise;
      }
      r := PublishRecords(broker, "entrylist", EntryJsons(players.value));
      api.Exit();
    }
  }

  class TeetimesFetcher {
    const config: Config
    const broker: RabbitMQClient

    constructor(config: Config, broker: RabbitMQClient)
      ensures this.config == config && this.broker == broker
    {
      this.config := config;
      this.broker := broker;
    }

    method Start()
      requires broker.config == config
      modifies broker.world
      ensures broker.world.State()
              == TeetimesRun(broker.world, broker.connection == Connected, config, old(broker.world.State()))
    {
      var api := new ApiClient(config, broker.world);
      api.Enter();
      var raw := api.FetchTeetimes();
      if raw.Raise? || raw.value == JNull {
        api.Exit();
        return;
      }
      var merged := ProcessTeetimes(raw.value);
      if merged.Raise? {
        api.Exit();
        return;
      }
      var published := PublishRecords(broker, "teetimes", TeeJsons(merged.value));
      api.Exit();
    }
  }

  class LeaderboardFetcher {
    const config: Config
    const broker: RabbitMQClient

    constructor(config: Config, broker: RabbitMQClient)
      ensures this.config == config && this.broker == broker
    {
      this.config := config;
      this.broker := broker;
    }

    method Start()
      requires broker.config == config
      modifies broker.world
      ensures broker.world.State()
              == LeaderboardRun(broker.world, broker.connection == Connected, config, old(broker.world.State()))
    {
      var api := new ApiClient(config, broker.world);
      api.Enter();
      var raw := api.FetchLeaderboard();
      if raw.Raise? || raw.value == JNull {
        api.Exit();
        return;
      }
      var rows := ProcessLeaderboard(raw.value);
      if rows.Raise? {
        api.Exit();
        return;
      }
      var published := broker.PublishLeaderboard(RowJsons(rows.value));
      api.Exit();
    }
  }

  class ShotsFetcher {
    const config: Config
    const broker: RabbitMQClient

    constructor(config: Config, broker: RabbitMQClient)
      ensures this.config == config && this.broker == broker
    {
      this.config := config;
      this.broker := broker;
    }

    method Start()
      requires broker.config == config
      modifies broker.world
      ensures broker.world.State()
              == ShotsRun(broker.world, broker.connection == Connected, config, old(broker.world.State()))
    {
      var api := new ApiClient(config, broker.world);
      api.Enter();
      var raw := api.FetchEntrylist();
      if raw.Raise? || !Truthy(raw.value) {
        api.Exit();
        return;
      }
      var players := ProcessEntrylist(raw.value);
      if players.Raise? {
        api.Exit();
        return;
      }
      ShotsForPlayers(api, broker, players.value);
      api.Exit();
    }
  }

  /** The per-player loop of ShotsFetcher.start. */
  method ShotsForPlayers(api: ApiClient, broker: RabbitMQClient, ps: seq<PlayerRecord>)
    requires api.world == broker.world && api.config == broker.config && api.session == Open
    modifies broker.world
    ensures broker.world.State()
            == ShotsEach(broker.world, broker.connection == Connected, broker.config, ps, old(broker.world.State()))
  {
    ghost var spec := ShotsEach(broker.world, broker.connection == Connected, broker.config, ps, broker.world.State());
    var i := 0;
    while i < |ps|
      invariant 0 <= i <= |ps|
      invariant ShotsEach(broker.world, broker.connection == Connected, broker.config, ps[i..], broker.world.State()) == spec
    {
      assert ps[i..][1..] == ps[i + 1..];
      ShotsForPlayer(api, broker, ps[i].playerId);
      i := i + 1;
    }
  }

  /** The publishing loop of EntrylistFetcher.start and TeetimesFetcher.start. */
  method PublishRecords(broker: RabbitMQClient, key: string, records: seq<Json>) returns (r: Result<()>)
    requires key == "entrylist" || key == "teetimes"
    modifies broker.world
    ensures (r, broker.world.State())
            == PublishEach(broker.world, broker.connection == Connected, broker.config, key, records, old(broker.world.State()))
  {
    ghost var spec := PublishEach(broker.world, broker.connection == Connected, broker.config, key, records, broker.world.State());
    var i := 0;
    while i < |records|
      invariant 0 <= i <= |records|
      invariant PublishEach(broker.world, broker.connection == Connected, broker.config, key, records[i..], broker.world.State()) == spec
    {
      assert records[i..][1..] == records[i + 1..];
      var published;
      if key == "entrylist" {
        published := broker.PublishEntrylist(records[i]);
      } else {
        published := broker.PublishTeetimes(records[i]);
      }
      if published.Raise? {
        return Raise;
      }
      i := i + 1;
    }
    return Ok(());
  }

  /** The body of the per-player loop of ShotsFetcher.start; its try/except ends here. */
  method ShotsForPlayer(api: ApiClient, broker: RabbitMQClient, playerId: string)
    requires api.world == broker.world && api.config == broker.config && api.session == Open
    modifies broker.world
    ensures broker.world.State()
            == PlayerShots(broker.world, broker.connection == Connected, broker.config, playerId, old(broker.world.State()))
  {
    var shotsData := api.FetchShots(playerId);
    if shotsData.Ok? && Truthy(shotsData.value) {
      var record := ProcessShots(shotsData.value, playerId);
      if record.Ok? {
        var published := broker.PublishShots(ShotRecordJson(record.value));
      }
    }
  }
}
