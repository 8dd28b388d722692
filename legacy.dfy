/** The older template-method fetchers: BaseFetcher, its TeetimesFetcher and the entrylist
    fetcher of entrilist.py. They fetch with a blocking GET, transform each item and publish
    it on a topic filled in from the item's own fields.

    BaseFetcher.py has the imports of `statsd`, `logging` and `publish` commented out, so
    `process` as written ends in a NameError. `ProcessedAsWritten` models that. `Processed`
    models the evidently intended behaviour, with `publish` handing a persistent JSON message
    to the broker and raising when the broker refuses it. */
module Legacy {
  import opened Py
  import opened Template
  import opened Environment
  import opened Broker
  import opened Fetchers

  // ---------------------------------------------------------------------------------------
  // BaseFetcher._safe_request

  /** requests.get followed by raise_for_status and response.json(): a status from 400 to
      599, a network error, a timeout, or a body that is not JSON raises. */
  function Body(o: HttpOutcome): (r: Result<Json>)
    ensures r.Ok? <==> o.Response? && !(400 <= o.status < 600) && o.body.Some?
    ensures r.Ok? ==> r.value == o.body.value
  {
    match o
    case Response(status, body) => if 400 <= status < 600 || body.None? then Raise else Ok(body.value)
    case _ => Raise
  }

  // ---------------------------------------------------------------------------------------
  // BaseFetcher.process and _publish

  /** `topic_template.format(**item)`: the item must be a dict and the template's
      placeholders must all be among its keys. */
  function TopicOf(template: string, item: Json): (r: Result<string>)
    ensures r.Ok? ==> item.JObj? && Format(template, item.fields) == Formatted(r.value)
    ensures item.JObj? && Format(template, item.fields).Formatted? ==> r.Ok?
  {
    match item
    case JObj(fields) =>
      (match Format(template, fields)
       case Formatted(s) => Ok(s)
       case _ => Raise)
    case _ => Raise
  }

  /** An item whose transform and topic both succeed. */
  predicate Sendable(template: string, transform: Json -> Result<Json>, item: Json) {
    transform(item).Ok? && TopicOf(template, transform(item).value).Ok?
  }

  /** The message `_publish` sends for such an item. */
  function Outgoing(template: string, transform: Json -> Result<Json>, item: Json): Message
    requires Sendable(template, transform, item)
  {
    JsonMessage(TopicOf(template, transform(item).value).value, transform(item).value)
  }

  /** The messages for the first `n` items, all of them sendable. */
  function OutgoingPrefix(template: string, transform: Json -> Result<Json>, items: seq<Json>, n: nat): (ms: seq<Message>)
    requires n <= |items| && forall k :: 0 <= k < n ==> Sendable(template, transform, items[k])
    ensures |ms| == n && forall k :: 0 <= k < n ==> ms[k] == Outgoing(template, transform, items[k])
  {
    seq(n, k requires 0 <= k < n => Outgoing(template, transform, items[k]))
  }

  /** The loop of `process` with the imports in place: one `try` around the whole loop, so
      the first item that cannot be transformed, formatted or published ends the loop. */
  function PublishFrom(w: World, template: string, transform: Json -> Result<Json>, items: seq<Json>, log: Log): (Result<()>, Log)
    decreases |items|
  {
    if items == [] then (Ok(()), log)
    else if !Sendable(template, transform, items[0]) then (Raise, log)
    else
      var accepted := w.accept(log.deliveries);
      var next := AfterDeliver(log, Outgoing(template, transform, items[0]), accepted);
      if accepted then PublishFrom(w, template, transform, items[1..], next) else (Raise, next)
  }

  /** BaseFetcher.process as evidently intended: given what `fetch` returned and the world
      after it, the world after publishing. Errors are logged and swallowed. */
  function Processed(w: World, template: string, transform: Json -> Result<Json>, fetched: Result<seq<Json>>, log: Log): Log {
    if fetched.Raise? then log else PublishFrom(w, template, transform, fetched.value, log).1
  }

  /** BaseFetcher.process as written. Every path but an empty batch reaches `publish` or
      `statsd`, neither of which is defined, and the NameError escapes. */
  function ProcessedAsWritten(fetched: Result<seq<Json>>): Result<()> {
    if fetched == Ok([]) then Ok(()) else Raise
  }

  /** How many messages the loop handed to the broker. */
  function SentCount(w: World, template: string, transform: Json -> Result<Json>, items: seq<Json>, log: Log): int {
    PublishFrom(w, template, transform, items, log).1.deliveries - log.deliveries
  }

  /** The loop hands over a prefix of the items, in order, each as the message built from its
      transform and topic. */
  ghost predicate SendsPrefix(w: World, template: string, transform: Json -> Result<Json>, items: seq<Json>, log: Log) {
    var n := SentCount(w, template, transform, items, log);
    0 <= n <= |items|
    && (forall k :: 0 <= k < n ==> Sendable(template, transform, items[k]))
    && PublishedInOrder(w, true, log, PublishFrom(w, template, transform, items, log).1,
                        OutgoingPrefix(template, transform, items, n))
  }

  /** Publishing hands over a prefix of the items, in order, each as the message built from
      its transform and topic. */
  lemma {:induction false} PublishFromSends(w: World, template: string, transform: Json -> Result<Json>, items: seq<Json>, log: Log)
    ensures SendsPrefix(w, template, transform, items, log)
    decreases |items|
  {
    if items != [] && Sendable(template, transform, items[0]) {
      if w.accept(log.deliveries) {
        var next := AfterDeliver(log, Outgoing(template, transform, items[0]), true);
        PublishFromSends(w, template, transform, items[1..], next);
        SendsAccepted(w, template, transform, items, log);
      } else {
        SendsRefused(w, template, transform, items, log);
      }
    }
  }

  lemma SendsAccepted(w: World, template: string, transform: Json -> Result<Json>, items: seq<Json>, log: Log)
    requires items != [] && Sendable(template, transform, items[0]) && w.accept(log.deliveries)
    requires SendsPrefix(w, template, transform, items[1..],
                         AfterDeliver(log, Outgoing(template, transform, items[0]), true))
    ensures SendsPrefix(w, template, transform, items, log)
  {
    var m := Outgoing(template, transform, items[0]);
    var next := AfterDeliver(log, m, true);
    var after := PublishFrom(w, template, transform, items[1..], next).1;
    PublishFromAccepted(w, template, transform, items, log);
    var n := SentCount(w, template, transform, items, log);
    assert n - 1 == SentCount(w, template, transform, items[1..], next);
    var rest := OutgoingPrefix(template, transform, items[1..], n - 1);
    PublishedCons(w, log, next, after, m, rest);
    assert forall k :: 1 <= k < n ==> items[k] == items[1..][k - 1];
    assert [m] + rest == OutgoingPrefix(template, transform, items, n);
  }

  lemma SendsRefused(w: World, template: string, transform: Json -> Result<Json>, items: seq<Json>, log: Log)
    requires items != [] && Sendable(template, transform, items[0]) && !w.accept(log.deliveries)
    ensures SendsPrefix(w, template, transform, items, log)
  {
    var m := Outgoing(template, transform, items[0]);
    var after := PublishFrom(w, template, transform, items, log).1;
    assert after == AfterDeliver(log, m, false);
    assert after.trace[|log.trace| + 0] == Deliver(m, false);
    assert [m] == OutgoingPrefix(template, transform, items, 1);
  }

  /** The loop stops at the first item that cannot be sent or that the broker refuses: every
      message before the last one sent was accepted, and the loop succeeds exactly when all
      items were sent and accepted. */
  ghost predicate StopsAtFirstFailure(w: World, template: string, transform: Json -> Result<Json>, items: seq<Json>, log: Log) {
    var n := SentCount(w, template, transform, items, log);
    0 <= n <= |items|
    && (forall j :: log.deliveries <= j < log.deliveries + n - 1 ==> w.accept(j))
    && (n < |items| ==> (n > 0 && !w.accept(log.deliveries + n - 1)) || !Sendable(template, transform, items[n]))
    && (PublishFrom(w, template, transform, items, log).0.Ok? <==>
          n == |items| && (n == 0 || w.accept(log.deliveries + n - 1)))
  }

  lemma {:induction false} PublishFromStops(w: World, template: string, transform: Json -> Result<Json>, items: seq<Json>, log: Log)
    ensures StopsAtFirstFailure(w, template, transform, items, log)
    decreases |items|
  {
    if items != [] && Sendable(template, transform, items[0]) && w.accept(log.deliveries) {
      var next := AfterDeliver(log, Outgoing(template, transform, items[0]), true);
      PublishFromStops(w, template, transform, items[1..], next);
      StopsAccepted(w, template, transform, items, log);
    }
  }

  /** One accepted message: the loop goes on with the rest of the items. */
  lemma PublishFromAccepted(w: World, template: string, transform: Json -> Result<Json>, items: seq<Json>, log: Log)
    requires items != [] && Sendable(template, transform, items[0]) && w.accept(log.deliveries)
    ensures PublishFrom(w, template, transform, items, log)
            == PublishFrom(w, template, transform, items[1..], AfterDeliver(log, Outgoing(template, transform, items[0]), true))
  {
  }

  lemma StopsAccepted(w: World, template: string, transform: Json -> Result<Json>, items: seq<Json>, log: Log)
    requires items != [] && Sendable(template, transform, items[0]) && w.accept(log.deliveries)
    requires StopsAtFirstFailure(w, template, transform, items[1..],
                                 AfterDeliver(log, Outgoing(template, transform, items[0]), true))
    ensures StopsAtFirstFailure(w, template, transform, items, log)
  {
    var next := AfterDeliver(log, Outgoing(template, transform, items[0]), true);
    PublishFromAccepted(w, template, transform, items, log);
    var n := SentCount(w, template, transform, items, log);
    assert n - 1 == SentCount(w, template, transform, items[1..], next);
    assert n < |items| ==> items[n] == items[1..][n - 1];
  }

  /** What the bug costs: a batch that the intended code would start publishing is dropped
      whole, with an error, by the code as written. */
  lemma LostBatch(w: World, template: string, transform: Json -> Result<Json>, items: seq<Json>, log: Log)
    requires items != [] && Sendable(template, transform, items[0])
    ensures ProcessedAsWritten(Ok(items)).Raise?
    ensures var after := Processed(w, template, transform, Ok(items), log);
      after.deliveries > log.deliveries && |after.trace| > |log.trace|
      && after.trace[|log.trace|] == Deliver(Outgoing(template, transform, items[0]), w.accept(log.deliveries))
  {
    var m := Outgoing(template, transform, items[0]);
    var next := AfterDeliver(log, m, w.accept(log.deliveries));
    assert next.trace[|log.trace|] == Deliver(m, w.accept(log.deliveries));
    if w.accept(log.deliveries) {
      PublishFromSends(w, template, transform, items[1..], next);
      var after := PublishFrom(w, template, transform, items[1..], next).1;
      assert after.trace[|log.trace|] == after.trace[..|next.trace|][|log.trace|];
    }
  }

  // ---------------------------------------------------------------------------------------
  // TeetimesFetcher.fetch: the players_data merge

  /** One value of `players_data`: the player id and the per-round entries, in insertion
      order. Its JSON form has "teetimes" first because the defaultdict creates it first. */
  datatype Slot = Slot(id: Json, teetimes: seq<(string, Json)>)

  function RecordJson(s: Slot): Json {
    JObj([("teetimes", JObj(s.teetimes)), ("player_id", s.id)])
  }

  function Records(ps: seq<Slot>): (r: seq<Json>)
    ensures |r| == |ps| && forall k :: 0 <= k < |ps| ==> r[k] == RecordJson(ps[k])
  {
    seq(|ps|, k requires 0 <= k < |ps| => RecordJson(ps[k]))
  }

  function SlotIds(ps: seq<Slot>): (r: seq<Json>)
    ensures |r| == |ps| && forall k :: 0 <= k < |ps| ==> r[k] == ps[k].id
  {
    seq(|ps|, k requires 0 <= k < |ps| => ps[k].id)
  }

  predicate DistinctIds(ps: seq<Slot>) {
    forall i, j :: 0 <= i < j < |ps| ==> ps[i].id != ps[j].id
  }

  /** A dict key: lists and dicts are unhashable. */
  predicate Hashable(v: Json) {
    !v.JArr? && !v.JObj?
  }

  /** The position of `id` in players_data. */
  function SlotIndex(ps: seq<Slot>, id: Json): (r: Option<nat>)
    ensures r.Some? ==> r.value < |ps| && ps[r.value].id == id && forall j :: 0 <= j < r.value ==> ps[j].id != id
    ensures r.None? ==> forall j :: 0 <= j < |ps| ==> ps[j].id != id
  {
    if ps == [] then None
    else if ps[0].id == id then Some(0)
    else match SlotIndex(ps[1..], id)
         case None => None
         case Some(k) => Some(k + 1)
  }

  /** The record is found exactly when its id is among the merged ids. */
  lemma SlotFound(ps: seq<Slot>, id: Json)
    ensures SlotIndex(ps, id).Some? <==> id in SlotIds(ps)
  {
    if id in SlotIds(ps) {
      var k :| 0 <= k < |ps| && SlotIds(ps)[k] == id;
      assert ps[k].id == id;
    }
  }

  /** `players_data[id]["player_id"] = id; players_data[id]["teetimes"][round] = entry` */
  function Upsert(ps: seq<Slot>, id: Json, round: string, entry: Json): seq<Slot> {
    match SlotIndex(ps, id)
    case Some(k) => ps[k := Slot(id, Put(ps[k].teetimes, round, entry))]
    case None => ps + [Slot(id, [(round, entry)])]
  }

  /** A new id is appended at the end and an id already present keeps its place, so ids stay
      distinct and in first-seen order; every other player's record is unchanged. */
  lemma UpsertIds(ps: seq<Slot>, id: Json, round: string, entry: Json)
    requires DistinctIds(ps)
    ensures var r := Upsert(ps, id, round, entry);
      DistinctIds(r)
      && SlotIds(r) == (if id in SlotIds(ps) then SlotIds(ps) else SlotIds(ps) + [id])
      && (forall k :: 0 <= k < |ps| && ps[k].id != id ==> r[k] == ps[k])
  {
    var r := Upsert(ps, id, round, entry);
    SlotFound(ps, id);
    match SlotIndex(ps, id)
    case Some(k) =>
      assert SlotIds(r) == SlotIds(ps);
    case None =>
      assert SlotIds(r) == SlotIds(ps) + [id];
  }

  /** The player's record holds the entry for the round; their other rounds are unchanged,
      and a new player has no other round. */
  lemma UpsertStores(ps: seq<Slot>, id: Json, round: string, entry: Json)
    ensures var r := Upsert(ps, id, round, entry);
      SlotIndex(r, id).Some?
      && Find(r[SlotIndex(r, id).value].teetimes, round) == Some(entry)
      && forall other :: other != round ==>
           Find(r[SlotIndex(r, id).value].teetimes, other)
           == (if id in SlotIds(ps) then Find(ps[SlotIndex(ps, id).value].teetimes, other) else None)
  {
    SlotFound(ps, id);
    match SlotIndex(ps, id)
    case Some(k) =>
      UpsertFound(ps, id, k, round, entry);
      PutSpec(ps[k].teetimes, round, entry);
    case None =>
      UpsertNew(ps, id, round, entry);
  }

  lemma UpsertFound(ps: seq<Slot>, id: Json, k: nat, round: string, entry: Json)
    requires SlotIndex(ps, id) == Some(k)
    ensures SlotIndex(Upsert(ps, id, round, entry), id) == Some(k)
    ensures Upsert(ps, id, round, entry)[k].teetimes == Put(ps[k].teetimes, round, entry)
  {
    var r := Upsert(ps, id, round, entry);
    assert r == ps[k := Slot(id, Put(ps[k].teetimes, round, entry))];
    assert r[k].id == id;
    assert forall j :: 0 <= j < k ==> r[j] == ps[j];
  }

  lemma UpsertNew(ps: seq<Slot>, id: Json, round: string, entry: Json)
    requires SlotIndex(ps, id).None?
    ensures SlotIndex(Upsert(ps, id, round, entry), id) == Some(|ps|)
    ensures Upsert(ps, id, round, entry)[|ps|].teetimes == [(round, entry)]
  {
    var r := Upsert(ps, id, round, entry);
    assert r == ps + [Slot(id, [(round, entry)])];
    assert r[|ps|].id == id;
  }

  /** One entry of a player's teetimes: the group's and the player's fields, raw. */
  function TeeEntry(teetime: Json, groupId: Json, tee: Json, order: Json): Json {
    JObj([("time", teetime), ("group_id", groupId), ("starting_hole", tee), ("order_of_play_within_group", order)])
  }

  /** What a group contributes to each of its players' entries. */
  datatype GroupInfo = GroupInfo(teetime: Json, groupId: Json, tee: Json)

  /** The body of the innermost loop for one player. */
  function PlayerMerge(round: string, g: GroupInfo, player: Json, ps: seq<Slot>): Result<seq<Slot>> {
    match player
    case JObj(fields) =>
      var id := Find(fields, "id").GetOr(JNull);
      var order := Find(fields, "order").GetOr(JNull);
      if Hashable(id) then Ok(Upsert(ps, id, round, TeeEntry(g.teetime, g.groupId, g.tee, order))) else Raise
    case _ => Raise
  }

  function PlayersFrom(round: string, g: GroupInfo, players: seq<Json>, ps: seq<Slot>): Result<seq<Slot>>
    decreases |players|
  {
    if players == [] then Ok(ps)
    else
      match PlayerMerge(round, g, players[0], ps)
      case Raise => Raise
      case Ok(next) => PlayersFrom(round, g, players[1..], next)
  }

  /** The body of the middle loop for one group: its fields read with .get, its players
      defaulting to []. */
  function GroupMerge(round: string, group: Json, ps: seq<Slot>): Result<seq<Slot>> {
    match group
    case JObj(f) =>
      var g := GroupInfo(Find(f, "teetime").GetOr(JNull), Find(f, "number").GetOr(JNull), Find(f, "tee").GetOr(JNull));
      (match Iterate(Find(f, "players").GetOr(JArr([])))
       case Raise => Raise
       case Ok(players) => PlayersFrom(round, g, players, ps))
    case _ => Raise
  }

  function GroupsFrom(round: string, groups: seq<Json>, ps: seq<Slot>): Result<seq<Slot>>
    decreases |groups|
  {
    if groups == [] then Ok(ps)
    else
      match GroupMerge(round, groups[0], ps)
      case Raise => Raise
      case Ok(next) => GroupsFrom(round, groups[1..], next)
  }

  /** `s.replace(pat, "")`: occurrences removed left to right, without overlap. */
  function RemoveAll(s: string, pat: string): string
    requires pat != []
    decreases |s|
  {
    if |s| < |pat| then s
    else if s[..|pat|] == pat then RemoveAll(s[|pat|..], pat)
    else [s[0]] + RemoveAll(s[1..], pat)
  }

  /** The round label of a `round*` key. */
  function RoundLabel(key: string): string {
    RemoveAll(key, "round")
  }

  /** The body of the outer loop for one key of the feed: keys not starting with "round" are
      skipped, a round's "groups" is looked up with [] and raises when missing. */
  function RoundMerge(data: Json, key: Json, ps: seq<Slot>): Result<seq<Slot>> {
    if !key.JStr? then Raise
    else if !StartsWith(key.s, "round") then Ok(ps)
    else
      match Index(data, key.s)
      case Raise => Raise
      case Ok(rd) =>
        match Index(rd, "groups")
        case Raise => Raise
        case Ok(groups) =>
          match Iterate(groups)
          case Raise => Raise
          case Ok(gs) => GroupsFrom(RoundLabel(key.s), gs, ps)
  }

  function RoundsFrom(data: Json, keys: seq<Json>, ps: seq<Slot>): Result<seq<Slot>>
    decreases |keys|
  {
    if keys == [] then Ok(ps)
    else
      match RoundMerge(data, keys[0], ps)
      case Raise => Raise
      case Ok(next) => RoundsFrom(data, keys[1..], next)
  }

  /** players_data at the end of TeetimesFetcher.fetch, given the outcome of its one
      request. */
  function FetchSlots(o: HttpOutcome): Result<seq<Slot>> {
    match Body(o)
    case Raise => Raise
    case Ok(data) =>
      match Iterate(data)
      case Raise => Raise
      case Ok(keys) => RoundsFrom(data, keys, [])
  }

  /** TeetimesFetcher.fetch: `list(players_data.values())`. */
  function FetchResult(o: HttpOutcome): Result<seq<Json>> {
    match FetchSlots(o)
    case Raise => Raise
    case Ok(ps) => Ok(Records(ps))
  }

  // Each level of the merge only appends new ids and keeps them distinct.

  /** Ids are only ever appended, and never twice. */
  ghost predicate Grows(before: seq<Slot>, r: Result<seq<Slot>>) {
    r.Ok? ==> DistinctIds(r.value) && |SlotIds(before)| <= |SlotIds(r.value)|
              && SlotIds(r.value)[..|before|] == SlotIds(before)
  }

  lemma GrowsTrans(a: seq<Slot>, b: seq<Slot>, r: Result<seq<Slot>>)
    requires Grows(a, Ok(b)) && Grows(b, r)
    ensures Grows(a, r)
  {
    if r.Ok? {
      assert SlotIds(r.value)[..|a|] == SlotIds(r.value)[..|b|][..|a|];
    }
  }

  lemma PlayerMergeGrows(round: string, g: GroupInfo, player: Json, ps: seq<Slot>)
    requires DistinctIds(ps)
    ensures Grows(ps, PlayerMerge(round, g, player, ps))
  {
    if player.JObj? {
      var id := Find(player.fields, "id").GetOr(JNull);
      UpsertIds(ps, id, round, TeeEntry(g.teetime, g.groupId, g.tee, Find(player.fields, "order").GetOr(JNull)));
    }
  }

  lemma {:induction false} PlayersFromGrows(round: string, g: GroupInfo, players: seq<Json>, ps: seq<Slot>)
    requires DistinctIds(ps)
    ensures Grows(ps, PlayersFrom(round, g, players, ps))
    decreases |players|
  {
    if players != [] {
      PlayerMergeGrows(round, g, players[0], ps);
      var step := PlayerMerge(round, g, players[0], ps);
      if step.Ok? {
        PlayersFromGrows(round, g, players[1..], step.value);
        GrowsTrans(ps, step.value, PlayersFrom(round, g, players, ps));
      }
    }
  }

  lemma {:induction false} GroupsFromGrows(round: string, groups: seq<Json>, ps: seq<Slot>)
    requires DistinctIds(ps)
    ensures Grows(ps, GroupsFrom(round, groups, ps))
    decreases |groups|
  {
    if groups != [] {
      var step := GroupMerge(round, groups[0], ps);
      if groups[0].JObj? {
        var players := Iterate(Find(groups[0].fields, "players").GetOr(JArr([])));
        if players.Ok? {
          var f := groups[0].fields;
          PlayersFromGrows(round, GroupInfo(Find(f, "teetime").GetOr(JNull), Find(f, "number").GetOr(JNull), Find(f, "tee").GetOr(JNull)),
                           players.value, ps);
        }
      }
      if step.Ok? {
        GroupsFromGrows(round, groups[1..], step.value);
        GrowsTrans(ps, step.value, GroupsFrom(round, groups, ps));
      }
    }
  }

  lemma RoundMergeGrows(data: Json, key: Json, ps: seq<Slot>)
    requires DistinctIds(ps)
    ensures Grows(ps, RoundMerge(data, key, ps))
  {
    if key.JStr? && StartsWith(key.s, "round") {
      var rd := Index(data, key.s);
      if rd.Ok? && Index(rd.value, "groups").Ok? && Iterate(Index(rd.value, "groups").value).Ok? {
        GroupsFromGrows(RoundLabel(key.s), Iterate(Index(rd.value, "groups").value).value, ps);
      }
    }
  }

  lemma {:induction false} RoundsFromGrows(data: Json, keys: seq<Json>, ps: seq<Slot>)
    requires DistinctIds(ps)
    ensures Grows(ps, RoundsFrom(data, keys, ps))
    decreases |keys|
  {
    if keys != [] {
      RoundMergeGrows(data, keys[0], ps);
      var step := RoundMerge(data, keys[0], ps);
      if step.Ok? {
        RoundsFromGrows(data, keys[1..], step.value);
        GrowsTrans(ps, step.value, RoundsFrom(data, keys, ps));
      }
    }
  }

  /** fetch returns one record per distinct player id, None included. */
  lemma FetchDistinct(o: HttpOutcome)
    ensures FetchSlots(o).Ok? ==> DistinctIds(FetchSlots(o).value)
  {
    var body := Body(o);
    if body.Ok? && Iterate(body.value).Ok? {
      RoundsFromGrows(body.value, Iterate(body.value).value, []);
    }
  }

  /** A key that starts with "round" and whose value has no "groups" makes fetch raise,
      whatever else the feed holds. */
  lemma {:induction false} MissingGroups(data: Json, keys: seq<Json>, ps: seq<Slot>, j: nat)
    requires j < |keys| && keys[j].JStr? && StartsWith(keys[j].s, "round")
    requires Index(data, keys[j].s).Raise? || Index(Index(data, keys[j].s).value, "groups").Raise?
    ensures RoundsFrom(data, keys, ps).Raise?
    decreases j
  {
    if j > 0 {
      var step := RoundMerge(data, keys[0], ps);
      if step.Ok? {
        MissingGroups(data, keys[1..], step.value, j - 1);
      }
    }
  }

  lemma {:induction false} RemoveAbsent(d: string)
    requires 'r' !in d
    ensures RemoveAll(d, "round") == d
    decreases |d|
  {
    if |d| >= 5 {
      assert d[..5][0] == d[0] && d[0] in d;
      assert 'r' !in d[1..] by {
        assert forall c :: c in d[1..] ==> c in d;
      }
      RemoveAbsent(d[1..]);
    }
  }

  /** Any key "round" followed by text without an "r" is processed under that text as its
      round label: "round1" is round "1", and so is a key 4 of a fifth round. */
  lemma RoundLabelOf(d: string)
    requires 'r' !in d
    ensures StartsWith("round" + d, "round") && RoundLabel("round" + d) == d
  {
    var key := "round" + d;
    assert key[..5] == "round";
    assert key[5..] == d;
    RemoveAbsent(d);
  }

  // ---------------------------------------------------------------------------------------
  // The legacy TeetimesFetcher

  const TeetimesUrl := "https://www.masters.com/en_US/scores/feeds/2025/pairings.json"
  /** "masters.TeeTimes*2025.{player_id}" */
  const TeetimesTopicHead := "masters.TeeTimes*2025."
  const TeetimesTopic := TeetimesTopicHead + PlayerIdHole

  /** "{player_id}" */
  const PlayerIdHole := "{player_id}"

  /** Its `transform` returns the item unchanged. */
  function TeetimesTransform(item: Json): Result<Json> {
    Ok(item)
  }

  lemma PlayerIdKeyword()
    ensures KeywordField("player_id") && PlayerIdHole == "{" + "player_id" + "}" + ""
  {
    assert !IsDigit("player_id"[0]);
  }

  /** A topic made of a brace-free head and the player-id placeholder. */
  lemma PlayerTopic(head: string, fields: seq<(string, Json)>)
    requires NoBraces(head)
    ensures Format(head + PlayerIdHole, fields)
            == match Find(fields, "player_id")
               case None => MissingKey("player_id")
               case Some(v) => Formatted(head + Str(v))
  {
    PlayerIdKeyword();
    OnePlaceholder(head, "player_id", "", fields);
    assert head + "{" + "player_id" + "}" + "" == head + PlayerIdHole;
    if Find(fields, "player_id").Some? {
      var v := Find(fields, "player_id").value;
      assert head + Str(v) + "" == head + Str(v);
    }
  }

  lemma TeetimesHeadBraceFree()
    ensures NoBraces(TeetimesTopicHead)
  {
  }

  /** Every fetched record is published on the tee-times topic of its own player id. */
  lemma TeetimesTopicOf(s: Slot)
    ensures Sendable(TeetimesTopic, TeetimesTransform, RecordJson(s))
    ensures TopicOf(TeetimesTopic, RecordJson(s)) == Ok(TeetimesTopicHead + Str(s.id))
  {
    TeetimesHeadBraceFree();
    PlayerTopic(TeetimesTopicHead, RecordJson(s).fields);
    assert Find(RecordJson(s).fields, "player_id") == Some(s.id);
  }

  /** With the imports in place, process publishes the fetched records in order, each on
      its player's topic, until the broker first refuses one. */
  lemma TeetimesProcess(w: World, ps: seq<Slot>, log: Log)
    ensures var after := Processed(w, TeetimesTopic, TeetimesTransform, Ok(Records(ps)), log);
      var n := after.deliveries - log.deliveries;
      0 <= n <= |ps|
      && PublishedInOrder(w, true, log, after, TeetimesMessages(ps[..n]))
      && (n < |ps| ==> n > 0 && !w.accept(log.deliveries + n - 1))
  {
    var items := Records(ps);
    RecordsSendable(ps);
    PublishFromSends(w, TeetimesTopic, TeetimesTransform, items, log);
    PublishFromStops(w, TeetimesTopic, TeetimesTransform, items, log);
    var n := SentCount(w, TeetimesTopic, TeetimesTransform, items, log);
    PrefixMessages(ps, n);
  }

  lemma PrefixMessages(ps: seq<Slot>, n: nat)
    requires n <= |ps|
    ensures forall k :: 0 <= k < n ==> Sendable(TeetimesTopic, TeetimesTransform, Records(ps)[k])
    ensures OutgoingPrefix(TeetimesTopic, TeetimesTransform, Records(ps), n) == TeetimesMessages(ps[..n])
  {
    RecordsSendable(ps);
  }

  /** Every merged record can be sent, and goes out as the player's tee-times message. */
  lemma RecordsSendable(ps: seq<Slot>)
    ensures forall k :: 0 <= k < |ps| ==>
      Sendable(TeetimesTopic, TeetimesTransform, Records(ps)[k])
      && Outgoing(TeetimesTopic, TeetimesTransform, Records(ps)[k]) == TeetimesMessages(ps)[k]
  {
    forall k | 0 <= k < |ps| ensures Sendable(TeetimesTopic, TeetimesTransform, Records(ps)[k])
      && Outgoing(TeetimesTopic, TeetimesTransform, Records(ps)[k]) == TeetimesMessages(ps)[k]
    {
      TeetimesTopicOf(ps[k]);
    }
  }

  /** The message for each player's record. */
  function TeetimesMessages(ps: seq<Slot>): (ms: seq<Message>)
    ensures |ms| == |ps| && forall k :: 0 <= k < |ps| ==> ms[k] == JsonMessage(TeetimesTopicHead + Str(ps[k].id), RecordJson(ps[k]))
  {
    seq(|ps|, k requires 0 <= k < |ps| => JsonMessage(TeetimesTopicHead + Str(ps[k].id), RecordJson(ps[k])))
  }

  class TeetimesFetcher {
    const world: World

    constructor(world: World)
      ensures this.world == world
    {
      this.world := world;
    }

    /** _safe_request followed by response.json(). */
    method SafeRequest() returns (r: Result<Json>)
      modifies world
      ensures r == Body(world.respond(old(world.requests)))
      ensures world.State() == AfterRequest(old(world.State()), TeetimesUrl)
    {
      var o := world.Get(TeetimesUrl);
      if o.Response? && !(400 <= o.status < 600) && o.body.Some? {
        return Ok(o.body.value);
      }
      return Raise;
    }

    method Fetch() returns (r: Result<seq<Json>>)
      modifies world
      ensures r == FetchResult(world.respond(old(world.requests)))
      ensures world.State() == AfterRequest(old(world.State()), TeetimesUrl)
    {
      var data := SafeRequest();
      if data.Raise? {
        return Raise;
      }
      var keys := Iterate(data.value);
      if keys.Raise? {
        return Raise;
      }
      var merged := MergeRounds(data.value, keys.value);
      if merged.Raise? {
        return Raise;
      }
      return Ok(Records(merged.value));
    }

    /** process, as evidently intended: fetch, then transform and publish each record until
        the first error, which is logged and swallowed. */
    method Process()
      modifies world
      ensures world.State()
              == Processed(world, TeetimesTopic, TeetimesTransform, FetchResult(world.respond(old(world.requests))),
                           AfterRequest(old(world.State()), TeetimesUrl))
    {
      var items := Fetch();
      if items.Raise? {
        return;
      }
      var published := PublishItems(world, TeetimesTopic, TeetimesTransform, items.value);
    }

    /** process, as written: the NameError escapes unless the batch is empty, and nothing is
        published. */
    method ProcessAsWritten() returns (r: Result<()>)
      modifies world
      ensures r == ProcessedAsWritten(FetchResult(world.respond(old(world.requests))))
      ensures world.State() == AfterRequest(old(world.State()), TeetimesUrl)
    {
      var items := Fetch();
      if items.Raise? {
        // the handler's statsd.increment raises NameError
        return Raise;
      }
      if items.value != [] {
        // _publish reaches the undefined `publish`, then the handler reaches `statsd`
        return Raise;
      }
      return Ok(());
    }
  }

  /** The loop of `process` over the fetched items. */
  method PublishItems(world: World, template: string, transform: Json -> Result<Json>, items: seq<Json>) returns (r: Result<()>)
    modifies world
    ensures (r, world.State()) == PublishFrom(world, template, transform, items, old(world.State()))
  {
    ghost var spec := PublishFrom(world, template, transform, items, world.State());
    var i := 0;
    while i < |items|
      invariant 0 <= i <= |items|
      invariant PublishFrom(world, template, transform, items[i..], world.State()) == spec
    {
      assert items[i..][1..] == items[i + 1..];
      var transformed := transform(items[i]);
      if transformed.Raise? {
        return Raise;
      }
      var topic := TopicOf(template, transformed.value);
      if topic.Raise? {
        return Raise;
      }
      var accepted := world.Publish(JsonMessage(topic.value, transformed.value));
      if !accepted {
        return Raise;
      }
      i := i + 1;
    }
    return Ok(());
  }

  /** The outer loop of fetch: over the feed's keys. */
  method MergeRounds(data: Json, keys: seq<Json>) returns (r: Result<seq<Slot>>)
    ensures r == RoundsFrom(data, keys, [])
  {
    var ps: seq<Slot> := [];
    var i := 0;
    while i < |keys|
      invariant 0 <= i <= |keys|
      invariant RoundsFrom(data, keys[i..], ps) == RoundsFrom(data, keys, [])
    {
      assert keys[i..][1..] == keys[i + 1..];
      var key := keys[i];
      if !key.JStr? {
        return Raise;
      }
      if StartsWith(key.s, "round") {
        var roundData := Index(data, key.s);
        if roundData.Raise? {
          return Raise;
        }
        var groups := Index(roundData.value, "groups");
        if groups.Raise? {
          return Raise;
        }
        var gs := Iterate(groups.value);
        if gs.Raise? {
          return Raise;
        }
        var merged := MergeGroups(RoundLabel(key.s), gs.value, ps);
        if merged.Raise? {
          return Raise;
        }
        ps := merged.value;
      }
      i := i + 1;
    }
    return Ok(ps);
  }

  /** The middle loop of fetch: over one round's groups. */
  method MergeGroups(round: string, groups: seq<Json>, ps0: seq<Slot>) returns (r: Result<seq<Slot>>)
    ensures r == GroupsFrom(round, groups, ps0)
  {
    var ps := ps0;
    var i := 0;
    while i < |groups|
      invariant 0 <= i <= |groups|
      invariant GroupsFrom(round, groups[i..], ps) == GroupsFrom(round, groups, ps0)
    {
      assert groups[i..][1..] == groups[i + 1..];
      var group := groups[i];
      if !group.JObj? {
        return Raise;
      }
      var g := GroupInfo(Find(group.fields, "teetime").GetOr(JNull), Find(group.fields, "number").GetOr(JNull),
                         Find(group.fields, "tee").GetOr(JNull));
      var players := Iterate(Find(group.fields, "players").GetOr(JArr([])));
      if players.Raise? {
        return Raise;
      }
      var merged := MergePlayers(round, g, players.value, ps);
      if merged.Raise? {
        return Raise;
      }
      ps := merged.value;
      i := i + 1;
    }
    return Ok(ps);
  }

  /** The inner loop of fetch: over one group's players. */
  method MergePlayers(round: string, g: GroupInfo, players: seq<Json>, ps0: seq<Slot>) returns (r: Result<seq<Slot>>)
    ensures r == PlayersFrom(round, g, players, ps0)
  {
    var ps := ps0;
    var i := 0;
    while i < |players|
      invariant 0 <= i <= |players|
      invariant PlayersFrom(round, g, players[i..], ps) == PlayersFrom(round, g, players, ps0)
    {
      assert players[i..][1..] == players[i + 1..];
      var player := players[i];
      if !player.JObj? {
        return Raise;
      }
      var id := Find(player.fields, "id").GetOr(JNull);
      var order := Find(player.fields, "order").GetOr(JNull);
      if !Hashable(id) {
        return Raise;
      }
      ps := Upsert(ps, id, round, TeeEntry(g.teetime, g.groupId, g.tee, order));
      i := i + 1;
    }
    return Ok(ps);
  }

  // ---------------------------------------------------------------------------------------
  // entrilist.py

  const EntrylistUrl := "https://www.masters.com/en_US/cms/feeds/players/2025/players.json"
  /** "masters.Entrylist*2025.{player_id}" */
  const EntrylistTopicHead := "masters.Entrylist*2025."
  const EntrylistTopic := EntrylistTopicHead + PlayerIdHole

  /** The legacy entrylist transform: a plain rename with .get, nothing trimmed, filtered or
      coerced; `amateur` defaults to False. */
  function EntryTransform(player: Json): (r: Result<Json>)
    ensures r.Ok? <==> player.JObj?
  {
    match player
    case JObj(f) =>
      Ok(JObj([("player_id", Find(f, "id").GetOr(JNull)), ("name", Find(f, "name").GetOr(JNull)),
               ("country_code", Find(f, "countryCode").GetOr(JNull)),
               ("is_amateur", Find(f, "amateur").GetOr(JBool(false)))]))
    case _ => Raise
  }

  /** The transformed dict has exactly the four renamed keys, each holding the player's raw
      value (None when missing, False for a missing `amateur`). */
  lemma EntryTransformFields(player: Json)
    requires player.JObj?
    ensures var t := EntryTransform(player).value;
      t.JObj? && KeysOf(t.fields) == ["player_id", "name", "country_code", "is_amateur"]
      && Get(t, "player_id", JNull) == Get(player, "id", JNull)
      && Get(t, "name", JNull) == Get(player, "name", JNull)
      && Get(t, "country_code", JNull) == Get(player, "countryCode", JNull)
      && Get(t, "is_amateur", JNull) == Get(player, "amateur", JBool(false))
  {
    var p := player.fields;
    var f := [("player_id", Find(p, "id").GetOr(JNull)), ("name", Find(p, "name").GetOr(JNull)),
              ("country_code", Find(p, "countryCode").GetOr(JNull)),
              ("is_amateur", Find(p, "amateur").GetOr(JBool(false)))];
    assert EntryTransform(player) == Ok(JObj(f));
    RenamedKeys(f);
    RenamedLookups(f);
  }

  lemma RenamedKeys(f: seq<(string, Json)>)
    requires |f| == 4 && f[0].0 == "player_id" && f[1].0 == "name" && f[2].0 == "country_code" && f[3].0 == "is_amateur"
    ensures KeysOf(f) == ["player_id", "name", "country_code", "is_amateur"]
  {
    assert KeysOf(f[3..]) == ["is_amateur"];
    assert KeysOf(f[2..]) == ["country_code"] + KeysOf(f[3..]);
    assert KeysOf(f[1..]) == ["name"] + KeysOf(f[2..]);
  }

  lemma RenamedLookups(f: seq<(string, Json)>)
    requires |f| == 4 && f[0].0 == "player_id" && f[1].0 == "name" && f[2].0 == "country_code" && f[3].0 == "is_amateur"
    ensures Find(f, "player_id") == Some(f[0].1) && Find(f, "name") == Some(f[1].1)
    ensures Find(f, "country_code") == Some(f[2].1) && Find(f, "is_amateur") == Some(f[3].1)
  {
    assert Find(f[3..], "is_amateur") == Some(f[3].1);
    assert Find(f[2..], "is_amateur") == Find(f[3..], "is_amateur");
    assert Find(f[2..], "country_code") == Some(f[2].1);
  }

  lemma EntrylistHeadBraceFree()
    ensures NoBraces(EntrylistTopicHead)
  {
  }

  /** Every player dict is sendable, on the entrylist topic of its raw id: a player without
      an id goes out on "masters.Entrylist*2025.None". */
  lemma EntryTopicOf(player: Json)
    requires player.JObj?
    ensures Sendable(EntrylistTopic, EntryTransform, player)
    ensures TopicOf(EntrylistTopic, EntryTransform(player).value)
            == Ok(EntrylistTopicHead + Str(Find(player.fields, "id").GetOr(JNull)))
  {
    var t := EntryTransform(player).value;
    EntrylistHeadBraceFree();
    PlayerTopic(EntrylistTopicHead, t.fields);
  }
}
