/** DataProcessor: the feed normalisers. Each one walks a decoded feed document with nested
    for-loops and builds plain records; any exception inside is re-raised, so a batch either
    normalises completely or not at all.

    Every normaliser is a method whose loop mirrors the source and whose postcondition ties
    the result to a specification function; the lemmas below state what that function
    means (which entries are kept, in which order, which keys appear). */
module DataProcessors {
  import opened Py

  // ---------------------------------------------------------------------------------------
  // Loops as values: a for-loop whose body may raise, over a list, in two shapes.

  /** A loop that appends what each element contributes (nothing, or records) to a list. */
  function ConcatMap<T, U>(f: T -> Result<seq<U>>, xs: seq<T>): Result<seq<U>>
    decreases |xs|
  {
    if xs == [] then Ok([])
    else
      var a :- ConcatMap(f, xs[..|xs| - 1]);
      var b :- f(xs[|xs| - 1]);
      Ok(a + b)
  }

  lemma ConcatMapSnoc<T, U>(f: T -> Result<seq<U>>, xs: seq<T>, x: T)
    ensures ConcatMap(f, xs + [x])
            == match ConcatMap(f, xs)
               case Raise => Raise
               case Ok(a) => (match f(x) case Raise => Raise case Ok(b) => Ok(a + b))
  {
    assert (xs + [x])[..|xs|] == xs;
  }

  /** One more iteration of the loop over `xs`. */
  lemma ConcatMapNext<T, U>(f: T -> Result<seq<U>>, xs: seq<T>, i: nat)
    requires i < |xs|
    ensures ConcatMap(f, xs[..i + 1])
            == match ConcatMap(f, xs[..i])
               case Raise => Raise
               case Ok(a) => (match f(xs[i]) case Raise => Raise case Ok(b) => Ok(a + b))
  {
    assert xs[..i + 1] == xs[..i] + [xs[i]];
    ConcatMapSnoc(f, xs[..i], xs[i]);
  }

  /** One more element handled without error. */
  lemma ConcatMapOk<T, U>(f: T -> Result<seq<U>>, xs: seq<T>, i: nat, a: seq<U>, b: seq<U>)
    requires i < |xs| && ConcatMap(f, xs[..i]) == Ok(a) && f(xs[i]) == Ok(b)
    ensures ConcatMap(f, xs[..i + 1]) == Ok(a + b)
  {
    ConcatMapNext(f, xs, i);
  }

  /** An element that raises ends the whole loop with the error. */
  lemma ConcatMapStops<T, U>(f: T -> Result<seq<U>>, xs: seq<T>, i: nat)
    requires i < |xs| && ConcatMap(f, xs[..i]).Ok? && f(xs[i]).Raise?
    ensures ConcatMap(f, xs).Raise?
  {
    ConcatMapNext(f, xs, i);
    ConcatMapRaise(f, xs, i + 1);
  }

  /** Once the loop has raised on a prefix, the whole loop raises. */
  lemma {:induction false} ConcatMapRaise<T, U>(f: T -> Result<seq<U>>, xs: seq<T>, i: nat)
    requires i <= |xs| && ConcatMap(f, xs[..i]).Raise?
    ensures ConcatMap(f, xs).Raise?
    decreases |xs| - i
  {
    if i < |xs| {
      ConcatMapSnoc(f, xs[..i], xs[i]);
      assert xs[..i + 1] == xs[..i] + [xs[i]];
      ConcatMapRaise(f, xs, i + 1);
    } else {
      assert xs[..i] == xs;
    }
  }

  /** A loop that updates one state with each element. */
  function Fold<S, T>(f: (S, T) -> Result<S>, s0: S, xs: seq<T>): Result<S>
    decreases |xs|
  {
    if xs == [] then Ok(s0)
    else
      var s :- Fold(f, s0, xs[..|xs| - 1]);
      f(s, xs[|xs| - 1])
  }

  lemma FoldSnoc<S, T>(f: (S, T) -> Result<S>, s0: S, xs: seq<T>, x: T)
    ensures Fold(f, s0, xs + [x])
            == match Fold(f, s0, xs) case Raise => Raise case Ok(s) => f(s, x)
  {
    assert (xs + [x])[..|xs|] == xs;
  }

  /** One more iteration of the loop over `xs`. */
  lemma FoldNext<S, T>(f: (S, T) -> Result<S>, s0: S, xs: seq<T>, i: nat)
    requires i < |xs|
    ensures Fold(f, s0, xs[..i + 1]) == match Fold(f, s0, xs[..i]) case Raise => Raise case Ok(s) => f(s, xs[i])
  {
    assert xs[..i + 1] == xs[..i] + [xs[i]];
    FoldSnoc(f, s0, xs[..i], xs[i]);
  }

  lemma {:induction false} FoldRaise<S, T>(f: (S, T) -> Result<S>, s0: S, xs: seq<T>, i: nat)
    requires i <= |xs| && Fold(f, s0, xs[..i]).Raise?
    ensures Fold(f, s0, xs).Raise?
    decreases |xs| - i
  {
    if i < |xs| {
      FoldSnoc(f, s0, xs[..i], xs[i]);
      assert xs[..i + 1] == xs[..i] + [xs[i]];
      FoldRaise(f, s0, xs, i + 1);
    } else {
      assert xs[..i] == xs;
    }
  }

  /** A property every step preserves holds of what the loop ends with. */
  lemma {:induction false} FoldInvariant<S(!new), T(!new)>(f: (S, T) -> Result<S>, inv: S -> bool, s0: S, xs: seq<T>)
    requires inv(s0)
    requires forall s, x :: inv(s) && f(s, x).Ok? ==> inv(f(s, x).value)
    ensures Fold(f, s0, xs).Ok? ==> inv(Fold(f, s0, xs).value)
    decreases |xs|
  {
    if xs != [] {
      FoldInvariant(f, inv, s0, xs[..|xs| - 1]);
    }
  }

  /** The body of a loop that stores what each element gives under its key: `d[k] = v`. */
  function PutStep<T, V>(entry: T -> Result<(string, V)>): (seq<(string, V)>, T) -> Result<seq<(string, V)>> {
    (d: seq<(string, V)>, x: T) =>
      match entry(x)
      case Raise => Raise
      case Ok(kv) => Ok(Put(d, kv.0, kv.1))
  }

  /** The keys the elements give, in order; an element that raises gives none. */
  function EntryKeys<T, V>(entry: T -> Result<(string, V)>, xs: seq<T>): (ks: seq<string>)
    ensures (forall i :: 0 <= i < |xs| ==> entry(xs[i]).Ok?) ==>
      |ks| == |xs| && forall i :: 0 <= i < |xs| ==> ks[i] == entry(xs[i]).value.0
    decreases |xs|
  {
    if xs == [] then []
    else
      EntryKeys(entry, xs[..|xs| - 1])
      + match entry(xs[|xs| - 1]) case Raise => [] case Ok(kv) => [kv.0]
  }

  /** What the last element giving key `k` gives under it. */
  function LastEntry<T, V>(entry: T -> Result<(string, V)>, xs: seq<T>, k: string): (r: Option<V>)
    ensures r.None? <==> k !in EntryKeys(entry, xs)
    ensures r.Some? ==> exists i :: 0 <= i < |xs| && entry(xs[i]) == Ok((k, r.value))
    decreases |xs|
  {
    if xs == [] then None
    else
      var init := xs[..|xs| - 1];
      assert forall i :: 0 <= i < |init| ==> init[i] == xs[i];
      match entry(xs[|xs| - 1])
      case Ok(kv) => if kv.0 == k then Some(kv.1) else LastEntry(entry, init, k)
      case Raise => LastEntry(entry, init, k)
  }

  /** The loop storing each element's entry succeeds exactly when every element gives one.
      Its keys are the starting keys followed by the new keys in order of first appearance,
      and each key holds what the last element giving it gave, or else its starting value. */
  lemma PutLoop<T, V>(entry: T -> Result<(string, V)>, s0: seq<(string, V)>, xs: seq<T>)
    requires Dedup(KeysOf(s0)) == KeysOf(s0)
    ensures Fold(PutStep(entry), s0, xs).Ok? <==> forall i :: 0 <= i < |xs| ==> entry(xs[i]).Ok?
    ensures Fold(PutStep(entry), s0, xs).Ok? ==>
      var d := Fold(PutStep(entry), s0, xs).value;
      KeysOf(d) == Dedup(KeysOf(s0) + EntryKeys(entry, xs))
      && forall k :: Find(d, k) == if LastEntry(entry, xs, k).Some? then LastEntry(entry, xs, k) else Find(s0, k)
  {
    PutLoopOk(entry, s0, xs);
    PutLoopKeys(entry, s0, xs);
    PutLoopFind(entry, s0, xs);
  }

  lemma {:induction false} PutLoopOk<T, V>(entry: T -> Result<(string, V)>, s0: seq<(string, V)>, xs: seq<T>)
    ensures Fold(PutStep(entry), s0, xs).Ok? <==> forall i :: 0 <= i < |xs| ==> entry(xs[i]).Ok?
    decreases |xs|
  {
    if xs != [] {
      var init := xs[..|xs| - 1];
      PutLoopOk(entry, s0, init);
      assert forall i :: 0 <= i < |init| ==> init[i] == xs[i];
    }
  }

  lemma {:induction false} PutLoopKeys<T, V>(entry: T -> Result<(string, V)>, s0: seq<(string, V)>, xs: seq<T>)
    requires Dedup(KeysOf(s0)) == KeysOf(s0)
    ensures Fold(PutStep(entry), s0, xs).Ok? ==>
      KeysOf(Fold(PutStep(entry), s0, xs).value) == Dedup(KeysOf(s0) + EntryKeys(entry, xs))
    decreases |xs|
  {
    if xs == [] {
      assert KeysOf(s0) + EntryKeys(entry, xs) == KeysOf(s0);
    } else {
      var init := xs[..|xs| - 1];
      var x := xs[|xs| - 1];
      PutLoopKeys(entry, s0, init);
      if Fold(PutStep(entry), s0, init).Ok? && entry(x).Ok? {
        var d := Fold(PutStep(entry), s0, init).value;
        var kv := entry(x).value;
        PutSpec(d, kv.0, kv.1);
        var ks := KeysOf(s0) + EntryKeys(entry, init);
        assert KeysOf(s0) + EntryKeys(entry, xs) == ks + [kv.0];
        assert (ks + [kv.0])[..|ks|] == ks;
        DedupSpec(ks);
      }
    }
  }

  lemma {:induction false} PutLoopFind<T, V>(entry: T -> Result<(string, V)>, s0: seq<(string, V)>, xs: seq<T>)
    ensures Fold(PutStep(entry), s0, xs).Ok? ==>
      forall k :: Find(Fold(PutStep(entry), s0, xs).value, k)
                  == if LastEntry(entry, xs, k).Some? then LastEntry(entry, xs, k) else Find(s0, k)
    decreases |xs|
  {
    if xs != [] {
      var init := xs[..|xs| - 1];
      var x := xs[|xs| - 1];
      PutLoopFind(entry, s0, init);
      if Fold(PutStep(entry), s0, init).Ok? && entry(x).Ok? {
        var d := Fold(PutStep(entry), s0, init).value;
        PutSpec(d, entry(x).value.0, entry(x).value.1);
      }
    }
  }

  // ---------------------------------------------------------------------------------------
  // Player ids

  /** `str(player.get("id", "")).strip()`; raises when the entry is not a dict. */
  function TrimmedId(item: Json): (r: Result<string>)
    ensures r.Ok? <==> item.JObj?
  {
    var id :- Get(item, "id", JStr(""));
    Ok(Strip(Str(id)))
  }

  /** The id of a dict entry. */
  function IdOf(item: Json): string
    requires item.JObj?
  {
    TrimmedId(item).value
  }

  /** An entry the normalisers keep: a dict with a non-blank id. */
  predicate HasId(item: Json) {
    item.JObj? && IdOf(item) != ""
  }

  /** A dict entry is skipped exactly when it has no id, or its id is a string of
      whitespace; ids of any other type (None, numbers, lists) are kept as their str(). */
  lemma SkippedEntries(item: Json)
    requires item.JObj?
    ensures !HasId(item) <==>
      match Find(item.fields, "id")
      case None => true
      case Some(id) => id.JStr? && AllSpace(id.s)
  {
    var v := Find(item.fields, "id").GetOr(JStr(""));
    assert IdOf(item) == Strip(Str(v));
    BlankId(v);
    assert AllSpace("");
  }

  predicate AllObjects(items: seq<Json>) {
    forall i :: 0 <= i < |items| ==> items[i].JObj?
  }

  /** The elements of `items` that pass `keep`, in order. */
  function Filter(keep: Json -> bool, items: seq<Json>): (ks: seq<Json>)
    ensures forall k :: 0 <= k < |ks| ==> keep(ks[k])
    decreases |items|
  {
    if items == [] then []
    else Filter(keep, items[..|items| - 1]) + (if keep(items[|items| - 1]) then [items[|items| - 1]] else [])
  }

  /** Filter keeps exactly the elements that pass. */
  lemma {:induction false} FilterMembers(keep: Json -> bool, items: seq<Json>)
    ensures forall x :: x in Filter(keep, items) <==> x in items && keep(x)
    decreases |items|
  {
    if items != [] {
      var init := items[..|items| - 1];
      FilterMembers(keep, init);
      assert items == init + [items[|items| - 1]];
    }
  }

  /** The entries the normalisers keep, in input order. */
  function Kept(items: seq<Json>): seq<Json> {
    Filter(HasId, items)
  }

  /** A loop body that raises on anything but a dict and emits nothing for a dict it does
      not keep: the loop over all entries is the loop over the kept ones, unless some entry
      is not a dict. */
  lemma {:induction false} SkipLoop<U>(f: Json -> Result<seq<U>>, keep: Json -> bool, items: seq<Json>)
    requires forall x: Json :: !x.JObj? ==> f(x) == Raise
    requires forall x: Json :: x.JObj? && !keep(x) ==> f(x) == Ok([])
    ensures ConcatMap(f, items) == if AllObjects(items) then ConcatMap(f, Filter(keep, items)) else Raise
    decreases |items|
  {
    if items != [] {
      var init := items[..|items| - 1];
      var x := items[|items| - 1];
      SkipLoop(f, keep, init);
      assert items == init + [x];
      ConcatMapSnoc(f, init, x);
      assert AllObjects(items) <==> AllObjects(init) && x.JObj? by {
        assert forall i :: 0 <= i < |init| ==> init[i] == items[i];
      }
      if AllObjects(items) && keep(x) {
        ConcatMapSnoc(f, Filter(keep, init), x);
      } else if AllObjects(items) {
        assert Filter(keep, items) == Filter(keep, init);
        if ConcatMap(f, init).Ok? {
          assert ConcatMap(f, init).value + [] == ConcatMap(f, init).value;
        }
      }
    }
  }

  /** A loop body that emits exactly one record per entry: the loop succeeds when every
      body does, and then emits their records in order. */
  lemma {:induction false} OneEach<U>(f: Json -> Result<seq<U>>, ks: seq<Json>)
    requires forall k :: 0 <= k < |ks| && f(ks[k]).Ok? ==> |f(ks[k]).value| == 1
    ensures ConcatMap(f, ks).Ok? <==> forall k :: 0 <= k < |ks| ==> f(ks[k]).Ok?
    ensures ConcatMap(f, ks).Ok? ==>
      |ConcatMap(f, ks).value| == |ks|
      && forall k :: 0 <= k < |ks| ==> ConcatMap(f, ks).value[k] == f(ks[k]).value[0]
    decreases |ks|
  {
    if ks != [] {
      var init := ks[..|ks| - 1];
      OneEach(f, init);
      assert forall k :: 0 <= k < |init| ==> init[k] == ks[k];
    }
  }

  /** What every step emits for the elements it is applied to, the whole loop emits. */
  lemma {:induction false} ConcatMapAll<T, U>(f: T -> Result<seq<U>>, xs: seq<T>, p: U -> bool)
    requires forall i :: 0 <= i < |xs| && f(xs[i]).Ok? ==> forall u :: u in f(xs[i]).value ==> p(u)
    ensures ConcatMap(f, xs).Ok? ==> forall u :: u in ConcatMap(f, xs).value ==> p(u)
    decreases |xs|
  {
    if xs != [] {
      var init := xs[..|xs| - 1];
      assert forall i :: 0 <= i < |init| ==> init[i] == xs[i];
      ConcatMapAll(f, init, p);
    }
  }

  // ---------------------------------------------------------------------------------------
  // process_entrylist

  datatype PlayerRecord = PlayerRecord(playerId: string, name: Json, countryCode: Json, isAmateur: bool) {
    function ToJson(): Json {
      JObj([("player_id", JStr(playerId)), ("name", name), ("country_code", countryCode),
            ("is_amateur", JBool(isAmateur))])
    }
  }

  /** The record for a feed entry with a non-blank id: name and country code default to "",
      the amateur flag to False and is read with bool(). */
  function EntryRecord(pid: string, item: Json): PlayerRecord
    requires item.JObj?
  {
    PlayerRecord(pid,
                 Find(item.fields, "name").GetOr(JStr("")),
                 Find(item.fields, "countryCode").GetOr(JStr("")),
                 Truthy(Find(item.fields, "amateur").GetOr(JBool(false))))
  }

  /** The loop body for one feed entry: raise on a non-dict, skip a blank id, else emit
      the entry's record. */
  function EntryStep(item: Json): Result<seq<PlayerRecord>> {
    match TrimmedId(item)
    case Raise => Raise
    case Ok(pid) => if pid == "" then Ok([]) else Ok([EntryRecord(pid, item)])
  }

  /** `v.get(key, [])` iterated by a for-loop; raises when `v` is not a dict or the value is
      not iterable. */
  function Listed(v: Json, key: string): Result<seq<Json>> {
    match Get(v, key, JArr([]))
    case Raise => Raise
    case Ok(x) => Iterate(x)
  }

  function Entrylist(raw: Json): Result<seq<PlayerRecord>> {
    match Listed(raw, "players")
    case Raise => Raise
    case Ok(items) => ConcatMap(EntryStep, items)
  }

  /** process_entrylist succeeds exactly when the document is a dict whose players are all
      dicts, and then returns one record per entry with a non-blank id, in input order,
      carrying the trimmed id. */
  lemma EntrylistSpec(raw: Json)
    ensures Entrylist(raw).Ok? <==> Listed(raw, "players").Ok? && AllObjects(Listed(raw, "players").value)
    ensures Entrylist(raw).Ok? ==>
      var kept := Kept(Listed(raw, "players").value);
      var out := Entrylist(raw).value;
      |out| == |kept|
      && forall k :: 0 <= k < |kept| ==>
           out[k].playerId == IdOf(kept[k]) && out[k].playerId != ""
           && out[k].name == Find(kept[k].fields, "name").GetOr(JStr(""))
           && out[k].countryCode == Find(kept[k].fields, "countryCode").GetOr(JStr(""))
           && out[k].isAmateur == Truthy(Find(kept[k].fields, "amateur").GetOr(JBool(false)))
  {
    if Listed(raw, "players").Ok? {
      var items := Listed(raw, "players").value;
      SkipLoop(EntryStep, HasId, items);
      OneEach(EntryStep, Kept(items));
    }
  }

  method ProcessEntrylist(raw: Json) returns (r: Result<seq<PlayerRecord>>)
    ensures r == Entrylist(raw)
  {
    var players := Listed(raw, "players");
    if players.Raise? {
      return Raise;
    }
    var items := players.value;
    var processed: seq<PlayerRecord> := [];
    var i := 0;
    while i < |items|
      invariant i <= |items|
      invariant ConcatMap(EntryStep, items[..i]) == Ok(processed)
    {
      var player := items[i];
      var pid := TrimmedId(player);
      if pid.Raise? {
        ConcatMapStops(EntryStep, items, i);
        return Raise;
      }
      if pid.value != "" {
        ConcatMapOk(EntryStep, items, i, processed, [EntryRecord(pid.value, player)]);
        processed := processed + [EntryRecord(pid.value, player)];
      } else {
        ConcatMapOk(EntryStep, items, i, processed, []);
        assert processed + [] == processed;
      }
      i := i + 1;
    }
    assert items[..i] == items;
    return Ok(processed);
  }

  // ---------------------------------------------------------------------------------------
  // process_teetimes

  /** The rounds of the tournament, in the order the pairings are read. */
  const Rounds: seq<string> := ["1", "2", "3", "4"]

  datatype TeeTime = TeeTime(time: Json, groupId: string, startingHole: int, order: int) {
    function ToJson(): Json {
      JObj([("time", time), ("group_id", JStr(groupId)), ("starting_hole", JInt(startingHole)),
            ("order_of_play_within_group", JInt(order))])
    }
  }

  function TeeTimesJson(d: seq<(string, TeeTime)>): (r: seq<(string, Json)>)
    ensures KeysOf(r) == KeysOf(d)
  {
    if d == [] then [] else [(d[0].0, d[0].1.ToJson())] + TeeTimesJson(d[1..])
  }

  /** A player with their tee times, keyed by round number in the order first assigned. */
  datatype TeeRecord = TeeRecord(playerId: string, teetimes: seq<(string, TeeTime)>) {
    function ToJson(): Json {
      JObj([("player_id", JStr(playerId)), ("teetimes", JObj(TeeTimesJson(teetimes)))])
    }
  }

  /** One player's appearance in one round's pairings. */
  datatype Sighting = Sighting(round: string, playerId: string, teeTime: TeeTime)

  /** The tee time a group gives one of its players: the group's time as given (default ""),
      str() of its number (default ""), int() of its starting tee (default 1) and int() of
      the player's order within the group (default 1). */
  function TeeTimeOf(group: Json, player: Json): Result<TeeTime>
    requires group.JObj? && player.JObj?
  {
    match ToInt(Find(group.fields, "tee").GetOr(JInt(1)))
    case Raise => Raise
    case Ok(tee) =>
      match ToInt(Find(player.fields, "order").GetOr(JInt(1)))
      case Raise => Raise
      case Ok(order) =>
        Ok(TeeTime(Find(group.fields, "teetime").GetOr(JStr("")),
                   Str(Find(group.fields, "number").GetOr(JStr(""))), tee, order))
  }

  /** The innermost loop body: a player of a group in a round is seen unless their id is
      blank. */
  function PlayerSighting(roundNum: string, group: Json, player: Json): Result<seq<Sighting>> {
    if !group.JObj? then Raise
    else
      match TrimmedId(player)
      case Raise => Raise
      case Ok(pid) =>
        if pid == "" then Ok([])
        else
          match TeeTimeOf(group, player)
          case Raise => Raise
          case Ok(t) => Ok([Sighting(roundNum, pid, t)])
  }

  function PlayerSighter(roundNum: string, group: Json): Json -> Result<seq<Sighting>> {
    player => PlayerSighting(roundNum, group, player)
  }

  /** The players of one group, in order. */
  function GroupSightings(roundNum: string, group: Json): Result<seq<Sighting>> {
    match Listed(group, "players")
    case Raise => Raise
    case Ok(players) => ConcatMap(PlayerSighter(roundNum, group), players)
  }

  function GroupSighter(roundNum: string): Json -> Result<seq<Sighting>> {
    group => GroupSightings(roundNum, group)
  }

  /** The groups of one round, in order; nothing when the document has no such round. */
  function RoundSightings(raw: Json, roundNum: string): Result<seq<Sighting>> {
    var roundKey := "round" + roundNum;
    match Contains(raw, roundKey)
    case Raise => Raise
    case Ok(present) =>
      if !present then Ok([])
      else
        match Index(raw, roundKey)
        case Raise => Raise
        case Ok(roundData) =>
          match Listed(roundData, "groups")
          case Raise => Raise
          case Ok(groups) => ConcatMap(GroupSighter(roundNum), groups)
  }

  function RoundSighter(raw: Json): string -> Result<seq<Sighting>> {
    roundNum => RoundSightings(raw, roundNum)
  }

  /** Every appearance in the pairings, round by round, group by group. */
  function Sightings(raw: Json): Result<seq<Sighting>> {
    ConcatMap(RoundSighter(raw), Rounds)
  }

  /** The position of the player's record: the first with that id. */
  function IndexOfPlayer(ps: seq<TeeRecord>, pid: string): (r: Option<nat>)
    ensures r.Some? ==> r.value < |ps| && ps[r.value].playerId == pid
                        && forall j :: 0 <= j < r.value ==> ps[j].playerId != pid
    ensures r.None? ==> forall j :: 0 <= j < |ps| ==> ps[j].playerId != pid
  {
    if ps == [] then None
    else if ps[0].playerId == pid then Some(0)
    else match IndexOfPlayer(ps[1..], pid) case None => None case Some(k) => Some(k + 1)
  }

  /** Record one appearance: find the player's record or append an empty one, then set the
      tee time of the round. */
  function AddSighting(ps: seq<TeeRecord>, s: Sighting): seq<TeeRecord> {
    var found := IndexOfPlayer(ps, s.playerId);
    var withPlayer := if found.Some? then ps else ps + [TeeRecord(s.playerId, [])];
    var k := if found.Some? then found.value else |ps|;
    withPlayer[k := withPlayer[k].(teetimes := Put(withPlayer[k].teetimes, s.round, s.teeTime))]
  }

  function MergeInto(ps: seq<TeeRecord>, ss: seq<Sighting>): seq<TeeRecord>
    decreases |ss|
  {
    if ss == [] then ps else AddSighting(MergeInto(ps, ss[..|ss| - 1]), ss[|ss| - 1])
  }

  lemma MergeNext(ps: seq<TeeRecord>, ss: seq<Sighting>, s: Sighting)
    ensures MergeInto(ps, ss + [s]) == AddSighting(MergeInto(ps, ss), s)
  {
    assert (ss + [s])[..|ss|] == ss;
  }

  lemma {:induction false} MergeAppend(ps: seq<TeeRecord>, a: seq<Sighting>, b: seq<Sighting>)
    ensures MergeInto(ps, a + b) == MergeInto(MergeInto(ps, a), b)
    decreases |b|
  {
    if b == [] {
      assert a + b == a;
    } else {
      var init := b[..|b| - 1];
      var last := b[|b| - 1];
      assert a + b == (a + init) + [last];
      assert b == init + [last];
      MergeAppend(ps, a, init);
      MergeNext(ps, a + init, last);
      MergeNext(MergeInto(ps, a), init, last);
    }
  }

  /** The records after merging the outcome of a loop into `ps`. */
  function Merged(ss: Result<seq<Sighting>>, ps: seq<TeeRecord>): Result<seq<TeeRecord>> {
    match ss
    case Raise => Raise
    case Ok(s) => Ok(MergeInto(ps, s))
  }

  function Teetimes(raw: Json): Result<seq<TeeRecord>> {
    Merged(Sightings(raw), [])
  }

  /** Find the player's record or append an empty one, then set the round's tee time. */
  method AddTeeTime(processed: seq<TeeRecord>, s: Sighting) returns (r: seq<TeeRecord>)
    ensures r == AddSighting(processed, s)
  {
    var existing := IndexOfPlayer(processed, s.playerId);
    var k := if existing.Some? then existing.value else |processed|;
    r := if existing.Some? then processed else processed + [TeeRecord(s.playerId, [])];
    r := r[k := r[k].(teetimes := Put(r[k].teetimes, s.round, s.teeTime))];
  }

  /** The loop over the players of one group. */
  method MergeGroup(roundNum: string, group: Json, ps: seq<TeeRecord>) returns (r: Result<seq<TeeRecord>>)
    ensures r == Merged(GroupSightings(roundNum, group), ps)
  {
    var playersValue := Get(group, "players", JArr([]));
    if playersValue.Raise? {
      return Raise;
    }
    var players := Iterate(playersValue.value);
    if players.Raise? {
      return Raise;
    }
    var items := players.value;
    var processed := ps;
    ghost var seen: seq<Sighting> := [];
    var i := 0;
    while i < |items|
      invariant i <= |items|
      invariant ConcatMap(PlayerSighter(roundNum, group), items[..i]) == Ok(seen)
      invariant processed == MergeInto(ps, seen)
    {
      var player := items[i];
      ConcatMapNext(PlayerSighter(roundNum, group), items, i);
      var pid := TrimmedId(player);
      if pid.Raise? {
        ConcatMapRaise(PlayerSighter(roundNum, group), items, i + 1);
        return Raise;
      }
      if pid.value != "" {
        var teeTime := TeeTimeOf(group, player);
        if teeTime.Raise? {
          ConcatMapRaise(PlayerSighter(roundNum, group), items, i + 1);
          return Raise;
        }
        var sighting := Sighting(roundNum, pid.value, teeTime.value);
        processed := AddTeeTime(processed, sighting);
        MergeNext(ps, seen, sighting);
        seen := seen + [sighting];
      } else {
        assert seen + [] == seen;
      }
      i := i + 1;
    }
    assert items[..i] == items;
    return Ok(processed);
  }

  /** One round: skipped when absent, else the loop over its groups. */
  method MergeRound(raw: Json, roundNum: string, ps: seq<TeeRecord>) returns (r: Result<seq<TeeRecord>>)
    ensures r == Merged(RoundSightings(raw, roundNum), ps)
  {
    var roundKey := "round" + roundNum;
    var present := Contains(raw, roundKey);
    if present.Raise? {
      return Raise;
    }
    if !present.value {
      return Ok(ps);
    }
    var roundData := Index(raw, roundKey);
    if roundData.Raise? {
      return Raise;
    }
    var groups := Listed(roundData.value, "groups");
    if groups.Raise? {
      return Raise;
    }
    var items := groups.value;
    var processed := ps;
    ghost var seen: seq<Sighting> := [];
    var i := 0;
    while i < |items|
      invariant i <= |items|
      invariant ConcatMap(GroupSighter(roundNum), items[..i]) == Ok(seen)
      invariant processed == MergeInto(ps, seen)
    {
      var group := items[i];
      ConcatMapNext(GroupSighter(roundNum), items, i);
      var merged := MergeGroup(roundNum, group, processed);
      if merged.Raise? {
        ConcatMapRaise(GroupSighter(roundNum), items, i + 1);
        return Raise;
      }
      ghost var added := GroupSightings(roundNum, group).value;
      MergeAppend(ps, seen, added);
      seen := seen + added;
      processed := merged.value;
      i := i + 1;
    }
    assert items[..i] == items;
    return Ok(processed);
  }

  method ProcessTeetimes(raw: Json) returns (r: Result<seq<TeeRecord>>)
    ensures r == Teetimes(raw)
  {
    var processed: seq<TeeRecord> := [];
    ghost var seen: seq<Sighting> := [];
    var i := 0;
    while i < |Rounds|
      invariant i <= |Rounds|
      invariant ConcatMap(RoundSighter(raw), Rounds[..i]) == Ok(seen)
      invariant processed == MergeInto([], seen)
    {
      var roundNum := Rounds[i];
      ConcatMapNext(RoundSighter(raw), Rounds, i);
      var merged := MergeRound(raw, roundNum, processed);
      if merged.Raise? {
        ConcatMapRaise(RoundSighter(raw), Rounds, i + 1);
        return Raise;
      }
      ghost var added := RoundSightings(raw, roundNum).value;
      MergeAppend([], seen, added);
      seen := seen + added;
      processed := merged.value;
      i := i + 1;
    }
    assert Rounds[..i] == Rounds;
    return Ok(processed);
  }

  // What process_teetimes returns

  /** The players of the merged records, in order */
  function Ids(ps: seq<TeeRecord>): seq<string> {
    MapSeq((p: TeeRecord) => p.playerId, ps)
  }

  /** The players of the sightings, in order */
  function SightedIds(ss: seq<Sighting>): seq<string> {
    MapSeq((s: Sighting) => s.playerId, ss)
  }

  /** The distinct elements of `xs` in order of first occurrence. */
  function Dedup(xs: seq<string>): seq<string>
    decreases |xs|
  {
    if xs == [] then []
    else
      var d := Dedup(xs[..|xs| - 1]);
      if xs[|xs| - 1] in d then d else d + [xs[|xs| - 1]]
  }

  predicate Distinct(xs: seq<string>) {
    forall i, j :: 0 <= i < j < |xs| ==> xs[i] != xs[j]
  }

  lemma {:induction false} DedupSpec(xs: seq<string>)
    ensures Distinct(Dedup(xs))
    ensures forall x :: x in Dedup(xs) <==> x in xs
    decreases |xs|
  {
    if xs != [] {
      var init := xs[..|xs| - 1];
      DedupSpec(init);
      assert xs == init + [xs[|xs| - 1]];
    }
  }

  /** Recording an appearance keeps the list of players, appending a player not yet seen. */
  lemma AddSightingIds(ps: seq<TeeRecord>, s: Sighting)
    ensures Ids(AddSighting(ps, s)) == if s.playerId in Ids(ps) then Ids(ps) else Ids(ps) + [s.playerId]
  {
    var found := IndexOfPlayer(ps, s.playerId);
    if found.Some? {
      assert s.playerId in Ids(ps) by { assert Ids(ps)[found.value] == s.playerId; }
    } else {
      assert s.playerId !in Ids(ps);
    }
  }

  /** process_teetimes lists each player once, in the order of their first appearance. */
  lemma {:induction false} MergeIds(ss: seq<Sighting>)
    ensures Ids(MergeInto([], ss)) == Dedup(SightedIds(ss))
    decreases |ss|
  {
    if ss != [] {
      var init := ss[..|ss| - 1];
      MergeIds(init);
      AddSightingIds(MergeInto([], init), ss[|ss| - 1]);
      assert SightedIds(ss)[..|ss| - 1] == SightedIds(init);
    }
  }

  /** The tee time of the player's last appearance in the round, if any. */
  function LastTee(ss: seq<Sighting>, pid: string, roundNum: string): Option<TeeTime>
    decreases |ss|
  {
    if ss == [] then None
    else
      var s := ss[|ss| - 1];
      if s.playerId == pid && s.round == roundNum then Some(s.teeTime)
      else LastTee(ss[..|ss| - 1], pid, roundNum)
  }

  /** A player has a tee time in a round exactly when they appear in that round. */
  lemma {:induction false} LastTeeAppears(ss: seq<Sighting>, pid: string, roundNum: string)
    ensures LastTee(ss, pid, roundNum).Some? ==> Sighting(roundNum, pid, LastTee(ss, pid, roundNum).value) in ss
    ensures (exists t :: Sighting(roundNum, pid, t) in ss) ==> LastTee(ss, pid, roundNum).Some?
    decreases |ss|
  {
    if ss != [] {
      var init := ss[..|ss| - 1];
      LastTeeAppears(init, pid, roundNum);
      assert ss == init + [ss[|ss| - 1]];
    }
  }

  /** A player with a tee time has a record. */
  lemma MergeCovers(ss: seq<Sighting>, pid: string, roundNum: string)
    ensures LastTee(ss, pid, roundNum).Some? ==> pid in Ids(MergeInto([], ss))
  {
    LastTeeAppears(ss, pid, roundNum);
    if LastTee(ss, pid, roundNum).Some? {
      var t := LastTee(ss, pid, roundNum).value;
      var i :| 0 <= i < |ss| && ss[i] == Sighting(roundNum, pid, t);
      assert SightedIds(ss)[i] == pid;
      MergeIds(ss);
      DedupSpec(SightedIds(ss));
    }
  }

  /** One appearance more: the tee time it records is the last one of its player in its
      round, and every other record is left as it was. */
  lemma AddSightingTee(m: seq<TeeRecord>, init: seq<Sighting>, s: Sighting, k: nat, roundNum: string)
    requires Distinct(Ids(m))
    requires forall j, r :: 0 <= j < |m| ==> Find(m[j].teetimes, r) == LastTee(init, m[j].playerId, r)
    requires LastTee(init, s.playerId, roundNum).Some? ==> s.playerId in Ids(m)
    requires k < |AddSighting(m, s)|
    ensures Find(AddSighting(m, s)[k].teetimes, roundNum) == LastTee(init + [s], AddSighting(m, s)[k].playerId, roundNum)
  {
    assert (init + [s])[..|init|] == init;
    var found := IndexOfPlayer(m, s.playerId);
    if found.Some? && k == found.value {
      PutSpec(m[k].teetimes, s.round, s.teeTime);
    } else if found.None? && k == |m| {
      PutSpec([], s.round, s.teeTime);
      assert s.playerId !in Ids(m);
    } else if found.Some? {
      assert Ids(m)[k] != Ids(m)[found.value];
    }
  }

  /** Each record holds, for every round, the tee time of the player's last appearance in
      that round's pairings, and nothing for a round they do not appear in. */
  lemma {:induction false} MergeTeeTimes(ss: seq<Sighting>)
    ensures forall k, roundNum :: 0 <= k < |MergeInto([], ss)| ==>
      Find(MergeInto([], ss)[k].teetimes, roundNum) == LastTee(ss, MergeInto([], ss)[k].playerId, roundNum)
    decreases |ss|
  {
    if ss != [] {
      var init := ss[..|ss| - 1];
      var s := ss[|ss| - 1];
      var m := MergeInto([], init);
      assert ss == init + [s];
      MergeTeeTimes(init);
      MergeIds(init);
      DedupSpec(SightedIds(init));
      forall k, roundNum | 0 <= k < |MergeInto([], ss)|
        ensures Find(MergeInto([], ss)[k].teetimes, roundNum) == LastTee(ss, MergeInto([], ss)[k].playerId, roundNum)
      {
        MergeCovers(init, s.playerId, roundNum);
        AddSightingTee(m, init, s, k, roundNum);
      }
    }
  }

  /** process_teetimes succeeds exactly when reading every round's pairings does. */
  lemma TeetimesOk(raw: Json)
    ensures Teetimes(raw).Ok? <==> Sightings(raw).Ok?
  {
  }

  lemma GroupSightingsFacts(roundNum: string, group: Json)
    ensures GroupSightings(roundNum, group).Ok? ==>
      forall s :: s in GroupSightings(roundNum, group).value ==> s.round == roundNum && s.playerId != ""
  {
    if Listed(group, "players").Ok? {
      ConcatMapAll(PlayerSighter(roundNum, group), Listed(group, "players").value,
                   (s: Sighting) => s.round == roundNum && s.playerId != "");
    }
  }

  lemma RoundSightingsFacts(raw: Json, roundNum: string)
    ensures RoundSightings(raw, roundNum).Ok? ==>
      forall s :: s in RoundSightings(raw, roundNum).value ==> s.round == roundNum && s.playerId != ""
  {
    var roundKey := "round" + roundNum;
    if Contains(raw, roundKey) == Ok(true) && Index(raw, roundKey).Ok?
       && Listed(Index(raw, roundKey).value, "groups").Ok? {
      var groups := Listed(Index(raw, roundKey).value, "groups").value;
      forall i | 0 <= i < |groups| {
        GroupSightingsFacts(roundNum, groups[i]);
      }
      ConcatMapAll(GroupSighter(roundNum), groups, (s: Sighting) => s.round == roundNum && s.playerId != "");
    }
  }

  /** Every appearance read from the pairings has a non-blank id and is in one of the four
      rounds. */
  lemma SightingsFacts(raw: Json)
    ensures Sightings(raw).Ok? ==>
      forall s :: s in Sightings(raw).value ==> s.round in Rounds && s.playerId != ""
  {
    forall i | 0 <= i < |Rounds| {
      RoundSightingsFacts(raw, Rounds[i]);
    }
    ConcatMapAll(RoundSighter(raw), Rounds, (s: Sighting) => s.round in Rounds && s.playerId != "");
  }

  /** What process_teetimes returns: one record per player appearing in the pairings, each
      once, in order of first appearance, with a non-blank id and a tee time for at least
      one round, keyed only by round numbers "1" to "4". */
  lemma TeetimesSpec(raw: Json)
    ensures Teetimes(raw).Ok? <==> Sightings(raw).Ok?
    ensures Teetimes(raw).Ok? ==>
      var ss := Sightings(raw).value;
      var out := Teetimes(raw).value;
      Ids(out) == Dedup(SightedIds(ss)) && Distinct(Ids(out))
      && forall k :: 0 <= k < |out| ==>
           out[k].playerId != "" && out[k].teetimes != []
           && forall r :: r in KeysOf(out[k].teetimes) ==> r in Rounds
  {
    if Sightings(raw).Ok? {
      var ss := Sightings(raw).value;
      var out := MergeInto([], ss);
      MergeIds(ss);
      DedupSpec(SightedIds(ss));
      SightingsFacts(raw);
      forall k | 0 <= k < |out|
        ensures out[k].playerId != "" && out[k].teetimes != []
        ensures forall r :: r in KeysOf(out[k].teetimes) ==> r in Rounds
      {
        MergedRecord(ss, k);
      }
    }
  }

  lemma MergedRecord(ss: seq<Sighting>, k: nat)
    requires forall s :: s in ss ==> s.round in Rounds && s.playerId != ""
    requires k < |MergeInto([], ss)|
    ensures MergeInto([], ss)[k].playerId != "" && MergeInto([], ss)[k].teetimes != []
    ensures forall r :: r in KeysOf(MergeInto([], ss)[k].teetimes) ==> r in Rounds
  {
    var out := MergeInto([], ss);
    MergeIds(ss);
    DedupSpec(SightedIds(ss));
    MergeTeeTimes(ss);
    var pid := out[k].playerId;
    assert pid in SightedIds(ss) by { assert Ids(out)[k] == pid; }
    var i :| 0 <= i < |ss| && SightedIds(ss)[i] == pid;
    LastTeeAppears(ss, pid, ss[i].round);
    assert ss[i] == Sighting(ss[i].round, pid, ss[i].teeTime);
    assert Find(out[k].teetimes, ss[i].round).Some?;
    forall r | r in KeysOf(out[k].teetimes) ensures r in Rounds {
      LastTeeAppears(ss, pid, r);
    }
  }

  // ---------------------------------------------------------------------------------------
  // process_leaderboard

  /** _process_position: a string is read as int(), after dropping a leading "T" that marks
      a tie; anything else goes through int(); whatever int() rejects is position 0. */
  function Position(v: Json): int {
    match v
    case JStr(s) =>
      var digits := if StartsWith(s, "T") then s[1..] else s;
      (match ParseInt(digits) case Some(n) => n case None => 0)
    case _ =>
      match ToInt(v) case Ok(n) => n case Raise => 0
  }

  /** _process_thru: "f" (finished) is hole 18; anything else goes through int(), and
      whatever int() rejects is 0. */
  function Thru(v: Json): int {
    if v == JStr("f") then 18
    else match ToInt(v) case Ok(n) => n case Raise => 0
  }

  /** Positions as the feed writes them are read back: "T" followed by a number is that
      number, as are a plain number string and a JSON integer. */
  lemma PositionRoundTrip(n: int)
    ensures Position(JStr("T" + IntToString(n))) == n
    ensures Position(JStr(IntToString(n))) == n
    ensures Position(JInt(n)) == n
  {
    IntRoundTrip(n);
    var s := IntToString(n);
    assert ("T" + s)[1..] == s;
    assert StartsWith("T" + s, "T");
    assert !StartsWith(s, "T") by {
      assert s[0] == '-' || IsDigit(s[0]);
    }
  }

  /** Holes completed: "f" is 18, a number string or an integer is itself. */
  lemma ThruRoundTrip(n: int)
    ensures Thru(JStr("f")) == 18
    ensures Thru(JStr(IntToString(n))) == n
    ensures Thru(JInt(n)) == n
  {
    IntRoundTrip(n);
    assert IntToString(n) != "f" by {
      assert IntToString(n)[0] == '-' || IsDigit(IntToString(n)[0]);
    }
  }

  /** int() rejects a string that, once stripped, starts with neither a sign nor a digit. */
  lemma Unreadable(s: string)
    requires s != [] && !IsSpace(s[0]) && !IsSpace(s[|s| - 1])
    requires !IsDigit(s[0]) && s[0] != '-' && s[0] != '+'
    ensures ParseInt(s).None?
  {
    StripEmpty(s);
  }

  /** A tied position "T<n>" is n; a "T" followed by what int() rejects, nothing included,
      is 0. */
  lemma PositionTied(s: string)
    ensures Position(JStr("T" + s)) == match ParseInt(s) case Some(n) => n case None => 0
  {
    assert ("T" + s)[1..] == s;
  }

  /** A tied position is the number after the "T". */
  lemma TiedPosition()
    ensures Position(JStr("T2")) == 2
  {
    PositionTied("2");
    IntRoundTrip(2);
    assert IntToString(2) == "2";
    assert "T" + "2" == "T2";
  }

  /** A number string and an integer are themselves; a missing position is 0. */
  lemma PlainPositions()
    ensures Position(JStr("5")) == 5 && Position(JInt(3)) == 3 && Position(JNull) == 0
  {
    PositionRoundTrip(5);
    assert IntToString(5) == "5";
  }

  /** _process_position never raises: a string int() rejects is 0. */
  lemma UnreadablePosition()
    ensures Position(JStr("garbage")) == 0
  {
    Unreadable("garbage");
    assert !StartsWith("garbage", "T");
  }

  /** A "T" followed by nothing or by what int() rejects is 0. */
  lemma UnreadableTies()
    ensures Position(JStr("T")) == 0 && Position(JStr("Tx")) == 0
  {
    PositionTied("");
    assert Strip("") == "";
    Unreadable("x");
    PositionTied("x");
    assert "T" + "" == "T" && "T" + "x" == "Tx";
  }

  /** "f" is 18 and a number string is itself. */
  lemma ThruExamples()
    ensures Thru(JStr("f")) == 18 && Thru(JStr("12")) == 12
  {
    ThruRoundTrip(12);
    assert NatToString(12) == NatToString(1) + [DigitChar(2)];
    assert IntToString(12) == "12";
  }

  /** Only a lower-case "f" means 18; an empty, unreadable or missing value is 0. */
  lemma ThruFallback()
    ensures Thru(JStr("")) == 0 && Thru(JStr("F")) == 0 && Thru(JNull) == 0
  {
    assert Strip("") == "";
    Unreadable("F");
  }

  datatype LeaderboardRecord = LeaderboardRecord(
    playerId: string, currentPosition: int, roundScore: int, thru: int, total: int,
    roundStrokes: seq<(string, int)>)
  {
    function ToJson(): Json {
      JObj([("player_id", JStr(playerId)), ("current_position", JInt(currentPosition)),
            ("round_score", JInt(roundScore)), ("thru", JInt(thru)), ("total", JInt(total)),
            ("round_strokes", JObj(IntsJson(roundStrokes)))])
    }
  }

  function IntsJson(d: seq<(string, int)>): (r: seq<(string, Json)>)
    ensures KeysOf(r) == KeysOf(d)
  {
    if d == [] then [] else [(d[0].0, JInt(d[0].1))] + IntsJson(d[1..])
  }

  /** int() of `player["round<r>"].get("total", 0)` */
  function StrokesOf(player: Json, roundNum: string): Result<int> {
    match Index(player, "round" + roundNum)
    case Raise => Raise
    case Ok(roundData) =>
      match Get(roundData, "total", JInt(0))
      case Raise => Raise
      case Ok(t) => ToInt(t)
  }

  /** The body of the loop over the rounds: record the strokes of a round the entry has. */
  function StrokeStep(player: Json): (seq<(string, int)>, string) -> Result<seq<(string, int)>> {
    (strokes, roundNum) =>
      match Contains(player, "round" + roundNum)
      case Raise => Raise
      case Ok(present) =>
        if !present then Ok(strokes)
        else
          match StrokesOf(player, roundNum)
          case Raise => Raise
          case Ok(n) => Ok(Put(strokes, roundNum, n))
  }

  function RoundStrokes(player: Json): Result<seq<(string, int)>> {
    Fold(StrokeStep(player), [], Rounds)
  }

  /** The record of an entry with a non-blank id: position and holes completed are read
      leniently, today's and the total score to par go through int() (default 0), and the
      strokes of every round the entry has. */
  function LeaderRecord(pid: string, player: Json): Result<LeaderboardRecord>
    requires player.JObj?
  {
    var position := Position(Find(player.fields, "pos").GetOr(JInt(0)));
    match ToInt(Find(player.fields, "today").GetOr(JInt(0)))
    case Raise => Raise
    case Ok(today) =>
      var thru := Thru(Find(player.fields, "thru").GetOr(JStr("")));
      match ToInt(Find(player.fields, "topar").GetOr(JInt(0)))
      case Raise => Raise
      case Ok(total) =>
        match RoundStrokes(player)
        case Raise => Raise
        case Ok(strokes) => Ok(LeaderboardRecord(pid, position, today, thru, total, strokes))
  }

  function LeaderStep(player: Json): Result<seq<LeaderboardRecord>> {
    match TrimmedId(player)
    case Raise => Raise
    case Ok(pid) =>
      if pid == "" then Ok([])
      else
        match LeaderRecord(pid, player)
        case Raise => Raise
        case Ok(record) => Ok([record])
  }

  function Leaderboard(raw: Json): Result<seq<LeaderboardRecord>> {
    match Listed(raw, "players")
    case Raise => Raise
    case Ok(items) => ConcatMap(LeaderStep, items)
  }

  /** The loop over the rounds of one leaderboard entry. */
  method CollectRoundStrokes(player: Json) returns (r: Result<seq<(string, int)>>)
    requires player.JObj?
    ensures r == RoundStrokes(player)
  {
    var strokes: seq<(string, int)> := [];
    var j := 0;
    while j < |Rounds|
      invariant j <= |Rounds|
      invariant Fold(StrokeStep(player), [], Rounds[..j]) == Ok(strokes)
    {
      var roundNum := Rounds[j];
      FoldNext(StrokeStep(player), [], Rounds, j);
      var roundKey := "round" + roundNum;
      assert Contains(player, roundKey) == Ok(roundKey in KeysOf(player.fields));
      if roundKey in KeysOf(player.fields) {
        var n := StrokesOf(player, roundNum);
        if n.Raise? {
          FoldRaise(StrokeStep(player), [], Rounds, j + 1);
          return Raise;
        }
        strokes := Put(strokes, roundNum, n.value);
      }
      j := j + 1;
    }
    assert Rounds[..j] == Rounds;
    return Ok(strokes);
  }

  /** The body of the loop over leaderboard entries: nothing for a blank id, else the
      entry's record. */
  method LeaderboardEntry(player: Json) returns (r: Result<seq<LeaderboardRecord>>)
    ensures r == LeaderStep(player)
  {
    var pid := TrimmedId(player);
    if pid.Raise? {
      return Raise;
    }
    if pid.value == "" {
      return Ok([]);
    }
    var position := Position(Find(player.fields, "pos").GetOr(JInt(0)));
    var today := ToInt(Find(player.fields, "today").GetOr(JInt(0)));
    var thru := Thru(Find(player.fields, "thru").GetOr(JStr("")));
    var total := ToInt(Find(player.fields, "topar").GetOr(JInt(0)));
    if today.Raise? || total.Raise? {
      return Raise;
    }
    var strokes := CollectRoundStrokes(player);
    if strokes.Raise? {
      return Raise;
    }
    return Ok([LeaderboardRecord(pid.value, position, today.value, thru, total.value, strokes.value)]);
  }

  method ProcessLeaderboard(raw: Json) returns (r: Result<seq<LeaderboardRecord>>)
    ensures r == Leaderboard(raw)
  {
    var players := Listed(raw, "players");
    if players.Raise? {
      return Raise;
    }
    var items := players.value;
    var processed: seq<LeaderboardRecord> := [];
    var i := 0;
    while i < |items|
      invariant i <= |items|
      invariant ConcatMap(LeaderStep, items[..i]) == Ok(processed)
    {
      var step := LeaderboardEntry(items[i]);
      if step.Raise? {
        ConcatMapStops(LeaderStep, items, i);
        return Raise;
      }
      ConcatMapOk(LeaderStep, items, i, processed, step.value);
      processed := processed + step.value;
      i := i + 1;
    }
    assert items[..i] == items;
    return Ok(processed);
  }

  // What process_leaderboard returns

  /** The rounds among `rs` whose key the entry has, in order. */
  function PresentRounds(player: Json, rs: seq<string>): seq<string>
    requires player.JObj?
    decreases |rs|
  {
    if rs == [] then []
    else
      var r := rs[|rs| - 1];
      PresentRounds(player, rs[..|rs| - 1]) + (if "round" + r in KeysOf(player.fields) then [r] else [])
  }

  lemma PresentRoundsIn(player: Json, rs: seq<string>)
    requires player.JObj?
    ensures forall r :: r in PresentRounds(player, rs) <==> r in rs && "round" + r in KeysOf(player.fields)
  {
    if rs != [] {
      PresentRoundsIn(player, rs[..|rs| - 1]);
      assert rs == rs[..|rs| - 1] + [rs[|rs| - 1]];
    }
  }

  /** The loop over distinct round numbers succeeds exactly when every round the entry has
      carries a total int() accepts, and then holds those rounds, in order, each with its
      total. */
  lemma {:induction false} StrokesLoop(player: Json, rs: seq<string>)
    requires player.JObj? && Distinct(rs)
    ensures Fold(StrokeStep(player), [], rs).Ok? <==>
      forall i :: 0 <= i < |rs| && "round" + rs[i] in KeysOf(player.fields) ==> StrokesOf(player, rs[i]).Ok?
    ensures Fold(StrokeStep(player), [], rs).Ok? ==>
      var strokes := Fold(StrokeStep(player), [], rs).value;
      KeysOf(strokes) == PresentRounds(player, rs)
      && forall r :: r in KeysOf(strokes) ==> Find(strokes, r).Some? && StrokesOf(player, r) == Ok(Find(strokes, r).value)
    decreases |rs|
  {
    if rs != [] {
      var init := rs[..|rs| - 1];
      var r := rs[|rs| - 1];
      assert Distinct(init);
      assert rs == init + [r];
      StrokesLoop(player, init);
      FoldSnoc(StrokeStep(player), [], init, r);
      assert Contains(player, "round" + r) == Ok("round" + r in KeysOf(player.fields));
      var acc := Fold(StrokeStep(player), [], init);
      if acc.Ok? && "round" + r in KeysOf(player.fields) && StrokesOf(player, r).Ok? {
        PresentRoundsIn(player, init);
        assert r !in init;
        PutSpec(acc.value, r, StrokesOf(player, r).value);
      }
    }
  }

  /** The round strokes of an entry: exactly the rounds "1" to "4" it has a key for, in
      round order, each with int() of that round's total; any of them int() rejects makes
      the entry raise. */
  lemma RoundStrokesSpec(player: Json)
    requires player.JObj?
    ensures RoundStrokes(player).Ok? <==>
      forall r :: r in Rounds && "round" + r in KeysOf(player.fields) ==> StrokesOf(player, r).Ok?
    ensures RoundStrokes(player).Ok? ==>
      var strokes := RoundStrokes(player).value;
      KeysOf(strokes) == PresentRounds(player, Rounds)
      && forall r :: r in KeysOf(strokes) ==> Find(strokes, r).Some? && StrokesOf(player, r) == Ok(Find(strokes, r).value)
  {
    assert Distinct(Rounds);
    StrokesLoop(player, Rounds);
  }

  /** process_leaderboard succeeds exactly when the document is a dict whose players are all
      dicts and every entry with an id has a today score, a total to par and round totals
      that int() accepts; then it returns one record per such entry, in input order. */
  lemma LeaderboardSpec(raw: Json)
    ensures Leaderboard(raw).Ok? <==>
      Listed(raw, "players").Ok? && AllObjects(Listed(raw, "players").value)
      && forall k :: 0 <= k < |Kept(Listed(raw, "players").value)| ==>
           var e := Kept(Listed(raw, "players").value)[k];
           ToInt(Find(e.fields, "today").GetOr(JInt(0))).Ok?
           && ToInt(Find(e.fields, "topar").GetOr(JInt(0))).Ok?
           && RoundStrokes(e).Ok?
    ensures Leaderboard(raw).Ok? ==>
      var kept := Kept(Listed(raw, "players").value);
      var out := Leaderboard(raw).value;
      |out| == |kept|
      && forall k :: 0 <= k < |kept| ==>
           out[k].playerId == IdOf(kept[k]) && out[k].playerId != ""
           && out[k].currentPosition == Position(Find(kept[k].fields, "pos").GetOr(JInt(0)))
           && out[k].roundScore == ToInt(Find(kept[k].fields, "today").GetOr(JInt(0))).value
           && out[k].thru == Thru(Find(kept[k].fields, "thru").GetOr(JStr("")))
           && out[k].total == ToInt(Find(kept[k].fields, "topar").GetOr(JInt(0))).value
           && out[k].roundStrokes == RoundStrokes(kept[k]).value
  {
    if Listed(raw, "players").Ok? {
      var items := Listed(raw, "players").value;
      SkipLoop(LeaderStep, HasId, items);
      OneEach(LeaderStep, Kept(items));
    }
  }

  // ---------------------------------------------------------------------------------------
  // process_shots

  /** _get_surface: a shot that leaves no distance to the hole is holed, else it is on the
      green when the feed's flag is truthy, else the surface is not known. */
  function Surface(remaining: Decimal, ongreen: Json): string {
    if remaining.IsZero() then "hole"
    else if Truthy(ongreen) then "green"
    else "unknown"
  }

  datatype Shot = Shot(date: Json, time: Json, surface: string, distance: Decimal, distanceToHole: Decimal) {
    function ToJson(): Json {
      JObj([("date", date), ("time", time), ("surface", JStr(surface)),
            ("distance", JFloat(distance)), ("distance_to_hole", JFloat(distanceToHole))])
    }
  }

  /** A hole: its shots keyed by str() of their number. */
  type HoleShots = seq<(string, Shot)>

  /** The value under a key of the result: the player's id under "player_id", else a round's
      holes keyed by str() of the hole id. */
  datatype ShotEntry = PlayerIdEntry(id: string) | RoundEntry(holes: seq<(string, HoleShots)>)

  type ShotRecord = seq<(string, ShotEntry)>

  /** The dict process_shots returns, as a JSON value. */
  function ShotRecordJson(record: ShotRecord): Json {
    JObj(MapValues(record, (e: ShotEntry) =>
      match e
      case PlayerIdEntry(id) => JStr(id)
      case RoundEntry(holes) =>
        JObj(MapValues(holes, (shots: HoleShots) => JObj(MapValues(shots, (shot: Shot) => shot.ToJson()))))))
  }

  /** A shot is holed exactly when no distance to the hole remains; otherwise it is on the
      green or on a surface not known. */
  predicate ValidShot(shot: Shot) {
    (shot.surface == "hole" <==> shot.distanceToHole.IsZero())
    && (shot.surface == "hole" || shot.surface == "green" || shot.surface == "unknown")
  }

  /** `0.0`, the default distance */
  const NoDistance := JFloat(Decimal(0, 1))

  /** The shot a feed entry describes, under str() of its number; float() of the remaining
      distance and of the length may raise. */
  function ShotOf(shotData: Json): (r: Result<(string, Shot)>)
    ensures r.Ok? ==> ValidShot(r.value.1)
  {
    if !shotData.JObj? then Raise
    else
      var fields := shotData.fields;
      match ToFloat(Find(fields, "remaining").GetOr(NoDistance))
      case Raise => Raise
      case Ok(remaining) =>
        match ToFloat(Find(fields, "length").GetOr(NoDistance))
        case Raise => Raise
        case Ok(length) =>
          var surface := Surface(remaining, Find(fields, "ongreen").GetOr(JBool(false)));
          Ok((Str(Find(fields, "num").GetOr(JStr(""))),
              Shot(Find(fields, "date").GetOr(JStr("")), Find(fields, "time").GetOr(JStr("")),
                   surface, length, remaining)))
  }

  /** A shot's distance to the hole is the remaining distance that picked its surface, its
      distance is float() of its length, and it is stored under str() of its number. */
  lemma ShotFields(shotData: Json)
    requires shotData.JObj?
    ensures var f := shotData.fields;
      var remaining := ToFloat(Find(f, "remaining").GetOr(NoDistance));
      var length := ToFloat(Find(f, "length").GetOr(NoDistance));
      (ShotOf(shotData).Ok? <==> remaining.Ok? && length.Ok?)
      && (ShotOf(shotData).Ok? ==>
            var shot := ShotOf(shotData).value;
            shot.0 == Str(Find(f, "num").GetOr(JStr("")))
            && shot.1.distanceToHole == remaining.value && shot.1.distance == length.value
            && shot.1.surface == Surface(remaining.value, Find(f, "ongreen").GetOr(JBool(false)))
            && shot.1.date == Find(f, "date").GetOr(JStr("")) && shot.1.time == Find(f, "time").GetOr(JStr("")))
  {
  }

  /** 0.0 left is holed, 4.5 left on the green is "green", 4.5 left off it is "unknown". */
  lemma SurfaceExamples(ongreen: Json)
    ensures Surface(Decimal(0, 1), ongreen) == "hole"
    ensures Surface(Decimal(45, 1), JBool(true)) == "green"
    ensures Surface(Decimal(45, 1), JBool(false)) == "unknown"
  {
  }

  /** int() of a string */
  predicate IntKey(s: string) {
    ToInt(JStr(s)).Ok?
  }

  /** `str(item.get(name, ""))` of a dict */
  function IdField(item: Json, name: string): string
    requires item.JObj?
  {
    Str(Find(item.fields, name).GetOr(JStr("")))
  }

  /** One hole of a round: its shots, keyed by str() of their number, stored under str() of
      the hole id once int() has accepted both the round's and the hole's id (they are passed
      to the shots-per-hole metric). */
  function HoleEntry(roundNum: string, holeData: Json): Result<(string, HoleShots)> {
    if !holeData.JObj? then Raise
    else
      var holeNum := IdField(holeData, "id");
      match Listed(holeData, "shots")
      case Raise => Raise
      case Ok(shotList) =>
        match Fold(PutStep(ShotOf), [], shotList)
        case Raise => Raise
        case Ok(shots) => if IntKey(roundNum) && IntKey(holeNum) then Ok((holeNum, shots)) else Raise
  }

  function HoleOf(roundNum: string): Json -> Result<(string, HoleShots)> {
    (holeData: Json) => HoleEntry(roundNum, holeData)
  }

  /** One round: its holes, keyed by str() of their id, stored under str() of the round id. */
  function RoundOf(roundData: Json): Result<(string, ShotEntry)> {
    if !roundData.JObj? then Raise
    else
      var roundNum := IdField(roundData, "id");
      match Listed(roundData, "holes")
      case Raise => Raise
      case Ok(holeList) =>
        match Fold(PutStep(HoleOf(roundNum)), [], holeList)
        case Raise => Raise
        case Ok(holes) => Ok((roundNum, RoundEntry(holes)))
  }

  /** The dict process_shots starts from */
  function ShotsStart(playerId: string): ShotRecord {
    [("player_id", PlayerIdEntry(playerId))]
  }

  function Shots(raw: Json, playerId: string): Result<ShotRecord> {
    match Listed(raw, "rounds")
    case Raise => Raise
    case Ok(rounds) => Fold(PutStep(RoundOf), ShotsStart(playerId), rounds)
  }

  /** The loop over the shots of one hole. */
  method CollectShots(holeData: Json) returns (r: Result<HoleShots>)
    ensures r == (match Listed(holeData, "shots") case Raise => Raise case Ok(l) => Fold(PutStep(ShotOf), [], l))
  {
    var listed := Listed(holeData, "shots");
    if listed.Raise? {
      return Raise;
    }
    var items := listed.value;
    var shots: HoleShots := [];
    var shotCount := 0;
    var i := 0;
    while i < |items|
      invariant i <= |items| && shotCount == i
      invariant Fold(PutStep(ShotOf), [], items[..i]) == Ok(shots)
    {
      var shotData := items[i];
      FoldNext(PutStep(ShotOf), [], items, i);
      var shot := ShotOf(shotData);
      if shot.Raise? {
        FoldRaise(PutStep(ShotOf), [], items, i + 1);
        return Raise;
      }
      shots := Put(shots, shot.value.0, shot.value.1);
      shotCount := shotCount + 1;
      i := i + 1;
    }
    assert items[..i] == items;
    return Ok(shots);
  }

  /** The loop over the holes of one round. */
  method CollectHoles(roundNum: string, roundData: Json) returns (r: Result<seq<(string, HoleShots)>>)
    ensures r == (match Listed(roundData, "holes") case Raise => Raise case Ok(l) => Fold(PutStep(HoleOf(roundNum)), [], l))
  {
    var listed := Listed(roundData, "holes");
    if listed.Raise? {
      return Raise;
    }
    var items := listed.value;
    var holes: seq<(string, HoleShots)> := [];
    var i := 0;
    while i < |items|
      invariant i <= |items|
      invariant Fold(PutStep(HoleOf(roundNum)), [], items[..i]) == Ok(holes)
    {
      var holeData := items[i];
      FoldNext(PutStep(HoleOf(roundNum)), [], items, i);
      if !holeData.JObj? {
        FoldRaise(PutStep(HoleOf(roundNum)), [], items, i + 1);
        return Raise;
      }
      var holeNum := IdField(holeData, "id");
      var shots := CollectShots(holeData);
      if shots.Raise? || !IntKey(roundNum) || !IntKey(holeNum) {
        FoldRaise(PutStep(HoleOf(roundNum)), [], items, i + 1);
        return Raise;
      }
      holes := Put(holes, holeNum, shots.value);
      i := i + 1;
    }
    assert items[..i] == items;
    return Ok(holes);
  }

  /** The body of the loop over the rounds: one round and its holes. */
  method CollectRound(roundData: Json) returns (r: Result<(string, ShotEntry)>)
    ensures r == RoundOf(roundData)
  {
    if !roundData.JObj? {
      return Raise;
    }
    var roundNum := IdField(roundData, "id");
    var holes := CollectHoles(roundNum, roundData);
    if holes.Raise? {
      return Raise;
    }
    return Ok((roundNum, RoundEntry(holes.value)));
  }

  method ProcessShots(raw: Json, playerId: string) returns (r: Result<ShotRecord>)
    ensures r == Shots(raw, playerId)
  {
    var listed := Listed(raw, "rounds");
    if listed.Raise? {
      return Raise;
    }
    var items := listed.value;
    var processed := ShotsStart(playerId);
    var i := 0;
    while i < |items|
      invariant i <= |items|
      invariant Fold(PutStep(RoundOf), ShotsStart(playerId), items[..i]) == Ok(processed)
    {
      var roundData := items[i];
      FoldNext(PutStep(RoundOf), ShotsStart(playerId), items, i);
      var round := CollectRound(roundData);
      if round.Raise? {
        FoldRaise(PutStep(RoundOf), ShotsStart(playerId), items, i + 1);
        return Raise;
      }
      processed := Put(processed, round.value.0, round.value.1);
      i := i + 1;
    }
    assert items[..i] == items;
    return Ok(processed);
  }

  // What process_shots returns

  /** A hole is stored exactly when it is a dict whose shots are all readable and int()
      accepts the round's and the hole's id. It is stored under str() of its id and holds,
      under str() of each shot number in order of first appearance, the last shot with that
      number. */
  lemma HoleSpec(roundNum: string, holeData: Json)
    ensures HoleEntry(roundNum, holeData).Ok? <==>
      holeData.JObj? && Listed(holeData, "shots").Ok?
      && (forall i :: 0 <= i < |Listed(holeData, "shots").value| ==> ShotOf(Listed(holeData, "shots").value[i]).Ok?)
      && IntKey(roundNum) && IntKey(IdField(holeData, "id"))
    ensures HoleEntry(roundNum, holeData).Ok? ==>
      var shotList := Listed(holeData, "shots").value;
      var shots := HoleEntry(roundNum, holeData).value.1;
      HoleEntry(roundNum, holeData).value.0 == IdField(holeData, "id")
      && KeysOf(shots) == Dedup(EntryKeys(ShotOf, shotList))
      && forall n :: Find(shots, n) == LastEntry(ShotOf, shotList, n)
  {
    if holeData.JObj? && Listed(holeData, "shots").Ok? {
      var shotList := Listed(holeData, "shots").value;
      PutLoop(ShotOf, [], shotList);
      assert KeysOf<Shot>([]) + EntryKeys(ShotOf, shotList) == EntryKeys(ShotOf, shotList);
    }
  }

  /** A round is stored exactly when it is a dict whose holes are all stored. It is stored
      under str() of its id and holds, under str() of each hole id in order of first
      appearance, the last hole with that id. */
  lemma RoundSpec(roundData: Json)
    ensures RoundOf(roundData).Ok? <==>
      roundData.JObj? && Listed(roundData, "holes").Ok?
      && forall i :: 0 <= i < |Listed(roundData, "holes").value| ==>
           HoleEntry(IdField(roundData, "id"), Listed(roundData, "holes").value[i]).Ok?
    ensures RoundOf(roundData).Ok? ==>
      var roundNum := IdField(roundData, "id");
      var holeList := Listed(roundData, "holes").value;
      var entry := RoundOf(roundData).value.1;
      RoundOf(roundData).value.0 == roundNum && entry.RoundEntry?
      && KeysOf(entry.holes) == Dedup(EntryKeys(HoleOf(roundNum), holeList))
      && forall h :: Find(entry.holes, h) == LastEntry(HoleOf(roundNum), holeList, h)
  {
    if roundData.JObj? && Listed(roundData, "holes").Ok? {
      var roundNum := IdField(roundData, "id");
      var holeList := Listed(roundData, "holes").value;
      PutLoop(HoleOf(roundNum), [], holeList);
      assert KeysOf<HoleShots>([]) + EntryKeys(HoleOf(roundNum), holeList) == EntryKeys(HoleOf(roundNum), holeList);
    }
  }

  predicate ValidHole(shots: HoleShots) {
    forall p :: p in shots ==> ValidShot(p.1)
  }

  predicate ValidHoles(roundNum: string, holes: seq<(string, HoleShots)>) {
    (holes != [] ==> IntKey(roundNum))
    && forall p :: p in holes ==> IntKey(p.0) && ValidHole(p.1)
  }

  predicate ValidRecord(playerId: string, record: ShotRecord) {
    record != [] && record[0].0 == "player_id"
    && forall p :: p in record ==>
         match p.1
         case PlayerIdEntry(id) => p == ("player_id", PlayerIdEntry(playerId))
         case RoundEntry(holes) => ValidHoles(p.0, holes)
  }

  lemma {:induction false} ShotsValid(shotList: seq<Json>)
    ensures Fold(PutStep(ShotOf), [], shotList).Ok? ==> ValidHole(Fold(PutStep(ShotOf), [], shotList).value)
  {
    forall shots, shotData | ValidHole(shots) && PutStep(ShotOf)(shots, shotData).Ok?
      ensures ValidHole(PutStep(ShotOf)(shots, shotData).value)
    {
      PutMembers(shots, ShotOf(shotData).value.0, ShotOf(shotData).value.1);
    }
    FoldInvariant(PutStep(ShotOf), ValidHole, [], shotList);
  }

  lemma {:induction false} HolesValid(roundNum: string, holeList: seq<Json>)
    ensures Fold(PutStep(HoleOf(roundNum)), [], holeList).Ok? ==>
      ValidHoles(roundNum, Fold(PutStep(HoleOf(roundNum)), [], holeList).value)
  {
    var inv := (holes: seq<(string, HoleShots)>) => ValidHoles(roundNum, holes);
    forall holes, holeData | inv(holes) && PutStep(HoleOf(roundNum))(holes, holeData).Ok?
      ensures inv(PutStep(HoleOf(roundNum))(holes, holeData).value)
    {
      var holeNum := IdField(holeData, "id");
      var shotList := Listed(holeData, "shots").value;
      ShotsValid(shotList);
      PutMembers(holes, holeNum, Fold(PutStep(ShotOf), [], shotList).value);
    }
    FoldInvariant(PutStep(HoleOf(roundNum)), inv, [], holeList);
  }

  lemma {:induction false} RecordValid(playerId: string, rounds: seq<Json>)
    ensures Fold(PutStep(RoundOf), ShotsStart(playerId), rounds).Ok? ==>
      ValidRecord(playerId, Fold(PutStep(RoundOf), ShotsStart(playerId), rounds).value)
  {
    var inv := (record: ShotRecord) => ValidRecord(playerId, record);
    forall record, roundData | inv(record) && PutStep(RoundOf)(record, roundData).Ok?
      ensures inv(PutStep(RoundOf)(record, roundData).value)
    {
      assert RoundOf(roundData).Ok?;
      var roundNum := IdField(roundData, "id");
      var holeList := Listed(roundData, "holes").value;
      HolesValid(roundNum, holeList);
      PutMembers(record, roundNum, RoundEntry(Fold(PutStep(HoleOf(roundNum)), [], holeList).value));
    }
    FoldInvariant(PutStep(RoundOf), inv, ShotsStart(playerId), rounds);
  }

  /** process_shots raises exactly when the document is not a dict, its rounds are not a
      list, or some round is not stored (`RoundSpec`, `HoleSpec`, `ShotFields` say when). It
      returns "player_id", holding the player's id, followed by str() of each round id in
      order of first appearance; each round key holds the last round with that id, and a
      round whose id is "player_id" replaces the player's id. "player_id" stays the first
      key; a round with holes, and each of its holes, has an id int() accepts; a shot's
      surface is "hole" exactly when no distance to the hole remains, and otherwise "green"
      or "unknown". */
  lemma ShotsSpec(raw: Json, playerId: string)
    ensures Shots(raw, playerId).Ok? <==>
      Listed(raw, "rounds").Ok?
      && forall i :: 0 <= i < |Listed(raw, "rounds").value| ==> RoundOf(Listed(raw, "rounds").value[i]).Ok?
    ensures Shots(raw, playerId).Ok? ==>
      var rounds := Listed(raw, "rounds").value;
      var out := Shots(raw, playerId).value;
      KeysOf(out) == Dedup(["player_id"] + EntryKeys(RoundOf, rounds))
      && (forall k :: Find(out, k) ==
            if LastEntry(RoundOf, rounds, k).Some? then LastEntry(RoundOf, rounds, k)
            else if k == "player_id" then Some(PlayerIdEntry(playerId)) else None)
      && ValidRecord(playerId, out)
  {
    if Listed(raw, "rounds").Ok? {
      var rounds := Listed(raw, "rounds").value;
      assert Dedup(["player_id"]) == ["player_id"];
      PutLoop(RoundOf, ShotsStart(playerId), rounds);
      RecordValid(playerId, rounds);
    }
  }
}
