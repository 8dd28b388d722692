/** The service configuration: settings read from the process environment with literal
    defaults, and the feed-endpoint and broker-topic tables built from the tournament year. */
module Configuration {
  import opened Py
  import opened Template

  datatype Config = Config(
    rabbitmqHost: string,
    rabbitmqPort: int,
    rabbitmqUser: string,
    rabbitmqPassword: string,
    rabbitmqVhost: string,
    logLevel: string,
    healthPort: int,
    scrapeInterval: int,
    requestTimeout: int,
    maxRetries: int,
    tournamentYear: string)

  const BaseUrl: string := "https://www.masters.com"

  /** os.getenv(name, default) */
  function Setting(env: map<string, string>, name: string, default: string): string {
    if name in env then env[name] else default
  }

  /** int(os.getenv(name, default)): a value int() rejects raises ValueError. */
  function IntSetting(env: map<string, string>, name: string, default: string): Result<int> {
    match ParseInt(Setting(env, name, default))
    case None => Raise
    case Some(i) => Ok(i)
  }

  /** Config() read from the environment `env`. */
  function FromEnvironment(env: map<string, string>): (r: Result<Config>)
    ensures r.Ok? <==>
      IntSetting(env, "RABBITMQ_PORT", "5672").Ok?
      && IntSetting(env, "HEALTH_PORT", "8000").Ok?
      && IntSetting(env, "SCRAPE_INTERVAL", "300").Ok?
      && IntSetting(env, "REQUEST_TIMEOUT", "60").Ok?
      && IntSetting(env, "MAX_RETRIES", "3").Ok?
    ensures r.Ok? ==>
      r.value.rabbitmqHost == Setting(env, "RABBITMQ_HOST", "localhost")
      && Ok(r.value.rabbitmqPort) == IntSetting(env, "RABBITMQ_PORT", "5672")
      && r.value.rabbitmqUser == Setting(env, "RABBITMQ_USER", "admin")
      && r.value.rabbitmqPassword == Setting(env, "RABBITMQ_PASSWORD", "admin123")
      && r.value.rabbitmqVhost == Setting(env, "RABBITMQ_VHOST", "/")
      && r.value.logLevel == Setting(env, "LOG_LEVEL", "INFO")
      && Ok(r.value.healthPort) == IntSetting(env, "HEALTH_PORT", "8000")
      && Ok(r.value.scrapeInterval) == IntSetting(env, "SCRAPE_INTERVAL", "300")
      && Ok(r.value.requestTimeout) == IntSetting(env, "REQUEST_TIMEOUT", "60")
      && Ok(r.value.maxRetries) == IntSetting(env, "MAX_RETRIES", "3")
      && r.value.tournamentYear == Setting(env, "TOURNAMENT_YEAR", "2025")
  {
    var host := Setting(env, "RABBITMQ_HOST", "localhost");
    var port :- IntSetting(env, "RABBITMQ_PORT", "5672");
    var user := Setting(env, "RABBITMQ_USER", "admin");
    var password := Setting(env, "RABBITMQ_PASSWORD", "admin123");
    var vhost := Setting(env, "RABBITMQ_VHOST", "/");
    var logLevel := Setting(env, "LOG_LEVEL", "INFO");
    var healthPort :- IntSetting(env, "HEALTH_PORT", "8000");
    var interval :- IntSetting(env, "SCRAPE_INTERVAL", "300");
    var timeout :- IntSetting(env, "REQUEST_TIMEOUT", "60");
    var retries :- IntSetting(env, "MAX_RETRIES", "3");
    var year := Setting(env, "TOURNAMENT_YEAR", "2025");
    Ok(Config(host, port, user, password, vhost, logLevel, healthPort, interval, timeout, retries, year))
  }

  /** The fixed parts of the shots URL around its `{player_id}` placeholder. */
  function ShotsPrefix(c: Config): string {
    BaseUrl + "/en_US/scores/feeds/" + c.tournamentYear + "/track/"
  }

  /** The endpoint table: an f-string fills in the year, `{{player_id}}` leaves a placeholder. */
  function Endpoints(c: Config): map<string, string> {
    map[
      "entrylist" := BaseUrl + "/en_US/cms/feeds/players/" + c.tournamentYear + "/players.json",
      "teetimes" := BaseUrl + "/en_US/scores/feeds/" + c.tournamentYear + "/pairings.json",
      "leaderboard" := BaseUrl + "/en_US/scores/feeds/" + c.tournamentYear + "/scores.json",
      "shots" := ShotsPrefix(c) + "{player_id}" + ".json"
    ]
  }

  /** The topic table, built the same way. */
  function Topics(c: Config): map<string, string> {
    map[
      "entrylist" := "masters.Entrylist*" + c.tournamentYear + "." + "{player_id}",
      "teetimes" := "masters.TeeTimes*" + c.tournamentYear + "." + "{player_id}",
      "leaderboard" := "masters.Leaderboard*" + c.tournamentYear,
      "shots" := "masters.Shots*" + c.tournamentYear + "." + "{player_id}"
    ]
  }

  /** The four data categories, the keys of both tables. */
  const Categories: set<string> := {"entrylist", "teetimes", "leaderboard", "shots"}

  /** Both tables are keyed by exactly the four categories. */
  lemma TableKeys(c: Config)
    ensures Endpoints(c).Keys == Categories && Topics(c).Keys == Categories
  {
  }

  /** Every endpoint and every topic template carries the tournament year. */
  lemma YearInTables(c: Config, key: string)
    requires key in Categories
    ensures IsInfix(c.tournamentYear, Endpoints(c)[key])
    ensures IsInfix(c.tournamentYear, Topics(c)[key])
  {
    YearInEndpoint(c, key);
    YearInTopic(c, key);
  }

  lemma YearInEndpoint(c: Config, key: string)
    requires key in Categories
    ensures IsInfix(c.tournamentYear, Endpoints(c)[key])
  {
    var y := c.tournamentYear;
    var feeds := BaseUrl + "/en_US/scores/feeds/";
    if key == "entrylist" {
      InfixWithin(BaseUrl + "/en_US/cms/feeds/players/", y, "/players.json");
    } else if key == "teetimes" {
      InfixWithin(feeds, y, "/pairings.json");
    } else if key == "leaderboard" {
      InfixWithin(feeds, y, "/scores.json");
    } else {
      InfixWithin(feeds, y, "/track/" + "{player_id}" + ".json");
      assert Endpoints(c)[key] == feeds + y + ("/track/" + "{player_id}" + ".json");
    }
  }

  lemma YearInTopic(c: Config, key: string)
    requires key in Categories
    ensures IsInfix(c.tournamentYear, Topics(c)[key])
  {
    var y := c.tournamentYear;
    var tail := "." + "{player_id}";
    if key == "entrylist" {
      InfixWithin("masters.Entrylist*", y, tail);
      assert Topics(c)[key] == "masters.Entrylist*" + y + tail;
    } else if key == "teetimes" {
      InfixWithin("masters.TeeTimes*", y, tail);
      assert Topics(c)[key] == "masters.TeeTimes*" + y + tail;
    } else if key == "leaderboard" {
      InfixWithin("masters.Leaderboard*", y, "");
      assert Topics(c)[key] == "masters.Leaderboard*" + y + "";
    } else {
      InfixWithin("masters.Shots*", y, tail);
      assert Topics(c)[key] == "masters.Shots*" + y + tail;
    }
  }

  lemma {:induction false} NoBracesConcat(a: string, b: string)
    requires NoBraces(a) && NoBraces(b)
    ensures NoBraces(a + b)
  {
    assert forall ch :: ch in a + b ==> ch in a || ch in b;
  }

  /** The literal parts of the tables have no braces. */
  lemma NoBracesPieces()
    ensures NoBraces(BaseUrl) && NoBraces("/en_US/cms/feeds/players/") && NoBraces("/players.json")
    ensures NoBraces("/en_US/scores/feeds/") && NoBraces("/pairings.json") && NoBraces("/scores.json")
    ensures NoBraces("/track/") && NoBraces(".json") && NoBraces(".")
    ensures NoBraces("masters.Entrylist*") && NoBraces("masters.TeeTimes*")
    ensures NoBraces("masters.Leaderboard*") && NoBraces("masters.Shots*")
    ensures KeywordField("player_id")
  {
    NoBracesUrl();
    NoBracesTopic();
    assert !IsDigit("player_id"[0]);
  }

  /** The brace-free facts about the literals are split into several small lemmas on
      purpose: one lemma that checks every character of all the literals together runs out
      of the solver's resources, while each piece on its own is immediate. */
  lemma NoBracesUrl()
    ensures NoBraces(BaseUrl) && NoBraces("/en_US/cms/feeds/players/") && NoBraces("/players.json")
    ensures NoBraces("/en_US/scores/feeds/") && NoBraces("/pairings.json") && NoBraces("/scores.json")
    ensures NoBraces("/track/") && NoBraces(".json") && NoBraces(".")
  {
    NoBracesUrlHead();
    NoBracesUrlTail();
  }

  lemma NoBracesUrlHead()
    ensures NoBraces(BaseUrl) && NoBraces("/en_US/cms/feeds/players/") && NoBraces("/en_US/scores/feeds/")
  {
    NoBracesBase();
    NoBracesPlayersPath();
    NoBracesScoresPath();
  }

  lemma NoBracesBase()
    ensures NoBraces(BaseUrl)
  {
    assert NoBraces("https://") && NoBraces("www.masters.com");
    NoBracesConcat("https://", "www.masters.com");
    assert BaseUrl == "https://" + "www.masters.com";
  }

  lemma NoBracesPlayersPath()
    ensures NoBraces("/en_US/cms/feeds/players/")
  {
    assert NoBraces("/en_US/cms/") && NoBraces("feeds/players/");
    NoBracesConcat("/en_US/cms/", "feeds/players/");
    assert "/en_US/cms/" + "feeds/players/" == "/en_US/cms/feeds/players/";
  }

  lemma NoBracesScoresPath()
    ensures NoBraces("/en_US/scores/feeds/")
  {
  }

  lemma NoBracesUrlTail()
    ensures NoBraces("/players.json") && NoBraces("/pairings.json") && NoBraces("/scores.json")
    ensures NoBraces("/track/") && NoBraces(".json") && NoBraces(".")
  {
    NoBracesFeedFiles();
    NoBracesShortPieces();
  }

  lemma NoBracesFeedFiles()
    ensures NoBraces("/players.json") && NoBraces("/pairings.json") && NoBraces("/scores.json")
  {
  }

  lemma NoBracesShortPieces()
    ensures NoBraces("/track/") && NoBraces(".json") && NoBraces(".")
  {
  }

  lemma NoBracesTopic()
    ensures NoBraces("masters.Entrylist*") && NoBraces("masters.TeeTimes*")
    ensures NoBraces("masters.Leaderboard*") && NoBraces("masters.Shots*")
  {
    NoBracesPlayerTopics();
    NoBracesOtherTopics();
  }

  lemma NoBracesPlayerTopics()
    ensures NoBraces("masters.Entrylist*") && NoBraces("masters.TeeTimes*")
  {
  }

  lemma NoBracesOtherTopics()
    ensures NoBraces("masters.Leaderboard*") && NoBraces("masters.Shots*")
  {
  }

  /** With a brace-free year, every endpoint but the shots one is brace-free. */
  lemma FixedEndpoint(c: Config, key: string)
    requires NoBraces(c.tournamentYear) && key in Endpoints(c) && key != "shots"
    ensures NoBraces(Endpoints(c)[key])
  {
    var y := c.tournamentYear;
    NoBracesPieces();
    if key == "entrylist" {
      NoBracesConcat(BaseUrl, "/en_US/cms/feeds/players/");
      NoBracesConcat(BaseUrl + "/en_US/cms/feeds/players/", y);
      NoBracesConcat(BaseUrl + "/en_US/cms/feeds/players/" + y, "/players.json");
    } else {
      NoBracesConcat(BaseUrl, "/en_US/scores/feeds/");
      NoBracesConcat(BaseUrl + "/en_US/scores/feeds/", y);
      NoBracesConcat(BaseUrl + "/en_US/scores/feeds/" + y, "/pairings.json");
      NoBracesConcat(BaseUrl + "/en_US/scores/feeds/" + y, "/scores.json");
    }
  }

  /** With a brace-free year, the shots endpoint has exactly one placeholder. */
  lemma ShotsEndpoint(c: Config)
    requires NoBraces(c.tournamentYear)
    ensures NoBraces(ShotsPrefix(c))
    ensures Endpoints(c)["shots"] == ShotsPrefix(c) + "{" + "player_id" + "}" + ".json"
  {
    NoBracesPieces();
    NoBracesConcat(BaseUrl, "/en_US/scores/feeds/");
    NoBracesConcat(BaseUrl + "/en_US/scores/feeds/", c.tournamentYear);
    NoBracesConcat(BaseUrl + "/en_US/scores/feeds/" + c.tournamentYear, "/track/");
  }

  /** With a brace-free year, the shots endpoint is the only one with a placeholder: every
      other endpoint is used verbatim, the shots one takes str(player_id). */
  lemma EndpointFormatting(c: Config, key: string, kwargs: seq<(string, Json)>)
    requires NoBraces(c.tournamentYear) && key in Endpoints(c)
    ensures key in Categories
    ensures key != "shots" ==> Format(Endpoints(c)[key], kwargs) == Formatted(Endpoints(c)[key])
    ensures key == "shots" ==>
      Format(Endpoints(c)[key], kwargs)
      == match Find(kwargs, "player_id")
         case None => MissingKey("player_id")
         case Some(v) => Formatted(ShotsPrefix(c) + Str(v) + ".json")
  {
    if key == "shots" {
      NoBracesPieces();
      ShotsEndpoint(c);
      OnePlaceholder(ShotsPrefix(c), "player_id", ".json", kwargs);
    } else {
      FixedEndpoint(c, key);
      Verbatim(Endpoints(c)[key], kwargs);
    }
  }

  /** The part of a per-player topic before its placeholder. */
  function TopicHead(c: Config, key: string): string {
    (if key == "entrylist" then "masters.Entrylist*"
     else if key == "teetimes" then "masters.TeeTimes*" else "masters.Shots*")
    + c.tournamentYear + "."
  }

  /** With a brace-free year, each per-player topic has exactly one placeholder, at its end. */
  lemma PlayerTopic(c: Config, key: string)
    requires NoBraces(c.tournamentYear) && key in Topics(c) && key != "leaderboard"
    ensures NoBraces(TopicHead(c, key))
    ensures Topics(c)[key] == TopicHead(c, key) + "{" + "player_id" + "}" + ""
  {
    NoBracesPieces();
    var stem := if key == "entrylist" then "masters.Entrylist*"
                else if key == "teetimes" then "masters.TeeTimes*" else "masters.Shots*";
    NoBracesConcat(stem, c.tournamentYear);
    NoBracesConcat(stem + c.tournamentYear, ".");
  }

  /** With a brace-free year, only the leaderboard topic is fixed; the others take
      str(player_id) after the year. */
  lemma TopicFormatting(c: Config, key: string, kwargs: seq<(string, Json)>)
    requires NoBraces(c.tournamentYear) && key in Topics(c)
    ensures key in Categories
    ensures key == "leaderboard" ==> Format(Topics(c)[key], kwargs) == Formatted(Topics(c)[key])
    ensures key != "leaderboard" ==>
      Format(Topics(c)[key], kwargs)
      == match Find(kwargs, "player_id")
         case None => MissingKey("player_id")
         case Some(v) => Formatted(TopicHead(c, key) + Str(v))
  {
    NoBracesPieces();
    if key != "leaderboard" {
      PlayerTopic(c, key);
      OnePlaceholder(TopicHead(c, key), "player_id", "", kwargs);
      assert forall v :: TopicHead(c, key) + Str(v) + "" == TopicHead(c, key) + Str(v);
    } else {
      NoBracesConcat("masters.Leaderboard*", c.tournamentYear);
      Verbatim(Topics(c)[key], kwargs);
    }
  }

  /** int() of a non-empty digit string is its decimal value. */
  lemma DigitLiteral(s: string)
    requires s != [] && AllDigits(s)
    ensures ParseInt(s) == Some(DigitsValue(s))
  {
    StripEmpty(s);
  }

  /** None of the environment variables Config reads is set. */
  predicate NoSettings(env: map<string, string>) {
    "RABBITMQ_HOST" !in env
    && "RABBITMQ_PORT" !in env
    && "RABBITMQ_USER" !in env
    && "RABBITMQ_PASSWORD" !in env
    && "RABBITMQ_VHOST" !in env
    && "LOG_LEVEL" !in env
    && "HEALTH_PORT" !in env
    && "SCRAPE_INTERVAL" !in env
    && "REQUEST_TIMEOUT" !in env
    && "MAX_RETRIES" !in env
    && "TOURNAMENT_YEAR" !in env
  }

  /** An integer setting absent from the environment takes its default's value. */
  lemma DefaultInteger(env: map<string, string>, name: string, default: string, n: int)
    requires name !in env && default != [] && AllDigits(default) && DigitsValue(default) == n
    ensures IntSetting(env, name, default) == Ok(n)
  {
    DigitLiteral(default);
  }

  lemma DefaultPort(env: map<string, string>)
    requires NoSettings(env)
    ensures IntSetting(env, "RABBITMQ_PORT", "5672") == Ok(5672)
  {
    assert "5672"[..3] == "567";
    assert "567"[..2] == "56";
    assert "56"[..1] == "5";
    assert "5"[..0] == "";
    DefaultInteger(env, "RABBITMQ_PORT", "5672", 5672);
  }

  lemma DefaultHealthPort(env: map<string, string>)
    requires NoSettings(env)
    ensures IntSetting(env, "HEALTH_PORT", "8000") == Ok(8000)
  {
    assert "8000"[..3] == "800";
    assert "800"[..2] == "80";
    assert "80"[..1] == "8";
    assert "8"[..0] == "";
    DefaultInteger(env, "HEALTH_PORT", "8000", 8000);
  }

  lemma DefaultScrapeInterval(env: map<string, string>)
    requires NoSettings(env)
    ensures IntSetting(env, "SCRAPE_INTERVAL", "300") == Ok(300)
  {
    assert "300"[..2] == "30";
    assert "30"[..1] == "3";
    assert "3"[..0] == "";
    DefaultInteger(env, "SCRAPE_INTERVAL", "300", 300);
  }

  lemma DefaultRequestTimeout(env: map<string, string>)
    requires NoSettings(env)
    ensures IntSetting(env, "REQUEST_TIMEOUT", "60") == Ok(60)
  {
    assert "60"[..1] == "6";
    assert "6"[..0] == "";
    DefaultInteger(env, "REQUEST_TIMEOUT", "60", 60);
  }

  lemma DefaultMaxRetries(env: map<string, string>)
    requires NoSettings(env)
    ensures IntSetting(env, "MAX_RETRIES", "3") == Ok(3)
  {
    assert "3"[..0] == "";
    DefaultInteger(env, "MAX_RETRIES", "3", 3);
  }

  /** The defaults: with none of the settings in the environment, Config holds the
      documented values. */
  lemma DefaultConfig(env: map<string, string>)
    requires NoSettings(env)
    ensures FromEnvironment(env) == Ok(Config("localhost", 5672, "admin", "admin123", "/", "INFO",
                                              8000, 300, 60, 3, "2025"))
  {
    DefaultPort(env);
    DefaultHealthPort(env);
    DefaultScrapeInterval(env);
    DefaultRequestTimeout(env);
    DefaultMaxRetries(env);
  }
}
