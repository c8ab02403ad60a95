/**
 * The team request module: its options table and its eleven builders. Each
 * builder merges the caller's options into the module's table, which keeps
 * every override for later calls, and then requests the base URL followed by
 * the endpoint's fixed path and values read from the table.
 */
module Teams {
  import opened Wrappers
  import opened JsValues
  import opened OptionTable
  import opened Routes
  import Config

  /** The module's options table as it is when the module is loaded. */
  const InitialOptions: Table :=
    map["page_num" := Num(1), "team_key" := Str("frc1114"), "event_key" := Str("2014cmp"), "year" := Num(2016)]

  /** `getTeams`: /teams/{page_num}. */
  function TeamsUrl(pageNum: string): (url: string)
    ensures url == Route(["teams", pageNum])
  {
    PathOfTwo("teams", pageNum);
    Config.BaseUrl + "/teams/" + pageNum
  }

  /** `getTeam`: /team/{team_key}. */
  function TeamUrl(teamKey: string): (url: string)
    ensures url == Route(["team", teamKey])
  {
    PathOfTwo("team", teamKey);
    Config.BaseUrl + "/team/" + teamKey
  }

  /** `getTeamEvents`: /team/{team_key}/events. The year takes no part. */
  function TeamEventsUrl(teamKey: string): (url: string)
    ensures url == Route(["team", teamKey, "events"])
  {
    PathOfThree("team", teamKey, "events");
    Config.BaseUrl + "/team/" + teamKey + "/events"
  }

  /** `getTeamEventAwards`: /team/{team_key}/event/{event_key}/awards. */
  function TeamEventAwardsUrl(teamKey: string, eventKey: string): (url: string)
    ensures url == Route(["team", teamKey, "event", eventKey, "awards"])
  {
    PathOfFive("team", teamKey, "event", eventKey, "awards");
    Config.BaseUrl + "/team/" + teamKey + "/event/" + eventKey + "/awards"
  }

  /** `getTeamEventMatches`: /team/{team_key}/event/{event_key}/matches. */
  function TeamEventMatchesUrl(teamKey: string, eventKey: string): (url: string)
    ensures url == Route(["team", teamKey, "event", eventKey, "matches"])
  {
    PathOfFive("team", teamKey, "event", eventKey, "matches");
    Config.BaseUrl + "/team/" + teamKey + "/event/" + eventKey + "/matches"
  }

  /** `getTeamYearsParticipated`: /team/{team_key}/years_participated. */
  function TeamYearsParticipatedUrl(teamKey: string): (url: string)
    ensures url == Route(["team", teamKey, "years_participated"])
  {
    PathOfThree("team", teamKey, "years_participated");
    Config.BaseUrl + "/team/" + teamKey + "/years_participated"
  }

  /** `getTeamMedia`: /team/{team_key}/{year}/media. */
  function TeamMediaUrl(teamKey: string, year: string): (url: string)
    ensures url == Route(["team", teamKey, year, "media"])
  {
    PathOfFour("team", teamKey, year, "media");
    Config.BaseUrl + "/team/" + teamKey + "/" + year + "/media"
  }

  /** `getTeamEventHistory`: /team/{team_key}/history/events. */
  function TeamEventHistoryUrl(teamKey: string): (url: string)
    ensures url == Route(["team", teamKey, "history", "events"])
  {
    PathOfFour("team", teamKey, "history", "events");
    Config.BaseUrl + "/team/" + teamKey + "/history/events"
  }

  /** `getTeamAwardHistory`: /team/{team_key}/history/awards. */
  function TeamAwardHistoryUrl(teamKey: string): (url: string)
    ensures url == Route(["team", teamKey, "history", "awards"])
  {
    PathOfFour("team", teamKey, "history", "awards");
    Config.BaseUrl + "/team/" + teamKey + "/history/awards"
  }

  /** `getTeamRobotHistory`: /team/{team_key}/history/robots. */
  function TeamRobotHistoryUrl(teamKey: string): (url: string)
    ensures url == Route(["team", teamKey, "history", "robots"])
  {
    PathOfFour("team", teamKey, "history", "robots");
    Config.BaseUrl + "/team/" + teamKey + "/history/robots"
  }

  /** `getTeamDistricHistory`: /team/{team_key}/history/districts. */
  function TeamDistricHistoryUrl(teamKey: string): (url: string)
    ensures url == Route(["team", teamKey, "history", "districts"])
  {
    PathOfFour("team", teamKey, "history", "districts");
    Config.BaseUrl + "/team/" + teamKey + "/history/districts"
  }

  /** The module's state: its options table, which every call merges the caller's options into. */
  class TeamRequests {
    var opts: Table

    /** Every key of the initial table is still present, so no builder reads a missing key. */
    ghost predicate Valid()
      reads this
    {
      InitialOptions.Keys <= opts.Keys
    }

    /** Loading the module: the table starts as the module's defaults. */
    constructor()
      ensures Valid() && opts == InitialOptions
    {
      opts := InitialOptions;
    }

    method GetTeams(options: Option<Table>) returns (url: string)
      requires Valid()
      modifies this
      ensures Valid() && opts == Extend(old(opts), options)
      ensures url == TeamsUrl(ToJsString(opts["page_num"]))
    {
      opts := Extend(opts, options);
      url := TeamsUrl(Field(opts, "page_num"));
    }

    method GetTeam(options: Option<Table>) returns (url: string)
      requires Valid()
      modifies this
      ensures Valid() && opts == Extend(old(opts), options)
      ensures url == TeamUrl(ToJsString(opts["team_key"]))
    {
      opts := Extend(opts, options);
      url := TeamUrl(Field(opts, "team_key"));
    }

    method GetTeamEvents(options: Option<Table>) returns (url: string)
      requires Valid()
      modifies this
      ensures Valid() && opts == Extend(old(opts), options)
      ensures url == TeamEventsUrl(ToJsString(opts["team_key"]))
    {
      opts := Extend(opts, options);
      url := TeamEventsUrl(Field(opts, "team_key"));
    }

    method GetTeamEventAwards(options: Option<Table>) returns (url: string)
      requires Valid()
      modifies this
      ensures Valid() && opts == Extend(old(opts), options)
      ensures url == TeamEventAwardsUrl(ToJsString(opts["team_key"]), ToJsString(opts["event_key"]))
    {
      opts := Extend(opts, options);
      url := TeamEventAwardsUrl(Field(opts, "team_key"), Field(opts, "event_key"));
    }

    method GetTeamEventMatches(options: Option<Table>) returns (url: string)
      requires Valid()
      modifies this
      ensures Valid() && opts == Extend(old(opts), options)
      ensures url == TeamEventMatchesUrl(ToJsString(opts["team_key"]), ToJsString(opts["event_key"]))
    {
      opts := Extend(opts, options);
      url := TeamEventMatchesUrl(Field(opts, "team_key"), Field(opts, "event_key"));
    }

    method GetTeamYearsParticipated(options: Option<Table>) returns (url: string)
      requires Valid()
      modifies this
      ensures Valid() && opts == Extend(old(opts), options)
      ensures url == TeamYearsParticipatedUrl(ToJsString(opts["team_key"]))
    {
      opts := Extend(opts, options);
      url := TeamYearsParticipatedUrl(Field(opts, "team_key"));
    }

    method GetTeamMedia(options: Option<Table>) returns (url: string)
      requires Valid()
      modifies this
      ensures Valid() && opts == Extend(old(opts), options)
      ensures url == TeamMediaUrl(ToJsString(opts["team_key"]), ToJsString(opts["year"]))
    {
      opts := Extend(opts, options);
      url := TeamMediaUrl(Field(opts, "team_key"), Field(opts, "year"));
    }

    method GetTeamEventHistory(options: Option<Table>) returns (url: string)
      requires Valid()
      modifies this
      ensures Valid() && opts == Extend(old(opts), options)
      ensures url == TeamEventHistoryUrl(ToJsString(opts["team_key"]))
    {
      opts := Extend(opts, options);
      url := TeamEventHistoryUrl(Field(opts, "team_key"));
    }

    method GetTeamAwardHistory(options: Option<Table>) returns (url: string)
      requires Valid()
      modifies this
      ensures Valid() && opts == Extend(old(opts), options)
      ensures url == TeamAwardHistoryUrl(ToJsString(opts["team_key"]))
    {
      opts := Extend(opts, options);
      url := TeamAwardHistoryUrl(Field(opts, "team_key"));
    }

    method GetTeamRobotHistory(options: Option<Table>) returns (url: string)
      requires Valid()
      modifies this
      ensures Valid() && opts == Extend(old(opts), options)
      ensures url == TeamRobotHistoryUrl(ToJsString(opts["team_key"]))
    {
      opts := Extend(opts, options);
      url := TeamRobotHistoryUrl(Field(opts, "team_key"));
    }

    method GetTeamDistricHistory(options: Option<Table>) returns (url: string)
      requires Valid()
      modifies this
      ensures Valid() && opts == Extend(old(opts), options)
      ensures url == TeamDistricHistoryUrl(ToJsString(opts["team_key"]))
    {
      opts := Extend(opts, options);
      url := TeamDistricHistoryUrl(Field(opts, "team_key"));
    }
  }

  /**
   * While no value contains '/', the URLs with two parameters read back as
   * their segments, so the URL determines every value it was built from.
   */
  lemma TeamUrlsReadBack(teamKey: string, eventKey: string, year: string)
    requires '/' !in teamKey && '/' !in eventKey && '/' !in year
    ensures PathOf(TeamEventAwardsUrl(teamKey, eventKey)) == Some(["team", teamKey, "event", eventKey, "awards"])
    ensures PathOf(TeamEventMatchesUrl(teamKey, eventKey)) == Some(["team", teamKey, "event", eventKey, "matches"])
    ensures PathOf(TeamMediaUrl(teamKey, year)) == Some(["team", teamKey, year, "media"])
  {
    ParseRoute(["team", teamKey, "event", eventKey, "awards"]);
    ParseRoute(["team", teamKey, "event", eventKey, "matches"]);
    ParseRoute(["team", teamKey, year, "media"]);
  }

  /** Values are not encoded: a team key holding '/' adds a path segment. */
  lemma SlashInTeamKeySplitsPath()
    ensures TeamUrl("frc/254") == Route(["team", "frc", "254"])
    ensures PathOf(TeamUrl("frc/254")) == Some(["team", "frc", "254"])
  {
    PathOfThree("team", "frc", "254");
    assert "frc/254" == "frc" + "/" + "254";
    ParseRoute(["team", "frc", "254"]);
  }

  /**
   * Calls 5 to 7 of the team module's test run. Each supplies every key it
   * reads, so the URLs are the same whatever the table held before.
   */
  method TestRunMiddleCalls(t: TeamRequests) returns (urls: seq<string>)
    requires t.Valid()
    modifies t
    ensures t.Valid()
    ensures urls == [
      TeamEventMatchesUrl("frc254", "2014casj"),
      TeamYearsParticipatedUrl("frc254"),
      TeamMediaUrl("frc254", "2014")]
  {
    var u5 := t.GetTeamEventMatches(Some(map["team_key" := Str("frc254"), "event_key" := Str("2014casj")]));
    var u6 := t.GetTeamYearsParticipated(Some(map["team_key" := Str("frc254")]));
    var u7 := t.GetTeamMedia(Some(map["team_key" := Str("frc254"), "year" := Num(2014)]));
    assert ToJsString(Num(2014)) == "2014";
    urls := [u5, u6, u7];
  }

  /** Calls 8 to 11 of the team module's test run, which read only the team key they supply. */
  method TestRunHistoryCalls(t: TeamRequests) returns (urls: seq<string>)
    requires t.Valid()
    modifies t
    ensures t.Valid()
    ensures urls == [
      TeamEventHistoryUrl("frc254"),
      TeamAwardHistoryUrl("frc254"),
      TeamRobotHistoryUrl("frc254"),
      TeamDistricHistoryUrl("frc254")]
  {
    var u8 := t.GetTeamEventHistory(Some(map["team_key" := Str("frc254")]));
    var u9 := t.GetTeamAwardHistory(Some(map["team_key" := Str("frc254")]));
    var u10 := t.GetTeamRobotHistory(Some(map["team_key" := Str("frc254")]));
    var u11 := t.GetTeamDistricHistory(Some(map["team_key" := Str("frc254")]));
    urls := [u8, u9, u10, u11];
  }

  /** Calls 1 to 4 of the team module's test run, made on a module still holding its defaults. */
  method TestRunFirstCalls(t: TeamRequests) returns (urls: seq<string>)
    requires t.Valid() && t.opts == InitialOptions
    modifies t
    ensures t.Valid()
    ensures urls == [
      Config.BaseUrl + "/teams/1",
      Config.BaseUrl + "/team/frc254",
      TeamEventsUrl("frc254"),
      TeamEventAwardsUrl("frc254", "2014casj")]
  {
    var u1 := t.GetTeams(Some(map["page_num" := Num(1)]));
    assert ToJsString(Num(1)) == "1";
    assert u1 == Config.BaseUrl + "/teams/1";
    var u2 := t.GetTeam(Some(map["team_key" := Str("frc254")]));
    assert u2 == Config.BaseUrl + "/team/frc254";
    var u3 := t.GetTeamEvents(Some(map["team_key" := Str("frc254")]));
    var u4 := t.GetTeamEventAwards(Some(map["team_key" := Str("frc254"), "event_key" := Str("2014casj")]));
    urls := [u1, u2, u3, u4];
  }

  /** The team module's test run, call by call, on a freshly loaded module. */
  method TestRun() returns (urls: seq<string>)
    ensures urls == [
      Config.BaseUrl + "/teams/1",
      Config.BaseUrl + "/team/frc254",
      TeamEventsUrl("frc254"),
      TeamEventAwardsUrl("frc254", "2014casj"),
      TeamEventMatchesUrl("frc254", "2014casj"),
      TeamYearsParticipatedUrl("frc254"),
      TeamMediaUrl("frc254", "2014"),
      TeamEventHistoryUrl("frc254"),
      TeamAwardHistoryUrl("frc254"),
      TeamRobotHistoryUrl("frc254"),
      TeamDistricHistoryUrl("frc254")]
  {
    var t := new TeamRequests();
    var first := TestRunFirstCalls(t);
    var middle := TestRunMiddleCalls(t);
    var history := TestRunHistoryCalls(t);
    urls := first + middle + history;
  }

  /** A freshly loaded module called without options reads the default team key and year. */
  method DefaultMedia() returns (url: string)
    ensures url == TeamMediaUrl("frc1114", "2016")
  {
    var t := new TeamRequests();
    url := t.GetTeamMedia(None);
  }

  /** A team key supplied to one call is used by a later call that supplies no options. */
  method TeamKeyPersists(key: string) returns (first: string, second: string)
    ensures first == TeamUrl(key)
    ensures second == TeamEventsUrl(key)
  {
    var t := new TeamRequests();
    first := t.GetTeam(Some(map["team_key" := Str(key)]));
    second := t.GetTeamEvents(None);
  }

  /** Media requests read the year and the team key, whichever call last supplied them. */
  method MediaUsesStoredYear(key: string, year: int) returns (url: string)
    ensures url == TeamMediaUrl(key, IntToDecimal(year))
  {
    var t := new TeamRequests();
    var _ := t.GetTeamEvents(Some(map["year" := Num(year)]));
    url := t.GetTeamMedia(Some(map["team_key" := Str(key)]));
  }
}
