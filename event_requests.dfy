/**
 * The event request module: its options table and its eight builders, each of
 * which merges the caller's options into the table and reads the event key or
 * the year from it.
 */
module Events {
  import opened Wrappers
  import opened JsValues
  import opened OptionTable
  import opened Routes
  import Config

  /** The module's options table as it is when the module is loaded. */
  const InitialOptions: Table := map["year" := Num(2016), "event_key" := Str("2014cmp")]

  /** `getEvents`: /events/{year}. */
  function EventsUrl(year: string): (url: string)
    ensures url == Route(["events", year])
  {
    PathOfTwo("events", year);
    Config.BaseUrl + "/events/" + year
  }

  /** `getEvent`: /event/{event_key}. */
  function EventUrl(eventKey: string): (url: string)
    ensures url == Route(["event", eventKey])
  {
    PathOfTwo("event", eventKey);
    Config.BaseUrl + "/event/" + eventKey
  }

  /** `getEventTeams`: /event/{event_key}/teams. */
  function EventTeamsUrl(eventKey: string): (url: string)
    ensures url == Route(["event", eventKey, "teams"])
  {
    PathOfThree("event", eventKey, "teams");
    Config.BaseUrl + "/event/" + eventKey + "/teams"
  }

  /** `getEventMatches`: /event/{event_key}/matches. */
  function EventMatchesUrl(eventKey: string): (url: string)
    ensures url == Route(["event", eventKey, "matches"])
  {
    PathOfThree("event", eventKey, "matches");
    Config.BaseUrl + "/event/" + eventKey + "/matches"
  }

  /** `getEventStats`: /event/{event_key}/status (the path says "status", not "stats"). */
  function EventStatsUrl(eventKey: string): (url: string)
    ensures url == Route(["event", eventKey, "status"])
  {
    PathOfThree("event", eventKey, "status");
    Config.BaseUrl + "/event/" + eventKey + "/status"
  }

  /** `getEventRankings`: /event/{event_key}/rankings. */
  function EventRankingsUrl(eventKey: string): (url: string)
    ensures url == Route(["event", eventKey, "rankings"])
  {
    PathOfThree("event", eventKey, "rankings");
    Config.BaseUrl + "/event/" + eventKey + "/rankings"
  }

  /** `getEventAwards`: /event/{event_key}/awards. */
  function EventAwardsUrl(eventKey: string): (url: string)
    ensures url == Route(["event", eventKey, "awards"])
  {
    PathOfThree("event", eventKey, "awards");
    Config.BaseUrl + "/event/" + eventKey + "/awards"
  }

  /** `getEventDistricPoints`: /event/{event_key}/district_points. */
  function EventDistricPointsUrl(eventKey: string): (url: string)
    ensures url == Route(["event", eventKey, "district_points"])
  {
    PathOfThree("event", eventKey, "district_points");
    Config.BaseUrl + "/event/" + eventKey + "/district_points"
  }

  /** The module's state: its options table, which every call merges the caller's options into. */
  class EventRequests {
    var opts: Table

    /** Every key of the initial table is still present, so no builder reads a missing key. */
    ghost predicate Valid()
      reads this
    {
      InitialOptions.Keys <= opts.Keys
    }

    /** Loading the module: the table starts as the module's defaults. */
    constructor()
      ensures Valid() && opts == InitialOptions
    {
      opts := InitialOptions;
    }

    method GetEvents(options: Option<Table>) returns (url: string)
      requires Valid()
      modifies this
      ensures Valid() && opts == Extend(old(opts), options)
      ensures url == EventsUrl(ToJsString(opts["year"]))
    {
      opts := Extend(opts, options);
      url := EventsUrl(Field(opts, "year"));
    }

    method GetEvent(options: Option<Table>) returns (url: string)
      requires Valid()
      modifies this
      ensures Valid() && opts == Extend(old(opts), options)
      ensures url == EventUrl(ToJsString(opts["event_key"]))
    {
      opts := Extend(opts, options);
      url := EventUrl(Field(opts, "event_key"));
    }

    method GetEventTeams(options: Option<Table>) returns (url: string)
      requires Valid()
      modifies this
      ensures Valid() && opts == Extend(old(opts), options)
      ensures url == EventTeamsUrl(ToJsString(opts["event_key"]))
    {
      opts := Extend(opts, options);
      url := EventTeamsUrl(Field(opts, "event_key"));
    }

    method GetEventMatches(options: Option<Table>) returns (url: string)
      requires Valid()
      modifies this
      ensures Valid() && opts == Extend(old(opts), options)
      ensures url == EventMatchesUrl(ToJsString(opts["event_key"]))
    {
      opts := Extend(opts, options);
      url := EventMatchesUrl(Field(opts, "event_key"));
    }

    method GetEventStats(options: Option<Table>) returns (url: string)
      requires Valid()
      modifies this
      ensures Valid() && opts == Extend(old(opts), options)
      ensures url == EventStatsUrl(ToJsString(opts["event_key"]))
    {
      opts := Extend(opts, options);
      url := EventStatsUrl(Field(opts, "event_key"));
    }

    method GetEventRankings(options: Option<Table>) returns (url: string)
      requires Valid()
      modifies this
      ensures Valid() && opts == Extend(old(opts), options)
      ensures url == EventRankingsUrl(ToJsString(opts["event_key"]))
    {
      opts := Extend(opts, options);
      url := EventRankingsUrl(Field(opts, "event_key"));
    }

    method GetEventAwards(options: Option<Table>) returns (url: string)
      requires Valid()
      modifies this
      ensures Valid() && opts == Extend(old(opts), options)
      ensures url == EventAwardsUrl(ToJsString(opts["event_key"]))
    {
      opts := Extend(opts, options);
      url := EventAwardsUrl(Field(opts, "event_key"));
    }

    method GetEventDistricPoints(options: Option<Table>) returns (url: string)
      requires Valid()
      modifies this
      ensures Valid() && opts == Extend(old(opts), options)
      ensures url == EventDistricPointsUrl(ToJsString(opts["event_key"]))
    {
      opts := Extend(opts, options);
      url := EventDistricPointsUrl(Field(opts, "event_key"));
    }
  }

  /** While the event key contains no '/', every event URL reads back as its segments. */
  lemma EventUrlsReadBack(eventKey: string, year: int)
    requires '/' !in eventKey
    ensures PathOf(EventsUrl(IntToDecimal(year))) == Some(["events", IntToDecimal(year)])
    ensures PathOf(EventUrl(eventKey)) == Some(["event", eventKey])
    ensures PathOf(EventStatsUrl(eventKey)) == Some(["event", eventKey, "status"])
    ensures PathOf(EventDistricPointsUrl(eventKey)) == Some(["event", eventKey, "district_points"])
  {
    assert '/' !in ToJsString(Num(year));
    ParseRoute(["events", IntToDecimal(year)]);
    ParseRoute(["event", eventKey]);
    ParseRoute(["event", eventKey, "status"]);
    ParseRoute(["event", eventKey, "district_points"]);
  }

  /** The statistics builder asks for the event's status resource, not a "stats" one. */
  lemma StatsUrlIsStatus(eventKey: string)
    requires '/' !in eventKey
    ensures EventStatsUrl(eventKey) != Route(["event", eventKey, "stats"])
  {
    ParseRoute(["event", eventKey, "status"]);
    ParseRoute(["event", eventKey, "stats"]);
  }

  /** An event key supplied to one call is used by later calls that supply no options. */
  method EventKeyPersists(key: string) returns (event: string, teams: string)
    ensures event == EventUrl(key)
    ensures teams == EventTeamsUrl(key)
  {
    var e := new EventRequests();
    event := e.GetEvent(Some(map["event_key" := Str(key)]));
    teams := e.GetEventTeams(None);
  }

  /** The event list reads only the year: a stored event key plays no part. */
  method EventsReadsOnlyYear(key: string) returns (url: string)
    ensures url == EventsUrl("2016")
  {
    var e := new EventRequests();
    var _ := e.GetEvent(Some(map["event_key" := Str(key)]));
    url := e.GetEvents(None);
  }

  /** The event module's test run, call by call, on a freshly loaded module. */
  method TestRun() returns (urls: seq<string>)
    ensures urls == [
      EventsUrl("2010"),
      EventUrl("2010sc"),
      EventTeamsUrl("2010sc"),
      EventStatsUrl("2010sc"),
      EventRankingsUrl("2010sc"),
      EventAwardsUrl("2010sc"),
      EventDistricPointsUrl("2014cthar")]
  {
    var e := new EventRequests();
    var u1 := e.GetEvents(Some(map["year" := Num(2010)]));
    assert ToJsString(Num(2010)) == "2010";
    var u2 := e.GetEvent(Some(map["event_key" := Str("2010sc")]));
    var u3 := e.GetEventTeams(Some(map["event_key" := Str("2010sc")]));
    var u4 := e.GetEventStats(Some(map["event_key" := Str("2010sc")]));
    var u5 := e.GetEventRankings(Some(map["event_key" := Str("2010sc")]));
    var u6 := e.GetEventAwards(Some(map["event_key" := Str("2010sc")]));
    var u7 := e.GetEventDistricPoints(Some(map["event_key" := Str("2014cthar")]));
    urls := [u1, u2, u3, u4, u5, u6, u7];
  }
}
