/**
 * The district request module: its options table and its four builders, each of
 * which merges the caller's options into the table and reads the district
 * abbreviation and the year from it.
 */
module Districts {
  import opened Wrappers
  import opened JsValues
  import opened OptionTable
  import opened Routes
  import Config

  /** The module's options table as it is when the module is loaded. */
  const InitialOptions: Table := map["year" := Num(2016), "district_short" := Str("ne")]

  /** `getDistrictList`: /districts/{year}. */
  function DistrictListUrl(year: string): (url: string)
    ensures url == Route(["districts", year])
  {
    PathOfTwo("districts", year);
    Config.BaseUrl + "/districts/" + year
  }

  /** `getDistrictEvents`: /district/{district_short}/{year}/events. */
  function DistrictEventsUrl(districtShort: string, year: string): (url: string)
    ensures url == Route(["district", districtShort, year, "events"])
  {
    PathOfFour("district", districtShort, year, "events");
    Config.BaseUrl + "/district/" + districtShort + "/" + year + "/events"
  }

  /** `getDistrictRankings`: /district/{district_short}/{year}/rankings. */
  function DistrictRankingsUrl(districtShort: string, year: string): (url: string)
    ensures url == Route(["district", districtShort, year, "rankings"])
  {
    PathOfFour("district", districtShort, year, "rankings");
    Config.BaseUrl + "/district/" + districtShort + "/" + year + "/rankings"
  }

  /** `getDistrictTeams`: /district/{district_short}/{year}/teams. */
  function DistrictTeamsUrl(districtShort: string, year: string): (url: string)
    ensures url == Route(["district", districtShort, year, "teams"])
  {
    PathOfFour("district", districtShort, year, "teams");
    Config.BaseUrl + "/district/" + districtShort + "/" + year + "/teams"
  }

  /** The module's state: its options table, which every call merges the caller's options into. */
  class DistrictRequests {
    var opts: Table

    /** Every key of the initial table is still present, so no builder reads a missing key. */
    ghost predicate Valid()
      reads this
    {
      InitialOptions.Keys <= opts.Keys
    }

    /** Loading the module: the table starts as the module's defaults. */
    constructor()
      ensures Valid() && opts == InitialOptions
    {
      opts := InitialOptions;
    }

    method GetDistrictList(options: Option<Table>) returns (url: string)
      requires Valid()
      modifies this
      ensures Valid() && opts == Extend(old(opts), options)
      ensures url == DistrictListUrl(ToJsString(opts["year"]))
    {
      opts := Extend(opts, options);
      url := DistrictListUrl(Field(opts, "year"));
    }

    method GetDistrictEvents(options: Option<Table>) returns (url: string)
      requires Valid()
      modifies this
      ensures Valid() && opts == Extend(old(opts), options)
      ensures url == DistrictEventsUrl(ToJsString(opts["district_short"]), ToJsString(opts["year"]))
    {
      opts := Extend(opts, options);
      url := DistrictEventsUrl(Field(opts, "district_short"), Field(opts, "year"));
    }

    method GetDistrictRankings(options: Option<Table>) returns (url: string)
      requires Valid()
      modifies this
      ensures Valid() && opts == Extend(old(opts), options)
      ensures url == DistrictRankingsUrl(ToJsString(opts["district_short"]), ToJsString(opts["year"]))
    {
      opts := Extend(opts, options);
      url := DistrictRankingsUrl(Field(opts, "district_short"), Field(opts, "year"));
    }

    method GetDistrictTeams(options: Option<Table>) returns (url: string)
      requires Valid()
      modifies this
      ensures Valid() && opts == Extend(old(opts), options)
      ensures url == DistrictTeamsUrl(ToJsString(opts["district_short"]), ToJsString(opts["year"]))
    {
      opts := Extend(opts, options);
      url := DistrictTeamsUrl(Field(opts, "district_short"), Field(opts, "year"));
    }
  }

  /**
   * While the district abbreviation contains no '/', the district URLs read
   * back as their segments, so the URL determines the district and the year.
   */
  lemma DistrictUrlsReadBack(districtShort: string, year: int)
    requires '/' !in districtShort
    ensures PathOf(DistrictListUrl(IntToDecimal(year))) == Some(["districts", IntToDecimal(year)])
    ensures PathOf(DistrictEventsUrl(districtShort, IntToDecimal(year))) == Some(["district", districtShort, IntToDecimal(year), "events"])
    ensures PathOf(DistrictRankingsUrl(districtShort, IntToDecimal(year))) == Some(["district", districtShort, IntToDecimal(year), "rankings"])
    ensures PathOf(DistrictTeamsUrl(districtShort, IntToDecimal(year))) == Some(["district", districtShort, IntToDecimal(year), "teams"])
  {
    var y := IntToDecimal(year);
    assert '/' !in ToJsString(Num(year));
    ParseRoute(["districts", y]);
    ParseRoute(["district", districtShort, y, "events"]);
    ParseRoute(["district", districtShort, y, "rankings"]);
    ParseRoute(["district", districtShort, y, "teams"]);
  }

  /** With {district_short: "ne", year: 2014}, the rankings request goes to /district/ne/2014/rankings. */
  method RankingsFor2014() returns (url: string)
    ensures url == DistrictRankingsUrl("ne", "2014") == Config.BaseUrl + "/district/ne/2014/rankings"
  {
    var d := new DistrictRequests();
    url := d.GetDistrictRankings(Some(map["district_short" := Str("ne"), "year" := Num(2014)]));
  }

  /** A call with no options leaves the table as it is, so the URL uses the stored values. */
  method NoOptionsUsesStoredValues() returns (list: string, teams: string)
    ensures list == DistrictListUrl("2014")
    ensures teams == DistrictTeamsUrl("ne", "2014")
  {
    var d := new DistrictRequests();
    list := d.GetDistrictList(Some(map["year" := Num(2014)]));
    assert Field(d.opts, "year") == ToJsString(Num(2014)) == "2014";
    teams := d.GetDistrictTeams(None);
  }
}
