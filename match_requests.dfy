/**
 * The match request module: its options table and its single builder.
 */
module Matches {
  import opened Wrappers
  import opened JsValues
  import opened OptionTable
  import opened Routes
  import Config

  /** The module's options table as it is when the module is loaded. */
  const InitialOptions: Table := map["match_key" := Str("2014cmp_f1m1")]

  /** `getSingleMatch`: /match/{match_key}. */
  function SingleMatchUrl(matchKey: string): (url: string)
    ensures url == Route(["match", matchKey])
  {
    PathOfTwo("match", matchKey);
    Config.BaseUrl + "/match/" + matchKey
  }

  /** The module's state: its options table, which every call merges the caller's options into. */
  class MatchRequests {
    var opts: Table

    /** Every key of the initial table is still present, so no builder reads a missing key. */
    ghost predicate Valid()
      reads this
    {
      InitialOptions.Keys <= opts.Keys
    }

    /** Loading the module: the table starts as the module's defaults. */
    constructor()
      ensures Valid() && opts == InitialOptions
    {
      opts := InitialOptions;
    }

    method GetSingleMatch(options: Option<Table>) returns (url: string)
      requires Valid()
      modifies this
      ensures Valid() && opts == Extend(old(opts), options)
      ensures url == SingleMatchUrl(ToJsString(opts["match_key"]))
    {
      opts := Extend(opts, options);
      url := SingleMatchUrl(Field(opts, "match_key"));
    }
  }

  /** A match key without '/' reads back from the URL. */
  lemma SingleMatchReadsBack(matchKey: string)
    requires '/' !in matchKey
    ensures PathOf(SingleMatchUrl(matchKey)) == Some(["match", matchKey])
  {
    ParseRoute(["match", matchKey]);
  }

  /** A freshly loaded module with no options asks for the default match. */
  method DefaultMatch() returns (url: string)
    ensures url == "http://thebluealliance.com/api/v2/match/2014cmp_f1m1"
  {
    var m := new MatchRequests();
    url := m.GetSingleMatch(None);
  }

  /** A supplied match key replaces the stored one and is used by a later call without options. */
  method MatchKeyPersists(key: string) returns (first: string, second: string)
    ensures first == SingleMatchUrl(key)
    ensures second == SingleMatchUrl(key)
  {
    var m := new MatchRequests();
    first := m.GetSingleMatch(Some(map["match_key" := Str(key)]));
    second := m.GetSingleMatch(None);
  }
}
