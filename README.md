# The Blue Alliance request builders, modelled in Dafny

This project models the core of a small Node.js client for The Blue Alliance
API (version 2). The client has four request modules: teams, events,
districts and matches. Each module keeps one options table, which starts as the
module's defaults. Every endpoint function does the same two things:

1. It merges the caller's `options` object into that table with Node's
   `util._extend`. The merge writes into the module's own defaults, so an
   override stays in the table for every later call to that module.
2. It builds the request URL. The URL is the base URL
   `http://thebluealliance.com/api/v2`, then the endpoint's fixed path, then
   values read from the table. The values are concatenated with JavaScript's
   `+` and are not URL-encoded.

The URL then goes to the HTTP client, which is not modelled.

How the model is laid out:

- `Config` holds the API version and the base URL.
- `JsValues` holds the values a table can contain and the text `+` appends for
  each of them. Integers are printed in decimal, and a lemma shows that the
  printed form reads back as the same integer.
- `OptionTable` holds the merge (`Extend`) and the read of one table entry.
  Reading a missing entry gives the text "undefined", as in JavaScript. Every
  default key stays in the table, so no builder ever reads a missing entry.
- `Routes` describes a URL as the base URL plus a list of path segments. Its
  lemmas prove that splitting such a URL at '/' gives back exactly those
  segments when no segment contains '/'.
- `Teams`, `Events`, `Districts` and `Matches` each have a class whose `opts`
  field is the module's table. The constructor sets the defaults. There is
  one method per endpoint: it merges the options and returns the URL. Each
  endpoint also has a pure URL-template function that takes the values it
  substitutes.

Where descriptions of the library and its code differ, the model follows the
code:

- There are 24 builders: eleven for teams, eight for events, four for
  districts and one for matches.
- The merge changes the module's defaults in place. It does not produce a
  fresh record per call.
- `getTeamEvents` does not put the year in its URL, although its doc comment
  lists a year parameter.
- `getEventStats` requests `/event/{event_key}/status`, not `.../stats`.
- Endpoint names keep the code's spelling, for example
  `GetTeamDistricHistory` and `GetEventDistricPoints`.

## Model

| member | source | states |
|---|---|---|
| Teams.TeamRequests.constructor | modules/team.requests.js:30-35 | the table starts as exactly {page_num: 1, team_key: "frc1114", event_key: "2014cmp", year: 2016}, which holds every key the builders read |
| Teams.TeamsUrl | modules/team.requests.js:68 | the URL is the base URL followed by the segments of /teams/{page_num}, each value substituted unencoded |
| Teams.TeamRequests.GetTeams | modules/team.requests.js:61-74 | the new table is the old one with every supplied key overwritten and every other key kept (none is lost); every default key is still present, and the URL is the template applied to the printed value the merged table holds for page_num |
| Teams.TeamUrl | modules/team.requests.js:93 | the URL is the base URL followed by the segments of /team/{team_key}, each value substituted unencoded |
| Teams.TeamRequests.GetTeam | modules/team.requests.js:86-99 | the new table is the old one with every supplied key overwritten and every other key kept (none is lost); every default key is still present, and the URL is the template applied to the printed value the merged table holds for team_key |
| Teams.TeamEventsUrl | modules/team.requests.js:122 | the URL is the base URL followed by the segments of /team/{team_key}/events, each value substituted unencoded |
| Teams.TeamRequests.GetTeamEvents | modules/team.requests.js:115-128 | the new table is the old one with every supplied key overwritten and every other key kept (none is lost); every default key is still present, and the URL is the template applied to the printed value the merged table holds for team_key (not year, which the doc comment lists) |
| Teams.TeamEventAwardsUrl | modules/team.requests.js:152 | the URL is the base URL followed by the segments of /team/{team_key}/event/{event_key}/awards, each value substituted unencoded |
| Teams.TeamRequests.GetTeamEventAwards | modules/team.requests.js:145-158 | the new table is the old one with every supplied key overwritten and every other key kept (none is lost); every default key is still present, and the URL is the template applied to the printed value the merged table holds for team_key, event_key |
| Teams.TeamEventMatchesUrl | modules/team.requests.js:181 | the URL is the base URL followed by the segments of /team/{team_key}/event/{event_key}/matches, each value substituted unencoded |
| Teams.TeamRequests.GetTeamEventMatches | modules/team.requests.js:174-187 | the new table is the old one with every supplied key overwritten and every other key kept (none is lost); every default key is still present, and the URL is the template applied to the printed value the merged table holds for team_key, event_key |
| Teams.TeamYearsParticipatedUrl | modules/team.requests.js:206 | the URL is the base URL followed by the segments of /team/{team_key}/years_participated, each value substituted unencoded |
| Teams.TeamRequests.GetTeamYearsParticipated | modules/team.requests.js:199-212 | the new table is the old one with every supplied key overwritten and every other key kept (none is lost); every default key is still present, and the URL is the template applied to the printed value the merged table holds for team_key |
| Teams.TeamMediaUrl | modules/team.requests.js:235 | the URL is the base URL followed by the segments of /team/{team_key}/{year}/media, each value substituted unencoded |
| Teams.TeamRequests.GetTeamMedia | modules/team.requests.js:228-241 | the new table is the old one with every supplied key overwritten and every other key kept (none is lost); every default key is still present, and the URL is the template applied to the printed value the merged table holds for team_key, year |
| Teams.TeamEventHistoryUrl | modules/team.requests.js:264 | the URL is the base URL followed by the segments of /team/{team_key}/history/events, each value substituted unencoded |
| Teams.TeamRequests.GetTeamEventHistory | modules/team.requests.js:257-270 | the new table is the old one with every supplied key overwritten and every other key kept (none is lost); every default key is still present, and the URL is the template applied to the printed value the merged table holds for team_key |
| Teams.TeamAwardHistoryUrl | modules/team.requests.js:289 | the URL is the base URL followed by the segments of /team/{team_key}/history/awards, each value substituted unencoded |
| Teams.TeamRequests.GetTeamAwardHistory | modules/team.requests.js:282-295 | the new table is the old one with every supplied key overwritten and every other key kept (none is lost); every default key is still present, and the URL is the template applied to the printed value the merged table holds for team_key |
| Teams.TeamRobotHistoryUrl | modules/team.requests.js:315 | the URL is the base URL followed by the segments of /team/{team_key}/history/robots, each value substituted unencoded |
| Teams.TeamRequests.GetTeamRobotHistory | modules/team.requests.js:308-321 | the new table is the old one with every supplied key overwritten and every other key kept (none is lost); every default key is still present, and the URL is the template applied to the printed value the merged table holds for team_key |
| Teams.TeamDistricHistoryUrl | modules/team.requests.js:341 | the URL is the base URL followed by the segments of /team/{team_key}/history/districts, each value substituted unencoded |
| Teams.TeamRequests.GetTeamDistricHistory | modules/team.requests.js:334-347 | the new table is the old one with every supplied key overwritten and every other key kept (none is lost); every default key is still present, and the URL is the template applied to the printed value the merged table holds for team_key |
| Events.EventRequests.constructor | modules/event.requests.js:30-33 | the table starts as exactly {year: 2016, event_key: "2014cmp"}, which holds every key the builders read |
| Events.EventsUrl | modules/event.requests.js:64 | the URL is the base URL followed by the segments of /events/{year}, each value substituted unencoded |
| Events.EventRequests.GetEvents | modules/event.requests.js:57-70 | the new table is the old one with every supplied key overwritten and every other key kept (none is lost); every default key is still present, and the URL is the template applied to the printed value the merged table holds for year (not event_key) |
| Events.EventUrl | modules/event.requests.js:89 | the URL is the base URL followed by the segments of /event/{event_key}, each value substituted unencoded |
| Events.EventRequests.GetEvent | modules/event.requests.js:82-95 | the new table is the old one with every supplied key overwritten and every other key kept (none is lost); every default key is still present, and the URL is the template applied to the printed value the merged table holds for event_key |
| Events.EventTeamsUrl | modules/event.requests.js:114 | the URL is the base URL followed by the segments of /event/{event_key}/teams, each value substituted unencoded |
| Events.EventRequests.GetEventTeams | modules/event.requests.js:107-120 | the new table is the old one with every supplied key overwritten and every other key kept (none is lost); every default key is still present, and the URL is the template applied to the printed value the merged table holds for event_key |
| Events.EventMatchesUrl | modules/event.requests.js:139 | the URL is the base URL followed by the segments of /event/{event_key}/matches, each value substituted unencoded |
| Events.EventRequests.GetEventMatches | modules/event.requests.js:132-145 | the new table is the old one with every supplied key overwritten and every other key kept (none is lost); every default key is still present, and the URL is the template applied to the printed value the merged table holds for event_key |
| Events.EventStatsUrl | modules/event.requests.js:164 | the URL is the base URL followed by the segments of /event/{event_key}/status (status, not stats), each value substituted unencoded |
| Events.EventRequests.GetEventStats | modules/event.requests.js:157-170 | the new table is the old one with every supplied key overwritten and every other key kept (none is lost); every default key is still present, and the URL is the template applied to the printed value the merged table holds for event_key |
| Events.EventRankingsUrl | modules/event.requests.js:190 | the URL is the base URL followed by the segments of /event/{event_key}/rankings, each value substituted unencoded |
| Events.EventRequests.GetEventRankings | modules/event.requests.js:183-196 | the new table is the old one with every supplied key overwritten and every other key kept (none is lost); every default key is still present, and the URL is the template applied to the printed value the merged table holds for event_key |
| Events.EventAwardsUrl | modules/event.requests.js:215 | the URL is the base URL followed by the segments of /event/{event_key}/awards, each value substituted unencoded |
| Events.EventRequests.GetEventAwards | modules/event.requests.js:208-221 | the new table is the old one with every supplied key overwritten and every other key kept (none is lost); every default key is still present, and the URL is the template applied to the printed value the merged table holds for event_key |
| Events.EventDistricPointsUrl | modules/event.requests.js:240 | the URL is the base URL followed by the segments of /event/{event_key}/district_points, each value substituted unencoded |
| Events.EventRequests.GetEventDistricPoints | modules/event.requests.js:233-246 | the new table is the old one with every supplied key overwritten and every other key kept (none is lost); every default key is still present, and the URL is the template applied to the printed value the merged table holds for event_key |
| Districts.DistrictRequests.constructor | modules/district.requests.js:26-29 | the table starts as exactly {year: 2016, district_short: "ne"}, which holds every key the builders read |
| Districts.DistrictListUrl | modules/district.requests.js:57 | the URL is the base URL followed by the segments of /districts/{year}, each value substituted unencoded |
| Districts.DistrictRequests.GetDistrictList | modules/district.requests.js:50-63 | the new table is the old one with every supplied key overwritten and every other key kept (none is lost); every default key is still present, and the URL is the template applied to the printed value the merged table holds for year |
| Districts.DistrictEventsUrl | modules/district.requests.js:86 | the URL is the base URL followed by the segments of /district/{district_short}/{year}/events, each value substituted unencoded |
| Districts.DistrictRequests.GetDistrictEvents | modules/district.requests.js:79-92 | the new table is the old one with every supplied key overwritten and every other key kept (none is lost); every default key is still present, and the URL is the template applied to the printed value the merged table holds for district_short, year |
| Districts.DistrictRankingsUrl | modules/district.requests.js:115 | the URL is the base URL followed by the segments of /district/{district_short}/{year}/rankings, each value substituted unencoded |
| Districts.DistrictRequests.GetDistrictRankings | modules/district.requests.js:108-121 | the new table is the old one with every supplied key overwritten and every other key kept (none is lost); every default key is still present, and the URL is the template applied to the printed value the merged table holds for district_short, year |
| Districts.DistrictTeamsUrl | modules/district.requests.js:144 | the URL is the base URL followed by the segments of /district/{district_short}/{year}/teams, each value substituted unencoded |
| Districts.DistrictRequests.GetDistrictTeams | modules/district.requests.js:137-150 | the new table is the old one with every supplied key overwritten and every other key kept (none is lost); every default key is still present, and the URL is the template applied to the printed value the merged table holds for district_short, year |
| Matches.MatchRequests.constructor | modules/match.requests.js:29-31 | the table starts as exactly {match_key: "2014cmp_f1m1"}, which holds every key the builders read |
| Matches.SingleMatchUrl | modules/match.requests.js:61 | the URL is the base URL followed by the segments of /match/{match_key}, each value substituted unencoded |
| Matches.MatchRequests.GetSingleMatch | modules/match.requests.js:54-67 | the new table is the old one with every supplied key overwritten and every other key kept (none is lost); every default key is still present, and the URL is the template applied to the printed value the merged table holds for match_key |
| Config.BaseUrl | configurations/constants.js:10-11 | every URL starts with "http://thebluealliance.com/api/" followed by the API version v2 |
| JsValues.ToJsString | modules/team.requests.js:68 | the text `+` appends for a value: a number reads back as that same number and never contains '/'; a string is itself; null, undefined and booleans are their words |
| OptionTable.Field | modules/team.requests.js:68 | the text a builder appends for `base_options.<key>`: "undefined" for a missing key, a string value as itself, a number as decimal text that reads back as that number and holds no '/' |
| JsValues.IntToDecimalRoundTrip | modules/team.requests.js:68 | parsing the decimal text of any integer, such as a page number, gives back that integer |
| JsValues.IntToDecimalInjective | modules/team.requests.js:68 | different integers print as different URL segments |
| OptionTable.Extend | configurations/configuration.js:15 | with no options the table is returned unchanged; otherwise its keys are the union of both key sets, every supplied key takes the supplied value, and every other key keeps its old value |
| OptionTable.ExtendNoOverrides | modules/district.requests.js:52 | calling with no options, or with an empty object, leaves the table exactly as it was |
| OptionTable.ExtendIdempotent | configurations/configuration.js:15 | merging the same options a second time changes nothing further |
| OptionTable.OverridePersists | modules/team.requests.js:63 | a value supplied for a key stays in the table through later merges that do not supply that key |
| Routes.ParseRoute | modules/team.requests.js:152 | a URL built from '/'-free segments splits back into exactly those segments |
| Routes.RouteInjective | modules/team.requests.js:152 | two lists of '/'-free segments that build the same URL are equal |
| Teams.TeamUrlsReadBack | modules/team.requests.js:152 | while team key, event key and year contain no '/', the awards, matches and media URLs read back as their segments, so each URL determines its values |
| Teams.SlashInTeamKeySplitsPath | modules/team.requests.js:93 | no encoding is done: team key "frc/254" yields the same URL as the three segments team, frc, 254 |
| Teams.TestRun | tests/team.requests.test.js:29-104 | on a fresh module the eleven calls of the team test run request, in order: base URL + "/teams/1", base URL + "/team/frc254", then the events, 2014casj awards, 2014casj matches, years participated, 2014 media, and event, award, robot and district histories of frc254 |
| Teams.TestRunFirstCalls | tests/team.requests.test.js:29-55 | from the default table, calls 1 to 4 of the test run request page 1 of the teams, team frc254, its events and its awards at 2014casj |
| Teams.TestRunMiddleCalls | tests/team.requests.test.js:57-76 | from any table, calls 5 to 7 request frc254's matches at 2014casj, its years participated and its 2014 media, because each call supplies every key it reads |
| Teams.TestRunHistoryCalls | tests/team.requests.test.js:78-104 | from any table, calls 8 to 11 request frc254's event, award, robot and district histories |
| Teams.DefaultMedia | modules/team.requests.js:30-35 | on a fresh module, media without options uses the defaults frc1114 and 2016 |
| Teams.TeamKeyPersists | modules/team.requests.js:86-128 | after `getTeam` with some team key, `getTeamEvents` without options requests that same team's events |
| Teams.MediaUsesStoredYear | modules/team.requests.js:228-241 | a year supplied to an earlier call (even one that does not read it) is the year a later media request uses |
| Events.EventUrlsReadBack | modules/event.requests.js:89 | while the event key contains no '/', the events, event, status and district-points URLs read back as their segments; the printed year never contains '/' |
| Events.StatsUrlIsStatus | modules/event.requests.js:164 | the statistics builder's URL differs from the "/stats" route for every '/'-free event key |
| Events.EventKeyPersists | modules/event.requests.js:82-120 | after `getEvent` with some event key, `getEventTeams` without options requests that same event's teams |
| Events.EventsReadsOnlyYear | modules/event.requests.js:57-95 | a stored event key has no effect on the event list, which uses the stored year 2016 |
| Events.TestRun | tests/event.requests.test.js:28-75 | on a fresh module the seven calls of the event test run request, in order: the 2010 events, event 2010sc, its teams, status, rankings and awards, then the district points of 2014cthar |
| Districts.DistrictUrlsReadBack | modules/district.requests.js:115 | while the district abbreviation contains no '/', every district URL reads back as its segments, so it determines the district and the year |
| Districts.RankingsFor2014 | tests/district.requests.test.js:43 | the call with {district_short: "ne", year: 2014} on a fresh module requests base URL + "/district/ne/2014/rankings" |
| Districts.NoOptionsUsesStoredValues | modules/district.requests.js:137-150 | a call without options uses the values already in the table: the year supplied before and the default district ne |
| Matches.SingleMatchReadsBack | modules/match.requests.js:61 | a match key with no '/' reads back from its URL |
| Matches.DefaultMatch | modules/match.requests.js:29-31 | a fresh module called without options requests "http://thebluealliance.com/api/v2/match/2014cmp_f1m1" |
| Matches.MatchKeyPersists | modules/match.requests.js:54-67 | a supplied match key replaces the stored one and is used again by a later call without options |

## Left out

- The HTTP request is not modelled. This covers `client.get`, the request
  headers and forwarding the callback's (error, response, body). These belong
  to the external `request` library. Each endpoint method returns the URL it
  would pass to the client, not the client's return value. `Config.Headers`
  records the header value only.
- `wrapper.js` and `main.js` are not modelled. They only wire up and export
  the modules.
- The test files' network calls and console logging are not modelled. Their
  literal inputs appear in the scenario members above.
- Numbers are modelled as unbounded integers printed in decimal. JavaScript
  numbers are doubles: fractions, exponent notation from 1e21 up, and the
  precision lost above 2^53 are not modelled.
- `Value` has no object or array case. An object or array stored as an
  option value is not modelled; JavaScript would print it as
  "[object Object]" or as its elements joined by commas.
- The options argument is always modelled as an absent value or a plain
  object. A non-object argument, such as a number, is treated as absent, which
  is what `util._extend` does. Array arguments and inherited properties are
  not modelled.
- The undeclared global `base_options` is not modelled. All four modules
  assign it, but each reads it right after assigning it within one
  synchronous call, so it always equals the calling module's table.
- Concurrency is not modelled. The merge and the URL build run in one
  synchronous call.
