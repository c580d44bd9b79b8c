# BART API client: a Dafny model

This project models the logic of `Bart`, a thin Python client for the BART
(Bay Area Rapid Transit) real-time web API. Every public method of the client
works the same way:

1. It builds a flat parameter map. The map holds the command tag, the
   client's access key, `json='y'` and the method's own parameters.
2. It sends one GET request to one of six fixed endpoint URLs.
3. If the raw reply text contains the substring `"error"`, it does nothing.
4. Otherwise it walks a fixed path through the decoded JSON and prints fields.

The model keeps both halves as pure functions.

- **Requests** (`requests.dfy`): one builder per method. Each builds a
  `Request(endpoint, payload)` with `payload: map<string, Option<string>>`.
  `None` marks a parameter the caller left out. `Call` lists every public
  method with its arguments, and `RequestOf` maps each one to the request it
  sends.
- **Replies**: each reply is given as two parameters, the raw text and the
  decoded body. The decoded body is a typed datatype such as
  `EtdRoot(date, time, station, message)`. Each method's printing becomes a
  `Run<T>(lines, fault)`. `lines` holds the structured records printed, in
  print order. `fault` is the `KeyError`/`TypeError` the Python code raises
  on shapes it does not handle. Records printed before the exception are kept.
- **Gate** (`text.dfy`): Python's `"error" in r.text`, modelled as the
  substring test `Contains`. It is proved equal to "the pattern occurs at
  some offset".
- **Estimates** (`estimates.dfy`): `etd`. This covers the rule that a
  platform beats a direction, the three-level station → destination →
  estimate walk with its filter, and the early return when only a warning
  came back.
- **Schedules** (`schedules.dfy`): `arrive`/`depart` and their walk over even
  indices, `fare`, the stop list of `routesched`, and `scheds`, which has no
  gate.
- **Stations** (`stations.dfy`): `stns` and the yes/no flags of `stnaccess`.
- **Advisories** (`advisories.dfy`): `bsa`, `elev` and `train_count`. This
  includes `bsa`'s habit of printing the last announcement's SMS text for
  every announcement.

Some parameters may be passed to the client as either numbers or text: the
platform, trip counts, route numbers and schedule numbers. They are modelled
as `Scalar = Int | Str`. `Render` is Python's `str()` of such a value. It is
how the value reaches the query string, and how `etd` compares a platform.

Two points about the code are easy to miss, and the model follows the code:

- `scheds` is the one method without the `"error"` check. Its reply is
  parsed unconditionally.
- The docstrings say the server drops `date` when `sched` is given. The
  client does not implement this, so the model sends both.

## Model

| member | source | states |
|---|---|---|
| Text.Contains | bart_lib/bart.py:91 | Python's substring test is true exactly when the pattern occurs at some offset of the text |
| Text.ContainsInContext | bart_lib/bart.py:91 | a reply whose text contains "error" anywhere, whatever surrounds it, is rejected by the gate |
| Text.FreeTextTripsGate | bart_lib/bart.py:109 | the gate also rejects a well-formed reply whose free text merely contains "error" (here "terrorism") |
| Text.Join | bart_lib/bart.py:333 | `", ".join` starts with the first part, followed by the separator when more parts come, and is at least as long as all parts together |
| Text.JoinSnoc | bart_lib/bart.py:333 | `", ".join` of one more part appends one separator and that part |
| Text.JoinLength | bart_lib/bart.py:333 | a join is as long as its parts plus one separator between each neighbouring pair |
| Text.IntDecimalRoundTrip | bart_lib/bart.py:181 | `str()` of an integer platform can be read back to that integer, so different integers never match the same platform text |
| Text.IntToDecimalInjective | bart_lib/bart.py:181 | two integers render to the same text iff they are equal |
| Requests.Url | bart_lib/bart.py:72-77 | every endpoint constant is an `.aspx` page under `https://api.bart.gov/api/` |
| Requests.UrlsDistinct | bart_lib/bart.py:72-77 | the six categories have six different URLs |
| Requests.Render | bart_lib/bart.py:181 | `str()` of a parameter: an integer renders as decimal text that reads back to it, and text stays as it is |
| Requests.Base | bart_lib/bart.py:105-106 | a payload with only the command, the client's key and `json='y'` |
| Requests.Sent | bart_lib/bart.py:159-161 | the query string holds exactly the parameters whose value is not `None`, with those values |
| Requests.PreferPlatform | bart_lib/bart.py:155-156 | the direction filter survives only when no platform is given |
| Requests.BsaRequest | bart_lib/bart.py:88-90 | `bsa` sends its command, key, `orig` (possibly absent) and the JSON flag to the advisories URL |
| Requests.BareRequest | bart_lib/bart.py:117-119 | a method without parameters sends exactly command, key and JSON flag to its endpoint |
| Requests.HelpRequest | bart_lib/bart.py:136-138 | every help method sends exactly `cmd='help'`, key and JSON flag, to its own endpoint |
| Requests.EtdRequest | bart_lib/bart.py:155-161 | `etd` sends `orig`, the rendered platform, and the direction only when no platform is given |
| Requests.RouteInfoRequest | bart_lib/bart.py:207-209 | `route_info` sends route, schedule and date alongside command and key |
| Requests.RoutesRequest | bart_lib/bart.py:224-226 | `routes` sends schedule and date alongside command and key |
| Requests.TripRequest | bart_lib/bart.py:255-258 | `arrive` sends its command, origin, destination, time, date and the before/after counts |
| Requests.FareRequest | bart_lib/bart.py:296-298 | `fare` sends origin, destination and date, and no schedule entry |
| Requests.RouteSchedRequest | bart_lib/bart.py:325-328 | `routesched` sends route, time, date and schedule |
| Requests.StnSchedRequest | bart_lib/bart.py:366-368 | `stnsched` sends origin and date |
| Requests.StationRequest | bart_lib/bart.py:431-433 | `stninfo` and `stnaccess` send exactly command, key, station code and JSON flag to the stations URL |
| Requests.RequestGoesToCategory | bart_lib/bart.py:82-465 | every public method sends its request to the URL of the category the class overview lists it under |
| Requests.EveryRequestCarriesKey | bart_lib/bart.py:79-80 | every request of every method carries its own command tag, the key the client was built with and `json='y'`; the command and the flag always reach the query string, and the key does exactly when the client has one (`Bart(key=None)` sends none) |
| Requests.EtdPlatformWinsRequest | bart_lib/bart.py:155-160 | `etd` with a platform and a direction sends the same request as with the platform alone |
| Requests.DepartIsArrive | bart_lib/bart.py:273-285 | `depart` sends exactly the request of `arrive` with the same arguments, except `cmd='depart'` |
| Requests.FareDropsSchedule | bart_lib/bart.py:287-297 | the request of `fare` does not depend on the schedule argument and never contains it |
| Estimates.EtdReport | bart_lib/bart.py:162-176 | a gated reply prints nothing; otherwise the heading comes first; the call fails exactly when `message` is missing and there are no stations, or `station` is missing and `message` is empty, or some station lacks its `etd` list or some destination its `estimate` list; a warning with no stations prints only the heading and the warning |
| Estimates.StationLinesFault | bart_lib/bart.py:170-176 | the walk over the stations fails exactly when some station lacks its `etd` list or some destination its `estimate` list, with a `TypeError` on iterating `None` |
| Estimates.EtdPrintsMatchingEstimates | bart_lib/bart.py:170-184 | on a complete reply with stations the printed estimates are the matching ones in station → destination → estimate order; an estimate is printed iff it is in the reply, its platform equals `str(plat)` when a platform is given, and its direction equals the direction when only a direction is given |
| Estimates.EtdPrintsLayout | bart_lib/bart.py:170-185 | on a complete reply with stations, after the heading: per station its heading, per destination its heading (even when nothing matches) followed by the departures matching the filters, in order, and a blank line after the station |
| Estimates.EtdWarningOnly | bart_lib/bart.py:166-168 | no stations and a warning: only the heading and the warning are printed, and no departure |
| Estimates.EtdPlatformWins | bart_lib/bart.py:155-156 | a direction given next to a platform does not change what `etd` prints |
| Estimates.EtdAnnouncesEveryStation | bart_lib/bart.py:170-176 | the station headings are a prefix of the reply's stations, in order, whatever the filters; when the call does not fail they are all of them; it does not fail exactly when every station and destination has its list |
| Schedules.TripReport | bart_lib/bart.py:259-261 | a gated reply prints nothing; otherwise the origin/destination heading comes first |
| Schedules.ArriveReportsEvenTrips | bart_lib/bart.py:262-271 | with trips at the even indices, `arrive`/`depart` report exactly the entries at indices 0, 2, 4, … in order, ⌈n/2⌉ of them, without failing |
| Schedules.TripBlock | bart_lib/bart.py:266-271 | one trip prints its times, then its standard fare, then one line per fare in order, then a blank line |
| Schedules.ArrivePrintsTripBlocks | bart_lib/bart.py:261-271 | on a well-formed reply everything after the heading is the block of each trip at indices 0, 2, 4, …, in order |
| Schedules.ArriveFailsIff | bart_lib/bart.py:263-267 | `arrive`/`depart` fail exactly when some even index of the trip list holds a leg, and then with a `KeyError` on `@origTimeMin` |
| Schedules.ArriveLegAtEvenIndexFails | bart_lib/bart.py:263-267 | a leg at index 2k, after trips at every earlier even index, makes the call report those k trips in order and then raise a `KeyError` on `@origTimeMin` |
| Schedules.FareReport | bart_lib/bart.py:299-303 | a gated reply prints nothing; otherwise a heading and then one line per fare, in reply order |
| Schedules.StopList | bart_lib/bart.py:333-334 | the stop string is the `", "`-join of `station(origTime)` over the stops whose `@origTime` is present and non-empty, in order |
| Schedules.RouteSchedReport | bart_lib/bart.py:329-335 | a gated reply prints nothing; otherwise the schedule heading and then one line per train, in order, carrying that train's stop string |
| Schedules.StopListEmptyIff | bart_lib/bart.py:333-334 | a train's stop string is empty exactly when none of its stops has a departure time |
| Schedules.TimedLabelsComeFromStops | bart_lib/bart.py:333-334 | every entry of a stop string names a timed stop of that train, and there are no more entries than stops |
| Schedules.SchedsReport | bart_lib/bart.py:341-344 | `scheds` prints one line per schedule, in order, whatever the raw text says |
| Schedules.SchedsIgnoresGate | bart_lib/bart.py:341-343 | a body containing "error" silences `fare` but not `scheds` |
| Stations.StnsReport | bart_lib/bart.py:412-418 | a gated reply prints nothing; otherwise one line per station, in order, with that station's name, abbreviation and address |
| Stations.StnsRoundTrip | bart_lib/bart.py:414-418 | reading the printed station lines back gives the reply's station list |
| Stations.StnAccessReport | bart_lib/bart.py:434-443 | the name, then parking, bike racks, bike station and lockers in that order, each "yes" iff its flag is exactly `"1"` |
| Stations.StnAccessRoundTrip | bart_lib/bart.py:436-443 | yes/no answers written as the API's `"1"`/`"0"` flags are reported back unchanged |
| Advisories.BsaReport | bart_lib/bart.py:91-95 | a gated reply prints nothing; otherwise the date/time heading comes first |
| Advisories.BsaPrintsOnlyLastSms | bart_lib/bart.py:97-99 | when the last announcement has SMS text, `bsa` prints that text once for every announcement that has SMS text of its own, and no other SMS text |
| Advisories.BsaFailsIff | bart_lib/bart.py:97-99 | `bsa` fails exactly when the last announcement has no SMS text while some announcement has one, and then with a `TypeError` |
| Advisories.BsaPrintsNotices | bart_lib/bart.py:100-101 | when `bsa` does not fail it prints one (station, description) notice per announcement naming a station, in order |
| Advisories.BsaRepeatsLastSms | bart_lib/bart.py:99 | announcements with SMS texts "A" and "B" make `bsa` print "B" twice, where the corrected version prints "A" and then "B" |
| Advisories.BsaFailsOnLastWithoutSms | bart_lib/bart.py:98-99 | an announcement with SMS text followed by a last one without makes `bsa` raise, where the corrected version does not |
| Advisories.BsaAgreesWhenSingle | bart_lib/bart.py:97-101 | with at most one announcement, `bsa` prints what the corrected version prints |
| Advisories.CorrectedBsaReport | bart_lib/bart.py:97-101 | `bsa` as intended: never fails on SMS text, prints each announcement's own SMS text, in order, and one notice per announcement naming a station, in order |
| Advisories.ElevReport | bart_lib/bart.py:120-124 | a gated reply prints nothing; otherwise the date/time heading comes first |
| Advisories.ElevPrintsEachAnnouncement | bart_lib/bart.py:127-132 | `elev` never fails, prints each announcement's own SMS text, in order, and one (station, description) notice per announcement naming a station, in order |
| Advisories.TrainCountReport | bart_lib/bart.py:103-113 | returns 0 and prints nothing when the body says "error"; otherwise returns the reply's count and prints exactly one line with that count, the date and the time |

## Findings

| source | as written | input that shows it | evidently intended | confidence | as-written member | corrected member |
|---|---|---|---|---|---|---|
| bart_lib/bart.py:99 | each announcement that has SMS text prints `bsa[-1]['sms_text']` | two announcements with SMS texts "A" and "B" print "B" twice; if the last one has no SMS text, the call raises | print the announcement's own SMS text, as `elev` does at bart_lib/bart.py:129 | not executed | Advisories.BsaRepeatsLastSms | Advisories.CorrectedBsaReport |

`Advisories.BsaReport` keeps the code's behaviour. `Advisories.CorrectedBsaReport`
is the intended one.

## Left out

- HTTP transport and JSON decoding. `requests.get` and `r.json()` are foreign
  library calls. The raw text and the decoded reply are separate inputs, and
  nothing ties the decoded reply to the text.
- Omission of `None` parameters. The `requests` library does this, not the
  client. `Requests.Sent` states it as the assumed transport behaviour.
- Exact print formatting. The model emits structured records instead of
  strings. In particular it does not tell apart `bsa`'s `": "` separator and
  `elev`'s `" - "` separator.
- The output of the five help methods and of `help()`. They print help text
  and a fixed list of method names, and `help()` only calls the five of them
  in turn. Their requests are modelled.
- The output of `route_info`, `routes`, `holiday`, `special`, `stnsched`,
  `stninfo` and `version`. Each prints fixed fields of one record, or of
  every record in a list, with no filtering or branching, the same shape
  `stns` has. Their requests are modelled.
- Reply fields the client never reads, such as train length, colour codes
  and leg contents.
- Lookup failures on mandatory keys. The typed replies make every field the
  code indexes directly present. Faults are modelled where the code itself
  allows absence or a second shape:
  - `etd`'s `station` and `message`, and each station's `etd` and each
    destination's `estimate`, all read with `.get`;
  - a leg at an even trip index;
  - `bsa`'s last SMS text.
- Estimates.EtdPrintsMatchingEstimates: states the printed estimates only for
  a reply in which every station and destination has its list. For an
  incomplete reply the model states the fault (`Estimates.StationLinesFault`)
  and the announced stations (`Estimates.EtdAnnouncesEveryStation`), not
  the estimates printed before the failure.
- Advisories.BsaPrintsNotices: states the notices only when `bsa` does not
  fail. When it fails, the notices printed before the failure are not
  stated.
- A non-empty string as `etd`'s `message`. The model allows either `""` or
  an object carrying a warning.
- Server-side behaviour that only the docstrings describe, such as dropping
  `date` when `sched` is given.
- Packaging metadata, the demonstration block and the example script. They
  hold no logic of the client.
