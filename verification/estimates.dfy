/** Real-time departure estimates (`etd`): the decoded reply, the lines the
    client prints from it, and the platform/direction filter it applies. */
module Estimates {
  import opened Common
  import opened Text
  import opened Requests

  /** One predicted departure. The reply carries more fields (train length,
      hex colour, bike flag, delay) that the client never reads. */
  datatype Estimate = Estimate(minutes: string, platform: string, color: string, direction: string)

  /** The estimates towards one destination. `estimate` is read with a
      lookup that tolerates its absence, so it may be `None`. */
  datatype Destination = Destination(destination: string, estimates: Option<seq<Estimate>>)

  /** One station of the reply; its `etd` list is read the same way. */
  datatype Station = Station(name: string, etds: Option<seq<Destination>>)

  /** The reply's `message`: the empty string, or an object with a warning. */
  datatype Message = Blank | Warning(warning: string)

  /** `root` of the decoded reply. `station` and `message` are read with a
      lookup that tolerates their absence, so either may be `None`. */
  datatype EtdRoot = EtdRoot(date: string, time: string, station: Option<seq<Station>>, message: Option<Message>)

  /** What `etd` prints, line by line. */
  datatype EtdLine =
    | Heading(orig: string, date: string, time: string)
    | Warned(warning: string)
    | StationHeading(name: string)
    | DestinationHeading(destination: string)
    | Departure(estimate: Estimate)
    | Spacer

  /** The test the innermost loop uses to pass over an estimate. */
  predicate Skips(f: EtdFilter, e: Estimate)
  {
    || (f.plat.Some? && Render(f.plat.value) != e.platform)
    || (f.direction.Some? && f.direction.value != e.direction)
  }

  function EstimateLines(f: EtdFilter, es: seq<Estimate>): seq<EtdLine>
  {
    if es == [] then []
    else (if Skips(f, es[0]) then [] else [Departure(es[0])]) + EstimateLines(f, es[1..])
  }

  /** The middle loop. A destination without an estimate list stops it,
      after its heading, with a `TypeError` on iterating `None`. */
  function DestinationLines(f: EtdFilter, ds: seq<Destination>): Run<EtdLine>
  {
    if ds == [] then Silent()
    else
      var head := [DestinationHeading(ds[0].destination)];
      match ds[0].estimates
      case None => Run(head, Some(NotIterable("estimate")))
      case Some(es) =>
        var rest := DestinationLines(f, ds[1..]);
        Run(head + EstimateLines(f, es) + rest.lines, rest.fault)
  }

  /** The outer loop. A station without an `etd` list stops it after its
      heading; a failure inside a station skips the spacer line. */
  function StationLines(f: EtdFilter, ss: seq<Station>): Run<EtdLine>
  {
    if ss == [] then Silent()
    else
      var head := [StationHeading(ss[0].name)];
      match ss[0].etds
      case None => Run(head, Some(NotIterable("etd")))
      case Some(ds) =>
        var body := DestinationLines(f, ds);
        if body.fault.Some? then Run(head + body.lines, body.fault)
        else
          var rest := StationLines(f, ss[1..]);
          Run(head + body.lines + [Spacer] + rest.lines, rest.fault)
  }

  /** Python truthiness of the `station` entry. */
  predicate HasStations(station: Option<seq<Station>>)
  {
    station.Some? && |station.value| > 0
  }

  /** Every destination has its estimate list. */
  predicate DestinationsComplete(ds: seq<Destination>)
  {
    forall i :: 0 <= i < |ds| ==> ds[i].estimates.Some?
  }

  /** Every station has its `etd` list, and every destination in it its
      estimate list. */
  predicate Complete(ss: seq<Station>)
  {
    forall i :: 0 <= i < |ss| ==> ss[i].etds.Some? && DestinationsComplete(ss[i].etds.value)
  }

  lemma {:induction false} DestinationLinesFault(f: EtdFilter, ds: seq<Destination>)
    ensures DestinationLines(f, ds).fault.Some? <==> !DestinationsComplete(ds)
    ensures DestinationLines(f, ds).fault.Some? ==> DestinationLines(f, ds).fault == Some(NotIterable("estimate"))
  {
    if ds != [] {
      DestinationLinesFault(f, ds[1..]);
      if ds[0].estimates.Some? && DestinationsComplete(ds[1..]) {
        forall i | 0 <= i < |ds| ensures ds[i].estimates.Some? {
          if i > 0 { assert ds[i] == ds[1..][i - 1]; }
        }
      }
    }
  }

  /** The walk over the stations fails exactly when some station lacks its
      `etd` list or some destination its estimate list. */
  lemma {:induction false} StationLinesFault(f: EtdFilter, ss: seq<Station>)
    ensures StationLines(f, ss).fault.Some? <==> !Complete(ss)
    ensures StationLines(f, ss).fault.Some? ==>
      StationLines(f, ss).fault == Some(NotIterable("etd")) || StationLines(f, ss).fault == Some(NotIterable("estimate"))
  {
    if ss != [] {
      StationLinesFault(f, ss[1..]);
      if ss[0].etds.Some? {
        DestinationLinesFault(f, ss[0].etds.value);
      }
      if ss[0].etds.Some? && DestinationsComplete(ss[0].etds.value) && Complete(ss[1..]) {
        forall i | 0 <= i < |ss| ensures ss[i].etds.Some? && DestinationsComplete(ss[i].etds.value) {
          if i > 0 { assert ss[i] == ss[1..][i - 1]; }
        }
      }
    }
  }

  /** Everything `etd(orig, plat, direction)` prints for a reply whose raw
      text is `text` and whose decoded body is `root`. */
  function EtdReport(orig: string, plat: Option<Scalar>, direction: Option<string>, text: string, root: EtdRoot): (r: Run<EtdLine>)
    ensures ReportsError(text) ==> r == Run([], None)
    ensures !ReportsError(text) ==> |r.lines| > 0 && r.lines[0] == Heading(orig, root.date, root.time)
    ensures r.fault.Some? <==>
      && !ReportsError(text)
      && (|| (!HasStations(root.station) && root.message == None)
          || (root.station == None && root.message == Some(Blank))
          || (root.station.Some? && !Complete(root.station.value)))
    ensures !ReportsError(text) && !HasStations(root.station) && root.message.Some? && root.message.value.Warning? ==>
      r == Run([Heading(orig, root.date, root.time), Warned(root.message.value.warning)], None)
  {
    if ReportsError(text) then Silent()
    else
      var head := [Heading(orig, root.date, root.time)];
      if !HasStations(root.station) && root.message != Some(Blank) then
        match root.message
        case None => Run(head, Some(MissingKey("message")))
        case Some(m) =>
          match m
          case Warning(w) => Run(head + [Warned(w)], None)
      else
        match root.station
        case None => Run(head, Some(NotIterable("station")))
        case Some(ss) =>
          var body := StationLines(PreferPlatform(plat, direction), ss);
          StationLinesFault(PreferPlatform(plat, direction), ss);
          Run(head + body.lines, body.fault)
  }

  // ----- Reference definitions -----

  /** The estimates a list of lines reports, in print order. */
  function Emitted(lines: seq<EtdLine>): seq<Estimate>
  {
    if lines == [] then []
    else (if lines[0].Departure? then [lines[0].estimate] else []) + Emitted(lines[1..])
  }

  /** All estimates of a complete reply in station, destination, estimate
      order. */
  function DestinationEstimates(ds: seq<Destination>): seq<Estimate>
    requires DestinationsComplete(ds)
  {
    if ds == [] then [] else ds[0].estimates.value + DestinationEstimates(ds[1..])
  }

  function AllEstimates(ss: seq<Station>): seq<Estimate>
    requires Complete(ss)
  {
    if ss == [] then [] else DestinationEstimates(ss[0].etds.value) + AllEstimates(ss[1..])
  }

  /** An estimate matches the filters: no platform or the same platform,
      and no direction or the same direction. */
  predicate Matches(f: EtdFilter, e: Estimate)
  {
    && (f.plat.None? || Render(f.plat.value) == e.platform)
    && (f.direction.None? || f.direction.value == e.direction)
  }

  function Select(f: EtdFilter, es: seq<Estimate>): seq<Estimate>
  {
    if es == [] then [] else (if Matches(f, es[0]) then [es[0]] else []) + Select(f, es[1..])
  }

  /** One departure line per estimate, in order. */
  function Departures(es: seq<Estimate>): (ls: seq<EtdLine>)
    ensures |ls| == |es| && forall i :: 0 <= i < |es| ==> ls[i] == Departure(es[i])
  {
    if es == [] then [] else [Departure(es[0])] + Departures(es[1..])
  }

  /** The layout of a destination list: each destination's heading, even
      when no estimate matches, followed by its matching departures. */
  function DestinationLayout(f: EtdFilter, ds: seq<Destination>): seq<EtdLine>
    requires DestinationsComplete(ds)
  {
    if ds == [] then []
    else [DestinationHeading(ds[0].destination)] + Departures(Select(f, ds[0].estimates.value)) + DestinationLayout(f, ds[1..])
  }

  /** The layout of a station list: each station's heading, the layout of
      its destinations, and a blank line. */
  function StationLayout(f: EtdFilter, ss: seq<Station>): seq<EtdLine>
    requires Complete(ss)
  {
    if ss == [] then []
    else [StationHeading(ss[0].name)] + DestinationLayout(f, ss[0].etds.value) + [Spacer] + StationLayout(f, ss[1..])
  }

  // ----- Lemmas -----

  lemma {:induction false} EmittedAppend(a: seq<EtdLine>, b: seq<EtdLine>)
    ensures Emitted(a + b) == Emitted(a) + Emitted(b)
  {
    if a != [] {
      assert (a + b)[0] == a[0] && (a + b)[1..] == a[1..] + b;
      EmittedAppend(a[1..], b);
    } else {
      assert a + b == b;
    }
  }

  lemma {:induction false} SelectAppend(f: EtdFilter, a: seq<Estimate>, b: seq<Estimate>)
    ensures Select(f, a + b) == Select(f, a) + Select(f, b)
  {
    if a != [] {
      assert (a + b)[0] == a[0] && (a + b)[1..] == a[1..] + b;
      SelectAppend(f, a[1..], b);
    } else {
      assert a + b == b;
    }
  }

  lemma {:induction false} EstimateLinesEmit(f: EtdFilter, es: seq<Estimate>)
    ensures Emitted(EstimateLines(f, es)) == Select(f, es)
  {
    if es != [] {
      var first: seq<EtdLine> := if Skips(f, es[0]) then [] else [Departure(es[0])];
      EmittedAppend(first, EstimateLines(f, es[1..]));
      EstimateLinesEmit(f, es[1..]);
    }
  }

  /** Headings and spacers report no estimate. */
  lemma EmittedFraming(head: EtdLine, body: seq<EtdLine>, tail: seq<EtdLine>, rest: seq<EtdLine>)
    requires !head.Departure? && Emitted(tail) == []
    ensures Emitted([head] + body + tail + rest) == Emitted(body) + Emitted(rest)
  {
    EmittedAppend([head] + body + tail, rest);
    EmittedAppend([head] + body, tail);
    EmittedAppend([head], body);
    assert [head][1..] == [];
  }

  lemma DestinationsCompleteTail(ds: seq<Destination>)
    requires DestinationsComplete(ds) && ds != []
    ensures ds[0].estimates.Some? && DestinationsComplete(ds[1..])
  {
    assert forall i :: 0 <= i < |ds| - 1 ==> ds[1..][i] == ds[i + 1];
  }

  lemma {:induction false} DestinationLinesEmit(f: EtdFilter, ds: seq<Destination>)
    requires DestinationsComplete(ds)
    ensures DestinationLines(f, ds).fault == None
    ensures Emitted(DestinationLines(f, ds).lines) == Select(f, DestinationEstimates(ds))
  {
    if ds != [] {
      DestinationsCompleteTail(ds);
      var es := ds[0].estimates.value;
      var rest := DestinationLines(f, ds[1..]);
      DestinationLinesEmit(f, ds[1..]);
      assert DestinationLines(f, ds) == Run([DestinationHeading(ds[0].destination)] + EstimateLines(f, es) + [] + rest.lines, rest.fault);
      EmittedFraming(DestinationHeading(ds[0].destination), EstimateLines(f, es), [], rest.lines);
      EstimateLinesEmit(f, es);
      SelectAppend(f, es, DestinationEstimates(ds[1..]));
    }
  }

  /** A complete reply's first station has its lists, and the rest of the
      reply is complete. */
  lemma CompleteTail(ss: seq<Station>)
    requires Complete(ss) && ss != []
    ensures ss[0].etds.Some? && DestinationsComplete(ss[0].etds.value) && Complete(ss[1..])
  {
    assert forall i :: 0 <= i < |ss| - 1 ==> ss[1..][i] == ss[i + 1];
  }

  lemma {:induction false} StationLinesEmit(f: EtdFilter, ss: seq<Station>)
    requires Complete(ss)
    ensures StationLines(f, ss).fault == None
    ensures Emitted(StationLines(f, ss).lines) == Select(f, AllEstimates(ss))
  {
    if ss != [] {
      CompleteTail(ss);
      var ds := ss[0].etds.value;
      var body := DestinationLines(f, ds);
      DestinationLinesEmit(f, ds);
      var rest := StationLines(f, ss[1..]);
      StationLinesEmit(f, ss[1..]);
      assert StationLines(f, ss) == Run([StationHeading(ss[0].name)] + body.lines + [Spacer] + rest.lines, rest.fault);
      assert [Spacer][1..] == [];
      EmittedFraming(StationHeading(ss[0].name), body.lines, [Spacer], rest.lines);
      SelectAppend(f, DestinationEstimates(ds), AllEstimates(ss[1..]));
    }
  }

  lemma {:induction false} DeparturesAppend(a: seq<Estimate>, b: seq<Estimate>)
    ensures Departures(a + b) == Departures(a) + Departures(b)
  {
    if a != [] {
      assert (a + b)[0] == a[0] && (a + b)[1..] == a[1..] + b;
      DeparturesAppend(a[1..], b);
    } else {
      assert a + b == b;
    }
  }

  /** The innermost loop prints the departures of exactly the matching
      estimates, in order. */
  lemma {:induction false} EstimateLinesSelect(f: EtdFilter, es: seq<Estimate>)
    ensures EstimateLines(f, es) == Departures(Select(f, es))
  {
    if es != [] {
      EstimateLinesSelect(f, es[1..]);
      var first := if Matches(f, es[0]) then [es[0]] else [];
      DeparturesAppend(first, Select(f, es[1..]));
    }
  }

  lemma {:induction false} DestinationLinesLayout(f: EtdFilter, ds: seq<Destination>)
    requires DestinationsComplete(ds)
    ensures DestinationLines(f, ds) == Run(DestinationLayout(f, ds), None)
  {
    if ds != [] {
      DestinationsCompleteTail(ds);
      EstimateLinesSelect(f, ds[0].estimates.value);
      DestinationLinesLayout(f, ds[1..]);
    }
  }

  lemma {:induction false} StationLinesLayout(f: EtdFilter, ss: seq<Station>)
    requires Complete(ss)
    ensures StationLines(f, ss) == Run(StationLayout(f, ss), None)
  {
    if ss != [] {
      CompleteTail(ss);
      DestinationLinesLayout(f, ss[0].etds.value);
      StationLinesLayout(f, ss[1..]);
    }
  }

  /** On a complete reply with stations, `etd` prints its heading and then,
      per station, the station's heading, per destination the destination's
      heading and the departures matching the filters, and a blank line. */
  lemma EtdPrintsLayout(orig: string, plat: Option<Scalar>, direction: Option<string>, text: string, root: EtdRoot)
    requires !ReportsError(text)
    requires root.station.Some?
    requires HasStations(root.station) || root.message == Some(Blank)
    requires Complete(root.station.value)
    ensures EtdReport(orig, plat, direction, text, root)
      == Run([Heading(orig, root.date, root.time)] + StationLayout(PreferPlatform(plat, direction), root.station.value), None)
  {
    StationLinesLayout(PreferPlatform(plat, direction), root.station.value);
  }

  lemma {:induction false} SelectMembers(f: EtdFilter, es: seq<Estimate>)
    ensures forall e :: e in Select(f, es) <==> e in es && Matches(f, e)
  {
    if es != [] {
      SelectMembers(f, es[1..]);
      assert es == [es[0]] + es[1..];
    }
  }

  /** On a complete reply with stations, `etd` prints exactly the estimates that
      match the filters, in station, destination, estimate order; an
      estimate is printed iff it is in the reply and matches. */
  lemma EtdPrintsMatchingEstimates(orig: string, plat: Option<Scalar>, direction: Option<string>, text: string, root: EtdRoot)
    requires !ReportsError(text)
    requires root.station.Some?
    requires HasStations(root.station) || root.message == Some(Blank)
    requires Complete(root.station.value)
    ensures var r := EtdReport(orig, plat, direction, text, root);
      && r.fault == None
      && Emitted(r.lines) == Select(PreferPlatform(plat, direction), AllEstimates(root.station.value))
      && forall e :: e in Emitted(r.lines) <==>
           && e in AllEstimates(root.station.value)
           && (plat.None? || Render(plat.value) == e.platform)
           && (plat.Some? || direction.None? || direction.value == e.direction)
  {
    var f := PreferPlatform(plat, direction);
    var ss := root.station.value;
    var head := [Heading(orig, root.date, root.time)];
    EmittedAppend(head, StationLines(f, ss).lines);
    StationLinesEmit(f, ss);
    SelectMembers(f, AllEstimates(ss));
  }

  /** With no stations and a warning, only the heading and the warning are
      printed and no departure is reported. */
  lemma EtdWarningOnly(orig: string, plat: Option<Scalar>, direction: Option<string>, text: string, root: EtdRoot, w: string)
    requires !ReportsError(text)
    requires root.station == None || root.station == Some([])
    requires root.message == Some(Warning(w))
    ensures var r := EtdReport(orig, plat, direction, text, root);
      r.fault == None && r.lines == [Heading(orig, root.date, root.time), Warned(w)] && Emitted(r.lines) == []
  {
    var r := EtdReport(orig, plat, direction, text, root);
    assert r.lines[1..] == [Warned(w)] && r.lines[1..][1..] == [];
    assert Emitted(r.lines[1..]) == [];
  }

  /** Passing a direction next to a platform prints the same as passing the
      platform alone. */
  lemma EtdPlatformWins(orig: string, plat: Scalar, direction: string, text: string, root: EtdRoot)
    ensures EtdReport(orig, Some(plat), Some(direction), text, root) == EtdReport(orig, Some(plat), None, text, root)
  {
  }

  /** Each station of the reply gets exactly one heading, in order. */
  function StationNames(lines: seq<EtdLine>): seq<string>
  {
    if lines == [] then []
    else (if lines[0].StationHeading? then [lines[0].name] else []) + StationNames(lines[1..])
  }

  lemma {:induction false} StationNamesAppend(a: seq<EtdLine>, b: seq<EtdLine>)
    ensures StationNames(a + b) == StationNames(a) + StationNames(b)
  {
    if a != [] {
      assert (a + b)[0] == a[0] && (a + b)[1..] == a[1..] + b;
      StationNamesAppend(a[1..], b);
    } else {
      assert a + b == b;
    }
  }

  lemma {:induction false} DestinationLinesNoStation(f: EtdFilter, ds: seq<Destination>)
    ensures StationNames(DestinationLines(f, ds).lines) == []
  {
    if ds != [] {
      var head := [DestinationHeading(ds[0].destination)];
      assert head[1..] == [];
      if ds[0].estimates.Some? {
        var est := EstimateLines(f, ds[0].estimates.value);
        EstimateLinesNoStation(f, ds[0].estimates.value);
        StationNamesAppend(head + est, DestinationLines(f, ds[1..]).lines);
        StationNamesAppend(head, est);
        DestinationLinesNoStation(f, ds[1..]);
      }
    }
  }

  lemma {:induction false} EstimateLinesNoStation(f: EtdFilter, es: seq<Estimate>)
    ensures StationNames(EstimateLines(f, es)) == []
  {
    if es != [] {
      var first: seq<EtdLine> := if Skips(f, es[0]) then [] else [Departure(es[0])];
      StationNamesAppend(first, EstimateLines(f, es[1..]));
      EstimateLinesNoStation(f, es[1..]);
    }
  }

  /** The names of a list of stations, in order. */
  function NamesOf(ss: seq<Station>): (ns: seq<string>)
    ensures |ns| == |ss| && forall i :: 0 <= i < |ss| ==> ns[i] == ss[i].name
  {
    if ss == [] then [] else [ss[0].name] + NamesOf(ss[1..])
  }

  /** The stations announced are a prefix of the reply's stations, and all
      of them when the walk does not fail. */
  lemma {:induction false} StationLinesNames(f: EtdFilter, ss: seq<Station>)
    ensures StationNames(StationLines(f, ss).lines) <= NamesOf(ss)
    ensures StationLines(f, ss).fault == None ==> StationNames(StationLines(f, ss).lines) == NamesOf(ss)
  {
    if ss != [] {
      var head := [StationHeading(ss[0].name)];
      assert head[1..] == [];
      assert StationNames(head) == [ss[0].name];
      if ss[0].etds.None? {
        assert StationNames(StationLines(f, ss).lines) == [ss[0].name];
      } else {
        var body := DestinationLines(f, ss[0].etds.value);
        DestinationLinesNoStation(f, ss[0].etds.value);
        StationNamesAppend(head, body.lines);
        if body.fault.None? {
          var rest := StationLines(f, ss[1..]);
          assert [Spacer][1..] == [];
          StationNamesAppend(head + body.lines + [Spacer], rest.lines);
          StationNamesAppend(head + body.lines, [Spacer]);
          StationLinesNames(f, ss[1..]);
        }
      }
    }
  }

  /** `etd` announces the reply's stations once each, in reply order,
      whatever the filters: always a prefix of them, and all of them when
      the call does not fail; it does not fail exactly when every station
      and destination has its list. */
  lemma EtdAnnouncesEveryStation(orig: string, plat: Option<Scalar>, direction: Option<string>, text: string, root: EtdRoot)
    requires !ReportsError(text) && HasStations(root.station)
    ensures var r := EtdReport(orig, plat, direction, text, root);
      && StationNames(r.lines) <= NamesOf(root.station.value)
      && (r.fault == None <==> StationNames(r.lines) == NamesOf(root.station.value) && Complete(root.station.value))
  {
    var f := PreferPlatform(plat, direction);
    var body := StationLines(f, root.station.value);
    StationNamesAppend([Heading(orig, root.date, root.time)], body.lines);
    StationLinesNames(f, root.station.value);
    StationLinesFault(f, root.station.value);
  }
}
