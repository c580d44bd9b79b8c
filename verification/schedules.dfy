/** Schedule information: trip planning (`arrive`/`depart`), fares, the
    stops of each train on a route (`routesched`) and the list of
    published schedules (`scheds`). */
module Schedules {
  import opened Common
  import opened Text

  /** One fare entry: its `@name`, `@amount` and `@class` attributes. */
  datatype Fare = Fare(name: string, amount: string, fareClass: string)

  /** A trip entry of a trip-planning reply. The client reads only these
      attributes and the nested fare list. */
  datatype Trip = Trip(origTimeMin: string, destTimeMin: string, origTimeDate: string, fare: string, fares: seq<Fare>)

  datatype Leg = Leg(origin: string, destination: string)

  /** The client reads the reply's trip list as trips alternating with the
      legs that belong to them. */
  datatype TripEntry = TripItem(trip: Trip) | LegItem(legs: seq<Leg>)

  datatype TripRoot = TripRoot(origin: string, destination: string, trips: seq<TripEntry>)

  /** What `arrive` and `depart` print. */
  datatype TripLine =
    | TripsHeading(origin: string, destination: string)
    | TripStart(trip: Trip)
    | StandardFare(amount: string)
    | FareItem(fare: Fare)
    | Spacer

  /** One line per fare of a trip, in order. */
  function FareItems(fs: seq<Fare>): (ls: seq<TripLine>)
    ensures |ls| == |fs| && forall i :: 0 <= i < |fs| ==> ls[i] == FareItem(fs[i])
  {
    if fs == [] then [] else [FareItem(fs[0])] + FareItems(fs[1..])
  }

  /** The lines printed for one trip: its times, its standard fare, one
      line per fare in order, and a blank line. */
  function TripBlock(t: Trip): (ls: seq<TripLine>)
    ensures |ls| == |t.fares| + 3
    ensures ls[0] == TripStart(t) && ls[1] == StandardFare(t.fare) && ls[|ls| - 1] == Spacer
    ensures forall i :: 0 <= i < |t.fares| ==> ls[i + 2] == FareItem(t.fares[i])
  {
    [TripStart(t), StandardFare(t.fare)] + FareItems(t.fares) + [Spacer]
  }

  /** The loop over indices 0, 2, 4, ... of the trip list. An entry at an
      even index without trip attributes stops it with a `KeyError`. */
  function TripLines(entries: seq<TripEntry>): Run<TripLine>
    decreases |entries|
  {
    if entries == [] then Silent()
    else
      match entries[0]
      case LegItem(_) => Run([], Some(MissingKey("@origTimeMin")))
      case TripItem(t) =>
        var rest := TripLines(Tail(entries));
        Run(TripBlock(t) + rest.lines, rest.fault)
  }

  /** Everything `arrive` (and `depart`, which shares it) prints. */
  function TripReport(text: string, root: TripRoot): (r: Run<TripLine>)
    ensures ReportsError(text) ==> r == Run([], None)
    ensures !ReportsError(text) ==> |r.lines| > 0 && r.lines[0] == TripsHeading(root.origin, root.destination)
  {
    if ReportsError(text) then Silent()
    else
      var body := TripLines(root.trips);
      Run([TripsHeading(root.origin, root.destination)] + body.lines, body.fault)
  }

  // ----- Reference definitions for the even-index walk -----

  /** Every entry at an even index is a trip. */
  predicate TripsAtEvenIndices(entries: seq<TripEntry>)
  {
    forall k :: 0 <= k < |entries| && k % 2 == 0 ==> entries[k].TripItem?
  }

  /** The trips at indices 0, 2, 4, ... */
  function EvenTrips(entries: seq<TripEntry>): (ts: seq<Trip>)
    requires TripsAtEvenIndices(entries)
    ensures |ts| == (|entries| + 1) / 2
  {
    seq((|entries| + 1) / 2, k requires 0 <= k < (|entries| + 1) / 2 => entries[2 * k].trip)
  }

  /** The trips a list of lines reports, in print order. */
  function Started(lines: seq<TripLine>): seq<Trip>
  {
    if lines == [] then []
    else (if lines[0].TripStart? then [lines[0].trip] else []) + Started(lines[1..])
  }

  lemma {:induction false} StartedAppend(a: seq<TripLine>, b: seq<TripLine>)
    ensures Started(a + b) == Started(a) + Started(b)
  {
    if a != [] {
      assert (a + b)[0] == a[0] && (a + b)[1..] == a[1..] + b;
      StartedAppend(a[1..], b);
    } else {
      assert a + b == b;
    }
  }

  lemma {:induction false} TripBlockStarts(t: Trip)
    ensures Started(TripBlock(t)) == [t]
  {
    var fares := FareItems(t.fares);
    var head := [TripStart(t), StandardFare(t.fare)];
    assert TripBlock(t) == head + fares + [Spacer];
    StartedAppend(head + fares, [Spacer]);
    StartedAppend(head, fares);
    NoFareStarts(t.fares);
    assert head[1..] == [StandardFare(t.fare)] && head[1..][1..] == [];
    assert Started(head[1..]) == [];
    assert Started(head) == [t];
    assert [Spacer][1..] == [];
    assert Started([Spacer]) == [];
  }

  lemma {:induction false} NoFareStarts(fs: seq<Fare>)
    ensures Started(FareItems(fs)) == []
  {
    if fs != [] {
      StartedAppend([FareItem(fs[0])], FareItems(fs[1..]));
      assert [FareItem(fs[0])][1..] == [];
      NoFareStarts(fs[1..]);
    }
  }

  /** The entries after the first trip and its leg. */
  function Tail(entries: seq<TripEntry>): seq<TripEntry>
  {
    if |entries| >= 2 then entries[2..] else []
  }

  lemma TailKeepsShape(entries: seq<TripEntry>)
    requires TripsAtEvenIndices(entries)
    ensures TripsAtEvenIndices(Tail(entries))
  {
  }

  lemma EvenTripsCons(entries: seq<TripEntry>)
    requires TripsAtEvenIndices(entries) && entries != []
    ensures TripsAtEvenIndices(Tail(entries))
    ensures EvenTrips(entries) == [entries[0].trip] + EvenTrips(Tail(entries))
  {
  }

  lemma {:induction false} TripLinesWalkEvenIndices(entries: seq<TripEntry>)
    requires TripsAtEvenIndices(entries)
    ensures TripLines(entries).fault == None
    ensures Started(TripLines(entries).lines) == EvenTrips(entries)
    decreases |entries|
  {
    if entries != [] {
      var t := entries[0].trip;
      var tail := Tail(entries);
      EvenTripsCons(entries);
      var rest := TripLines(tail);
      assert TripLines(entries) == Run(TripBlock(t) + rest.lines, rest.fault);
      TripLinesWalkEvenIndices(tail);
      StartedAppend(TripBlock(t), rest.lines);
      TripBlockStarts(t);
    }
  }

  /** On a well-formed reply (trips at the even indices) `arrive` reports
      exactly the trips at indices 0, 2, 4, ..., in order: one for every
      two entries, rounding up. */
  lemma ArriveReportsEvenTrips(text: string, root: TripRoot)
    requires !ReportsError(text) && TripsAtEvenIndices(root.trips)
    ensures var r := TripReport(text, root);
      && r.fault == None
      && Started(r.lines) == EvenTrips(root.trips)
      && |Started(r.lines)| == (|root.trips| + 1) / 2
  {
    var body := TripLines(root.trips);
    TripLinesWalkEvenIndices(root.trips);
    StartedAppend([TripsHeading(root.origin, root.destination)], body.lines);
  }

  /** The blocks of a list of trips, one after the other. */
  function Blocks(ts: seq<Trip>): seq<TripLine>
  {
    if ts == [] then [] else TripBlock(ts[0]) + Blocks(ts[1..])
  }

  lemma {:induction false} TripLinesBlocks(entries: seq<TripEntry>)
    requires TripsAtEvenIndices(entries)
    ensures TripLines(entries).lines == Blocks(EvenTrips(entries))
    decreases |entries|
  {
    if entries != [] {
      EvenTripsCons(entries);
      TripLinesBlocks(Tail(entries));
      var ts := EvenTrips(entries);
      assert ts[0] == entries[0].trip && ts[1..] == EvenTrips(Tail(entries));
    }
  }

  /** On a well-formed reply everything `arrive` prints after its heading
      is the block of each trip at indices 0, 2, 4, ..., in order: its
      times, its standard fare, then each of its fares. */
  lemma ArrivePrintsTripBlocks(text: string, root: TripRoot)
    requires !ReportsError(text) && TripsAtEvenIndices(root.trips)
    ensures TripReport(text, root).lines == [TripsHeading(root.origin, root.destination)] + Blocks(EvenTrips(root.trips))
  {
    TripLinesBlocks(root.trips);
  }

  /** The shape test unfolds along the walk: the first entry is a trip and
      the rest, after its leg, has the same shape. */
  lemma TripsAtEvenIndicesStep(entries: seq<TripEntry>)
    requires entries != []
    ensures TripsAtEvenIndices(entries) <==> entries[0].TripItem? && TripsAtEvenIndices(Tail(entries))
  {
    if entries[0].TripItem? && TripsAtEvenIndices(Tail(entries)) {
      forall k | 0 <= k < |entries| && k % 2 == 0 ensures entries[k].TripItem? {
        if k > 0 { assert entries[k] == Tail(entries)[k - 2]; }
      }
    }
  }

  /** The walk fails exactly when some even index holds a leg, and then
      always with a `KeyError` on the trip attribute. */
  lemma {:induction false} TripLinesFault(entries: seq<TripEntry>)
    ensures TripLines(entries).fault.Some? <==> !TripsAtEvenIndices(entries)
    ensures TripLines(entries).fault.Some? ==> TripLines(entries).fault == Some(MissingKey("@origTimeMin"))
    decreases |entries|
  {
    if entries != [] {
      TripsAtEvenIndicesStep(entries);
      if entries[0].TripItem? {
        TripLinesFault(Tail(entries));
      }
    }
  }

  /** A leg at index 2k, after trips at every earlier even index: the walk
      reports those k trips and then fails on the leg. */
  lemma {:induction false} TripLinesStopsAtLeg(entries: seq<TripEntry>, k: nat)
    requires 2 * k < |entries| && entries[2 * k].LegItem?
    requires TripsAtEvenIndices(entries[..2 * k])
    ensures TripLines(entries).fault == Some(MissingKey("@origTimeMin"))
    ensures Started(TripLines(entries).lines) == EvenTrips(entries[..2 * k])
    decreases k
  {
    if k == 0 {
      assert entries[..0] == [];
    } else {
      var prefix := entries[..2 * k];
      assert prefix[0] == entries[0];
      var t := entries[0].trip;
      var tail := Tail(entries);
      assert tail[2 * (k - 1)] == entries[2 * k];
      assert tail[..2 * (k - 1)] == Tail(prefix);
      EvenTripsCons(prefix);
      TripLinesStopsAtLeg(tail, k - 1);
      var rest := TripLines(tail);
      assert TripLines(entries) == Run(TripBlock(t) + rest.lines, rest.fault);
      StartedAppend(TripBlock(t), rest.lines);
      TripBlockStarts(t);
    }
  }

  /** `arrive` fails exactly when a leg sits where a trip is expected, and
      then with a `KeyError` on `@origTimeMin`. */
  lemma ArriveFailsIff(text: string, root: TripRoot)
    requires !ReportsError(text)
    ensures TripReport(text, root).fault.Some? <==> !TripsAtEvenIndices(root.trips)
    ensures TripReport(text, root).fault.Some? ==> TripReport(text, root).fault == Some(MissingKey("@origTimeMin"))
  {
    TripLinesFault(root.trips);
  }

  /** A leg at index 2k where a trip is expected: `arrive` reports the k
      trips before it, at indices 0, 2, ..., 2k - 2, and then fails with a
      `KeyError` on `@origTimeMin`. */
  lemma ArriveLegAtEvenIndexFails(text: string, root: TripRoot, k: nat)
    requires !ReportsError(text) && 2 * k < |root.trips| && root.trips[2 * k].LegItem?
    requires TripsAtEvenIndices(root.trips[..2 * k])
    ensures var r := TripReport(text, root);
      && r.fault == Some(MissingKey("@origTimeMin"))
      && Started(r.lines) == EvenTrips(root.trips[..2 * k])
      && |Started(r.lines)| == k
  {
    var body := TripLines(root.trips);
    TripLinesStopsAtLeg(root.trips, k);
    StartedAppend([TripsHeading(root.origin, root.destination)], body.lines);
  }

  // ----- Fares -----

  datatype FareRoot = FareRoot(origin: string, destination: string, fares: seq<Fare>)

  datatype FareLine = FareHeading(origin: string, destination: string) | FareOption(fare: Fare)

  function FareLines(fs: seq<Fare>): (ls: seq<FareLine>)
    ensures |ls| == |fs|
    ensures forall i :: 0 <= i < |fs| ==> ls[i] == FareOption(fs[i])
  {
    if fs == [] then [] else [FareOption(fs[0])] + FareLines(fs[1..])
  }

  /** Everything `fare` prints: a heading, then every fare of the reply
      in order. */
  function FareReport(text: string, root: FareRoot): (r: Run<FareLine>)
    ensures r.fault == None
    ensures ReportsError(text) ==> r.lines == []
    ensures !ReportsError(text) ==>
      && |r.lines| == |root.fares| + 1
      && r.lines[0] == FareHeading(root.origin, root.destination)
      && forall i :: 0 <= i < |root.fares| ==> r.lines[i + 1] == FareOption(root.fares[i])
  {
    if ReportsError(text) then Silent()
    else Run([FareHeading(root.origin, root.destination)] + FareLines(root.fares), None)
  }

  // ----- Route schedules -----

  /** A stop of a train; `@origTime` may be missing or empty. */
  datatype Stop = Stop(station: string, origTime: Option<string>)

  datatype Train = Train(trainId: string, stops: seq<Stop>)

  datatype RouteSchedRoot = RouteSchedRoot(schedNum: string, date: string, trains: seq<Train>)

  datatype RouteSchedLine = ScheduleHeading(schedNum: string, date: string) | TrainStops(trainId: string, stops: string)

  /** The stop has a departure time, read as Python truthiness. */
  predicate Timed(s: Stop)
  {
    s.origTime.Some? && s.origTime.value != ""
  }

  /** `station(time)` for a timed stop. */
  function Label(s: Stop): string
    requires Timed(s)
  {
    s.station + "(" + s.origTime.value + ")"
  }

  /** The labels of the timed stops, in order. */
  function TimedLabels(stops: seq<Stop>): seq<string>
  {
    if stops == [] then []
    else (if Timed(stops[0]) then [Label(stops[0])] else []) + TimedLabels(stops[1..])
  }

  lemma {:induction false} TimedLabelsSnoc(stops: seq<Stop>, s: Stop)
    ensures TimedLabels(stops + [s]) == TimedLabels(stops) + if Timed(s) then [Label(s)] else []
  {
    if stops == [] {
      assert stops + [s] == [s];
    } else {
      assert (stops + [s])[0] == stops[0] && (stops + [s])[1..] == stops[1..] + [s];
      TimedLabelsSnoc(stops[1..], s);
    }
  }

  /** The stop list `routesched` prints for one train: the timed stops'
      labels, separated by ", ". */
  method StopList(stops: seq<Stop>) returns (text: string)
    ensures text == Join(", ", TimedLabels(stops))
  {
    text := "";
    var any := false;
    var i := 0;
    while i < |stops|
      invariant 0 <= i <= |stops|
      invariant any <==> TimedLabels(stops[..i]) != []
      invariant text == Join(", ", TimedLabels(stops[..i]))
    {
      var before := TimedLabels(stops[..i]);
      assert stops[..i + 1] == stops[..i] + [stops[i]];
      TimedLabelsSnoc(stops[..i], stops[i]);
      if Timed(stops[i]) {
        var stop := Label(stops[i]);
        assert TimedLabels(stops[..i + 1]) == before + [stop];
        JoinSnoc(", ", before, stop);
        if any {
          text := text + ", " + stop;
        } else {
          text := stop;
        }
        any := true;
      } else {
        assert TimedLabels(stops[..i + 1]) == before;
      }
      i := i + 1;
    }
    assert stops[..i] == stops;
  }

  /** Everything `routesched` prints: the schedule heading, then one line
      per train of the route, in order. */
  method RouteSchedReport(text: string, root: RouteSchedRoot) returns (r: Run<RouteSchedLine>)
    ensures r.fault == None
    ensures ReportsError(text) ==> r.lines == []
    ensures !ReportsError(text) ==>
      && |r.lines| == |root.trains| + 1
      && r.lines[0] == ScheduleHeading(root.schedNum, root.date)
      && forall k :: 0 <= k < |root.trains| ==>
           r.lines[k + 1] == TrainStops(root.trains[k].trainId, Join(", ", TimedLabels(root.trains[k].stops)))
  {
    if ReportsError(text) {
      return Silent();
    }
    var lines := [ScheduleHeading(root.schedNum, root.date)];
    var k := 0;
    while k < |root.trains|
      invariant 0 <= k <= |root.trains|
      invariant |lines| == k + 1
      invariant lines[0] == ScheduleHeading(root.schedNum, root.date)
      invariant forall j :: 0 <= j < k ==>
        lines[j + 1] == TrainStops(root.trains[j].trainId, Join(", ", TimedLabels(root.trains[j].stops)))
    {
      var stops := StopList(root.trains[k].stops);
      lines := lines + [TrainStops(root.trains[k].trainId, stops)];
      k := k + 1;
    }
    r := Run(lines, None);
  }

  /** A stop list is empty exactly when no stop of the train is timed. */
  lemma {:induction false} StopListEmptyIff(stops: seq<Stop>)
    ensures Join(", ", TimedLabels(stops)) == "" <==> forall s :: s in stops ==> !Timed(s)
  {
    if stops != [] {
      StopListEmptyIff(stops[1..]);
      assert stops == [stops[0]] + stops[1..];
      var rest := TimedLabels(stops[1..]);
      if Timed(stops[0]) {
        var l := Label(stops[0]);
        assert |l| > 0 by { assert l[|stops[0].station|] == '('; }
        if rest == [] {
          assert [l] + rest == [l];
        } else {
          JoinLength(", ", [l] + rest);
        }
      } else {
        assert TimedLabels(stops) == rest;
      }
    }
  }

  /** Every label in the stop list names a timed stop of the train. */
  lemma {:induction false} TimedLabelsComeFromStops(stops: seq<Stop>)
    ensures forall l :: l in TimedLabels(stops) ==> exists s :: s in stops && Timed(s) && l == Label(s)
    ensures |TimedLabels(stops)| <= |stops|
  {
    if stops != [] {
      TimedLabelsComeFromStops(stops[1..]);
      forall l | l in TimedLabels(stops)
        ensures exists s :: s in stops && Timed(s) && l == Label(s)
      {
        if Timed(stops[0]) && l == Label(stops[0]) {
          assert stops[0] in stops;
        } else {
          assert l in TimedLabels(stops[1..]);
          var s :| s in stops[1..] && Timed(s) && l == Label(s);
          assert s in stops;
        }
      }
    }
  }

  // ----- Published schedules -----

  datatype Schedule = Schedule(id: string, effectiveDate: string)

  datatype SchedsLine = ScheduleEntry(id: string, effectiveDate: string)

  /** Everything `scheds` prints. It is the one method that never looks at
      the raw text: it parses whatever came back. */
  function SchedsReport(text: string, schedules: seq<Schedule>): (r: Run<SchedsLine>)
    ensures r.fault == None
    ensures |r.lines| == |schedules|
    ensures forall i :: 0 <= i < |schedules| ==> r.lines[i] == ScheduleEntry(schedules[i].id, schedules[i].effectiveDate)
  {
    Run(seq(|schedules|, i requires 0 <= i < |schedules| => ScheduleEntry(schedules[i].id, schedules[i].effectiveDate)), None)
  }

  /** Unlike every other method, `scheds` prints even when the body says
      "error". */
  lemma SchedsIgnoresGate(text: string, schedules: seq<Schedule>)
    requires ReportsError(text) && |schedules| > 0
    ensures SchedsReport(text, schedules).lines != []
    ensures FareReport(text, FareRoot("", "", [])).lines == []
  {
  }
}
