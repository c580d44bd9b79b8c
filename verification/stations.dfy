/** Station information: the list of all stations (`stns`) and the access
    amenities of one station (`stnaccess`). */
module Stations {
  import opened Common
  import opened Text

  /** One entry of the reply's station list, as far as the client reads it. */
  datatype StationRecord = StationRecord(name: string, abbr: string, address: string, city: string, state: string, zipcode: string)

  /** One line of `stns`: name, abbreviation and address of a station. */
  datatype StnsLine = Listed(name: string, abbr: string, address: string, city: string, state: string, zipcode: string)

  function ListedLines(stations: seq<StationRecord>): (ls: seq<StnsLine>)
    ensures |ls| == |stations|
    ensures forall i :: 0 <= i < |stations| ==>
      ls[i] == Listed(stations[i].name, stations[i].abbr, stations[i].address, stations[i].city, stations[i].state, stations[i].zipcode)
  {
    if stations == [] then []
    else
      var s := stations[0];
      [Listed(s.name, s.abbr, s.address, s.city, s.state, s.zipcode)] + ListedLines(stations[1..])
  }

  /** `stns` prints one line per station of the reply, in reply order,
      each carrying that station's name, abbreviation and address. */
  function StnsReport(text: string, stations: seq<StationRecord>): (r: Run<StnsLine>)
    ensures r.fault == None
    ensures ReportsError(text) ==> r.lines == []
    ensures !ReportsError(text) ==>
      && |r.lines| == |stations|
      && forall i :: 0 <= i < |stations| ==>
           && r.lines[i].name == stations[i].name && r.lines[i].abbr == stations[i].abbr
           && r.lines[i].address == stations[i].address && r.lines[i].city == stations[i].city
           && r.lines[i].state == stations[i].state && r.lines[i].zipcode == stations[i].zipcode
  {
    if ReportsError(text) then Silent() else Run(ListedLines(stations), None)
  }

  /** The line for a station can be read back into the station. */
  function Unlisted(l: StnsLine): StationRecord
  {
    StationRecord(l.name, l.abbr, l.address, l.city, l.state, l.zipcode)
  }

  /** The station list `stns` prints loses nothing: reading its lines back
      gives the reply's stations, in order. */
  lemma StnsRoundTrip(text: string, stations: seq<StationRecord>)
    requires !ReportsError(text)
    ensures var lines := StnsReport(text, stations).lines;
      seq(|lines|, i requires 0 <= i < |lines| => Unlisted(lines[i])) == stations
  {
  }

  // ----- Station access -----

  /** The reply's flags for one station; each is a string. */
  datatype AccessRoot = AccessRoot(name: string, parkingFlag: string, bikeFlag: string, bikeStationFlag: string, lockerFlag: string)

  datatype Amenity = Parking | BikeRacks | BikeStation | Lockers

  /** What `stnaccess` prints: the station's name, then yes or no for each
      amenity. */
  datatype AccessLine = AccessName(name: string) | Availability(amenity: Amenity, available: bool)

  /** The order the amenities are reported in. */
  const Amenities: seq<Amenity> := [Parking, BikeRacks, BikeStation, Lockers]

  /** The reply field that holds an amenity's flag. */
  function FlagOf(root: AccessRoot, a: Amenity): string
  {
    match a
    case Parking => root.parkingFlag
    case BikeRacks => root.bikeFlag
    case BikeStation => root.bikeStationFlag
    case Lockers => root.lockerFlag
  }

  function StnAccessReport(text: string, root: AccessRoot): (r: Run<AccessLine>)
    ensures r.fault == None
    ensures ReportsError(text) ==> r.lines == []
    ensures !ReportsError(text) ==>
      && |r.lines| == 5
      && r.lines[0] == AccessName(root.name)
      && forall k :: 0 <= k < 4 ==>
           && r.lines[k + 1].Availability?
           && r.lines[k + 1].amenity == Amenities[k]
           && (r.lines[k + 1].available <==> FlagOf(root, Amenities[k]) == "1")
  {
    if ReportsError(text) then Silent()
    else
      Run([AccessName(root.name),
           Availability(Parking, root.parkingFlag == "1"),
           Availability(BikeRacks, root.bikeFlag == "1"),
           Availability(BikeStation, root.bikeStationFlag == "1"),
           Availability(Lockers, root.lockerFlag == "1")], None)
  }

  /** The flag text the API uses for a yes/no answer. */
  function FlagText(b: bool): string
  {
    if b then "1" else "0"
  }

  /** Answers written as API flags come back unchanged. */
  lemma StnAccessRoundTrip(text: string, name: string, parking: bool, bike: bool, bikeStation: bool, lockers: bool)
    requires !ReportsError(text)
    ensures StnAccessReport(text, AccessRoot(name, FlagText(parking), FlagText(bike), FlagText(bikeStation), FlagText(lockers))).lines
      == [AccessName(name), Availability(Parking, parking), Availability(BikeRacks, bike),
          Availability(BikeStation, bikeStation), Availability(Lockers, lockers)]
  {
  }
}
