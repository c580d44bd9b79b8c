/** Advisories: service announcements (`bsa`), elevator announcements
    (`elev`) and the number of active trains (`train_count`). */
module Advisories {
  import opened Common
  import opened Text
  import opened Requests

  /** One announcement. `smsText` is `None` when the reply's `sms_text` is
      falsy, and the CDATA text of its object otherwise. */
  datatype Announcement = Announcement(station: string, description: string, smsText: Option<string>)

  datatype AdvisoryRoot = AdvisoryRoot(date: string, time: string, bsa: seq<Announcement>)

  datatype AdvisoryLine =
    | AdvisoryHeading(date: string, time: string)
    | Sms(text: string)
    | Notice(station: string, description: string)

  /** Whose SMS text the loop prints for an announcement that has one: its
      own, or always that of the list's last announcement. */
  datatype SmsSource = OwnText | LastText(last: Option<string>)

  /** The loop over the announcements. A last announcement without SMS
      text, read for an announcement with one, ends the loop with a
      `TypeError`. */
  function AnnouncementLines(elems: seq<Announcement>, src: SmsSource): Run<AdvisoryLine>
  {
    if elems == [] then Silent()
    else
      var e := elems[0];
      var notice := if |e.station| > 0 then [Notice(e.station, e.description)] else [];
      if e.smsText.None? then
        var rest := AnnouncementLines(elems[1..], src);
        Run(notice + rest.lines, rest.fault)
      else
        match src
        case OwnText =>
          var rest := AnnouncementLines(elems[1..], src);
          Run([Sms(e.smsText.value)] + notice + rest.lines, rest.fault)
        case LastText(last) =>
          if last.None? then Run([], Some(NotSubscriptable("sms_text")))
          else
            var rest := AnnouncementLines(elems[1..], src);
            Run([Sms(last.value)] + notice + rest.lines, rest.fault)
  }

  function LastSms(elems: seq<Announcement>): Option<string>
  {
    if elems == [] then None else elems[|elems| - 1].smsText
  }

  /** `bsa` as written: every announcement with SMS text prints the last
      announcement's SMS text. */
  function BsaReport(text: string, root: AdvisoryRoot): (r: Run<AdvisoryLine>)
    ensures ReportsError(text) ==> r == Run([], None)
    ensures !ReportsError(text) ==> |r.lines| > 0 && r.lines[0] == AdvisoryHeading(root.date, root.time)
  {
    if ReportsError(text) then Silent()
    else
      var body := AnnouncementLines(root.bsa, LastText(LastSms(root.bsa)));
      Run([AdvisoryHeading(root.date, root.time)] + body.lines, body.fault)
  }

  /** `elev`: every announcement with SMS text prints its own. */
  function ElevReport(text: string, root: AdvisoryRoot): (r: Run<AdvisoryLine>)
    ensures ReportsError(text) ==> r == Run([], None)
    ensures !ReportsError(text) ==> |r.lines| > 0 && r.lines[0] == AdvisoryHeading(root.date, root.time)
  {
    if ReportsError(text) then Silent()
    else
      var body := AnnouncementLines(root.bsa, OwnText);
      Run([AdvisoryHeading(root.date, root.time)] + body.lines, body.fault)
  }

  /** `bsa` as evidently intended, printing each announcement's own SMS
      text as `elev` does. */
  function CorrectedBsaReport(text: string, root: AdvisoryRoot): (r: Run<AdvisoryLine>)
    ensures ReportsError(text) ==> r == Run([], None)
    ensures !ReportsError(text) ==> |r.lines| > 0 && r.lines[0] == AdvisoryHeading(root.date, root.time)
    ensures !ReportsError(text) ==>
      && r.fault == None
      && SmsTexts(r.lines) == OwnSms(root.bsa)
      && Notices(r.lines) == OwnNotices(root.bsa)
  {
    if !ReportsError(text) then
      ElevPrintsEachAnnouncement(text, root);
      ElevReport(text, root)
    else
      ElevReport(text, root)
  }

  /** With at most one announcement the quirk is invisible: `bsa` prints
      what the corrected `bsa` prints. */
  lemma BsaAgreesWhenSingle(text: string, root: AdvisoryRoot)
    requires |root.bsa| <= 1
    ensures BsaReport(text, root) == CorrectedBsaReport(text, root)
  {
    if |root.bsa| == 1 && !ReportsError(text) {
      var e := root.bsa[0];
      assert root.bsa[1..] == [];
      assert LastSms(root.bsa) == e.smsText;
      assert AnnouncementLines(root.bsa, LastText(e.smsText)) == AnnouncementLines(root.bsa, OwnText);
    }
  }

  // ----- Reference definitions -----

  /** The SMS texts a list of lines prints, in order. */
  function SmsTexts(lines: seq<AdvisoryLine>): seq<string>
  {
    if lines == [] then []
    else (if lines[0].Sms? then [lines[0].text] else []) + SmsTexts(lines[1..])
  }

  /** The announcements' own SMS texts, in order. */
  function OwnSms(elems: seq<Announcement>): seq<string>
  {
    if elems == [] then []
    else (if elems[0].smsText.Some? then [elems[0].smsText.value] else []) + OwnSms(elems[1..])
  }

  lemma {:induction false} SmsTextsAppend(a: seq<AdvisoryLine>, b: seq<AdvisoryLine>)
    ensures SmsTexts(a + b) == SmsTexts(a) + SmsTexts(b)
  {
    if a != [] {
      assert (a + b)[0] == a[0] && (a + b)[1..] == a[1..] + b;
      SmsTextsAppend(a[1..], b);
    } else {
      assert a + b == b;
    }
  }

  lemma NoticeHasNoSms(e: Announcement)
    ensures SmsTexts(if |e.station| > 0 then [Notice(e.station, e.description)] else []) == []
  {
    if |e.station| > 0 {
      assert [Notice(e.station, e.description)][1..] == [];
    }
  }

  lemma {:induction false} OwnTextPrintsOwnSms(elems: seq<Announcement>)
    ensures AnnouncementLines(elems, OwnText).fault == None
    ensures SmsTexts(AnnouncementLines(elems, OwnText).lines) == OwnSms(elems)
  {
    if elems != [] {
      var e := elems[0];
      var notice := if |e.station| > 0 then [Notice(e.station, e.description)] else [];
      var rest := AnnouncementLines(elems[1..], OwnText);
      OwnTextPrintsOwnSms(elems[1..]);
      NoticeHasNoSms(e);
      SmsTextsAppend(notice, rest.lines);
      if e.smsText.Some? {
        SmsTextsAppend([Sms(e.smsText.value)], notice + rest.lines);
        assert [Sms(e.smsText.value)][1..] == [];
        assert [Sms(e.smsText.value)] + notice + rest.lines == [Sms(e.smsText.value)] + (notice + rest.lines);
      }
    }
  }

  /** The station notices a list of lines prints, in order. */
  function Notices(lines: seq<AdvisoryLine>): seq<(string, string)>
  {
    if lines == [] then []
    else (if lines[0].Notice? then [(lines[0].station, lines[0].description)] else []) + Notices(lines[1..])
  }

  /** The station and description of every announcement naming a station,
      in order. */
  function OwnNotices(elems: seq<Announcement>): seq<(string, string)>
  {
    if elems == [] then []
    else (if |elems[0].station| > 0 then [(elems[0].station, elems[0].description)] else []) + OwnNotices(elems[1..])
  }

  lemma {:induction false} NoticesAppend(a: seq<AdvisoryLine>, b: seq<AdvisoryLine>)
    ensures Notices(a + b) == Notices(a) + Notices(b)
  {
    if a != [] {
      assert (a + b)[0] == a[0] && (a + b)[1..] == a[1..] + b;
      NoticesAppend(a[1..], b);
    } else {
      assert a + b == b;
    }
  }

  /** Whichever SMS text the loop prints, a run that does not fail prints
      one notice per announcement naming a station, in order. */
  lemma {:induction false} AnnouncementNotices(elems: seq<Announcement>, src: SmsSource)
    requires AnnouncementLines(elems, src).fault == None
    ensures Notices(AnnouncementLines(elems, src).lines) == OwnNotices(elems)
  {
    if elems != [] {
      var e := elems[0];
      var notice := if |e.station| > 0 then [Notice(e.station, e.description)] else [];
      var rest := AnnouncementLines(elems[1..], src);
      AnnouncementNotices(elems[1..], src);
      NoticesAppend(notice, rest.lines);
      if |e.station| > 0 {
        assert notice[1..] == [];
      }
      if e.smsText.Some? {
        var sms := Sms(if src.OwnText? then e.smsText.value else src.last.value);
        NoticesAppend([sms], notice + rest.lines);
        assert [sms][1..] == [];
        assert [sms] + notice + rest.lines == [sms] + (notice + rest.lines);
      }
    }
  }

  /** `elev` prints each announcement's own SMS text and a notice for each
      announcement naming a station, in order, and never fails. */
  lemma ElevPrintsEachAnnouncement(text: string, root: AdvisoryRoot)
    requires !ReportsError(text)
    ensures ElevReport(text, root).fault == None
    ensures SmsTexts(ElevReport(text, root).lines) == OwnSms(root.bsa)
    ensures Notices(ElevReport(text, root).lines) == OwnNotices(root.bsa)
  {
    var head := [AdvisoryHeading(root.date, root.time)];
    var body := AnnouncementLines(root.bsa, OwnText);
    OwnTextPrintsOwnSms(root.bsa);
    AnnouncementNotices(root.bsa, OwnText);
    SmsTextsAppend(head, body.lines);
    NoticesAppend(head, body.lines);
  }

  /** `n` copies of `x`. */
  function Copies(x: string, n: nat): (r: seq<string>)
    ensures |r| == n && forall i :: 0 <= i < n ==> r[i] == x
  {
    if n == 0 then [] else [x] + Copies(x, n - 1)
  }

  /** With a fixed text to print, the loop prints it once per announcement
      that has SMS text of its own, and never fails. */
  lemma {:induction false} LastTextRepeats(elems: seq<Announcement>, last: string)
    ensures AnnouncementLines(elems, LastText(Some(last))).fault == None
    ensures SmsTexts(AnnouncementLines(elems, LastText(Some(last))).lines) == Copies(last, |OwnSms(elems)|)
  {
    if elems != [] {
      var e := elems[0];
      var notice := if |e.station| > 0 then [Notice(e.station, e.description)] else [];
      var rest := AnnouncementLines(elems[1..], LastText(Some(last)));
      LastTextRepeats(elems[1..], last);
      NoticeHasNoSms(e);
      SmsTextsAppend(notice, rest.lines);
      if e.smsText.Some? {
        SmsTextsAppend([Sms(last)], notice + rest.lines);
        assert [Sms(last)][1..] == [];
        assert [Sms(last)] + notice + rest.lines == [Sms(last)] + (notice + rest.lines);
      }
    }
  }

  /** With no text to print, the loop fails, with a `TypeError`, exactly
      when some announcement has SMS text of its own. */
  lemma {:induction false} MissingLastTextFails(elems: seq<Announcement>)
    ensures AnnouncementLines(elems, LastText(None)).fault.Some? <==> OwnSms(elems) != []
    ensures AnnouncementLines(elems, LastText(None)).fault.Some? ==>
      AnnouncementLines(elems, LastText(None)).fault == Some(NotSubscriptable("sms_text"))
  {
    if elems != [] {
      MissingLastTextFails(elems[1..]);
    }
  }

  /** `bsa` prints the last announcement's SMS text once for every
      announcement that has SMS text of its own, and nothing else as SMS
      text. */
  lemma BsaPrintsOnlyLastSms(text: string, root: AdvisoryRoot)
    requires !ReportsError(text) && LastSms(root.bsa).Some?
    ensures BsaReport(text, root).fault == None
    ensures SmsTexts(BsaReport(text, root).lines) == Copies(LastSms(root.bsa).value, |OwnSms(root.bsa)|)
  {
    var body := AnnouncementLines(root.bsa, LastText(LastSms(root.bsa)));
    LastTextRepeats(root.bsa, LastSms(root.bsa).value);
    SmsTextsAppend([AdvisoryHeading(root.date, root.time)], body.lines);
  }

  /** `bsa` fails exactly when the last announcement has no SMS text while
      some announcement has one, and then with a `TypeError`. */
  lemma BsaFailsIff(text: string, root: AdvisoryRoot)
    ensures BsaReport(text, root).fault.Some? <==>
      !ReportsError(text) && LastSms(root.bsa).None? && OwnSms(root.bsa) != []
    ensures BsaReport(text, root).fault.Some? ==> BsaReport(text, root).fault == Some(NotSubscriptable("sms_text"))
  {
    if !ReportsError(text) {
      if LastSms(root.bsa).Some? {
        LastTextRepeats(root.bsa, LastSms(root.bsa).value);
      } else {
        MissingLastTextFails(root.bsa);
      }
    }
  }

  /** When `bsa` does not fail it prints a notice for each announcement
      naming a station, in order, like `elev`. */
  lemma BsaPrintsNotices(text: string, root: AdvisoryRoot)
    requires !ReportsError(text) && BsaReport(text, root).fault == None
    ensures Notices(BsaReport(text, root).lines) == OwnNotices(root.bsa)
  {
    var head := [AdvisoryHeading(root.date, root.time)];
    var body := AnnouncementLines(root.bsa, LastText(LastSms(root.bsa)));
    AnnouncementNotices(root.bsa, LastText(LastSms(root.bsa)));
    NoticesAppend(head, body.lines);
  }

  /** Two announcements with SMS texts "A" and "B": `bsa` prints "B" twice
      where `elev` and the corrected `bsa` print "A" then "B". */
  lemma BsaRepeatsLastSms()
    ensures var root := AdvisoryRoot("d", "t", [Announcement("", "", Some("A")), Announcement("", "", Some("B"))]);
      && SmsTexts(BsaReport("ok", root).lines) == ["B", "B"]
      && SmsTexts(CorrectedBsaReport("ok", root).lines) == ["A", "B"]
  {
    var root := AdvisoryRoot("d", "t", [Announcement("", "", Some("A")), Announcement("", "", Some("B"))]);
    assert !ReportsError("ok");
    assert root.bsa[1..][1..] == [];
    assert OwnSms(root.bsa) == ["A", "B"];
    BsaPrintsOnlyLastSms("ok", root);
  }

  /** `bsa` also fails where the intended code would not: an announcement
      with SMS text followed by a last one without. */
  lemma BsaFailsOnLastWithoutSms()
    ensures var root := AdvisoryRoot("d", "t", [Announcement("", "", Some("A")), Announcement("", "", None)]);
      && BsaReport("ok", root).fault == Some(NotSubscriptable("sms_text"))
      && CorrectedBsaReport("ok", root).fault == None
  {
    assert !ReportsError("ok");
  }

  // ----- Train count -----

  datatype CountRoot = CountRoot(traincount: Scalar, date: string, time: string)

  datatype CountLine = TrainsActive(count: Scalar, date: string, time: string)

  /** What `train_count` prints and returns. */
  datatype Counted = Counted(count: Scalar, lines: seq<CountLine>)

  /** `train_count` returns 0 when the body says "error" and the reply's
      count otherwise; the printed count is the returned one. */
  function TrainCountReport(text: string, root: CountRoot): (r: Counted)
    ensures ReportsError(text) ==> r.count == Int(0) && r.lines == []
    ensures !ReportsError(text) ==> r.count == root.traincount
    ensures !ReportsError(text) ==> r.lines == [TrainsActive(root.traincount, root.date, root.time)]
    ensures forall l :: l in r.lines ==> l.count == r.count
  {
    if ReportsError(text) then Counted(Int(0), [])
    else Counted(root.traincount, [TrainsActive(root.traincount, root.date, root.time)])
  }
}
