/**
 * The NMEA 0183 decoder of the L76K GPS controller (gps_controller.py).
 *
 * One sentence is decoded at a time. The pure part (`Decode*`, `Apply*`,
 * `Step`) says what a sentence does to the decoder's state; the class
 * `GpsController` holds that state in fields and updates it in place, and each
 * of its methods is proved to perform exactly the corresponding transition.
 * Status and position callbacks are recorded, in order, in `notifications`.
 */
module Gps {
  import opened Options
  import opened Text

  datatype GpsStatus = Disconnected | Connecting | Connected | Fixing | Fixed | Error

  datatype GpsPosition = GpsPosition(
    latitude: real,
    longitude: real,
    altitude: real,
    speed: real,
    course: real,
    satellites: int,
    hdop: real,
    fixQuality: int,
    timestamp: real,
    isValid: bool)

  /** `GPSPosition()`: every field zero, not valid, stamped with the creation time. */
  function InitialPosition(now: real): GpsPosition {
    GpsPosition(0.0, 0.0, 0.0, 0.0, 0.0, 0, 0.0, 0, now, false)
  }

  datatype GpsStats = GpsStats(
    sentencesReceived: nat,
    validSentences: nat,
    fixAttempts: nat,
    lastFixTime: Option<real>)

  /** One invocation of `on_status_change` or `on_position_update`. */
  datatype Notification = StatusChanged(status: GpsStatus) | PositionUpdated(position: GpsPosition)

  /** Everything a sentence can change. */
  datatype Decoder = Decoder(
    status: GpsStatus,
    position: GpsPosition,
    stats: GpsStats,
    lastUpdate: Option<real>,
    notifications: seq<Notification>)

  function InitialDecoder(now: real): Decoder {
    Decoder(Disconnected, InitialPosition(now), GpsStats(0, 0, 0, None), None, [])
  }

  /** `has_fix`. */
  predicate HasFixOf(d: Decoder) {
    d.status == Fixed && d.position.isValid && d.position.fixQuality > 0
  }

  // ---------------------------------------------------------------------------
  // Checksum
  // ---------------------------------------------------------------------------

  function CodePoint(c: char): bv21 {
    (c as int) as bv21
  }

  /** XOR of the code points of `s`. */
  function XorAll(s: string): bv21 {
    if s == [] then 0 else XorAll(s[..|s| - 1]) ^ CodePoint(s[|s| - 1])
  }

  /** `data[1:]`. */
  function Tail(s: string): string {
    if s == [] then [] else s[1..]
  }

  /** The two-digit rendering `hex(x)[2:].upper().zfill(2)`. */
  function ChecksumText(x: bv21): string {
    ZFill(HexUpper(x as nat), 2)
  }

  /**
   * What `_verify_checksum` accepts: exactly one `*`, and the XOR of the
   * characters after the first one and before the `*`, rendered in upper-case
   * hexadecimal, equals the suffix compared case-insensitively.
   */
  predicate ChecksumValid(sentence: string) {
    var pieces := Split(sentence, '*');
    '*' in sentence && |pieces| == 2 && ChecksumText(XorAll(Tail(pieces[0]))) == Upper(pieces[1])
  }

  /** `_verify_checksum`: the XOR loop over the characters. */
  method VerifyChecksum(sentence: string) returns (ok: bool)
    ensures ok == ChecksumValid(sentence)
  {
    if '*' !in sentence {
      return false;
    }
    var pieces := Split(sentence, '*');
    if |pieces| != 2 {
      return false;
    }
    var data, checksum := pieces[0], pieces[1];
    var body := Tail(data);
    var calculated: bv21 := 0;
    for i := 0 to |body|
      invariant calculated == XorAll(body[..i])
    {
      assert body[..i + 1][..i] == body[..i];
      calculated := calculated ^ CodePoint(body[i]);
    }
    assert body[..|body|] == body;
    ok := ChecksumText(calculated) == Upper(checksum);
  }

  /** Accepted means: one `*`, and the text after it matches the XOR of the text between `$` and it. */
  lemma ChecksumValidMeaning(sentence: string)
    ensures ChecksumValid(sentence) <==> Count(sentence, '*') == 1
                                         && ChecksumText(XorAll(Tail(Before(sentence, '*'))))
                                            == Upper(sentence[|Before(sentence, '*')| + 1..])
  {
    if Count(sentence, '*') == 1 {
      SplitTwo(sentence, '*');
    }
  }

  lemma UpperOfChecksumText(x: bv21)
    ensures Upper(ChecksumText(x)) == ChecksumText(x)
    ensures '*' !in ChecksumText(x)
  {
    var t := ChecksumText(x);
    var h := HexUpper(x as nat);
    forall i | 0 <= i < |t| ensures IsUpperHexDigit(t[i]) {
      if i >= |t| - |h| {
        assert t[i] == t[|t| - |h|..][i - (|t| - |h|)];
      }
    }
  }

  /** A sentence carrying the checksum of its own body is accepted. */
  lemma ChecksumAccepted(body: string)
    requires '*' !in body
    ensures ChecksumValid("$" + body + "*" + ChecksumText(XorAll(body)))
  {
    var data := "$" + body;
    UpperOfChecksumText(XorAll(body));
    SplitAtStar(data, ChecksumText(XorAll(body)));
    assert Tail(data) == body;
  }

  lemma SplitAtStar(data: string, t: string)
    requires '*' !in data && '*' !in t
    ensures Split(data + "*" + t, '*') == [data, t] && '*' in data + "*" + t
  {
    SplitCons(data, '*', t);
    SplitNoSep(t, '*');
    assert (data + "*" + t)[|data|] == '*';
  }

  /** A sentence with no `*`, or with two or more, is rejected. */
  lemma ChecksumNeedsOneStar(sentence: string)
    requires Count(sentence, '*') != 1
    ensures !ChecksumValid(sentence)
  {
  }

  // ---------------------------------------------------------------------------
  // Field decoding
  // ---------------------------------------------------------------------------

  /** `int(x) if x else 0`; `None` where `int()` would raise. */
  function IntOrZero(field: string): Option<int> {
    if field == [] then Some(0) else ParseInt(field)
  }

  /** `float(x) if x else 0.0`; `None` where `float()` would raise. */
  function RealOrZero(field: string): Option<real> {
    if field == [] then Some(0.0) else ParseFloat(field)
  }

  /**
   * `DDMM.MMMM` (`width` 2) or `DDDMM.MMMM` (`width` 3): the first `width`
   * characters are degrees, the rest minutes; negated when the hemisphere is
   * `negative`. `None` where either `float()` would raise.
   */
  function Coordinate(raw: string, hemisphere: string, width: nat, negative: string): (r: Option<real>)
    ensures r.Some? <==> var k := if |raw| < width then |raw| else width;
                         ParseFloat(raw[..k]).Some? && ParseFloat(raw[k..]).Some?
    ensures r.Some? ==> |raw| > width
  {
    var k := if |raw| < width then |raw| else width;
    assert k == |raw| ==> raw[k..] == [];
    match (ParseFloat(raw[..k]), ParseFloat(raw[k..]))
    case (Some(degrees), Some(minutes)) =>
      var value := degrees + minutes / 60.0;
      Some(if hemisphere == negative then -value else value)
    case _ => None
  }

  function Latitude(raw: string, hemisphere: string): Option<real> {
    Coordinate(raw, hemisphere, 2, "S")
  }

  function Longitude(raw: string, hemisphere: string): Option<real> {
    Coordinate(raw, hemisphere, 3, "W")
  }

  /** Degrees and minutes add up; the southern hemisphere negates. */
  lemma LatitudeValue(degrees: string, minutes: string, hemisphere: string)
    requires |degrees| == 2 && IsDigits(degrees) && ParseFloat(minutes).Some?
    ensures Latitude(degrees + minutes, hemisphere)
         == var v := DigitsValue(degrees) as real + ParseFloat(minutes).value / 60.0;
            Some(if hemisphere == "S" then -v else v)
  {
    assert (degrees + minutes)[..2] == degrees;
    assert (degrees + minutes)[2..] == minutes;
  }

  /** Three digits of degrees for longitude; the western hemisphere negates. */
  lemma LongitudeValue(degrees: string, minutes: string, hemisphere: string)
    requires |degrees| == 3 && IsDigits(degrees) && ParseFloat(minutes).Some?
    ensures Longitude(degrees + minutes, hemisphere)
         == var v := DigitsValue(degrees) as real + ParseFloat(minutes).value / 60.0;
            Some(if hemisphere == "W" then -v else v)
  {
    assert (degrees + minutes)[..3] == degrees;
    assert (degrees + minutes)[3..] == minutes;
  }

  /** A coordinate field of RMC and GLL: absent (left unchanged), a value, or malformed. */
  datatype Field<T> = Absent | Present(value: T) | Malformed

  function OptionalCoordinate(raw: string, hemisphere: string, width: nat, negative: string): (r: Field<real>)
    ensures r.Absent? <==> raw == [] || hemisphere == []
  {
    if raw == [] || hemisphere == [] then Absent
    else match Coordinate(raw, hemisphere, width, negative)
      case Some(v) => Present(v)
      case None => Malformed
  }

  function Updated(f: Field<real>, current: real): real {
    if f.Present? then f.value else current
  }

  // ---------------------------------------------------------------------------
  // GGA: fix data
  // ---------------------------------------------------------------------------

  datatype GgaFix = GgaFix(
    fixQuality: int, satellites: int, hdop: real, altitude: real, latitude: real, longitude: real)

  /** `_parse_gpgga` up to the point where it takes the lock. */
  function DecodeGga(sentence: string): (r: Option<GgaFix>)
    ensures |Split(sentence, ',')| < 15 ==> r == None
    ensures r.Some? ==> var p := Split(sentence, ',');
                        (p[2] == [] || p[3] == [] || p[4] == [] || p[5] == [])
                        ==> r.value.latitude == 0.0 && r.value.longitude == 0.0
  {
    var p := Split(sentence, ',');
    if |p| < 15 then None else GgaFields(p)
  }

  /** The fields of a GGA sentence of at least 15 fields. */
  function GgaFields(p: seq<string>): (r: Option<GgaFix>)
    requires |p| >= 15
    ensures r.Some? && (p[2] == [] || p[3] == [] || p[4] == [] || p[5] == [])
            ==> r.value.latitude == 0.0 && r.value.longitude == 0.0
  {
    match (IntOrZero(p[6]), IntOrZero(p[7]), RealOrZero(p[8]), RealOrZero(p[9]))
    case (Some(quality), Some(satellites), Some(hdop), Some(altitude)) =>
      if p[2] != [] && p[3] != [] && p[4] != [] && p[5] != [] then
        match (Latitude(p[2], p[3]), Longitude(p[4], p[5]))
        case (Some(lat), Some(lon)) => Some(GgaFix(quality, satellites, hdop, altitude, lat, lon))
        case _ => None
      else Some(GgaFix(quality, satellites, hdop, altitude, 0.0, 0.0))
    case _ => None
  }

  /** The status after a GGA: any fix makes it FIXED; no fix moves only CONNECTED to FIXING. */
  function GgaStatus(status: GpsStatus, fixQuality: int): GpsStatus {
    if fixQuality > 0 then Fixed
    else if status == Connected then Fixing
    else status
  }

  /** Whether `_parse_gpgga` calls `_notify_status_change`. */
  predicate GgaNotifiesStatus(status: GpsStatus, fixQuality: int) {
    (fixQuality > 0 && status != Fixed) || (fixQuality <= 0 && status == Connected)
  }

  function ApplyGga(d: Decoder, f: GgaFix, now: real): Decoder {
    var position := d.position.(latitude := f.latitude, longitude := f.longitude,
                                fixQuality := f.fixQuality, satellites := f.satellites,
                                hdop := f.hdop, altitude := f.altitude, isValid := f.fixQuality > 0);
    var status := GgaStatus(d.status, f.fixQuality);
    var stats := if f.fixQuality > 0 && d.status != Fixed then d.stats.(lastFixTime := Some(now)) else d.stats;
    var statusEvents := if GgaNotifiesStatus(d.status, f.fixQuality) then [StatusChanged(status)] else [];
    Decoder(status, position, stats, Some(now), d.notifications + statusEvents + [PositionUpdated(position)])
  }

  function GgaStep(d: Decoder, sentence: string, now: real): Decoder {
    match DecodeGga(sentence)
    case Some(f) => ApplyGga(d, f, now)
    case None => d
  }

  // ---------------------------------------------------------------------------
  // RMC: recommended minimum
  // ---------------------------------------------------------------------------

  datatype RmcFix = RmcFix(latitude: Field<real>, longitude: Field<real>, speed: real, course: real)

  /** `_parse_gprmc` up to the lock; only sentences whose status field is `A` decode. */
  function DecodeRmc(sentence: string): (r: Option<RmcFix>)
    ensures |Split(sentence, ',')| < 12 ==> r == None
    ensures r.Some? ==> Split(sentence, ',')[2] == "A"
    ensures r.Some? ==> !r.value.latitude.Malformed? && !r.value.longitude.Malformed?
  {
    var p := Split(sentence, ',');
    if |p| < 12 || p[2] != "A" then None
    else
      var lat := OptionalCoordinate(p[3], p[4], 2, "S");
      var lon := OptionalCoordinate(p[5], p[6], 3, "W");
      match (RealOrZero(p[7]), RealOrZero(p[8]))
      case (Some(speed), Some(course)) =>
        if lat.Malformed? || lon.Malformed? then None else Some(RmcFix(lat, lon, speed, course))
      case _ => None
  }

  /** Speed is stored as read, in knots. */
  function ApplyRmc(d: Decoder, f: RmcFix, now: real): Decoder {
    var position := d.position.(latitude := Updated(f.latitude, d.position.latitude),
                                longitude := Updated(f.longitude, d.position.longitude),
                                speed := f.speed, course := f.course, isValid := true);
    d.(position := position, lastUpdate := Some(now),
       notifications := d.notifications + [PositionUpdated(position)])
  }

  function RmcStep(d: Decoder, sentence: string, now: real): Decoder {
    match DecodeRmc(sentence)
    case Some(f) => ApplyRmc(d, f, now)
    case None => d
  }

  // ---------------------------------------------------------------------------
  // GLL: geographic position
  // ---------------------------------------------------------------------------

  datatype GllFix = GllFix(latitude: Field<real>, longitude: Field<real>)

  function DecodeGll(sentence: string): (r: Option<GllFix>)
    ensures |Split(sentence, ',')| < 7 ==> r == None
    ensures r.Some? ==> Split(sentence, ',')[6] == "A"
    ensures r.Some? ==> !r.value.latitude.Malformed? && !r.value.longitude.Malformed?
  {
    var p := Split(sentence, ',');
    if |p| < 7 || p[6] != "A" then None
    else
      var lat := OptionalCoordinate(p[1], p[2], 2, "S");
      var lon := OptionalCoordinate(p[3], p[4], 3, "W");
      if lat.Malformed? || lon.Malformed? then None else Some(GllFix(lat, lon))
  }

  function ApplyGll(d: Decoder, f: GllFix, now: real): Decoder {
    var position := d.position.(latitude := Updated(f.latitude, d.position.latitude),
                                longitude := Updated(f.longitude, d.position.longitude),
                                isValid := true);
    d.(position := position, lastUpdate := Some(now),
       notifications := d.notifications + [PositionUpdated(position)])
  }

  function GllStep(d: Decoder, sentence: string, now: real): Decoder {
    match DecodeGll(sentence)
    case Some(f) => ApplyGll(d, f, now)
    case None => d
  }

  // ---------------------------------------------------------------------------
  // VTG: track and ground speed
  // ---------------------------------------------------------------------------

  /** The ground speed in km/h from field 7. */
  function DecodeVtg(sentence: string): (r: Option<real>)
    ensures |Split(sentence, ',')| < 10 ==> r == None
  {
    var p := Split(sentence, ',');
    if |p| < 10 then None else RealOrZero(p[7])
  }

  /** Only the speed changes, converted from km/h to m/s; `last_update` is not touched. */
  function ApplyVtg(d: Decoder, kmh: real): Decoder {
    var position := d.position.(speed := kmh / 3.6);
    d.(position := position, notifications := d.notifications + [PositionUpdated(position)])
  }

  function VtgStep(d: Decoder, sentence: string): Decoder {
    match DecodeVtg(sentence)
    case Some(kmh) => ApplyVtg(d, kmh)
    case None => d
  }

  // ---------------------------------------------------------------------------
  // Dispatch: _process_nmea_sentence
  // ---------------------------------------------------------------------------

  datatype SentenceKind = Gga | Rmc | Gll | Vtg

  /** `_init_nmea_sentences`: the eight supported commands. */
  const NmeaSentences: map<string, SentenceKind> :=
    map["GPGGA" := Gga, "GNGGA" := Gga, "GPRMC" := Rmc, "GNRMC" := Rmc,
        "GPGLL" := Gll, "GNGLL" := Gll, "GPVTG" := Vtg, "GNVTG" := Vtg]

  /** The framing `_process_nmea_sentence` asks for: a leading `$` and a `*` after it. */
  predicate Framed(sentence: string) {
    |sentence| > 0 && sentence[0] == '$' && |Split(sentence[1..], '*')| >= 2
  }

  /** The command: the text after `$` up to the first `*`, then up to the first `,`. */
  function Command(sentence: string): string
    requires |sentence| > 0
  {
    Before(Before(sentence[1..], '*'), ',')
  }

  /** Whether a sentence reaches a handler. */
  predicate Dispatched(sentence: string, strict: bool) {
    (!strict || ChecksumValid(sentence)) && Framed(sentence) && Command(sentence) in NmeaSentences
  }

  function Handle(kind: SentenceKind, d: Decoder, sentence: string, now: real): Decoder {
    match kind
    case Gga => GgaStep(d, sentence, now)
    case Rmc => RmcStep(d, sentence, now)
    case Gll => GllStep(d, sentence, now)
    case Vtg => VtgStep(d, sentence)
  }

  /** `sentences_received += 1`. */
  function CountReceived(d: Decoder): (r: Decoder)
    ensures r.stats.sentencesReceived == d.stats.sentencesReceived + 1
    ensures r == d.(stats := r.stats) && r.stats == d.stats.(sentencesReceived := r.stats.sentencesReceived)
  {
    d.(stats := d.stats.(sentencesReceived := d.stats.sentencesReceived + 1))
  }

  /** `valid_sentences += 1`. */
  function CountValid(d: Decoder): (r: Decoder)
    ensures r.stats.validSentences == d.stats.validSentences + 1
    ensures r == d.(stats := r.stats) && r.stats == d.stats.(validSentences := r.stats.validSentences)
  {
    d.(stats := d.stats.(validSentences := d.stats.validSentences + 1))
  }

  /** `_process_nmea_sentence`, with the checksum check switched on by `strict`. */
  function Step(d: Decoder, sentence: string, now: real, strict: bool): Decoder {
    if !Dispatched(sentence, strict) then d
    else CountValid(Handle(NmeaSentences[Command(sentence)], CountReceived(d), sentence, now))
  }

  /** A whole stream of lines, one after another. */
  function Run(d: Decoder, lines: seq<string>, now: real, strict: bool): Decoder
    decreases |lines|
  {
    if lines == [] then d else Run(Step(d, lines[0], now, strict), lines[1..], now, strict)
  }

  // ---------------------------------------------------------------------------
  // Properties of the decoder
  // ---------------------------------------------------------------------------

  /** A line without a leading `$`, or without a `*` after it, changes nothing. */
  lemma UnframedLineDropped(d: Decoder, sentence: string, now: real, strict: bool)
    requires |sentence| == 0 || sentence[0] != '$' || '*' !in sentence[1..]
    ensures Step(d, sentence, now, strict) == d
  {
  }

  /**
   * Exactly the eight GP/GN GGA, RMC, GLL and VTG commands reach a handler, and
   * `sentences_received` and `valid_sentences` each grow by one for them and for
   * nothing else.
   */
  lemma CountersCountDispatched(d: Decoder, sentence: string, now: real, strict: bool)
    ensures var d' := Step(d, sentence, now, strict);
            var n := if Dispatched(sentence, strict) then 1 else 0;
            d'.stats.sentencesReceived == d.stats.sentencesReceived + n
            && d'.stats.validSentences == d.stats.validSentences + n
    ensures Dispatched(sentence, strict) ==>
              Command(sentence) in {"GPGGA", "GNGGA", "GPRMC", "GNRMC", "GPGLL", "GNGLL", "GPVTG", "GNVTG"}
    ensures !Dispatched(sentence, strict) ==> Step(d, sentence, now, strict) == d
  {
    if Dispatched(sentence, strict) {
      var received := d.(stats := d.stats.(sentencesReceived := d.stats.sentencesReceived + 1));
      HandleKeepsCounters(NmeaSentences[Command(sentence)], received, sentence, now);
    }
  }

  lemma HandleKeepsCounters(kind: SentenceKind, d: Decoder, sentence: string, now: real)
    ensures var d' := Handle(kind, d, sentence, now);
            d'.stats.sentencesReceived == d.stats.sentencesReceived
            && d'.stats.validSentences == d.stats.validSentences
            && d'.stats.fixAttempts == d.stats.fixAttempts
  {
  }

  /** With the checksum switched on, a sentence whose checksum fails changes nothing. */
  lemma StrictRejectsBadChecksum(d: Decoder, sentence: string, now: real)
    requires !ChecksumValid(sentence)
    ensures Step(d, sentence, now, true) == d
  {
  }

  /** After a GGA, the fix is valid, and `has_fix` holds, exactly when the fix quality is positive. */
  lemma GgaValidity(d: Decoder, sentence: string, now: real)
    requires DecodeGga(sentence).Some?
    ensures var f := DecodeGga(sentence).value;
            var d' := GgaStep(d, sentence, now);
            d'.position.isValid == (f.fixQuality > 0)
            && HasFixOf(d') == (f.fixQuality > 0)
            && d'.lastUpdate == Some(now)
  {
  }

  /** The status callback of a GGA fires exactly when the status changes. */
  lemma GgaNotifiesOnChange(status: GpsStatus, fixQuality: int)
    ensures GgaNotifiesStatus(status, fixQuality) <==> GgaStatus(status, fixQuality) != status
  {
  }

  /**
   * The status moves only to FIXED, or from CONNECTED to FIXING; in particular
   * FIXED is never left once reached.
   */
  lemma StatusTransitions(d: Decoder, sentence: string, now: real, strict: bool)
    ensures var s := Step(d, sentence, now, strict).status;
            s == d.status || s == Fixed || (d.status == Connected && s == Fixing)
    ensures d.status == Fixed ==> Step(d, sentence, now, strict).status == Fixed
  {
  }

  /** Over any stream, FIXED is never reverted. */
  lemma {:induction false} FixedIsSticky(d: Decoder, lines: seq<string>, now: real, strict: bool)
    requires d.status == Fixed
    ensures Run(d, lines, now, strict).status == Fixed
    decreases |lines|
  {
    if lines != [] {
      StatusTransitions(d, lines[0], now, strict);
      FixedIsSticky(Step(d, lines[0], now, strict), lines[1..], now, strict);
    }
  }

  /** Over any stream, `valid_sentences` and `sentences_received` grow in lockstep. */
  lemma {:induction false} CountersInLockstep(d: Decoder, lines: seq<string>, now: real, strict: bool)
    ensures var d' := Run(d, lines, now, strict);
            d'.stats.validSentences - d'.stats.sentencesReceived
            == d.stats.validSentences - d.stats.sentencesReceived
            && d'.stats.sentencesReceived >= d.stats.sentencesReceived
    decreases |lines|
  {
    if lines != [] {
      CountersCountDispatched(d, lines[0], now, strict);
      CountersInLockstep(Step(d, lines[0], now, strict), lines[1..], now, strict);
    }
  }

  /**
   * Every RMC that decodes (status `A`) marks the position valid and leaves
   * the fix quality alone, so from fix quality 0 it gives a valid position
   * without a fix.
   */
  lemma RmcValidWithoutFixQuality(d: Decoder, s: string, now: real)
    requires DecodeRmc(s).Some? && d.position.fixQuality == 0
    ensures RmcStep(d, s, now).position.isValid
    ensures RmcStep(d, s, now).position.fixQuality == 0
    ensures !HasFixOf(RmcStep(d, s, now))
  {
    RmcEffect(d, s, now);
  }

  /**
   * Decoding a GGA sentence assembled from fields reads the fields back: fix
   * quality and satellites as integers, HDOP and altitude as decimals, and the
   * two coordinates by the degrees-and-minutes rule.
   */
  lemma GgaFieldsRead(p: seq<string>)
    requires |p| >= 15 && forall i :: 0 <= i < |p| ==> ',' !in p[i]
    requires IsDigits(p[6]) && IsDigits(p[7])
    requires ParseFloat(p[8]).Some? && ParseFloat(p[9]).Some?
    requires Latitude(p[2], p[3]).Some? && Longitude(p[4], p[5]).Some?
    requires p[3] != [] && p[5] != []
    ensures DecodeGga(Join(p, ','))
         == Some(GgaFix(DigitsValue(p[6]), DigitsValue(p[7]), ParseFloat(p[8]).value, ParseFloat(p[9]).value,
                        Latitude(p[2], p[3]).value, Longitude(p[4], p[5]).value))
  {
    SplitJoin(p, ',');
    GgaFieldsOf(p);
  }

  lemma GgaFieldsOf(p: seq<string>)
    requires |p| >= 15
    requires IsDigits(p[6]) && IsDigits(p[7])
    requires ParseFloat(p[8]).Some? && ParseFloat(p[9]).Some?
    requires Latitude(p[2], p[3]).Some? && Longitude(p[4], p[5]).Some?
    requires p[3] != [] && p[5] != []
    ensures GgaFields(p)
         == Some(GgaFix(DigitsValue(p[6]), DigitsValue(p[7]), ParseFloat(p[8]).value, ParseFloat(p[9]).value,
                        Latitude(p[2], p[3]).value, Longitude(p[4], p[5]).value))
  {
    assert IntOrZero(p[6]) == Some(DigitsValue(p[6])) && IntOrZero(p[7]) == Some(DigitsValue(p[7]));
    assert RealOrZero(p[8]) == ParseFloat(p[8]) && RealOrZero(p[9]) == ParseFloat(p[9]);
    assert p[2] != [] && p[4] != [];
  }

  /**
   * What an RMC sentence does, for every sentence: one with fewer than 12
   * fields or a status other than `A` changes nothing; one that decodes sets
   * the coordinates it carries, speed and course as read, marks the position
   * valid, stamps the update and notifies, and leaves status and counters alone.
   */
  lemma RmcEffect(d: Decoder, sentence: string, now: real)
    ensures var p := Split(sentence, ',');
            |p| < 12 || p[2] != "A" ==> RmcStep(d, sentence, now) == d
    ensures var p := Split(sentence, ',');
            DecodeRmc(sentence).Some?
            <==> |p| >= 12 && p[2] == "A" && RealOrZero(p[7]).Some? && RealOrZero(p[8]).Some?
                 && !OptionalCoordinate(p[3], p[4], 2, "S").Malformed?
                 && !OptionalCoordinate(p[5], p[6], 3, "W").Malformed?
    ensures DecodeRmc(sentence).None? ==> RmcStep(d, sentence, now) == d
    ensures DecodeRmc(sentence).Some? ==>
              var p := Split(sentence, ',');
              var e := RmcStep(d, sentence, now);
              e.position == d.position.(latitude := Updated(OptionalCoordinate(p[3], p[4], 2, "S"), d.position.latitude),
                                        longitude := Updated(OptionalCoordinate(p[5], p[6], 3, "W"), d.position.longitude),
                                        speed := RealOrZero(p[7]).value, course := RealOrZero(p[8]).value,
                                        isValid := true)
              && e.status == d.status && e.stats == d.stats && e.lastUpdate == Some(now)
              && e.notifications == d.notifications + [PositionUpdated(e.position)]
  {
  }

  /** Decoding an RMC sentence assembled from fields reads both coordinates, the speed and the course back. */
  lemma RmcFieldsRead(p: seq<string>)
    requires |p| >= 12 && forall i :: 0 <= i < |p| ==> ',' !in p[i]
    requires p[2] == "A" && ParseFloat(p[7]).Some? && ParseFloat(p[8]).Some?
    requires Latitude(p[3], p[4]).Some? && Longitude(p[5], p[6]).Some?
    requires p[4] != [] && p[6] != []
    ensures DecodeRmc(Join(p, ','))
         == Some(RmcFix(Present(Latitude(p[3], p[4]).value), Present(Longitude(p[5], p[6]).value),
                        ParseFloat(p[7]).value, ParseFloat(p[8]).value))
  {
    SplitJoin(p, ',');
    RmcFieldsOf(Join(p, ','), p);
  }

  lemma RmcFieldsOf(sentence: string, p: seq<string>)
    requires Split(sentence, ',') == p && |p| >= 12
    requires p[2] == "A" && ParseFloat(p[7]).Some? && ParseFloat(p[8]).Some?
    requires Latitude(p[3], p[4]).Some? && Longitude(p[5], p[6]).Some?
    requires p[4] != [] && p[6] != []
    ensures DecodeRmc(sentence)
         == Some(RmcFix(Present(Latitude(p[3], p[4]).value), Present(Longitude(p[5], p[6]).value),
                        ParseFloat(p[7]).value, ParseFloat(p[8]).value))
  {
    assert p[7] != [] && p[8] != [];
    assert OptionalCoordinate(p[3], p[4], 2, "S") == Present(Latitude(p[3], p[4]).value);
    assert OptionalCoordinate(p[5], p[6], 3, "W") == Present(Longitude(p[5], p[6]).value);
  }

  /**
   * What a GLL sentence does, for every sentence: one with fewer than 7 fields
   * or a status other than `A` changes nothing; one that decodes sets the
   * coordinates it carries, marks the position valid, stamps and notifies.
   */
  lemma GllEffect(d: Decoder, sentence: string, now: real)
    ensures var p := Split(sentence, ',');
            |p| < 7 || p[6] != "A" ==> GllStep(d, sentence, now) == d
    ensures var p := Split(sentence, ',');
            DecodeGll(sentence).Some?
            <==> |p| >= 7 && p[6] == "A"
                 && !OptionalCoordinate(p[1], p[2], 2, "S").Malformed?
                 && !OptionalCoordinate(p[3], p[4], 3, "W").Malformed?
    ensures DecodeGll(sentence).None? ==> GllStep(d, sentence, now) == d
    ensures DecodeGll(sentence).Some? ==>
              var p := Split(sentence, ',');
              var e := GllStep(d, sentence, now);
              e.position == d.position.(latitude := Updated(OptionalCoordinate(p[1], p[2], 2, "S"), d.position.latitude),
                                        longitude := Updated(OptionalCoordinate(p[3], p[4], 3, "W"), d.position.longitude),
                                        isValid := true)
              && e.status == d.status && e.stats == d.stats && e.lastUpdate == Some(now)
              && e.notifications == d.notifications + [PositionUpdated(e.position)]
  {
  }

  /** Decoding a GLL sentence assembled from fields reads both coordinates back. */
  lemma GllFieldsRead(p: seq<string>)
    requires |p| >= 7 && forall i :: 0 <= i < |p| ==> ',' !in p[i]
    requires p[6] == "A" && Latitude(p[1], p[2]).Some? && Longitude(p[3], p[4]).Some?
    requires p[2] != [] && p[4] != []
    ensures DecodeGll(Join(p, ','))
         == Some(GllFix(Present(Latitude(p[1], p[2]).value), Present(Longitude(p[3], p[4]).value)))
  {
    SplitJoin(p, ',');
  }

  /**
   * What a VTG sentence does, for every sentence: with fewer than 10 fields or
   * an unreadable speed nothing changes; otherwise only the speed changes, to
   * field 7 in km/h converted to m/s, and a position update is notified.
   */
  lemma VtgEffect(d: Decoder, sentence: string)
    ensures var p := Split(sentence, ',');
            |p| < 10 || RealOrZero(p[7]).None? ==> VtgStep(d, sentence) == d
    ensures var p := Split(sentence, ',');
            |p| >= 10 && RealOrZero(p[7]).Some? ==>
              var position := d.position.(speed := RealOrZero(p[7]).value / 3.6);
              VtgStep(d, sentence) == d.(position := position, notifications := d.notifications + [PositionUpdated(position)])
  {
  }

  /** Decoding a VTG sentence assembled from fields reads the km/h speed of field 7 back. */
  lemma VtgFieldsRead(p: seq<string>)
    requires |p| >= 10 && forall i :: 0 <= i < |p| ==> ',' !in p[i]
    requires ParseFloat(p[7]).Some?
    ensures DecodeVtg(Join(p, ',')) == ParseFloat(p[7])
  {
    SplitJoin(p, ',');
  }

  // ---------------------------------------------------------------------------
  // The controller object
  // ---------------------------------------------------------------------------

  /** What opening the serial port gave: open, not open, or an exception. */
  datatype ConnectOutcome = Opened | NotOpen | SerialFailure | OtherFailure

  class GpsController {
    var status: GpsStatus
    var position: GpsPosition
    var stats: GpsStats
    var lastUpdate: Option<real>
    var notifications: seq<Notification>
    var startTime: Option<real>
    /** Whether `_verify_checksum` guards `_process_nmea_sentence`; `_process_nmea_sentence` has the check commented out (gps_controller.py:197-200). */
    const strictChecksum: bool

    function State(): Decoder
      reads this
    {
      Decoder(status, position, stats, lastUpdate, notifications)
    }

    constructor (strictChecksum: bool, now: real)
      ensures State() == InitialDecoder(now) && startTime == None
      ensures this.strictChecksum == strictChecksum
    {
      this.strictChecksum := strictChecksum;
      status := Disconnected;
      position := InitialPosition(now);
      stats := GpsStats(0, 0, 0, None);
      lastUpdate := None;
      notifications := [];
      startTime := None;
    }

    /** `connect` without the serial port and the reading thread. */
    method Connect(outcome: ConnectOutcome, now: real) returns (ok: bool)
      modifies this`status, this`startTime
      ensures ok <==> outcome == Opened
      ensures status == match outcome
                        case Opened => Connected
                        case NotOpen => old(status)
                        case _ => Error
      ensures startTime == if outcome == Opened then Some(now) else old(startTime)
    {
      match outcome
      case Opened =>
        status := Connected;
        startTime := Some(now);
        ok := true;
      case NotOpen =>
        ok := false;
      case _ =>
        status := Error;
        ok := false;
    }

    /** `disconnect` without the serial port and the reading thread. */
    method Disconnect()
      modifies this`status
      ensures status == Disconnected
    {
      status := Disconnected;
    }

    method ProcessNmeaSentence(sentence: string, now: real)
      modifies this`status, this`position, this`stats, this`lastUpdate, this`notifications
      ensures State() == Step(old(State()), sentence, now, strictChecksum)
    {
      if strictChecksum {
        var ok := VerifyChecksum(sentence);
        if !ok {
          assert !Dispatched(sentence, strictChecksum);
          return;
        }
      }
      if |sentence| == 0 || sentence[0] != '$' {
        return;
      }
      var parts := Split(sentence[1..], '*');
      if |parts| < 2 {
        return;
      }
      SplitHeadIsBefore(sentence[1..], '*');
      var command := Before(parts[0], ',');
      assert command == Command(sentence);
      if command in NmeaSentences {
        assert Dispatched(sentence, strictChecksum);
        Dispatch(NmeaSentences[command], sentence, now);
      }
    }

    /** A recognised sentence: counted as received, handled, then counted as valid. */
    method Dispatch(kind: SentenceKind, sentence: string, now: real)
      modifies this`status, this`position, this`stats, this`lastUpdate, this`notifications
      ensures State() == CountValid(Handle(kind, CountReceived(old(State())), sentence, now))
    {
      stats := stats.(sentencesReceived := stats.sentencesReceived + 1);
      assert State() == CountReceived(old(State()));
      HandleSentence(kind, sentence, now);
      ghost var handled := State();
      stats := stats.(validSentences := stats.validSentences + 1);
      assert State() == CountValid(handled);
    }

    /** The handler `nmea_sentences[command]`. */
    method HandleSentence(kind: SentenceKind, sentence: string, now: real)
      modifies this`status, this`position, this`stats, this`lastUpdate, this`notifications
      ensures State() == Handle(kind, old(State()), sentence, now)
    {
      match kind
      case Gga => ParseGga(sentence, now);
      case Rmc => ParseRmc(sentence, now);
      case Gll => ParseGll(sentence, now);
      case Vtg => ParseVtg(sentence);
    }

    method ParseGga(sentence: string, now: real)
      modifies this`status, this`position, this`stats, this`lastUpdate, this`notifications
      ensures State() == GgaStep(old(State()), sentence, now)
    {
      var fix := DecodeGga(sentence);
      if fix.None? {
        return;
      }
      var f := fix.value;
      ghost var target := ApplyGga(State(), f, now);
      position := position.(latitude := f.latitude, longitude := f.longitude,
                            fixQuality := f.fixQuality, satellites := f.satellites,
                            hdop := f.hdop, altitude := f.altitude, isValid := f.fixQuality > 0);
      lastUpdate := Some(now);
      ghost var before := notifications;
      if f.fixQuality > 0 {
        if status != Fixed {
          status := Fixed;
          stats := stats.(lastFixTime := Some(now));
          notifications := notifications + [StatusChanged(status)];
        }
      } else if status == Connected {
        status := Fixing;
        notifications := notifications + [StatusChanged(status)];
      }
      assert notifications == before + (if GgaNotifiesStatus(old(status), f.fixQuality) then [StatusChanged(status)] else []);
      notifications := notifications + [PositionUpdated(position)];
      assert status == target.status && position == target.position && stats == target.stats;
    }

    method ParseRmc(sentence: string, now: real)
      modifies this`position, this`lastUpdate, this`notifications
      ensures State() == RmcStep(old(State()), sentence, now)
    {
      var fix := DecodeRmc(sentence);
      if fix.None? {
        return;
      }
      var f := fix.value;
      if f.latitude.Present? {
        position := position.(latitude := f.latitude.value);
      }
      if f.longitude.Present? {
        position := position.(longitude := f.longitude.value);
      }
      position := position.(speed := f.speed, course := f.course, isValid := true);
      lastUpdate := Some(now);
      notifications := notifications + [PositionUpdated(position)];
    }

    method ParseGll(sentence: string, now: real)
      modifies this`position, this`lastUpdate, this`notifications
      ensures State() == GllStep(old(State()), sentence, now)
    {
      var fix := DecodeGll(sentence);
      if fix.None? {
        return;
      }
      var f := fix.value;
      if f.latitude.Present? {
        position := position.(latitude := f.latitude.value);
      }
      if f.longitude.Present? {
        position := position.(longitude := f.longitude.value);
      }
      position := position.(isValid := true);
      lastUpdate := Some(now);
      notifications := notifications + [PositionUpdated(position)];
    }

    method ParseVtg(sentence: string)
      modifies this`position, this`notifications
      ensures State() == VtgStep(old(State()), sentence)
    {
      var kmh := DecodeVtg(sentence);
      if kmh.None? {
        return;
      }
      position := position.(speed := kmh.value / 3.6);
      notifications := notifications + [PositionUpdated(position)];
    }

    /** `has_fix`. */
    function HasFix(): (r: bool)
      reads this
      ensures r ==> position.isValid && position.fixQuality > 0
      ensures r <==> HasFixOf(State())
    {
      status == Fixed && position.isValid && position.fixQuality > 0
    }

    /** `get_position`: a field-for-field copy of the current position. */
    method GetPosition() returns (p: GpsPosition)
      ensures p == position
    {
      p := GpsPosition(position.latitude, position.longitude, position.altitude, position.speed,
                       position.course, position.satellites, position.hdop, position.fixQuality,
                       position.timestamp, position.isValid);
    }
  }
}
