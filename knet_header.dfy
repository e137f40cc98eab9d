/**
 * The header grammar of the K-NET / KiK-net ASCII format (obspy/io/nied/knet.py):
 * the line-label check and split (`_prep_hdr_line`), the seventeen header lines
 * read in fixed order with their derived values (`_read_knet_hdr`), and the
 * small rules those values follow (time-zone and logger-delay correction,
 * station/location split, KiK-net channel names, leading digit runs, the
 * `num/denom` scale factor, the optional memo comment).
 *
 * Float parsing and `UTCDateTime.strptime` belong to libraries outside this
 * model; they are passed in as partial functions (`Parsers`).
 */
module KnetHeader {
  import opened Wrappers
  import opened Text

  /** One case per exception the modelled steps raise. The UnicodeDecodeError
      that `readline().decode()` can raise while the lines are read is not
      part of this model. */
  datatype Error =
    | LabelMismatch(expected: string, line: string)  // KNETException in _prep_hdr_line
    | MissingLine(index: nat)                          // IndexError on hdrlines[_i]
    | MissingToken(lineNo: nat, index: nat)            // IndexError on flds[k]
    | BadReal(text: string)                            // ValueError from float()
    | BadTime(text: string)                            // ValueError from UTCDateTime.strptime
    | NoDigits(text: string)                           // ValueError from int('') or float('')
    | BadScaleSplit(text: string, pieces: nat)         // ValueError unpacking eqn.split('/')
    | ZeroDenominator(text: string)                    // ZeroDivisionError in 0.01 * num / denom
    | StationTooLong(station: string)                  // KNETException
    | LineCount(wanted: nat, actual: nat)              // KNETException
    | BadSample(text: string)                          // ValueError from float() on a data token

  /** The library parsers the reader calls: `float(s)`, and
      `UTCDateTime.strptime(s, '%Y/%m/%d %H:%M:%S')` as whole seconds.
      `None` stands for the ValueError they raise. */
  datatype Parsers = Parsers(toReal: string -> Option<real>, toTime: string -> Option<int>)

  /** The event lines (0..4) of the header. Times are seconds, in UTC. */
  datatype Event = Event(originTime: int, lat: real, lon: real, depth: real, magnitude: real)

  /** The station lines (5..8). */
  datatype Site = Site(station: string, location: string, lat: real, lon: real, height: real)

  /** The first data lines (9..12): when and how the record was sampled. */
  datatype Sampling = Sampling(startTime: int, samplingRate: nat, duration: real, channel: string)

  /** The last data lines (13..16): calibration, peak, last correction, memo. */
  datatype Scaling = Scaling(calib: real, accMax: real, lastCorrection: int, comment: Option<string>)

  /** The metadata `_read_knet_hdr` collects. */
  datatype Header = Header(event: Event, site: Site, sampling: Sampling, scaling: Scaling)

  /** The labels the seventeen header lines must start with, in order. */
  const HdrNames: seq<string> := [
    "Origin Time", "Lat.", "Long.", "Depth. (km)", "Mag.",
    "Station Code", "Station Lat.", "Station Long.", "Station Height(m)",
    "Record Time", "Sampling Freq(Hz)", "Duration Time(s)", "Dir.",
    "Scale Factor", "Max. Acc. (gal)", "Last Correction", "Memo."]

  /** Japan Standard Time is nine hours ahead of UTC. */
  const JstOffset: int := 9 * 3600

  /** The K-NET and KiK-net data loggers add 15 s to the record time. */
  const LoggerDelay: int := 15

  /** KiK-net direction codes 1..6 name the axes of the two sensors. */
  const KikNetComps: map<string, string> := map[
    "1" := "NS1", "2" := "EW1", "3" := "UD1",
    "4" := "NS2", "5" := "EW2", "6" := "UD2"]

  // ---------------------------------------------------------------------
  // One header line
  // ---------------------------------------------------------------------

  /** `_prep_hdr_line(name, line)`: the line's tokens, or a label mismatch. */
  function PrepHdrLine(name: string, line: string): (r: Result<seq<string>, Error>)
    ensures r.Err? <==> !StartsWith(line, name)
    ensures r.Err? ==> r.error == LabelMismatch(name, line)
    ensures r.Ok? ==> r.value == Split(line, UnicodeSpace)
  {
    if !StartsWith(line, name) then Err(LabelMismatch(name, line))
    else Ok(Split(line, UnicodeSpace))
  }

  /** The tokens of header line `i`. */
  function Fields(lines: seq<string>, i: nat): seq<string>
    requires i < |lines|
  {
    Split(lines[i], UnicodeSpace)
  }

  /** `_prep_hdr_line(hdrnames[i], hdrlines[i])`, including the IndexError when
      fewer than `i + 1` lines were given. */
  function HeaderLine(lines: seq<string>, i: nat): (r: Result<seq<string>, Error>)
    requires i < |HdrNames|
    ensures r.Ok? <==> i < |lines| && StartsWith(lines[i], HdrNames[i])
    ensures r.Ok? ==> r.value == Fields(lines, i)
    ensures r.Err? && i < |lines| ==> r.error == LabelMismatch(HdrNames[i], lines[i])
    ensures r.Err? ==> !r.error.LineCount?
  {
    if i < |lines| then PrepHdrLine(HdrNames[i], lines[i]) else Err(MissingLine(i))
  }

  /** `flds[k]` of header line `i`. */
  function Token(flds: seq<string>, i: nat, k: nat): (r: Result<string, Error>)
    ensures r.Ok? <==> k < |flds|
    ensures r.Ok? ==> r.value == flds[k]
    ensures r.Err? ==> r.error == MissingToken(i, k)
    ensures r.Err? ==> !r.error.LineCount?
  {
    if k < |flds| then Ok(flds[k]) else Err(MissingToken(i, k))
  }

  /** `float(flds[k])` of header line `i`. */
  function RealField(flds: seq<string>, i: nat, k: nat, p: Parsers): (r: Result<real, Error>)
    ensures r.Ok? <==> k < |flds| && p.toReal(flds[k]).Some?
    ensures r.Ok? ==> p.toReal(flds[k]) == Some(r.value)
    ensures r.Err? ==> r.error == if k < |flds| then BadReal(flds[k]) else MissingToken(i, k)
    ensures r.Err? ==> !r.error.LineCount?
  {
    var t :- Token(flds, i, k);
    match p.toReal(t)
    case None => Err(BadReal(t))
    case Some(v) => Ok(v)
  }

  /** `UTCDateTime.strptime(flds[2] + ' ' + flds[3], ...)`: local time, in seconds. */
  function LocalTime(flds: seq<string>, i: nat, p: Parsers): (r: Result<int, Error>)
    ensures r.Ok? <==> |flds| > 3 && p.toTime(flds[2] + " " + flds[3]).Some?
    ensures r.Ok? ==> p.toTime(flds[2] + " " + flds[3]) == Some(r.value)
    ensures r.Err? ==> r.error == (if |flds| <= 2 then MissingToken(i, 2)
                                   else if |flds| == 3 then MissingToken(i, 3)
                                   else BadTime(flds[2] + " " + flds[3]))
    ensures r.Err? ==> !r.error.LineCount?
  {
    var date :- Token(flds, i, 2);
    var time :- Token(flds, i, 3);
    var text := date + " " + time;
    match p.toTime(text)
    case None => Err(BadTime(text))
    case Some(t) => Ok(t)
  }

  // ---------------------------------------------------------------------
  // Derived values
  // ---------------------------------------------------------------------

  /** The station code split: with `convertStnm` and a code longer than five
      characters, its last two characters become the location. */
  function StationSplit(code: string, convertStnm: bool): (r: Result<(string, string), Error>)
    ensures r.Ok? ==> r.value.0 + r.value.1 == code && |r.value.0| <= 7
    ensures r.Ok? ==> if convertStnm && |code| > 5 then |r.value.1| == 2 else r.value.1 == []
    ensures r.Err? <==> (if convertStnm && |code| > 5 then |code| - 2 else |code|) > 7
    ensures r.Err? ==> r.error.StationTooLong?
  {
    var (station, location) :=
      if convertStnm && |code| > 5 then (code[..|code| - 2], code[|code| - 2..])
      else (code, []);
    if |station| > 7 then Err(StationTooLong(station)) else Ok((station, location))
  }

  /** The channel: hyphens removed, and a KiK-net code 1..6 renamed. */
  function Channel(dir: string): (c: string)
    ensures '-' !in c
    ensures c in KikNetComps.Values || c == RemoveAll(dir, '-')
  {
    var channel := RemoveAll(dir, '-');
    var key := Strip(channel, UnicodeSpace);
    if key in KikNetComps then KikNetComps[key] else channel
  }

  /** `int(re.search('[0-9]*', s).group())`: the value of the leading digit run;
      an empty run is a ValueError. */
  function LeadingValue(s: string): (r: Result<nat, Error>)
    ensures r.Err? <==> s == [] || !IsDigit(s[0])
    ensures r.Err? ==> r.error == NoDigits(s)
    ensures r.Ok? ==> r.value == DigitsValue(LeadingDigits(s))
  {
    var ds := LeadingDigits(s);
    if ds == [] then Err(NoDigits(s)) else Ok(DigitsValue(ds))
  }

  /** What `ScaleFactor` accepts: exactly one `/`, a numerator starting with
      a digit, and a denominator that parses to a non-zero value. */
  predicate ScaleFactorAccepts(eqn: string, p: Parsers) {
    Count(eqn, '/') == 1 &&
    LeadingDigits(SplitOn(eqn, '/')[0]) != [] &&
    p.toReal(SplitOn(eqn, '/')[1]).Some? && p.toReal(SplitOn(eqn, '/')[1]).value != 0.0
  }

  /** The calibration from a `num/denom` scale factor, in m/s^2 per count:
      `0.01 * float(leading digits of num) / float(denom)`. The steps fail in
      source order: the unpacking, then `float('')` of an empty digit run,
      then `float(denom)`, then the division. */
  function ScaleFactor(eqn: string, p: Parsers): (r: Result<real, Error>)
    ensures r.Ok? <==> ScaleFactorAccepts(eqn, p)
    ensures Count(eqn, '/') != 1 ==> r == Err(BadScaleSplit(eqn, Count(eqn, '/') + 1))
    ensures Count(eqn, '/') == 1 ==>
      var num, den := SplitOn(eqn, '/')[0], SplitOn(eqn, '/')[1];
      (LeadingDigits(num) == [] ==> r == Err(NoDigits(num))) &&
      (LeadingDigits(num) != [] && p.toReal(den).None? ==> r == Err(BadReal(den))) &&
      (LeadingDigits(num) != [] && p.toReal(den) == Some(0.0) ==> r == Err(ZeroDenominator(eqn))) &&
      (r.Ok? ==> r.value == 0.01 * (DigitsValue(LeadingDigits(num)) as real) / p.toReal(den).value)
    ensures r.Err? ==> !r.error.LineCount?
  {
    var parts := SplitOn(eqn, '/');
    if |parts| != 2 then Err(BadScaleSplit(eqn, |parts|))
    else
      var num :- LeadingValue(parts[0]);
      match p.toReal(parts[1])
      case None => Err(BadReal(parts[1]))
      case Some(denom) =>
        if denom == 0.0 then Err(ZeroDenominator(eqn))
        else Ok(0.01 * (num as real) / denom)
  }

  /** The optional memo: every token after the label, joined by single spaces. */
  function Comment(flds: seq<string>): (r: Option<string>)
    ensures r.Some? <==> |flds| > 1
    ensures r.Some? ==> r.value == JoinWith(flds[1..], ' ')
  {
    if |flds| > 1 then Some(JoinWith(flds[1..], ' ')) else None
  }

  // ---------------------------------------------------------------------
  // The seventeen header lines
  // ---------------------------------------------------------------------

  /** Lines `lo` up to `hi` each start with their own label. */
  predicate LabelsMatch(lines: seq<string>, lo: nat, hi: nat)
    requires lo <= hi <= |HdrNames|
  {
    hi <= |lines| && forall i :: lo <= i < hi ==> StartsWith(lines[i], HdrNames[i])
  }

  /** What the checks of header line `i` demand of its tokens `flds` beyond
      its label, in the order the reader takes them: two tokens forming a
      time, a number at a given position, the station code, a sampling
      frequency starting with a digit, a direction, a scale factor. The memo
      line needs nothing more. */
  predicate FieldsOk(flds: seq<string>, i: nat, p: Parsers) {
    if i == 0 || i == 9 || i == 15 then |flds| > 3 && p.toTime(flds[2] + " " + flds[3]).Some?
    else if i == 1 || i == 2 || i == 4 then |flds| > 1 && p.toReal(flds[1]).Some?
    else if i == 3 || i == 6 || i == 7 || i == 8 || i == 11 then |flds| > 2 && p.toReal(flds[2]).Some?
    else if i == 5 then |flds| > 2
    else if i == 10 then |flds| > 2 && flds[2] != [] && IsDigit(flds[2][0])
    else if i == 12 then |flds| > 1
    else if i == 13 then |flds| > 2 && ScaleFactorAccepts(flds[2], p)
    else if i == 14 then |flds| > 3 && p.toReal(flds[3]).Some?
    else true
  }

  /** Header line `i` is present, carries its label and passes its field checks. */
  predicate LineOk(lines: seq<string>, i: nat, p: Parsers)
    requires i < |HdrNames|
  {
    i < |lines| && StartsWith(lines[i], HdrNames[i]) && FieldsOk(Fields(lines, i), i, p)
  }

  /** The station part of `code` is at most seven characters long. */
  predicate StationFits(code: string, convertStnm: bool) {
    (if convertStnm && |code| > 5 then |code| - 2 else |code|) <= 7
  }

  predicate EventOk(lines: seq<string>, p: Parsers) {
    LineOk(lines, 0, p) && LineOk(lines, 1, p) && LineOk(lines, 2, p) &&
    LineOk(lines, 3, p) && LineOk(lines, 4, p)
  }

  predicate SiteOk(lines: seq<string>, convertStnm: bool, p: Parsers) {
    LineOk(lines, 5, p) && StationFits(Fields(lines, 5)[2], convertStnm) &&
    LineOk(lines, 6, p) && LineOk(lines, 7, p) && LineOk(lines, 8, p)
  }

  predicate SamplingOk(lines: seq<string>, p: Parsers) {
    LineOk(lines, 9, p) && LineOk(lines, 10, p) && LineOk(lines, 11, p) && LineOk(lines, 12, p)
  }

  predicate ScalingOk(lines: seq<string>, p: Parsers) {
    LineOk(lines, 13, p) && LineOk(lines, 14, p) && LineOk(lines, 15, p) && LineOk(lines, 16, p)
  }

  /** `ScalingOk` in terms of the reader's own steps. */
  lemma ScalingOkSteps(lines: seq<string>, p: Parsers)
    ensures ScalingOk(lines, p) <==>
      HeaderLine(lines, 13).Ok? && Token(HeaderLine(lines, 13).value, 13, 2).Ok? &&
      ScaleFactor(HeaderLine(lines, 13).value[2], p).Ok? &&
      HeaderLine(lines, 14).Ok? && RealField(HeaderLine(lines, 14).value, 14, 3, p).Ok? &&
      HeaderLine(lines, 15).Ok? && LocalTime(HeaderLine(lines, 15).value, 15, p).Ok? &&
      HeaderLine(lines, 16).Ok?
  {
  }

  /** The header grammar `_read_knet_hdr` accepts: exactly seventeen lines,
      each with its label and well-formed fields, and a station code that fits. */
  predicate WellFormedHeader(lines: seq<string>, convertStnm: bool, p: Parsers) {
    |lines| == |HdrNames| && EventOk(lines, p) && SiteOk(lines, convertStnm, p) &&
    SamplingOk(lines, p) && ScalingOk(lines, p)
  }

  /** Event information: origin time (JST, so less nine hours), latitude,
      longitude, depth and magnitude. */
  function EventSection(lines: seq<string>, p: Parsers): (r: Result<Event, Error>)
    ensures r.Ok? <==> EventOk(lines, p)
    ensures r.Ok? ==> LabelsMatch(lines, 0, 5)
    ensures r.Ok? ==> (|Fields(lines, 0)| > 3 &&
      p.toTime(Fields(lines, 0)[2] + " " + Fields(lines, 0)[3]) == Some(r.value.originTime + 32400))
    ensures r.Ok? ==> |Fields(lines, 1)| > 1 && p.toReal(Fields(lines, 1)[1]) == Some(r.value.lat)
    ensures r.Ok? ==> |Fields(lines, 2)| > 1 && p.toReal(Fields(lines, 2)[1]) == Some(r.value.lon)
    ensures r.Ok? ==> |Fields(lines, 3)| > 2 && p.toReal(Fields(lines, 3)[2]) == Some(r.value.depth)
    ensures r.Ok? ==> |Fields(lines, 4)| > 1 && p.toReal(Fields(lines, 4)[1]) == Some(r.value.magnitude)
  {
    var f0 :- HeaderLine(lines, 0);
    var evot :- LocalTime(f0, 0, p);
    var f1 :- HeaderLine(lines, 1);
    var evla :- RealField(f1, 1, 1, p);
    var f2 :- HeaderLine(lines, 2);
    var evlo :- RealField(f2, 2, 1, p);
    var f3 :- HeaderLine(lines, 3);
    var evdp :- RealField(f3, 3, 2, p);
    var f4 :- HeaderLine(lines, 4);
    var mag :- RealField(f4, 4, 1, p);
    Ok(Event(evot - JstOffset, evla, evlo, evdp, mag))
  }

  /** Station information: the code (split into station and location) and the
      station's latitude, longitude and height. */
  function SiteSection(lines: seq<string>, convertStnm: bool, p: Parsers): (r: Result<Site, Error>)
    ensures r.Ok? <==> SiteOk(lines, convertStnm, p)
    ensures r.Ok? ==> LabelsMatch(lines, 5, 9)
    ensures r.Ok? ==> (|Fields(lines, 5)| > 2 &&
      StationSplit(Fields(lines, 5)[2], convertStnm) == Ok((r.value.station, r.value.location)))
    ensures r.Ok? ==> |Fields(lines, 6)| > 2 && p.toReal(Fields(lines, 6)[2]) == Some(r.value.lat)
    ensures r.Ok? ==> |Fields(lines, 7)| > 2 && p.toReal(Fields(lines, 7)[2]) == Some(r.value.lon)
    ensures r.Ok? ==> |Fields(lines, 8)| > 2 && p.toReal(Fields(lines, 8)[2]) == Some(r.value.height)
  {
    var f5 :- HeaderLine(lines, 5);
    var code :- Token(f5, 5, 2);
    var stloc :- StationSplit(code, convertStnm);
    var f6 :- HeaderLine(lines, 6);
    var stla :- RealField(f6, 6, 2, p);
    var f7 :- HeaderLine(lines, 7);
    var stlo :- RealField(f7, 7, 2, p);
    var f8 :- HeaderLine(lines, 8);
    var stel :- RealField(f8, 8, 2, p);
    Ok(Site(stloc.0, stloc.1, stla, stlo, stel))
  }

  /** Line 9, `Record Time`: the local record time less the 15 s logger
      delay and the nine hours of Japan Standard Time. */
  function RecordTimeLine(lines: seq<string>, p: Parsers): (r: Result<int, Error>)
    ensures r.Ok? <==> LineOk(lines, 9, p)
    ensures r.Ok? ==> (|Fields(lines, 9)| > 3 &&
      p.toTime(Fields(lines, 9)[2] + " " + Fields(lines, 9)[3]) == Some(r.value + 15 + 32400))
    ensures r.Err? ==> r.error == if Unlabelled(lines, 9) then LineError(lines, 9)
                                 else LocalTime(Fields(lines, 9), 9, p).error
  {
    var f9 :- HeaderLine(lines, 9);
    var rect :- LocalTime(f9, 9, p);
    Ok(rect - LoggerDelay - JstOffset)
  }

  /** Line 10, `Sampling Freq(Hz)`: the leading digit run of token 2. */
  function RateLine(lines: seq<string>): (r: Result<nat, Error>)
    ensures r.Ok? <==> !Unlabelled(lines, 10) && |Fields(lines, 10)| > 2 &&
                       Fields(lines, 10)[2] != [] && IsDigit(Fields(lines, 10)[2][0])
    ensures forall p :: r.Ok? <==> LineOk(lines, 10, p)
    ensures r.Ok? ==> |Fields(lines, 10)| > 2 && LeadingValue(Fields(lines, 10)[2]) == Ok(r.value)
    ensures r.Err? ==> r.error == if Unlabelled(lines, 10) then LineError(lines, 10)
                                 else if |Fields(lines, 10)| <= 2 then MissingToken(10, 2)
                                 else NoDigits(Fields(lines, 10)[2])
  {
    var f10 :- HeaderLine(lines, 10);
    var freqstr :- Token(f10, 10, 2);
    LeadingValue(freqstr)
  }

  /** Line 11, `Duration Time(s)`: token 2 as a number. */
  function DurationLine(lines: seq<string>, p: Parsers): (r: Result<real, Error>)
    ensures r.Ok? <==> LineOk(lines, 11, p)
    ensures r.Ok? ==> |Fields(lines, 11)| > 2 && p.toReal(Fields(lines, 11)[2]) == Some(r.value)
    ensures r.Err? ==> r.error == if Unlabelled(lines, 11) then LineError(lines, 11)
                                 else RealField(Fields(lines, 11), 11, 2, p).error
  {
    var f11 :- HeaderLine(lines, 11);
    RealField(f11, 11, 2, p)
  }

  /** Line 12, `Dir.`: the channel of token 1. */
  function ChannelLine(lines: seq<string>): (r: Result<string, Error>)
    ensures r.Ok? <==> !Unlabelled(lines, 12) && |Fields(lines, 12)| > 1
    ensures forall p :: r.Ok? <==> LineOk(lines, 12, p)
    ensures r.Ok? ==> |Fields(lines, 12)| > 1 && r.value == Channel(Fields(lines, 12)[1])
    ensures r.Err? ==> r.error == if Unlabelled(lines, 12) then LineError(lines, 12)
                                 else MissingToken(12, 1)
  {
    var f12 :- HeaderLine(lines, 12);
    var dir :- Token(f12, 12, 1);
    Ok(Channel(dir))
  }

  /** Data information, first part: record time (less the 15 s logger delay
      and nine hours), sampling rate, duration and channel. */
  function SamplingSection(lines: seq<string>, p: Parsers): (r: Result<Sampling, Error>)
    ensures r.Ok? <==> SamplingOk(lines, p)
    ensures r.Ok? ==> LabelsMatch(lines, 9, 13)
    ensures r.Ok? ==> (|Fields(lines, 9)| > 3 &&
      p.toTime(Fields(lines, 9)[2] + " " + Fields(lines, 9)[3]) == Some(r.value.startTime + 15 + 32400))
    ensures r.Ok? ==> |Fields(lines, 10)| > 2 && LeadingValue(Fields(lines, 10)[2]) == Ok(r.value.samplingRate)
    ensures r.Ok? ==> |Fields(lines, 11)| > 2 && p.toReal(Fields(lines, 11)[2]) == Some(r.value.duration)
    ensures r.Ok? ==> |Fields(lines, 12)| > 1 && r.value.channel == Channel(Fields(lines, 12)[1])
  {
    var start :- RecordTimeLine(lines, p);
    var freq :- RateLine(lines);
    var duration :- DurationLine(lines, p);
    var channel :- ChannelLine(lines);
    Ok(Sampling(start, freq, duration, channel))
  }

  /** Data information, second part: calibration, peak acceleration, last
      correction time (less nine hours) and the optional memo. */
  function ScalingSection(lines: seq<string>, p: Parsers): (r: Result<Scaling, Error>)
    ensures r.Ok? <==> ScalingOk(lines, p)
    ensures r.Ok? ==> LabelsMatch(lines, 13, 17)
    ensures r.Ok? ==> |Fields(lines, 13)| > 2 && ScaleFactor(Fields(lines, 13)[2], p) == Ok(r.value.calib)
    ensures r.Ok? ==> |Fields(lines, 14)| > 3 && p.toReal(Fields(lines, 14)[3]) == Some(r.value.accMax)
    ensures r.Ok? ==> (|Fields(lines, 15)| > 3 &&
      p.toTime(Fields(lines, 15)[2] + " " + Fields(lines, 15)[3]) == Some(r.value.lastCorrection + 32400))
    ensures r.Ok? ==> r.value.comment == Comment(Fields(lines, 16))
  {
    ScalingOkSteps(lines, p);
    var f13 :- HeaderLine(lines, 13);
    var eqn :- Token(f13, 13, 2);
    var calib :- ScaleFactor(eqn, p);
    var f14 :- HeaderLine(lines, 14);
    var acc :- RealField(f14, 14, 3, p);
    var f15 :- HeaderLine(lines, 15);
    var lastc :- LocalTime(f15, 15, p);
    var f16 :- HeaderLine(lines, 16);
    Ok(Scaling(calib, acc, lastc - JstOffset, Comment(f16)))
  }

  /** The body of `_read_knet_hdr` up to, not including, the final line-count
      check: the sections in order, each line checked against its label. */
  function HeaderFields(lines: seq<string>, convertStnm: bool, p: Parsers): (r: Result<Header, Error>)
    ensures r.Ok? <==> EventOk(lines, p) && SiteOk(lines, convertStnm, p) &&
                       SamplingOk(lines, p) && ScalingOk(lines, p)
    ensures r.Ok? ==> LabelsMatch(lines, 0, 17)
    ensures r.Ok? ==> r.value == Header(EventSection(lines, p).value, SiteSection(lines, convertStnm, p).value,
                                        SamplingSection(lines, p).value, ScalingSection(lines, p).value)
  {
    var event :- EventSection(lines, p);
    var site :- SiteSection(lines, convertStnm, p);
    var sampling :- SamplingSection(lines, p);
    var scaling :- ScalingSection(lines, p);
    Ok(Header(event, site, sampling, scaling))
  }

  /** `_read_knet_hdr(hdrlines, convert_stnm)` */
  function ReadKnetHdr(lines: seq<string>, convertStnm: bool, p: Parsers): (r: Result<Header, Error>)
    ensures r.Ok? <==> WellFormedHeader(lines, convertStnm, p)
    ensures r.Err? && r.error.LineCount? <==> HeaderFields(lines, convertStnm, p).Ok? && |lines| != |HdrNames|
    ensures r.Ok? ==> r.value == HeaderFields(lines, convertStnm, p).value
  {
    HeaderFieldsNoLineCount(lines, convertStnm, p);
    var h :- HeaderFields(lines, convertStnm, p);
    if |lines| != |HdrNames| then Err(LineCount(|HdrNames|, |lines|)) else Ok(h)
  }

  // ---------------------------------------------------------------------
  // Properties
  // ---------------------------------------------------------------------

  /** The only error `_read_knet_hdr` raises after the seventeen label and
      field checks is the line count; none of those checks raises it. */
  lemma HeaderFieldsNoLineCount(lines: seq<string>, convertStnm: bool, p: Parsers)
    ensures HeaderFields(lines, convertStnm, p).Err? ==> !HeaderFields(lines, convertStnm, p).error.LineCount?
  {
    EventNoLineCount(lines, p);
    SiteNoLineCount(lines, convertStnm, p);
    SamplingNoLineCount(lines, p);
    ScalingNoLineCount(lines, p);
  }

  lemma EventNoLineCount(lines: seq<string>, p: Parsers)
    ensures EventSection(lines, p).Err? ==> !EventSection(lines, p).error.LineCount?
  {
  }

  lemma SiteNoLineCount(lines: seq<string>, convertStnm: bool, p: Parsers)
    ensures SiteSection(lines, convertStnm, p).Err? ==> !SiteSection(lines, convertStnm, p).error.LineCount?
  {
  }

  lemma SamplingNoLineCount(lines: seq<string>, p: Parsers)
    ensures SamplingSection(lines, p).Err? ==> !SamplingSection(lines, p).error.LineCount?
  {
  }

  lemma ScalingNoLineCount(lines: seq<string>, p: Parsers)
    ensures ScalingSection(lines, p).Err? ==> !ScalingSection(lines, p).error.LineCount?
  {
  }

  /** A header is accepted only when there are exactly seventeen lines and each
      starts with its own label, in table order. */
  lemma ReadKnetHdrLabels(lines: seq<string>, convertStnm: bool, p: Parsers)
    requires ReadKnetHdr(lines, convertStnm, p).Ok?
    ensures |lines| == |HdrNames| == 17
    ensures forall i :: 0 <= i < |HdrNames| ==> StartsWith(lines[i], HdrNames[i])
  {
    assert HeaderFields(lines, convertStnm, p).Ok?;
  }

  /** The fields are read from the first seventeen lines only. */
  lemma HeaderFieldsPrefix(lines: seq<string>, convertStnm: bool, p: Parsers)
    requires |lines| >= |HdrNames|
    ensures HeaderFields(lines, convertStnm, p) == HeaderFields(lines[..|HdrNames|], convertStnm, p)
  {
    var front := lines[..|HdrNames|];
    SameLines(lines, front);
    SameEvent(lines, front, p);
    SameSite(lines, front, convertStnm, p);
    SameSampling(lines, front, p);
    SameScaling(lines, front, p);
  }

  /** Two line lists that agree on the header lines. */
  predicate SameHeaderLines(lines: seq<string>, front: seq<string>) {
    forall i :: 0 <= i < |HdrNames| ==> HeaderLine(lines, i) == HeaderLine(front, i)
  }

  lemma SameLines(lines: seq<string>, front: seq<string>)
    requires |lines| >= |HdrNames| && front == lines[..|HdrNames|]
    ensures SameHeaderLines(lines, front)
  {
    forall i | 0 <= i < |HdrNames| ensures HeaderLine(lines, i) == HeaderLine(front, i) {
      assert front[i] == lines[i];
    }
  }

  lemma SameEvent(lines: seq<string>, front: seq<string>, p: Parsers)
    requires SameHeaderLines(lines, front)
    ensures EventSection(lines, p) == EventSection(front, p)
  {
    assert HeaderLine(lines, 0) == HeaderLine(front, 0);
    assert HeaderLine(lines, 1) == HeaderLine(front, 1);
    assert HeaderLine(lines, 2) == HeaderLine(front, 2);
    assert HeaderLine(lines, 3) == HeaderLine(front, 3);
    assert HeaderLine(lines, 4) == HeaderLine(front, 4);
  }

  lemma SameSite(lines: seq<string>, front: seq<string>, convertStnm: bool, p: Parsers)
    requires SameHeaderLines(lines, front)
    ensures SiteSection(lines, convertStnm, p) == SiteSection(front, convertStnm, p)
  {
    assert HeaderLine(lines, 5) == HeaderLine(front, 5);
    assert HeaderLine(lines, 6) == HeaderLine(front, 6);
    assert HeaderLine(lines, 7) == HeaderLine(front, 7);
    assert HeaderLine(lines, 8) == HeaderLine(front, 8);
  }

  lemma SameSampling(lines: seq<string>, front: seq<string>, p: Parsers)
    requires SameHeaderLines(lines, front)
    ensures SamplingSection(lines, p) == SamplingSection(front, p)
  {
    assert RecordTimeLine(lines, p) == RecordTimeLine(front, p) by {
      assert HeaderLine(lines, 9) == HeaderLine(front, 9);
    }
    assert RateLine(lines) == RateLine(front) by {
      assert HeaderLine(lines, 10) == HeaderLine(front, 10);
    }
    assert DurationLine(lines, p) == DurationLine(front, p) by {
      assert HeaderLine(lines, 11) == HeaderLine(front, 11);
    }
    assert ChannelLine(lines) == ChannelLine(front) by {
      assert HeaderLine(lines, 12) == HeaderLine(front, 12);
    }
  }

  lemma SameScaling(lines: seq<string>, front: seq<string>, p: Parsers)
    requires SameHeaderLines(lines, front)
    ensures ScalingSection(lines, p) == ScalingSection(front, p)
  {
    assert HeaderLine(lines, 13) == HeaderLine(front, 13);
    assert HeaderLine(lines, 14) == HeaderLine(front, 14);
    assert HeaderLine(lines, 15) == HeaderLine(front, 15);
    assert HeaderLine(lines, 16) == HeaderLine(front, 16);
  }

  /** The line count is checked last: surplus lines after a good seventeen-line
      header are reported as a count mismatch, and only then. */
  lemma ReadKnetHdrSurplus(lines: seq<string>, convertStnm: bool, p: Parsers)
    requires |lines| > |HdrNames|
    requires ReadKnetHdr(lines[..|HdrNames|], convertStnm, p).Ok?
    ensures ReadKnetHdr(lines, convertStnm, p) == Err(LineCount(17, |lines|))
  {
    HeaderFieldsPrefix(lines, convertStnm, p);
  }

  /** Exchanging the `Lat.` and `Long.` lines is reported as a mismatch against
      the expected `Lat.` label, once the origin-time line has been read. */
  lemma LatLongSwapped(lines: seq<string>, convertStnm: bool, p: Parsers)
    requires |lines| > 1 && StartsWith(lines[1], "Long.")
    requires HeaderLine(lines, 0).Ok? && LocalTime(HeaderLine(lines, 0).value, 0, p).Ok?
    ensures ReadKnetHdr(lines, convertStnm, p) == Err(LabelMismatch("Lat.", lines[1]))
  {
    assert lines[1][..4] != "Lat." by {
      assert lines[1][..5] == "Long.";
      assert lines[1][1] == 'o';
    }
    assert HeaderLine(lines, 1) == Err(LabelMismatch("Lat.", lines[1]));
    assert EventSection(lines, p) == Err(LabelMismatch("Lat.", lines[1]));
  }

  /** The error `_prep_hdr_line` (or the list index) raises for header line
      `i` when that line is missing or does not carry its label. */
  function LineError(lines: seq<string>, i: nat): Error
    requires i < |HdrNames|
  {
    if i < |lines| then LabelMismatch(HdrNames[i], lines[i]) else MissingLine(i)
  }

  /** Line `i` is missing or does not start with its label. */
  predicate Unlabelled(lines: seq<string>, i: nat)
    requires i < |HdrNames|
  {
    !(i < |lines| && StartsWith(lines[i], HdrNames[i]))
  }

  /** Line `i` stops `_read_knet_hdr`: it is missing, mislabelled, one of
      its field steps fails, or (line 5) its station code is too long. */
  predicate LineFails(lines: seq<string>, i: nat, convertStnm: bool, p: Parsers)
    requires i < |HdrNames|
  {
    !LineOk(lines, i, p) || (i == 5 && !StationFits(Fields(lines, 5)[2], convertStnm))
  }

  /** The error of the first failing field step of header line `i`, on its
      tokens `flds`: the token lookup, then the conversion of that token. */
  function FieldError(flds: seq<string>, i: nat, convertStnm: bool, p: Parsers): Error
    requires i < |HdrNames|
    requires !FieldsOk(flds, i, p) || (i == 5 && !StationFits(flds[2], convertStnm))
  {
    if i == 0 || i == 9 || i == 15 then LocalTime(flds, i, p).error
    else if i == 1 || i == 2 || i == 4 then RealField(flds, i, 1, p).error
    else if i == 3 || i == 6 || i == 7 || i == 8 || i == 11 then RealField(flds, i, 2, p).error
    else if i == 5 then
      if |flds| <= 2 then Token(flds, i, 2).error else StationSplit(flds[2], convertStnm).error
    else if i == 10 then
      if |flds| <= 2 then Token(flds, i, 2).error else LeadingValue(flds[2]).error
    else if i == 12 then Token(flds, i, 1).error
    else if i == 13 then
      if |flds| <= 2 then Token(flds, i, 2).error else ScaleFactor(flds[2], p).error
    else RealField(flds, i, 3, p).error
  }

  /** The error reported for a failing line `i`. */
  function FailError(lines: seq<string>, i: nat, convertStnm: bool, p: Parsers): Error
    requires i < |HdrNames| && LineFails(lines, i, convertStnm, p)
  {
    if Unlabelled(lines, i) then LineError(lines, i)
    else FieldError(Fields(lines, i), i, convertStnm, p)
  }

  lemma EventFirstBad(lines: seq<string>, i: nat, convertStnm: bool, p: Parsers)
    requires i < 5 && LineFails(lines, i, convertStnm, p)
    requires forall j :: 0 <= j < i ==> LineOk(lines, j, p)
    ensures EventSection(lines, p) == Err(FailError(lines, i, convertStnm, p))
  {
    if i > 0 { assert LineOk(lines, 0, p); }
    if i > 1 { assert LineOk(lines, 1, p); }
    if i > 2 { assert LineOk(lines, 2, p); }
    if i > 3 { assert LineOk(lines, 3, p); }
  }

  lemma SiteFirstBad(lines: seq<string>, i: nat, convertStnm: bool, p: Parsers)
    requires 5 <= i < 9 && LineFails(lines, i, convertStnm, p)
    requires forall j :: 5 <= j < i ==> LineOk(lines, j, p)
    requires i > 5 ==> LineOk(lines, 5, p) && StationFits(Fields(lines, 5)[2], convertStnm)
    ensures SiteSection(lines, convertStnm, p) == Err(FailError(lines, i, convertStnm, p))
  {
    if i > 6 { assert LineOk(lines, 6, p); }
    if i > 7 { assert LineOk(lines, 7, p); }
  }

  lemma SamplingFirstBad(lines: seq<string>, i: nat, convertStnm: bool, p: Parsers)
    requires 9 <= i < 13 && LineFails(lines, i, convertStnm, p)
    requires forall j :: 9 <= j < i ==> LineOk(lines, j, p)
    ensures SamplingSection(lines, p) == Err(FailError(lines, i, convertStnm, p))
  {
    if i > 9 { assert LineOk(lines, 9, p); }
    if i > 10 { assert LineOk(lines, 10, p); }
    if i > 11 { assert LineOk(lines, 11, p); }
  }

  lemma ScaleLineBad(lines: seq<string>, convertStnm: bool, p: Parsers)
    requires LineFails(lines, 13, convertStnm, p)
    ensures ScalingSection(lines, p) == Err(FailError(lines, 13, convertStnm, p))
  {
    if !Unlabelled(lines, 13) {
      var f := Fields(lines, 13);
      assert HeaderLine(lines, 13) == Ok(f);
      if |f| > 2 {
        assert !ScaleFactorAccepts(f[2], p);
      }
    }
  }

  lemma ScalingLaterBad(lines: seq<string>, i: nat, convertStnm: bool, p: Parsers)
    requires 14 <= i < 17 && LineFails(lines, i, convertStnm, p)
    requires forall j :: 13 <= j < i ==> LineOk(lines, j, p)
    ensures ScalingSection(lines, p) == Err(FailError(lines, i, convertStnm, p))
  {
    assert LineOk(lines, 13, p);
    assert ScaleFactor(Fields(lines, 13)[2], p).Ok?;
    if i > 14 { assert LineOk(lines, 14, p); }
    if i > 15 { assert LineOk(lines, 15, p); }
    if !Unlabelled(lines, i) {
      assert HeaderLine(lines, i) == Ok(Fields(lines, i));
    }
  }

  lemma ScalingFirstBad(lines: seq<string>, i: nat, convertStnm: bool, p: Parsers)
    requires 13 <= i < 17 && LineFails(lines, i, convertStnm, p)
    requires forall j :: 13 <= j < i ==> LineOk(lines, j, p)
    ensures ScalingSection(lines, p) == Err(FailError(lines, i, convertStnm, p))
  {
    if i == 13 {
      ScaleLineBad(lines, convertStnm, p);
    } else {
      ScalingLaterBad(lines, i, convertStnm, p);
    }
  }

  /** The lines are checked in table order: when every line before `i`
      passes its checks (and the station code fits, once line 5 is past) and
      line `i` fails, the error is that of line `i`: the label mismatch or
      missing line, or else its first failing field step. */
  lemma ReadKnetHdrFirstBad(lines: seq<string>, i: nat, convertStnm: bool, p: Parsers)
    requires i < |HdrNames| && LineFails(lines, i, convertStnm, p)
    requires forall j :: 0 <= j < i ==> LineOk(lines, j, p)
    requires i > 5 ==> LineOk(lines, 5, p) && StationFits(Fields(lines, 5)[2], convertStnm)
    ensures ReadKnetHdr(lines, convertStnm, p) == Err(FailError(lines, i, convertStnm, p))
  {
    if i < 5 {
      EventFirstBad(lines, i, convertStnm, p);
    } else {
      assert EventOk(lines, p) by {
        assert LineOk(lines, 0, p) && LineOk(lines, 1, p) && LineOk(lines, 2, p);
        assert LineOk(lines, 3, p) && LineOk(lines, 4, p);
      }
      if i < 9 {
        SiteFirstBad(lines, i, convertStnm, p);
      } else {
        assert SiteOk(lines, convertStnm, p) by {
          assert LineOk(lines, 6, p) && LineOk(lines, 7, p) && LineOk(lines, 8, p);
        }
        if i < 13 {
          SamplingFirstBad(lines, i, convertStnm, p);
        } else {
          assert SamplingOk(lines, p) by {
            assert LineOk(lines, 9, p) && LineOk(lines, 10, p);
            assert LineOk(lines, 11, p) && LineOk(lines, 12, p);
          }
          ScalingFirstBad(lines, i, convertStnm, p);
        }
      }
    }
  }

  /** A station code whose station part is longer than seven characters,
      after five good event lines, is reported as station-too-long. */
  lemma ReadKnetHdrStationTooLong(lines: seq<string>, convertStnm: bool, p: Parsers)
    requires EventOk(lines, p) && LineOk(lines, 5, p)
    requires !StationFits(Fields(lines, 5)[2], convertStnm)
    ensures ReadKnetHdr(lines, convertStnm, p).Err?
    ensures ReadKnetHdr(lines, convertStnm, p).error.StationTooLong?
  {
    ReadKnetHdrFirstBad(lines, 5, convertStnm, p);
  }

  /** With conversion on, an eight-character code keeps six characters as the
      station and two as the location; a ten-character code leaves eight, which
      is too long; without conversion eight characters are already too long. */
  lemma StationSplitExamples()
    ensures StationSplit("ABCDEFGH", true) == Ok(("ABCDEF", "GH"))
    ensures StationSplit("ABCDEFGHIJ", true) == Err(StationTooLong("ABCDEFGH"))
    ensures StationSplit("ABCDEFGH", false) == Err(StationTooLong("ABCDEFGH"))
    ensures StationSplit("TKYH01", false) == Ok(("TKYH01", ""))
  {
    assert "ABCDEFGH"[..6] == "ABCDEF";
    assert "ABCDEFGHIJ"[..8] == "ABCDEFGH";
  }

  /** On a direction token (no whitespace) the channel is the token without its
      hyphens, renamed when that is a KiK-net code 1..6. */
  lemma {:induction false} ChannelOfToken(dir: string)
    requires NoSpace(dir, UnicodeSpace)
    ensures var d := RemoveAll(dir, '-');
            Channel(dir) == if d in KikNetComps then KikNetComps[d] else d
  {
    var d := RemoveAll(dir, '-');
    assert NoSpace(d, UnicodeSpace) by {
      forall i | 0 <= i < |d| ensures d[i] !in UnicodeSpace {
        assert d[i] in d;
        var j :| 0 <= j < |dir| && dir[j] == d[i];
      }
    }
    StripNoSpace(d, UnicodeSpace);
  }

  /** Direction `3` is the vertical axis of the first sensor. */
  lemma ChannelDigitExample()
    ensures Channel("3") == "UD1"
  {
    RemoveAllChar('3', '-');
    assert NoSpace("3", UnicodeSpace) by {
      assert '3' !in UnicodeSpace && "3"[0] == '3';
    }
    ChannelOfToken("3");
  }

  /** A K-NET direction such as `N-S` only loses its hyphen. */
  lemma ChannelNamedExample()
    ensures Channel("N-S") == "NS"
  {
    RemoveAllAppend("N", "-S", '-');
    RemoveAllAppend("-", "S", '-');
    RemoveAllChar('N', '-');
    RemoveAllChar('-', '-');
    RemoveAllChar('S', '-');
    assert RemoveAll("N-S", '-') == "NS" by {
      assert "N-S" == "N" + "-S" && "-S" == "-" + "S";
    }
    assert "NS" !in KikNetComps by {
      assert forall k :: k in KikNetComps ==> |k| == 1;
    }
    assert NoSpace("N-S", UnicodeSpace) by {
      assert 'N' !in UnicodeSpace && '-' !in UnicodeSpace && 'S' !in UnicodeSpace;
      assert "N-S"[0] == 'N' && "N-S"[1] == '-' && "N-S"[2] == 'S';
    }
    ChannelOfToken("N-S");
  }

  /** A token made of a non-empty digit run followed by a unit reads back as
      the value of that digit run, leading zeros included. */
  lemma LeadingValueOfDigits(ds: string, unit: string)
    requires ds != [] && AllDigits(ds)
    requires unit == [] || !IsDigit(unit[0])
    ensures LeadingValue(ds + unit) == Ok(DigitsValue(ds))
  {
    LeadingDigitsOfPrefix(ds, unit);
  }

  /** A sampling-frequency token is a decimal number followed by its unit: the
      rate read back is that number. */
  lemma LeadingValueOfDecimal(n: nat, unit: string)
    requires unit == [] || !IsDigit(unit[0])
    ensures LeadingValue(Decimal(n) + unit) == Ok(n)
  {
    LeadingValueOfDigits(Decimal(n), unit);
    DecimalRoundTrip(n);
  }

  /** A leading zero does not change the rate: `0100Hz` is read as 100. */
  lemma LeadingZeroRateExample()
    ensures LeadingValue("0100Hz") == Ok(100)
  {
    assert "0100Hz" == "0100" + "Hz";
    LeadingValueOfDigits("0100", "Hz");
    assert "0100"[..3] == "010" && "010"[..2] == "01" && "01"[..1] == "0" && "0"[..0] == "";
    assert DigitsValue("01") == 1;
  }

  /** A scale factor `<n><suffix>/<denom>` gives `0.01 * n / denom`. */
  lemma ScaleFactorOf(n: nat, suffix: string, denText: string, p: Parsers, denom: real)
    requires suffix == [] || !IsDigit(suffix[0])
    requires '/' !in suffix && '/' !in denText
    requires p.toReal(denText) == Some(denom) && denom != 0.0
    ensures ScaleFactor(Decimal(n) + suffix + "/" + denText, p) == Ok(0.01 * (n as real) / denom)
  {
    var num := Decimal(n) + suffix;
    assert '/' !in num by {
      assert forall i :: 0 <= i < |Decimal(n)| ==> IsDigit(Decimal(n)[i]);
    }
    SplitOnPair(num, denText, '/');
    LeadingValueOfDecimal(n, suffix);
  }

  /** The K-NET scale factor `2000/8388608` gives 0.01 * 2000 / 8388608. */
  lemma ScaleFactorExample(p: Parsers)
    requires p.toReal("8388608") == Some(8388608.0)
    ensures ScaleFactor("2000(gal)/8388608", p) == Ok(0.01 * 2000.0 / 8388608.0)
  {
    assert Decimal(2) == "2";
    assert Decimal(20) == "20";
    assert Decimal(200) == "200";
    assert Decimal(2000) == "2000";
    var e := Decimal(2000) + "(gal)" + "/" + "8388608";
    assert e == "2000(gal)/8388608";
    ScaleFactorOf(2000, "(gal)", "8388608", p, 8388608.0);
    assert ScaleFactor(e, p) == Ok(0.01 * (2000 as real) / 8388608.0);
  }

  /** The memo comment splits back into exactly the tokens after the label. */
  lemma CommentTokens(line: string)
    requires |Split(line, UnicodeSpace)| > 1
    ensures var flds := Split(line, UnicodeSpace);
            Comment(flds).Some? && Split(Comment(flds).value, UnicodeSpace) == flds[1..]
  {
    var flds := Split(line, UnicodeSpace);
    assert ' ' in UnicodeSpace;
    assert forall k :: 0 <= k < |flds[1..]| ==> IsToken(flds[1..][k], UnicodeSpace);
    SplitJoinSpace(flds[1..], UnicodeSpace);
  }
}
