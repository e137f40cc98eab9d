/**
 * The K-NET / KiK-net ASCII reader of obspy/io/nied/knet.py: the format
 * sniffer (`_internal_is_knet_ascii`) and the two loops of
 * `_internal_read_knet_ascii` that collect the header lines up to the first
 * `Memo` line and then every whitespace token of the remaining lines.
 *
 * The stream is modelled as the already-read sequence of its lines; the
 * sniffer sees the decoded text, or `None` when decoding fails.
 */
module KnetReader {
  import opened Wrappers
  import opened Text
  import opened KnetHeader

  // ---------------------------------------------------------------------
  // Format sniffer
  // ---------------------------------------------------------------------

  /** `buf.read(n)` on a text stream: at most `n` characters. */
  function Read(text: string, n: nat): (r: string)
    ensures |r| <= n && |r| <= |text| && r == text[..|r|]
    ensures |r| == n || r == text
  {
    if |text| <= n then text else text[..n]
  }

  /** `_internal_is_knet_ascii`: the first eleven characters read must be
      exactly `Origin Time`; a decoding error or a shorter read answers no. */
  function IsKnetAscii(decoded: Option<string>): (r: bool)
    ensures r <==> decoded.Some? && StartsWith(decoded.value, "Origin Time")
  {
    match decoded
    case None => false
    case Some(text) =>
      var first := Read(text, 11);
      if |first| != 11 then false
      else first == "Origin Time"
  }

  /** The sniffer accepts exactly the text whose first header line would pass
      the first label check of the header grammar. */
  lemma SnifferMatchesFirstLabel(text: string)
    ensures IsKnetAscii(Some(text)) <==> StartsWith(text, HdrNames[0])
  {
  }

  // ---------------------------------------------------------------------
  // The reader
  // ---------------------------------------------------------------------

  /** The FDSN network code of NIED's strong-motion networks (Bosai-Ken). */
  const Network: string := "BO"

  /** What the reader returns: the header (absent when no line starts with
      `Memo`), the samples, their count and the network code. */
  datatype Record = Record(header: Option<Header>, data: seq<real>, npts: nat, network: string)

  /** The header-collection loop stops after a line starting with `Memo`. */
  predicate IsMemoLine(line: string) {
    StartsWith(line, "Memo")
  }

  /** The index of the first line starting with `Memo`, if any. */
  function FirstMemo(lines: seq<string>): (r: Option<nat>)
    ensures r.Some? ==> r.value < |lines| && IsMemoLine(lines[r.value])
    ensures r.Some? ==> forall j :: 0 <= j < r.value ==> !IsMemoLine(lines[j])
    ensures r.None? ==> forall j :: 0 <= j < |lines| ==> !IsMemoLine(lines[j])
    decreases |lines|
  {
    if lines == [] then None
    else if IsMemoLine(lines[0]) then Some(0)
    else match FirstMemo(lines[1..])
      case None => None
      case Some(k) => Some(k + 1)
  }

  /** How many lines the first loop consumes: through the first `Memo` line,
      or all of them. */
  function HeaderEnd(lines: seq<string>): (n: nat)
    ensures n <= |lines|
    ensures forall j :: 0 <= j < n - 1 ==> !IsMemoLine(lines[j])
    ensures n < |lines| ==> 0 < n && IsMemoLine(lines[n - 1])
    ensures FirstMemo(lines).None? ==> n == |lines|
  {
    match FirstMemo(lines)
    case None => |lines|
    case Some(k) => k + 1
  }

  /** The header the first loop produces: `_read_knet_hdr` on the collected
      lines when a `Memo` line was found, and nothing otherwise. */
  function ReadHeader(lines: seq<string>, parse: seq<string> -> Result<Header, Error>): (r: Result<Option<Header>, Error>)
    ensures FirstMemo(lines).None? ==> r == Ok(None)
    ensures FirstMemo(lines).Some? ==>
      var h := parse(lines[..FirstMemo(lines).value + 1]);
      (r.Ok? <==> h.Ok?) && (r.Ok? ==> r.value == Some(h.value)) && (r.Err? ==> r.error == h.error)
  {
    match FirstMemo(lines)
    case None => Ok(None)
    case Some(k) =>
      var h :- parse(lines[..k + 1]);
      Ok(Some(h))
  }

  /** `_read_knet_hdr` with the reader's keyword arguments, as the function
      the first loop hands its header block to. */
  function HeaderReader(convertStnm: bool, p: Parsers): (parse: seq<string> -> Result<Header, Error>)
    ensures forall block :: parse(block) == ReadKnetHdr(block, convertStnm, p)
  {
    block => ReadKnetHdr(block, convertStnm, p)
  }

  /** `line.strip().split()` on a data line. The data lines are read as
      bytes, so only ASCII whitespace separates. The `strip()` before
      `split()` changes nothing: a data line's tokens are its maximal runs
      of non-whitespace bytes. */
  function LineTokens(line: string): (r: seq<string>)
    ensures r == Split(line, AsciiSpace)
  {
    SplitStrip(line, AsciiSpace);
    Split(Strip(line, AsciiSpace), AsciiSpace)
  }

  /** The tokens of all the lines, in line order. */
  function SampleTokens(lines: seq<string>, tokens: string -> seq<string>): (r: seq<string>)
    ensures lines == [] ==> r == []
    ensures |lines| == 1 ==> r == tokens(lines[0])
    decreases |lines|
  {
    if lines == [] then []
    else SampleTokens(lines[..|lines| - 1], tokens) + tokens(lines[|lines| - 1])
  }

  /** `float` of every token, in order; the first token that does not parse
      is the error. */
  function ParseSamples(ts: seq<string>, p: Parsers): (r: Result<seq<real>, Error>)
    ensures r.Ok? ==> |r.value| == |ts|
    ensures r.Err? ==> r.error.BadSample?
    decreases |ts|
  {
    if ts == [] then Ok([])
    else
      var front :- ParseSamples(ts[..|ts| - 1], p);
      match p.toReal(ts[|ts| - 1])
      case None => Err(BadSample(ts[|ts| - 1]))
      case Some(v) => Ok(front + [v])
  }

  /** The samples are the parsed tokens, in order; otherwise the error
      names the first token that does not parse. */
  lemma {:induction false} ParseSamplesMeaning(ts: seq<string>, p: Parsers)
    ensures ParseSamples(ts, p).Ok? <==> forall k :: 0 <= k < |ts| ==> p.toReal(ts[k]).Some?
    ensures ParseSamples(ts, p).Ok? ==>
      forall k :: 0 <= k < |ts| ==> p.toReal(ts[k]) == Some(ParseSamples(ts, p).value[k])
    ensures ParseSamples(ts, p).Err? ==> exists k :: (0 <= k < |ts| &&
      ParseSamples(ts, p).error == BadSample(ts[k]) &&
      p.toReal(ts[k]).None? && forall j :: 0 <= j < k ==> p.toReal(ts[j]).Some?)
    decreases |ts|
  {
    if ts != [] {
      var front := ts[..|ts| - 1];
      ParseSamplesMeaning(front, p);
      assert forall k :: 0 <= k < |ts| - 1 ==> ts[k] == front[k];
    }
  }

  /** `_internal_read_knet_ascii` as a function of the stream's lines. */
  function Decode(lines: seq<string>, convertStnm: bool, p: Parsers): (r: Result<Record, Error>)
    ensures r.Ok? ==> r.value.npts == |r.value.data| && r.value.network == Network
    ensures r.Ok? ==> (r.value.header.Some? <==> FirstMemo(lines).Some?)
    ensures r.Err? ==> FirstMemo(lines).Some?
  {
    var header :- ReadHeader(lines, HeaderReader(convertStnm, p));
    var data :- ParseSamples(SampleTokens(lines[HeaderEnd(lines)..], LineTokens), p);
    Ok(Record(header, data, |data|, Network))
  }

  /** `_internal_read_knet_ascii`: collect header lines until one starts with
      `Memo` and read the header from them, then append the float value of
      every token of every later line. */
  method ReadKnetAscii(lines: seq<string>, convertStnm: bool, p: Parsers) returns (r: Result<Record, Error>)
    ensures r == Decode(lines, convertStnm, p)
    ensures r.Ok? ==> r.value.npts == |r.value.data| && r.value.network == "BO"
  {
    var header, i := CollectHeader(lines, HeaderReader(convertStnm, p));
    if header.Err? {
      return Err(header.error);
    }
    var data := ReadSamples(lines, i, LineTokens, p);
    if data.Err? {
      return Err(data.error);
    }
    r := Ok(Record(header.value, data.value, |data.value|, Network));
  }

  /** The first loop of the reader: append lines to the header block until
      one starts with `Memo`, then hand the block to `_read_knet_hdr`.
      `next` is the index of the first line after the block. */
  method CollectHeader(lines: seq<string>, parse: seq<string> -> Result<Header, Error>)
    returns (r: Result<Option<Header>, Error>, next: nat)
    ensures next == HeaderEnd(lines)
    ensures r == ReadHeader(lines, parse)
  {
    var headerLines: seq<string> := [];
    var i := 0;
    while i < |lines|
      invariant 0 <= i <= |lines|
      invariant headerLines == lines[..i]
      invariant forall j :: 0 <= j < i ==> !IsMemoLine(lines[j])
    {
      var line := lines[i];
      headerLines := headerLines + [line];
      if IsMemoLine(line) {
        FirstMemoAt(lines, i);
        ReadHeaderAt(lines, i, parse);
        assert headerLines == lines[..i + 1];
        var hdr := parse(headerLines);
        if hdr.Err? {
          return Err(hdr.error), i + 1;
        }
        return Ok(Some(hdr.value)), i + 1;
      }
      i := i + 1;
    }
    FirstMemoNone(lines);
    r, next := Ok(None), i;
  }

  /** The second loop of the reader: the float value of every token of the
      lines from `start` on, line by line. */
  method ReadSamples(lines: seq<string>, start: nat, tokens: string -> seq<string>, p: Parsers) returns (r: Result<seq<real>, Error>)
    requires start <= |lines|
    ensures r == ParseSamples(SampleTokens(lines[start..], tokens), p)
  {
    var data: seq<real> := [];
    var i := start;
    while i < |lines|
      invariant start <= i <= |lines|
      invariant ParseSamples(SampleTokens(lines[start..i], tokens), p) == Ok(data)
    {
      var parts := tokens(lines[i]);
      var values := ParseLine(parts, p);
      ReadSamplesStep(lines, start, i, data, tokens, p);
      if values.Err? {
        return Err(values.error);
      }
      data := data + values.value;
      i := i + 1;
    }
    assert lines[start..i] == lines[start..];
    r := Ok(data);
  }

  /** `[float(p) for p in parts]` */
  method ParseLine(parts: seq<string>, p: Parsers) returns (r: Result<seq<real>, Error>)
    ensures r == ParseSamples(parts, p)
  {
    var values: seq<real> := [];
    var j := 0;
    while j < |parts|
      invariant 0 <= j <= |parts|
      invariant ParseSamples(parts[..j], p) == Ok(values)
    {
      var v := p.toReal(parts[j]);
      assert parts[..j + 1][..j] == parts[..j];
      if v.None? {
        ParseSamplesPrefixErr(parts[..j + 1], parts[j + 1..], p);
        assert parts[..j + 1] + parts[j + 1..] == parts;
        return Err(BadSample(parts[j]));
      }
      values := values + [v.value];
      j := j + 1;
    }
    assert parts[..j] == parts;
    r := Ok(values);
  }

  // ---------------------------------------------------------------------
  // Lemmas used by the reader loops
  // ---------------------------------------------------------------------

  /** The first `Memo` line is the one the first loop stops at. */
  lemma {:induction false} FirstMemoAt(lines: seq<string>, i: nat)
    requires i < |lines| && IsMemoLine(lines[i])
    requires forall j :: 0 <= j < i ==> !IsMemoLine(lines[j])
    ensures FirstMemo(lines) == Some(i)
    decreases i
  {
    if i > 0 {
      FirstMemoAt(lines[1..], i - 1);
    }
  }

  /** With the first `Memo` line at `k`, the header stage is
      `_read_knet_hdr` of the first `k + 1` lines. */
  lemma ReadHeaderAt(lines: seq<string>, k: nat, parse: seq<string> -> Result<Header, Error>)
    requires FirstMemo(lines) == Some(k)
    ensures var h := parse(lines[..k + 1]);
      ReadHeader(lines, parse) == if h.Err? then Err(h.error) else Ok(Some(h.value))
  {
  }

  lemma FirstMemoNone(lines: seq<string>)
    requires forall j :: 0 <= j < |lines| ==> !IsMemoLine(lines[j])
    ensures FirstMemo(lines) == None
  {
  }

  /** One more line adds its tokens at the end. */
  lemma SampleTokensStep(lines: seq<string>, start: nat, i: nat, tokens: string -> seq<string>)
    requires start <= i < |lines|
    ensures SampleTokens(lines[start..i + 1], tokens)
      == SampleTokens(lines[start..i], tokens) + tokens(lines[i])
  {
    assert lines[start..i + 1][..i - start] == lines[start..i];
  }

  /** Tokens of consecutive line blocks concatenate. */
  lemma {:induction false} SampleTokensAppend(a: seq<string>, b: seq<string>, tokens: string -> seq<string>)
    ensures SampleTokens(a + b, tokens) == SampleTokens(a, tokens) + SampleTokens(b, tokens)
    decreases |b|
  {
    if b == [] {
      assert a + b == a;
    } else {
      var b' := b[..|b| - 1];
      var last := tokens(b[|b| - 1]);
      assert (a + b)[..|a + b| - 1] == a + b';
      assert (a + b)[|a + b| - 1] == b[|b| - 1];
      SampleTokensAppend(a, b', tokens);
      calc {
        SampleTokens(a + b, tokens);
        SampleTokens(a + b', tokens) + last;
        (SampleTokens(a, tokens) + SampleTokens(b', tokens)) + last;
        SampleTokens(a, tokens) + (SampleTokens(b', tokens) + last);
        SampleTokens(a, tokens) + SampleTokens(b, tokens);
      }
    }
  }

  /** Once a prefix of the tokens fails, the whole list fails the same way. */
  lemma {:induction false} ParseSamplesPrefixErr(a: seq<string>, b: seq<string>, p: Parsers)
    requires ParseSamples(a, p).Err?
    ensures ParseSamples(a + b, p) == ParseSamples(a, p)
    decreases |b|
  {
    if b == [] {
      assert a + b == a;
    } else {
      var b' := b[..|b| - 1];
      assert (a + b)[..|a + b| - 1] == a + b';
      ParseSamplesPrefixErr(a, b', p);
    }
  }

  /** Parsing two token lists one after the other: the first failure wins,
      and the values concatenate. */
  lemma {:induction false} ParseSamplesAppend(a: seq<string>, b: seq<string>, p: Parsers)
    ensures ParseSamples(a, p).Err? ==> ParseSamples(a + b, p) == ParseSamples(a, p)
    ensures ParseSamples(a, p).Ok? && ParseSamples(b, p).Err? ==> ParseSamples(a + b, p) == ParseSamples(b, p)
    ensures ParseSamples(a, p).Ok? && ParseSamples(b, p).Ok? ==>
      ParseSamples(a + b, p) == Ok(ParseSamples(a, p).value + ParseSamples(b, p).value)
    decreases |b|
  {
    if b == [] {
      assert a + b == a;
      assert ParseSamples(b, p) == Ok([]);
      if ParseSamples(a, p).Ok? {
        assert ParseSamples(a, p).value + [] == ParseSamples(a, p).value;
      }
    } else {
      var b' := b[..|b| - 1];
      assert (a + b)[..|a + b| - 1] == a + b';
      assert (a + b)[|a + b| - 1] == b[|b| - 1];
      ParseSamplesAppend(a, b', p);
      if ParseSamples(a, p).Ok? && ParseSamples(b, p).Ok? {
        var x, y := ParseSamples(a, p).value, ParseSamples(b', p).value;
        assert (x + y) + [ParseSamples(b, p).value[|b| - 1]] == x + (y + [ParseSamples(b, p).value[|b| - 1]]);
      }
    }
  }

  /** One turn of the second loop: line `i` either fails, and then the
      whole remainder fails the same way, or appends its values. */
  lemma ReadSamplesStep(lines: seq<string>, start: nat, i: nat, data: seq<real>, tokens: string -> seq<string>, p: Parsers)
    requires start <= i < |lines|
    requires ParseSamples(SampleTokens(lines[start..i], tokens), p) == Ok(data)
    ensures var v := ParseSamples(tokens(lines[i]), p);
      (v.Err? ==> ParseSamples(SampleTokens(lines[start..], tokens), p) == v) &&
      (v.Ok? ==> ParseSamples(SampleTokens(lines[start..i + 1], tokens), p) == Ok(data + v.value))
  {
    SampleTokensStep(lines, start, i, tokens);
    ParseSamplesAppend(SampleTokens(lines[start..i], tokens), tokens(lines[i]), p);
    if ParseSamples(tokens(lines[i]), p).Err? {
      LaterLinesIgnored(lines, start, i, tokens, p);
    }
  }

  /** Once line `i` fails, the lines after it do not change the outcome. */
  lemma LaterLinesIgnored(lines: seq<string>, start: nat, i: nat, tokens: string -> seq<string>, p: Parsers)
    requires start <= i < |lines|
    requires ParseSamples(SampleTokens(lines[start..i + 1], tokens), p).Err?
    ensures ParseSamples(SampleTokens(lines[start..], tokens), p) == ParseSamples(SampleTokens(lines[start..i + 1], tokens), p)
  {
    assert lines[start..] == lines[start..i + 1] + lines[i + 1..];
    SampleTokensAppend(lines[start..i + 1], lines[i + 1..], tokens);
    ParseSamplesAppend(SampleTokens(lines[start..i + 1], tokens), SampleTokens(lines[i + 1..], tokens), p);
  }

  // ---------------------------------------------------------------------
  // Properties of the reader
  // ---------------------------------------------------------------------

  /** A stream without a `Memo` line is read without error: every line is
      taken as header, none is parsed, and no samples result. */
  lemma DecodeNoMemo(lines: seq<string>, convertStnm: bool, p: Parsers)
    requires forall j :: 0 <= j < |lines| ==> !IsMemoLine(lines[j])
    ensures Decode(lines, convertStnm, p) == Ok(Record(None, [], 0, Network))
  {
    FirstMemoNone(lines);
    assert lines[HeaderEnd(lines)..] == [];
  }

  /** `Decode` as its two stages: the header, then the samples after it. */
  lemma DecodeStages(lines: seq<string>, convertStnm: bool, p: Parsers)
    ensures var h := ReadHeader(lines, HeaderReader(convertStnm, p));
      var d := ParseSamples(SampleTokens(lines[HeaderEnd(lines)..], LineTokens), p);
      Decode(lines, convertStnm, p) ==
        if h.Err? then Err(h.error)
        else if d.Err? then Err(d.error)
        else Ok(Record(h.value, d.value, |d.value|, Network))
  {
  }

  /** The reader succeeds exactly when the header (if any) is read and every
      token after it parses. */
  lemma DecodeOkIff(lines: seq<string>, convertStnm: bool, p: Parsers)
    ensures var ts := SampleTokens(lines[HeaderEnd(lines)..], LineTokens);
      Decode(lines, convertStnm, p).Ok? <==>
        ReadHeader(lines, HeaderReader(convertStnm, p)).Ok? && forall k :: 0 <= k < |ts| ==> p.toReal(ts[k]).Some?
  {
    DecodeStages(lines, convertStnm, p);
    ParseSamplesMeaning(SampleTokens(lines[HeaderEnd(lines)..], LineTokens), p);
  }

  /** On success the samples are the tokens' values, in order, `npts` is
      their number and the network is `BO`. */
  lemma DecodeSamples(lines: seq<string>, convertStnm: bool, p: Parsers)
    requires Decode(lines, convertStnm, p).Ok?
    ensures var ts := SampleTokens(lines[HeaderEnd(lines)..], LineTokens);
      var rec := Decode(lines, convertStnm, p).value;
      rec.header == ReadHeader(lines, HeaderReader(convertStnm, p)).value &&
      rec.npts == |rec.data| == |ts| && rec.network == "BO" &&
      forall k :: 0 <= k < |ts| ==> p.toReal(ts[k]) == Some(rec.data[k])
  {
    DecodeStages(lines, convertStnm, p);
    ParseSamplesMeaning(SampleTokens(lines[HeaderEnd(lines)..], LineTokens), p);
  }

  /** A line that passes the last label check also stops the first loop. */
  lemma MemoLabelStopsLoop(line: string)
    requires StartsWith(line, HdrNames[16])
    ensures IsMemoLine(line)
  {
    assert line[..4] == line[..5][..4];
  }

  /** When the reader returns a header, the header block is exactly the
      first seventeen lines and the seventeenth is the first `Memo` line. */
  lemma DecodeHeaderBlock(lines: seq<string>, convertStnm: bool, p: Parsers)
    requires ReadHeader(lines, HeaderReader(convertStnm, p)).Ok?
    requires ReadHeader(lines, HeaderReader(convertStnm, p)).value.Some?
    ensures FirstMemo(lines) == Some(16) && HeaderEnd(lines) == 17
    ensures ReadKnetHdr(lines[..17], convertStnm, p) == Ok(ReadHeader(lines, HeaderReader(convertStnm, p)).value.value)
  {
    var k := FirstMemo(lines).value;
    ReadKnetHdrLabels(lines[..k + 1], convertStnm, p);
    assert k + 1 == 17;
  }

  /** A header block as the first loop collects it, ending at its only
      `Memo` line, never fails the line-count check: if all seventeen label
      checks pass, the seventeenth line starts with `Memo.`, so it is the
      block's one `Memo` line, and the block has exactly seventeen lines. */
  lemma BlockNeverLineCount(block: seq<string>, convertStnm: bool, p: Parsers)
    requires block != [] && IsMemoLine(block[|block| - 1])
    requires forall j :: 0 <= j < |block| - 1 ==> !IsMemoLine(block[j])
    ensures ReadKnetHdr(block, convertStnm, p).Err? ==> !ReadKnetHdr(block, convertStnm, p).error.LineCount?
  {
    HeaderFieldsNoLineCount(block, convertStnm, p);
    if HeaderFields(block, convertStnm, p).Ok? {
      assert LabelsMatch(block, 0, 17);
      MemoLabelStopsLoop(block[16]);
      assert |block| == 17;
    }
  }

  /** The header stage of the reader never fails the line-count check. */
  lemma ReadHeaderNeverLineCount(lines: seq<string>, convertStnm: bool, p: Parsers)
    ensures ReadHeader(lines, HeaderReader(convertStnm, p)).Err? ==> !ReadHeader(lines, HeaderReader(convertStnm, p)).error.LineCount?
  {
    if FirstMemo(lines).Some? {
      var k := FirstMemo(lines).value;
      var block := lines[..k + 1];
      assert forall j :: 0 <= j < |block| ==> block[j] == lines[j];
      BlockNeverLineCount(block, convertStnm, p);
      ReadHeaderAt(lines, k, HeaderReader(convertStnm, p));
    }
  }

  /** The line-count check of `_read_knet_hdr` never fires from the reader:
      the only errors are those of the label and field checks and of the
      sample parse. */
  lemma DecodeNeverLineCount(lines: seq<string>, convertStnm: bool, p: Parsers)
    ensures Decode(lines, convertStnm, p).Err? ==> !Decode(lines, convertStnm, p).error.LineCount?
  {
    DecodeStages(lines, convertStnm, p);
    ReadHeaderNeverLineCount(lines, convertStnm, p);
  }

  /** No label before `Memo.` starts with `Memo`: a labelled line among the
      first sixteen does not stop the first loop. */
  lemma NotMemoLabel(line: string, j: nat)
    requires j < 16 && StartsWith(line, HdrNames[j])
    ensures !IsMemoLine(line)
  {
    assert line[0] == HdrNames[j][0] && line[1] == HdrNames[j][1];
  }

  /** Seventeen labelled lines at the front of the stream are exactly the
      block the first loop collects: the `Memo.` line is the first `Memo`
      line, and the header stage is `_read_knet_hdr` of those lines. */
  lemma LabelledBlock(lines: seq<string>, convertStnm: bool, p: Parsers)
    requires |lines| >= 17
    requires forall j :: 0 <= j < 17 ==> StartsWith(lines[j], HdrNames[j])
    ensures FirstMemo(lines) == Some(16) && HeaderEnd(lines) == 17
    ensures var h := ReadKnetHdr(lines[..17], convertStnm, p);
      ReadHeader(lines, HeaderReader(convertStnm, p)) == if h.Err? then Err(h.error) else Ok(Some(h.value))
  {
    forall j | 0 <= j < 16 ensures !IsMemoLine(lines[j]) {
      NotMemoLabel(lines[j], j);
    }
    MemoLabelStopsLoop(lines[16]);
    FirstMemoAt(lines, 16);
    ReadHeaderAt(lines, 16, HeaderReader(convertStnm, p));
  }

  /** A well-formed header at the front of the stream is exactly the block
      the first loop collects. */
  lemma WellFormedBlock(lines: seq<string>, convertStnm: bool, p: Parsers)
    requires |lines| >= 17 && WellFormedHeader(lines[..17], convertStnm, p)
    ensures FirstMemo(lines) == Some(16) && HeaderEnd(lines) == 17
    ensures ReadHeader(lines, HeaderReader(convertStnm, p)) ==
      Ok(Some(ReadKnetHdr(lines[..17], convertStnm, p).value))
  {
    var block := lines[..17];
    ReadKnetHdrLabels(block, convertStnm, p);
    forall j | 0 <= j < 17 ensures StartsWith(lines[j], HdrNames[j]) {
      assert block[j] == lines[j];
    }
    LabelledBlock(lines, convertStnm, p);
  }

  /** When the first seventeen lines carry their labels but `_read_knet_hdr`
      rejects them, the reader fails with that same error. */
  lemma DecodeHeaderError(lines: seq<string>, convertStnm: bool, p: Parsers)
    requires |lines| >= 17
    requires forall j :: 0 <= j < 17 ==> StartsWith(lines[j], HdrNames[j])
    requires ReadKnetHdr(lines[..17], convertStnm, p).Err?
    ensures Decode(lines, convertStnm, p) == Err(ReadKnetHdr(lines[..17], convertStnm, p).error)
  {
    LabelledBlock(lines, convertStnm, p);
    DecodeStages(lines, convertStnm, p);
  }

  /** A labelled stream whose event lines are good and whose station code is
      too long fails in the reader with the station-too-long error. */
  lemma DecodeStationTooLong(lines: seq<string>, convertStnm: bool, p: Parsers)
    requires |lines| >= 17
    requires forall j :: 0 <= j < 17 ==> StartsWith(lines[j], HdrNames[j])
    requires EventOk(lines[..17], p) && LineOk(lines[..17], 5, p)
    requires !StationFits(Fields(lines[..17], 5)[2], convertStnm)
    ensures Decode(lines, convertStnm, p).Err?
    ensures Decode(lines, convertStnm, p).error.StationTooLong?
  {
    ReadKnetHdrStationTooLong(lines[..17], convertStnm, p);
    DecodeHeaderError(lines, convertStnm, p);
  }

  /** A stream that opens with a well-formed seventeen-line header, and whose
      later lines hold only tokens that parse as numbers, is read: the header
      is `_read_knet_hdr` of those seventeen lines and there is one sample
      per token. */
  lemma DecodeWellFormed(lines: seq<string>, convertStnm: bool, p: Parsers)
    requires |lines| >= 17 && WellFormedHeader(lines[..17], convertStnm, p)
    requires var ts := SampleTokens(lines[17..], LineTokens);
      forall k :: 0 <= k < |ts| ==> p.toReal(ts[k]).Some?
    ensures Decode(lines, convertStnm, p).Ok?
    ensures var ts := SampleTokens(lines[17..], LineTokens);
      var rec := Decode(lines, convertStnm, p).value;
      rec.header == Some(ReadKnetHdr(lines[..17], convertStnm, p).value) &&
      rec.npts == |rec.data| == |ts| &&
      forall k :: 0 <= k < |ts| ==> p.toReal(ts[k]) == Some(rec.data[k])
  {
    WellFormedBlock(lines, convertStnm, p);
    DecodeOkIff(lines, convertStnm, p);
    DecodeSamples(lines, convertStnm, p);
  }
}
