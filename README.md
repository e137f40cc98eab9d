# K-NET / KiK-net ASCII reader, modelled in Dafny

This project models the reader for the ASCII strong-motion records of
Japan's K-NET and KiK-net networks (NIED), as ObsPy implements it in
`obspy/io/nied/knet.py`. A record starts with a header of seventeen lines.
Each header line starts with a fixed label (`Origin Time`, `Lat.`, …,
`Memo.`). After the header come whitespace-separated sample values. The
model covers four parts:

- **The format sniffer** (`_internal_is_knet_ascii`), in
  `KnetReader.IsKnetAscii`. It answers yes exactly when the first eleven
  characters read spell `Origin Time`.
- **The header-line check** (`_prep_hdr_line`), in
  `KnetHeader.PrepHdrLine`. It rejects a line that does not start with its
  label, and otherwise returns the line's whitespace tokens.
- **The header grammar** (`_read_knet_hdr`), in `KnetHeader.ReadKnetHdr`.
  It reads the seventeen labelled lines in table order, in four sections
  (event, station, sampling, scaling), and finally checks the line count.
  The grammar it accepts is written out as `KnetHeader.WellFormedHeader`,
  and the reader is proved to succeed exactly on it.
  It also applies the derived-value rules:
  - the Japan Standard Time correction (−32400 s);
  - the 15 s logger delay;
  - the station/location split and its seven-character limit;
  - the KiK-net channel names for the codes 1..6;
  - the leading digit run of the sampling rate and of the scale-factor
    numerator;
  - the `num/denom` calibration;
  - the optional memo comment.
- **The reader** (`_internal_read_knet_ascii`), in the method
  `KnetReader.ReadKnetAscii`. It works in two loops:
  - `CollectHeader` gathers lines up to and including the first line
    that starts with `Memo`, and hands them to the header reader;
  - `ReadSamples` (with `ParseLine` for the per-line list comprehension)
    appends the float value of every token of every later line.

  The method is proved equal to the specification function
  `KnetReader.Decode`, and the reader's properties are lemmas about
  `Decode`.

Every exception the modelled steps raise is a case of `KnetHeader.Error`:

- the label mismatch;
- an `IndexError` on a missing line or token;
- a `ValueError` from `float`, `int('')` or `strptime`;
- the unpacking error of `split('/')`;
- division by a zero denominator;
- the station-length and line-count exceptions;
- a bad sample token.

The `UnicodeDecodeError` that `readline().decode()` can raise while the
header lines are read is not among them, since decoding is not modelled.

Two behaviours of the code differ from a stricter reading of the format,
and the model follows the code:

- A stream without any line starting with `Memo` is read without error.
  All its lines are taken as header, `_read_knet_hdr` is never called, and
  the result has no header and no samples (`DecodeNoMemo`).
- The first loop stops at the prefix `Memo`, but the last label check
  wants `Memo.`. A block that passes all seventeen label checks therefore
  has its seventeenth line as its one `Memo` line, and ends there. As a result, the
  line-count check of `_read_knet_hdr` can never fire when the reader calls
  it (`DecodeNeverLineCount`). It fires only when `_read_knet_hdr` is
  called directly with surplus lines (`ReadKnetHdrSurplus`).

Files:

- `wrappers.dfy`: `Option` and `Result`.
- `text.dfy`: the Python string operations the reader uses.
- `knet_header.dfy`: the header grammar.
- `knet_reader.dfy`: the sniffer and the reader loops.

## Model

| member | source | states |
|---|---|---|
| KnetReader.IsKnetAscii | obspy/io/nied/knet.py:64-73 | yes exactly when the text decoded and starts with the eleven characters `Origin Time`; a decoding error or a shorter read is no |
| KnetReader.Read | obspy/io/nied/knet.py:65 | `buf.read(n)` returns a prefix of the text that is `n` characters long, or all of it when it is shorter |
| KnetReader.SnifferMatchesFirstLabel | obspy/io/nied/knet.py:71 | the sniffer accepts exactly the texts whose first line would pass the first label check of the header |
| KnetHeader.PrepHdrLine | obspy/io/nied/knet.py:85-89 | fails, with a label mismatch naming label and line, exactly when the line does not start with the label; otherwise the line's whitespace tokens |
| KnetHeader.HeaderLine | obspy/io/nied/knet.py:110 | line `i` is accepted exactly when it exists and starts with the `i`-th label; a line that exists but is mislabelled is reported as a label mismatch |
| KnetHeader.Token | obspy/io/nied/knet.py:200 | `flds[k]` succeeds exactly when the line has more than `k` tokens, and is then that token; otherwise it is the index error naming line `i` and position `k` |
| KnetHeader.RealField | obspy/io/nied/knet.py:119 | `float(flds[k])` succeeds exactly when token `k` exists and parses, and the value is that parse; a missing token is the index error at `k`, an unparsable one a bad real naming the token |
| KnetHeader.LocalTime | obspy/io/nied/knet.py:111-112 | succeeds exactly when tokens 2 and 3 exist and, joined by one space, parse as a time; the value is that parse; a missing token 2 (else 3) is the index error at that position, otherwise the failure is a bad time naming the joined text |
| KnetHeader.EventSection | obspy/io/nied/knet.py:109-135 | succeeds exactly when lines 0..4 are well-formed (`EventOk`: present, labelled, with the tokens the steps read and parses that succeed); on success lines 0..4 carry their labels; the origin time is the parsed local time less 32400 s; latitude, longitude, depth and magnitude are the parses of tokens 1, 1, 2 and 1 |
| KnetHeader.SiteSection | obspy/io/nied/knet.py:137-165 | succeeds exactly when lines 5..8 are well-formed and the station part of the code has at most seven characters (`SiteOk`); on success lines 5..8 carry their labels; station and location are the split of token 2; station latitude, longitude and height are the parses of token 2 |
| KnetHeader.StationSplit | obspy/io/nied/knet.py:144-153 | station followed by location is the code; the location has two characters when conversion is on and the code is longer than five, and is empty otherwise; it fails, as station-too-long, exactly when the remaining station exceeds seven characters |
| KnetHeader.StationSplitExamples | obspy/io/nied/knet.py:146-151 | an eight-character code splits 6+2 with conversion; ten characters with conversion, or eight without, are too long; a six-character code stays whole without conversion |
| KnetHeader.SamplingSection | obspy/io/nied/knet.py:167-196 | succeeds exactly when lines 9..12 are well-formed, the frequency token starting with a digit (`SamplingOk`); on success lines 9..12 carry their labels; the start time is the parsed record time less 15 s and 32400 s; the rate is the leading digit value of token 2; the duration is the parse of token 2; the channel is derived from token 1 |
| KnetHeader.LeadingValue | obspy/io/nied/knet.py:180-182 | fails, with no-digits, exactly when the token is empty or does not start with a digit; otherwise the value is `int` of the leading digit run |
| KnetHeader.LeadingValueOfDigits | obspy/io/nied/knet.py:180-183 | any non-empty digit run followed by a non-digit unit, leading zeros included, reads back as the value of that run |
| KnetHeader.LeadingZeroRateExample | obspy/io/nied/knet.py:180-183 | the sampling-frequency token `0100Hz` gives the rate 100 |
| KnetHeader.LeadingValueOfDecimal | obspy/io/nied/knet.py:180-183 | a token made of a decimal number followed by a non-digit unit gives back exactly that number |
| KnetHeader.Channel | obspy/io/nied/knet.py:191-196 | the channel has no hyphen, and is either a KiK-net channel name or the token with its hyphens removed |
| KnetHeader.ChannelOfToken | obspy/io/nied/knet.py:191-196 | on a whitespace-free token the channel is the token without hyphens, replaced by its KiK-net name when that is one of the codes 1..6, and kept otherwise |
| KnetHeader.ChannelDigitExample | obspy/io/nied/knet.py:192-195 | direction `3` becomes `UD1` |
| KnetHeader.ChannelNamedExample | obspy/io/nied/knet.py:191 | direction `N-S` becomes `NS` |
| KnetHeader.ScaleFactor | obspy/io/nied/knet.py:200-205 | succeeds exactly on one `/`, a numerator starting with a digit and a denominator parsing to non-zero; otherwise the first failing step in source order: other than one `/` is an unpacking error with the piece count, an empty digit run is no-digits on the numerator, an unparsable denominator is a bad real, a zero denominator is a division error; the value is `0.01 *` the numerator's digit value `/` the denominator |
| KnetHeader.ScaleFactorOf | obspy/io/nied/knet.py:200-205 | `<n><suffix>/<denom>` with a non-digit suffix and a non-zero parsed denominator gives `0.01 * n / denom` |
| KnetHeader.ScaleFactorExample | obspy/io/nied/knet.py:200-205 | `2000(gal)/8388608` gives `0.01 * 2000 / 8388608` |
| KnetHeader.ScalingSection | obspy/io/nied/knet.py:198-224 | succeeds exactly when lines 13..16 are well-formed, the scale factor accepted (`ScalingOk`); on success lines 13..16 carry their labels; the calibration is the scale factor of token 2; the peak is the parse of token 3; the last correction is the parsed time less 32400 s; the comment is derived from the memo line's tokens |
| KnetHeader.Comment | obspy/io/nied/knet.py:223-224 | there is a comment exactly when the memo line has more than one token, and it is the tokens after the label joined by single spaces |
| KnetHeader.CommentTokens | obspy/io/nied/knet.py:223-224 | a memo line with more than one token has a comment, and that comment splits back into exactly the tokens after the label |
| KnetHeader.HeaderFields | obspy/io/nied/knet.py:108-224 | the seventeen field steps succeed exactly when all four sections are well-formed, and then each of the first seventeen lines starts with its own label and the header returned is exactly the four section values (event, site, sampling, scaling) |
| KnetHeader.RecordTimeLine | obspy/io/nied/knet.py:168-176 | succeeds exactly when line 9 is well-formed; the record time it returns is the parsed local time less 15 s and 32400 s; a failure is the label error, else the time step's own error |
| KnetHeader.RateLine | obspy/io/nied/knet.py:178-183 | succeeds exactly when line 10 is labelled, has a token 2 and that token starts with a digit; the rate is the leading-digit value of token 2; a failure is the label error, the missing token 2 or no-digits, in that order |
| KnetHeader.DurationLine | obspy/io/nied/knet.py:185-187 | succeeds exactly when line 11 is well-formed; the duration is the parse of token 2; a failure is the label error, else the number step's own error |
| KnetHeader.ChannelLine | obspy/io/nied/knet.py:189-196 | succeeds exactly when line 12 is labelled and has a token 1; the channel is `Channel` of token 1; a failure is the label error, else the missing token 1 |
| KnetHeader.ScalingOkSteps | obspy/io/nied/knet.py:198-222 | lines 13..16 are well-formed exactly when each of the reader's steps on them succeeds |
| KnetHeader.ReadKnetHdr | obspy/io/nied/knet.py:92-229 | accepts exactly the well-formed seventeen-line headers (`WellFormedHeader`); it fails with the line-count error exactly when the field steps succeed and the count is not seventeen; an accepted header is exactly the one the field steps build |
| KnetHeader.ReadKnetHdrFirstBad | obspy/io/nied/knet.py:108-222 | when every line before `i` passes its checks (and the station fits, once line 5 is past) and line `i` fails, the error is line `i`'s: the missing line or label mismatch, else the error of its first failing field step (`FieldError`) |
| KnetHeader.ReadKnetHdrStationTooLong | obspy/io/nied/knet.py:144-151 | after five good event lines, a station code whose station part exceeds seven characters makes `_read_knet_hdr` fail with station-too-long |
| KnetHeader.EventFirstBad | obspy/io/nied/knet.py:109-134 | the first failing line among 0..4 (missing, mislabelled, or a field step failing) gives the event section's error |
| KnetHeader.SiteFirstBad | obspy/io/nied/knet.py:137-164 | the first failing line among 5..8, a too-long station included, gives the station section's error |
| KnetHeader.SamplingFirstBad | obspy/io/nied/knet.py:167-189 | the first failing line among 9..12 gives the sampling section's error |
| KnetHeader.ScalingFirstBad | obspy/io/nied/knet.py:198-222 | the first failing line among 13..16 gives the scaling section's error |
| KnetHeader.ScaleLineBad | obspy/io/nied/knet.py:198-205 | a failing scale-factor line gives its label error, its missing token or its scale-factor error |
| KnetHeader.ScalingLaterBad | obspy/io/nied/knet.py:207-222 | after a good scale-factor line, the first failing line among 14..16 gives the scaling section's error |
| KnetHeader.HeaderFieldsNoLineCount | obspy/io/nied/knet.py:108-224 | the label and field steps never raise the line-count error |
| KnetHeader.ReadKnetHdrLabels | obspy/io/nied/knet.py:103-228 | a header is accepted only with exactly seventeen lines, each starting with its own label in table order |
| KnetHeader.HeaderFieldsPrefix | obspy/io/nied/knet.py:108-224 | the fields depend only on the first seventeen lines |
| KnetHeader.ReadKnetHdrSurplus | obspy/io/nied/knet.py:226-228 | seventeen good lines followed by more lines are rejected as a line-count mismatch of 17 against the actual count |
| KnetHeader.LatLongSwapped | obspy/io/nied/knet.py:117-118 | a `Long.` line in the place of the `Lat.` line is reported as a mismatch against `Lat.` |
| KnetReader.IsMemoLine | obspy/io/nied/knet.py:270 | the first loop's stop test `line.startswith('Memo')` |
| KnetReader.FirstMemo | obspy/io/nied/knet.py:267-272 | the index of the first line starting with `Memo`: no earlier line starts with it; `None` when no line does |
| KnetReader.HeaderEnd | obspy/io/nied/knet.py:266-272 | the first loop consumes lines up to and including the first `Memo` line, none of the earlier ones starting with `Memo`, or every line when none does |
| KnetReader.ReadHeader | obspy/io/nied/knet.py:266-272 | no `Memo` line gives no header and no error; otherwise the result, success or error, is the header reader's on the lines through the first `Memo` line |
| KnetReader.CollectHeader | obspy/io/nied/knet.py:266-272 | the first loop stops right after the first `Memo` line (or at the end) and returns the header reader's result on the lines so far, or no header |
| KnetReader.ReadHeaderAt | obspy/io/nied/knet.py:270-271 | with the first `Memo` line at `k`, the header stage is the header reader applied to the first `k + 1` lines |
| KnetReader.HeaderReader | obspy/io/nied/knet.py:271 | the function handed to the first loop is `_read_knet_hdr` with the reader's keyword arguments |
| KnetReader.LineTokens | obspy/io/nied/knet.py:276 | `line.strip().split()` is `line.split()`: stripping first changes nothing |
| KnetReader.ParseLine | obspy/io/nied/knet.py:277 | the comprehension over one line's tokens gives their values, or the first token that does not parse |
| KnetReader.ParseSamples | obspy/io/nied/knet.py:277 | on success there is one value per token; a failure is a bad sample token |
| KnetReader.ParseSamplesMeaning | obspy/io/nied/knet.py:277 | parsing succeeds exactly when every token parses; the values are the tokens' parses in order; otherwise the error names the first token that fails |
| KnetReader.ParseSamplesAppend | obspy/io/nied/knet.py:277 | parsing two token lists in turn: a failure in the first wins, then a failure in the second, otherwise the values concatenate |
| KnetReader.SampleTokens | obspy/io/nied/knet.py:274-277 | the tokens the second loop accumulates: none for no lines, a line's own tokens for one line; with `SampleTokensAppend` every line's tokens in line order |
| KnetReader.SampleTokensAppend | obspy/io/nied/knet.py:274-277 | the tokens of two consecutive blocks of lines are the tokens of the first followed by those of the second |
| KnetReader.ReadSamples | obspy/io/nied/knet.py:274-277 | the second loop returns the parses of all tokens of the lines after the header, in line and token order, or the first failure |
| KnetReader.ReadKnetAscii | obspy/io/nied/knet.py:257-282 | the reader computes `Decode`; on success `npts` is the number of samples and the network is `BO` |
| KnetReader.Decode | obspy/io/nied/knet.py:257-282 | on success `npts` is the number of samples, the network is `BO`, and there is a header exactly when some line starts with `Memo`; the reader fails only when some line starts with `Memo` |
| KnetReader.NotMemoLabel | obspy/io/nied/knet.py:103-107 | a line carrying one of the first sixteen labels does not start with `Memo` |
| KnetReader.LabelledBlock | obspy/io/nied/knet.py:266-272 | with seventeen labelled lines in front, the first loop stops after line 16 and its result, success or error, is `_read_knet_hdr` of those lines |
| KnetReader.WellFormedBlock | obspy/io/nied/knet.py:266-272 | with a well-formed header in front, the first loop stops after line 16 and its result is `_read_knet_hdr` of the first seventeen lines |
| KnetReader.DecodeHeaderError | obspy/io/nied/knet.py:266-272 | with seventeen labelled lines in front that `_read_knet_hdr` rejects, the reader fails with that same error |
| KnetReader.DecodeStationTooLong | obspy/io/nied/knet.py:144-151 | a labelled stream with good event lines and a too-long station code fails in the reader with station-too-long |
| KnetReader.DecodeWellFormed | obspy/io/nied/knet.py:257-282 | a stream opening with a well-formed seventeen-line header, followed by lines whose tokens all parse, is read: the header is `_read_knet_hdr` of those lines and `npts` is the number of tokens, each sample the parse of its token |
| KnetReader.DecodeNoMemo | obspy/io/nied/knet.py:266-282 | without a `Memo` line the reader succeeds with no header, no samples, `npts` 0 and network `BO` |
| KnetReader.DecodeOkIff | obspy/io/nied/knet.py:266-277 | the reader succeeds exactly when the header stage succeeds and every token after the header block parses |
| KnetReader.DecodeSamples | obspy/io/nied/knet.py:274-282 | on success the header is the header stage's, the samples are the tokens' parses in order, `npts` is their number and the network is `BO` |
| KnetReader.MemoLabelStopsLoop | obspy/io/nied/knet.py:270 | a line that passes the `Memo.` label check also stops the first loop |
| KnetReader.DecodeHeaderBlock | obspy/io/nied/knet.py:266-272 | when a header is returned, the first `Memo` line is line 16, the block is the first seventeen lines, and the header is `_read_knet_hdr` of them |
| KnetReader.BlockNeverLineCount | obspy/io/nied/knet.py:226-228 | a block that ends at its only `Memo` line never fails the line-count check |
| KnetReader.DecodeNeverLineCount | obspy/io/nied/knet.py:226-228 | the reader never raises the header line-count error |
| Text.StartsWith | obspy/io/nied/knet.py:85 | `s.startswith(prefix)`: the prefix is no longer than `s` and equals the same number of leading characters of `s`; the label check, the first loop's stop test (knet.py:270) and the sniffer's comparison are stated through it |
| Text.Split | obspy/io/nied/knet.py:89 | `str.split()` gives non-empty tokens without whitespace |
| Text.Strip | obspy/io/nied/knet.py:276 | `strip()` is the slice left after the leading and trailing whitespace runs: all that is removed is whitespace, and the result neither starts nor ends with it |
| Text.DropSpaceSuffix | obspy/io/nied/knet.py:276 | `lstrip()` leaves a suffix of the string |
| Text.SplitJoinSpace | obspy/io/nied/knet.py:224 | joining whitespace-free tokens with single spaces and splitting again gives back the tokens |
| Text.SplitDropSpace | obspy/io/nied/knet.py:89 | leading whitespace does not change the tokens |
| Text.SplitWord | obspy/io/nied/knet.py:89 | a non-empty whitespace-free run followed by whitespace or the end is the first token, and the rest are the tokens of what follows |
| Text.SplitAllSpace | obspy/io/nied/knet.py:89 | a string that is whitespace only, with any whitespace appended, has no tokens |
| Text.SplitStrip | obspy/io/nied/knet.py:276 | splitting a stripped string gives the same tokens as splitting it raw |
| Text.SplitOn | obspy/io/nied/knet.py:201 | `split(c)` gives one more piece than there are separators, and no piece contains the separator |
| Text.JoinSplitOn | obspy/io/nied/knet.py:201 | putting the separator back between the pieces of `split(c)` restores the string |
| Text.SplitOnPair | obspy/io/nied/knet.py:201 | a string with exactly one separator splits into its two sides |
| Text.SplitOnCons | obspy/io/nied/knet.py:201 | a separator-free piece followed by the separator splits off as the first piece |
| Text.JoinWith | obspy/io/nied/knet.py:224 | `sep.join(ps)`: the pieces with one separator between neighbours |
| Text.SplitOnJoinWith | obspy/io/nied/knet.py:224 | `split(c)` undoes `c.join(ps)` when no piece contains `c`, the inverse of `JoinSplitOn` |
| Text.RemoveAll | obspy/io/nied/knet.py:191 | `replace('-', '')` leaves no hyphen, keeps only characters of the input, shortens it by the number of hyphens, and leaves a string without hyphens unchanged |
| Text.RemoveAllAppend | obspy/io/nied/knet.py:191 | removing a character from a concatenation removes it from each part |
| Text.RemoveAllChar | obspy/io/nied/knet.py:191 | on one character, removal deletes it when it is the removed character and keeps it otherwise; with `RemoveAllAppend` this fixes the result on every string |
| Text.LeadingDigits | obspy/io/nied/knet.py:181 | the match of `[0-9]*` is the longest all-digit prefix |
| Text.DigitsValue | obspy/io/nied/knet.py:182 | `int` of a digit string, most significant digit first |
| Text.DecimalRoundTrip | obspy/io/nied/knet.py:182 | `int` of the decimal spelling of `n` is `n` |

## Left out

- Stream plumbing is not modelled: the `tell`/`seek` size probe, `readline().decode()`, `locale.getpreferredencoding`, `_text_buffer_wrapper` and `_buffer_proxy`. The reader takes the stream as its already-read sequence of lines, line terminators included. The sniffer takes the decoded text, or `None` for a decoding error.
- Object assembly (`np.array`, `Stats`, `Trace`, `Stream`) is not modelled. The result is the plain record `KnetReader.Record`, and the typed `Header` stands for every key of `hdrdict` except `npts` and `network`: the top-level `station`, `location`, `starttime`, `sampling_rate`, `channel` and `calib` (knet.py:152-205) as well as the `knet` sub-dictionary.
- `float` and `UTCDateTime.strptime` are library code and are not modelled. They are parameters (`KnetHeader.Parsers`): partial functions to `real` and to whole seconds. Only the offsets and the ratio applied to their results are modelled. The exception is the scale factor's numerator at knet.py:202: `float` of a non-empty ASCII digit run never raises, so it is modelled as the exact decimal value of that run (`Text.DigitsValue`), not through the parameter.
- Floating-point behaviour is not modelled. Values are `real`, so IEEE rounding of `0.01 * num / denom` is not represented. Neither are `nan` or `inf` results of `float`, or sub-second times.
- Python's `str.split()`/`strip()` whitespace is taken as the fixed set of characters for which `str.isspace` holds. The data lines are bytes, so their whitespace is the six ASCII whitespace characters.
- The registration glue is not modelled: the `file_format_check` decorator, the `_is_knet_ascii` and `_read_knet_ascii` wrappers, the exception class itself and the `doctest` block.
- Text.Split: its own contract states only that the tokens are non-empty and whitespace-free; that they are the maximal non-whitespace runs of any string, in order, is stated by `SplitDropSpace` (leading whitespace is skipped), `SplitWord` (a run followed by whitespace or the end is the next token) and `SplitAllSpace` (a string of whitespace has no tokens).
- KnetReader.ParseSamples: its own contract states only the count and the error kind; the values in order and the first failing token are stated by `ParseSamplesMeaning`.
- KnetHeader.Channel: its own contract is a disjunction; the exact mapping on tokens is stated by `ChannelOfToken`.
