/**
 * Stream selection from an HLS multivariant playlist (`getHlsStreams`): the two regular
 * expressions the extension runs over the fetched manifest, written as a line scanner.
 *
 * The audio pattern `#EXT-X-MEDIA:URI="(.*)",TYPE=AUDIO,GROUP-ID="(.*)",NAME` picks up
 * alternative audio renditions (the EXT-X-MEDIA tag of RFC 8216, section 4.3.4.1); the
 * video pattern `#EXT-X-STREAM-INF:.*,RESOLUTION=\d+x(\d+),.*\n(.*)` picks up variant
 * streams and the URI line that follows each (the EXT-X-STREAM-INF tag, section 4.3.4.2).
 *
 * In a Java regular expression `.` matches anything except a line terminator (`\n`, `\r`,
 * U+0085, U+2028, U+2029), so every match of either pattern lies inside one line, apart
 * from the explicit `\n` of the video pattern. The model therefore splits the text into
 * lines and states each pattern's leftmost, greedy match inside a line as an optimum over
 * all matches.
 */
module HlsManifest {
  import opened Wrappers
  import opened Collections
  import opened Text

  // ---------------------------------------------------------------------------
  // Lines
  // ---------------------------------------------------------------------------

  /** The characters a Java `.` does not match. */
  predicate IsLineTerminator(c: char)
  {
    c == '\n' || c == '\r' || c == '\U{85}' || c == '\U{2028}' || c == '\U{2029}'
  }

  predicate NoTerminator(s: string)
  {
    forall i :: 0 <= i < |s| ==> !IsLineTerminator(s[i])
  }

  /** A maximal terminator-free run of the text and the terminator that ends it, if any. */
  datatype Line = Line(content: string, terminator: Option<char>)

  /** Every line but the last ends in a terminator; no content contains one. */
  predicate WellFormedLines(lines: seq<Line>)
  {
    |lines| >= 1
    && NoTerminator(lines[0].content)
    && if |lines| == 1 then lines[0].terminator.None?
       else lines[0].terminator.Some? && IsLineTerminator(lines[0].terminator.value)
            && WellFormedLines(lines[1..])
  }

  /** Splits a text at every line-terminator character. */
  function Lines(text: string): (lines: seq<Line>)
    ensures |lines| >= 1
  {
    if text == [] then [Line("", None)]
    else
      var rest := Lines(text[1..]);
      if IsLineTerminator(text[0]) then [Line("", Some(text[0]))] + rest
      else [Line([text[0]] + rest[0].content, rest[0].terminator)] + rest[1..]
  }

  /** The split yields well-formed lines: every line but the last ends in a terminator,
      and no line holds one. */
  lemma {:induction false} LinesWellFormed(text: string)
    ensures WellFormedLines(Lines(text))
  {
    if text != [] {
      var c, tail := text[0], text[1..];
      LinesWellFormed(tail);
      var rest := Lines(tail);
      var lines := Lines(text);
      if IsLineTerminator(c) {
        assert lines == [Line("", Some(c))] + rest;
        assert lines[1..] == rest;
      } else {
        var first := Line([c] + rest[0].content, rest[0].terminator);
        assert lines == [first] + rest[1..];
        assert lines[1..] == rest[1..];
        assert forall i :: 1 <= i < |first.content| ==> first.content[i] == rest[0].content[i - 1];
      }
    }
  }

  /** Writes lines back out, each followed by its terminator. */
  function Unlines(lines: seq<Line>): string
  {
    if lines == [] then ""
    else
      lines[0].content + TerminatorText(lines[0].terminator) + Unlines(lines[1..])
  }

  /** No character is lost or added by the split. */
  lemma {:induction false} UnlinesLines(text: string)
    ensures Unlines(Lines(text)) == text
  {
    if text != [] {
      var c, tail := text[0], text[1..];
      var rest := Lines(tail);
      UnlinesLines(tail);
      LinesCons(c, tail);
      assert text == [c] + tail;
      if IsLineTerminator(c) {
        UnlinesCons(Line("", Some(c)), rest);
      } else {
        var first := rest[0];
        assert rest == [first] + rest[1..];
        UnlinesCons(first, rest[1..]);
        UnlinesCons(Line([c] + first.content, first.terminator), rest[1..]);
      }
    }
  }

  /** One unfolding of `Unlines` on lines written as a first line and the rest. */
  lemma {:induction false} UnlinesCons(line: Line, rest: seq<Line>)
    ensures Unlines([line] + rest) == line.content + TerminatorText(line.terminator) + Unlines(rest)
  {
    assert ([line] + rest)[0] == line;
    assert ([line] + rest)[1..] == rest;
  }

  /** `Lines` of a text with one more character in front. */
  lemma {:induction false} LinesCons(c: char, text: string)
    ensures var rest := Lines(text);
            Lines([c] + text) == if IsLineTerminator(c) then [Line("", Some(c))] + rest
                                 else [Line([c] + rest[0].content, rest[0].terminator)] + rest[1..]
  {
    assert ([c] + text)[1..] == text;
  }

  function TerminatorText(t: Option<char>): string
  {
    match t case Some(c) => [c] case None => []
  }

  /** Dropping the first line, or the first character of a non-empty first line, keeps
      lines well formed. */
  lemma {:induction false} WellFormedTail(lines: seq<Line>)
    requires WellFormedLines(lines) && |lines| > 1
    ensures WellFormedLines(lines[1..])
  {
  }

  lemma {:induction false} WellFormedShorter(lines: seq<Line>)
    requires WellFormedLines(lines) && lines[0].content != []
    ensures WellFormedLines([Line(lines[0].content[1..], lines[0].terminator)] + lines[1..])
  {
    var shorter := [Line(lines[0].content[1..], lines[0].terminator)] + lines[1..];
    assert shorter[1..] == lines[1..];
    assert forall i :: 0 <= i < |lines[0].content[1..]| ==> lines[0].content[1..][i] == lines[0].content[i + 1];
  }

  /** `Unlines` of lines whose first line starts with `c`. */
  lemma {:induction false} UnlinesFirstChar(lines: seq<Line>)
    requires |lines| >= 1 && lines[0].content != []
    ensures Unlines(lines)
         == [lines[0].content[0]] + Unlines([Line(lines[0].content[1..], lines[0].terminator)] + lines[1..])
  {
    var first := lines[0];
    var shorter := [Line(first.content[1..], first.terminator)] + lines[1..];
    assert shorter[1..] == lines[1..];
    assert first.content == [first.content[0]] + first.content[1..];
  }

  /** And the split is the only well-formed way of writing a text as lines. */
  lemma {:induction false} LinesUnlines(lines: seq<Line>)
    requires WellFormedLines(lines)
    ensures Lines(Unlines(lines)) == lines
    decreases |lines|, |lines[0].content|
  {
    if lines[0].content == [] {
      if |lines| > 1 {
        WellFormedTail(lines);
        LinesUnlines(lines[1..]);
        LinesUnlinesTerminator(lines);
      } else {
        assert lines == [Line("", None)];
      }
    } else {
      var shorter := [Line(lines[0].content[1..], lines[0].terminator)] + lines[1..];
      WellFormedShorter(lines);
      LinesUnlines(shorter);
      LinesUnlinesChar(lines);
    }
  }

  /** The step of `LinesUnlines` for an empty first line: its terminator starts the text. */
  lemma {:induction false} LinesUnlinesTerminator(lines: seq<Line>)
    requires WellFormedLines(lines) && |lines| > 1 && lines[0].content == []
    requires Lines(Unlines(lines[1..])) == lines[1..]
    ensures Lines(Unlines(lines)) == lines
  {
    var c := lines[0].terminator.value;
    var tail := Unlines(lines[1..]);
    assert Unlines(lines) == [c] + tail;
    LinesCons(c, tail);
    assert lines == [Line("", Some(c))] + lines[1..];
  }

  /** The step of `LinesUnlines` for a non-empty first line: its first character starts the
      text and joins the first line of the rest. */
  lemma {:induction false} LinesUnlinesChar(lines: seq<Line>)
    requires WellFormedLines(lines) && lines[0].content != []
    requires var shorter := [Line(lines[0].content[1..], lines[0].terminator)] + lines[1..];
             Lines(Unlines(shorter)) == shorter
    ensures Lines(Unlines(lines)) == lines
  {
    var first := lines[0];
    var c := first.content[0];
    var shorter := [Line(first.content[1..], first.terminator)] + lines[1..];
    UnlinesFirstChar(lines);
    LinesCons(c, Unlines(shorter));
    assert !IsLineTerminator(c);
    assert [c] + first.content[1..] == first.content;
    assert shorter[1..] == lines[1..];
    assert lines == [first] + lines[1..];
  }

  // ---------------------------------------------------------------------------
  // The audio pattern inside one line
  // ---------------------------------------------------------------------------

  const MediaPrefix := "#EXT-X-MEDIA:URI=\""
  const GroupMark := "\",TYPE=AUDIO,GROUP-ID=\""
  const NameMark := "\",NAME"

  /** A match of the audio pattern in `line`: the tag at `start`, the group-id marker at
      `groupAt` and the name marker at `nameAt`; the URI is what lies between the first two,
      the group id what lies between the last two. */
  predicate AudioMatchAt(line: string, start: int, groupAt: int, nameAt: int)
  {
    OccursAt(line, MediaPrefix, start)
    && start + |MediaPrefix| <= groupAt && OccursAt(line, GroupMark, groupAt)
    && groupAt + |GroupMark| <= nameAt && OccursAt(line, NameMark, nameAt)
  }

  datatype AudioSpan = AudioSpan(start: nat, groupAt: nat, nameAt: nat)

  /** The match `findAll` reports in a line: the leftmost start, then the longest URI, then
      the longest group id. Every other match starts no earlier and ends both groups no later. */
  function MatchAudio(line: string): (r: Option<AudioSpan>)
    ensures r.Some? ==> AudioMatchAt(line, r.value.start, r.value.groupAt, r.value.nameAt)
    ensures forall s, g, n :: AudioMatchAt(line, s, g, n) ==>
              r.Some? && r.value.start <= s && g <= r.value.groupAt && n <= r.value.nameAt
  {
    match FirstAt(line, MediaPrefix, 0)
    case None => None
    case Some(s) =>
      match LastAt(line, NameMark, s + |MediaPrefix| + |GroupMark|, |line| - |NameMark|)
      case None => None
      case Some(n) =>
        match LastAt(line, GroupMark, s + |MediaPrefix|, n - |GroupMark|)
        case None => None
        case Some(g) => Some(AudioSpan(s, g, n))
  }

  /** Once a line's match is reported, `findAll` finds nothing further in that line: no
      match starts after it ends. */
  lemma {:induction false} AudioAtMostOnePerLine(line: string, s: int, g: int, n: int)
    requires AudioMatchAt(line, s, g, n)
    ensures MatchAudio(line).Some?
    ensures s < MatchAudio(line).value.nameAt + |NameMark|
  {
  }

  /** An audio rendition as the pattern reads it: URI and group id. */
  datatype AudioEntry = AudioEntry(uri: string, groupId: string)

  function AudioOf(line: string): (r: Option<AudioEntry>)
    ensures r.Some? <==> exists s, g, n :: AudioMatchAt(line, s, g, n)
  {
    match MatchAudio(line)
    case None => None
    case Some(m) =>
      Some(AudioEntry(line[m.start + |MediaPrefix|..m.groupAt], line[m.groupAt + |GroupMark|..m.nameAt]))
  }

  /** `audioRegex.findAll(text)`: one entry per line that matches, in line order. */
  function AudioScan(lines: seq<Line>): (r: seq<AudioEntry>)
    ensures |r| <= |lines|
  {
    if lines == [] then []
    else
      match AudioOf(lines[0].content)
      case None => AudioScan(lines[1..])
      case Some(e) => [e] + AudioScan(lines[1..])
  }

  function LineAudio(line: Line): Option<AudioEntry>
  {
    AudioOf(line.content)
  }

  /** The scan keeps each line's match, if any, in line order. */
  lemma {:induction false} AudioScanPerLine(lines: seq<Line>)
    ensures AudioScan(lines) == MapNotNull(lines, LineAudio)
  {
    if lines != [] {
      AudioScanPerLine(lines[1..]);
    }
  }

  /** The audio entries are exactly the matches of the manifest's lines. */
  lemma {:induction false} AudioScanMembers(lines: seq<Line>, e: AudioEntry)
    ensures e in AudioScan(lines) <==> exists i :: 0 <= i < |lines| && AudioOf(lines[i].content) == Some(e)
  {
    AudioScanPerLine(lines);
    if e in AudioScan(lines) {
      MapNotNullFrom(lines, LineAudio, e);
      var x :| x in lines && LineAudio(x) == Some(e);
      var i :| 0 <= i < |lines| && lines[i] == x;
      assert AudioOf(lines[i].content) == Some(e);
    }
    if exists i :: 0 <= i < |lines| && AudioOf(lines[i].content) == Some(e) {
      var i :| 0 <= i < |lines| && AudioOf(lines[i].content) == Some(e);
      MapNotNullKeeps(lines, LineAudio, lines[i]);
    }
  }

  /** Matches are reported in the order their lines appear. */
  lemma {:induction false} AudioScanAppend(a: seq<Line>, b: seq<Line>)
    ensures AudioScan(a + b) == AudioScan(a) + AudioScan(b)
  {
    AudioScanPerLine(a);
    AudioScanPerLine(b);
    AudioScanPerLine(a + b);
    MapNotNullAppend(a, b, LineAudio);
  }

  // ---------------------------------------------------------------------------
  // The video pattern
  // ---------------------------------------------------------------------------

  const StreamInfPrefix := "#EXT-X-STREAM-INF:"
  const ResolutionMark := ",RESOLUTION="

  /** A match of `#EXT-X-STREAM-INF:.*,RESOLUTION=\d+x(\d+),` in a line: the tag at
      `start`, the resolution attribute at `at`, the `x` at `x` and the closing comma at
      `comma`; the height is the digits between `x` and the comma. */
  predicate VideoMatchAt(line: string, start: int, at: int, x: int, comma: int)
  {
    OccursAt(line, StreamInfPrefix, start)
    && start + |StreamInfPrefix| <= at && OccursAt(line, ResolutionMark, at)
    && at + |ResolutionMark| < x < |line| && AllDigits(line[at + |ResolutionMark|..x]) && line[x] == 'x'
    && x + 1 < comma < |line| && AllDigits(line[x + 1..comma]) && line[comma] == ','
  }

  /** The end of the run of digits starting at `i`. */
  function DigitsEnd(line: string, i: nat): (r: nat)
    requires i <= |line|
    ensures i <= r <= |line| && AllDigits(line[i..r]) && (r < |line| ==> !IsDigit(line[r]))
    decreases |line| - i
  {
    if i < |line| && IsDigit(line[i]) then
      var r := DigitsEnd(line, i + 1);
      assert line[i..r] == [line[i]] + line[i + 1..r];
      r
    else i
  }

  /** A run of digits followed by a non-digit ends where `DigitsEnd` says. */
  lemma {:induction false} DigitsEndUnique(line: string, i: nat, j: nat)
    requires i <= j < |line| && AllDigits(line[i..j]) && !IsDigit(line[j])
    ensures DigitsEnd(line, i) == j
    decreases j - i
  {
    if i < j {
      assert line[i] == line[i..j][0];
      assert line[i + 1..j] == line[i..j][1..];
      DigitsEndUnique(line, i + 1, j);
    }
  }

  /** The digit runs of a match are maximal, so a resolution attribute fixes them. */
  lemma {:induction false} VideoMatchDigits(line: string, start: int, at: nat)
    ensures forall x, c :: VideoMatchAt(line, start, at, x, c) ==>
              at + |ResolutionMark| <= |line|
              && x == DigitsEnd(line, at + |ResolutionMark|) && c == DigitsEnd(line, x + 1)
  {
    forall x, c | VideoMatchAt(line, start, at, x, c)
      ensures x == DigitsEnd(line, at + |ResolutionMark|) && c == DigitsEnd(line, x + 1)
    {
      DigitsEndUnique(line, at + |ResolutionMark|, x);
      DigitsEndUnique(line, x + 1, c);
    }
  }

  datatype VideoSpan = VideoSpan(start: nat, at: nat, x: nat, comma: nat)

  /** Whether the resolution attribute at `at` is well formed, and where its parts are. */
  function ResolutionAt(line: string, start: nat, at: nat): (r: Option<VideoSpan>)
    ensures r.Some? ==> r.value.start == start && r.value.at == at
                        && VideoMatchAt(line, start, at, r.value.x, r.value.comma)
    ensures forall x, c :: VideoMatchAt(line, start, at, x, c) ==> r.Some? && r.value.x == x && r.value.comma == c
  {
    VideoMatchDigits(line, start, at);
    if !(OccursAt(line, StreamInfPrefix, start) && start + |StreamInfPrefix| <= at && OccursAt(line, ResolutionMark, at)) then None
    else
      var x := DigitsEnd(line, at + |ResolutionMark|);
      if !(at + |ResolutionMark| < x < |line| && line[x] == 'x') then None
      else
        var c := DigitsEnd(line, x + 1);
        if !(x + 1 < c < |line| && line[c] == ',') then None
        else Some(VideoSpan(start, at, x, c))
  }

  /** The last resolution attribute in `[lo, hi]` that completes a match from `start`. */
  function LastResolution(line: string, start: nat, lo: nat, hi: int): (r: Option<VideoSpan>)
    ensures r.Some? ==> r.value.start == start && lo <= r.value.at <= hi
                        && VideoMatchAt(line, start, r.value.at, r.value.x, r.value.comma)
    ensures forall a, x, c :: lo <= a <= hi && VideoMatchAt(line, start, a, x, c) ==>
              r.Some? && a <= r.value.at
    decreases hi - lo
  {
    if hi < lo then None
    else
      match ResolutionAt(line, start, hi)
      case Some(m) => Some(m)
      case None => LastResolution(line, start, lo, hi - 1)
  }

  /** The match `findAll` reports from a header line: the leftmost tag, then the greedy
      `.*`, which stops at the last resolution attribute that completes the pattern. */
  function MatchStreamInf(line: string): (r: Option<VideoSpan>)
    ensures r.Some? ==> VideoMatchAt(line, r.value.start, r.value.at, r.value.x, r.value.comma)
    ensures forall s, a, x, c :: VideoMatchAt(line, s, a, x, c) ==>
              r.Some? && r.value.start <= s && a <= r.value.at
  {
    match FirstAt(line, StreamInfPrefix, 0)
    case None => None
    case Some(s) =>
      assert forall s', a, x, c :: VideoMatchAt(line, s', a, x, c) && s <= s' ==> VideoMatchAt(line, s, a, x, c);
      LastResolution(line, s, s + |StreamInfPrefix|, |line|)
  }

  /** A variant stream as the pattern reads it: the height digits and the URI line. */
  datatype VideoEntry = VideoEntry(height: string, uri: string)

  /** `videoRegex.findAll(text)`. A header line matches only when a `\n` ends it; the whole
      next line is the URI, and the search resumes after it, so a URI line is never read
      as a header. */
  function VideoScan(lines: seq<Line>): (r: seq<VideoEntry>)
    ensures forall i :: 0 <= i < |r| ==> AllDigits(r[i].height) && |r[i].height| >= 1
  {
    if |lines| < 2 then []
    else if IsHeader(lines[0]) then
      [VideoEntry(HeaderHeight(lines[0]), lines[1].content)] + VideoScan(lines[2..])
    else
      VideoScan(lines[1..])
  }

  /** A line the video pattern can start in: the stream tag matches and `\n` ends it. */
  predicate IsHeader(line: Line)
  {
    line.terminator == Some('\n') && MatchStreamInf(line.content).Some?
  }

  /** The height digits a header line's match reports. */
  function HeaderHeight(line: Line): (height: string)
    requires IsHeader(line)
    ensures AllDigits(height) && |height| >= 1
    ensures var m := MatchStreamInf(line.content).value;
            VideoMatchAt(line.content, m.start, m.at, m.x, m.comma) && height == line.content[m.x + 1..m.comma]
  {
    var m := MatchStreamInf(line.content).value;
    line.content[m.x + 1..m.comma]
  }

  /** The scan skips to the first header line that has a line after it, reports that
      header's height with the whole next line as URI, and resumes after the URI line. */
  lemma {:induction false} VideoScanSkip(lines: seq<Line>, k: nat)
    requires k + 1 < |lines| && IsHeader(lines[k])
    requires forall j :: 0 <= j < k ==> !IsHeader(lines[j])
    ensures VideoScan(lines) == [VideoEntry(HeaderHeight(lines[k]), lines[k + 1].content)] + VideoScan(lines[k + 2..])
  {
    if k > 0 {
      assert !IsHeader(lines[0]);
      VideoScanSkip(lines[1..], k - 1);
      assert lines[1..][k + 1..] == lines[k + 2..];
    }
  }

  /** Without a header line before the last line there is no video entry. */
  lemma {:induction false} VideoScanNone(lines: seq<Line>)
    requires forall j :: 0 <= j < |lines| - 1 ==> !IsHeader(lines[j])
    ensures VideoScan(lines) == []
    decreases |lines|
  {
    if |lines| >= 2 {
      assert !IsHeader(lines[0]);
      VideoScanNone(lines[1..]);
    }
  }

  /** Every video entry is read from a header line and the line right after it. */
  lemma {:induction false} VideoScanFrom(lines: seq<Line>, e: VideoEntry)
    requires e in VideoScan(lines)
    ensures exists k :: 0 <= k < |lines| - 1 && IsHeader(lines[k])
                        && e == VideoEntry(HeaderHeight(lines[k]), lines[k + 1].content)
    decreases |lines|
  {
    if IsHeader(lines[0]) && e == VideoEntry(HeaderHeight(lines[0]), lines[1].content) {
    } else if IsHeader(lines[0]) {
      VideoScanFrom(lines[2..], e);
      var k :| 0 <= k < |lines[2..]| - 1 && IsHeader(lines[2..][k])
               && e == VideoEntry(HeaderHeight(lines[2..][k]), lines[2..][k + 1].content);
      assert lines[k + 2] == lines[2..][k] && lines[k + 3] == lines[2..][k + 1];
    } else {
      VideoScanFrom(lines[1..], e);
      var k :| 0 <= k < |lines[1..]| - 1 && IsHeader(lines[1..][k])
               && e == VideoEntry(HeaderHeight(lines[1..][k]), lines[1..][k + 1].content);
      assert lines[k + 1] == lines[1..][k] && lines[k + 2] == lines[1..][k + 1];
    }
  }

  // ---------------------------------------------------------------------------
  // Streamables
  // ---------------------------------------------------------------------------

  datatype MediaType = Audio | Video
  datatype MimeType = Progressive | Hls

  /** `Streamable.audio(url, bitrate, HLS)` and `Streamable.video(url, height, HLS)`. */
  datatype Streamable = Streamable(id: string, quality: int, mediaType: MediaType, mimeType: MimeType)

  /** `toInt()` threw on this text. */
  datatype HlsError = NumberFormat(text: string)

  /** The audio list, stopping at the first group id that is not an `Int`. */
  function AudioStreams(entries: seq<AudioEntry>): (r: Result<seq<Streamable>, HlsError>)
    ensures r.Success? <==> forall i :: 0 <= i < |entries| ==> ToIntOrNull(entries[i].groupId).Some?
    ensures r.Success? ==> |r.value| == |entries|
    ensures r.Success? ==> forall i :: 0 <= i < |entries| ==>
              r.value[i] == Streamable(entries[i].uri, ToIntOrNull(entries[i].groupId).value, Audio, Hls)
    ensures r.Failure? ==> exists i :: 0 <= i < |entries| && entries[i].groupId == r.error.text
                                       && ToIntOrNull(r.error.text).None?
  {
    if entries == [] then Success([])
    else
      match ToIntOrNull(entries[0].groupId)
      case None => Failure(NumberFormat(entries[0].groupId))
      case Some(bitrate) =>
        match AudioStreams(entries[1..])
        case Failure(e) => Failure(e)
        case Success(rest) => Success([Streamable(entries[0].uri, bitrate, Audio, Hls)] + rest)
  }

  /** The video list, stopping at the first height too large for an `Int`. */
  function VideoStreams(entries: seq<VideoEntry>): (r: Result<seq<Streamable>, HlsError>)
    ensures r.Success? <==> forall i :: 0 <= i < |entries| ==> ToIntOrNull(entries[i].height).Some?
    ensures r.Success? ==> |r.value| == |entries|
    ensures r.Success? ==> forall i :: 0 <= i < |entries| ==>
              r.value[i] == Streamable(entries[i].uri, ToIntOrNull(entries[i].height).value, Video, Hls)
    ensures r.Failure? ==> exists i :: 0 <= i < |entries| && entries[i].height == r.error.text
                                       && ToIntOrNull(r.error.text).None?
  {
    if entries == [] then Success([])
    else
      match ToIntOrNull(entries[0].height)
      case None => Failure(NumberFormat(entries[0].height))
      case Some(height) =>
        match VideoStreams(entries[1..])
        case Failure(e) => Failure(e)
        case Success(rest) => Success([Streamable(entries[0].uri, height, Video, Hls)] + rest)
  }

  /** `getHlsStreams` after the fetch: both lists are built, audio first, and only then is
      the video list dropped for music, so a bad number in either fails the whole call. */
  function HlsStreams(manifest: string, isMusic: bool): (r: Result<seq<Streamable>, HlsError>)
    ensures var lines := Lines(manifest);
            var audio := AudioStreams(AudioScan(lines));
            var video := VideoStreams(VideoScan(lines));
            (r.Success? <==> audio.Success? && video.Success?)
            && (r.Success? && isMusic ==> r.value == audio.value)
            && (r.Success? && !isMusic ==> r.value == audio.value + video.value)
            && (audio.Failure? ==> r == Failure(audio.error))
            && (audio.Success? && video.Failure? ==> r == Failure(video.error))
  {
    var lines := Lines(manifest);
    match AudioStreams(AudioScan(lines))
    case Failure(e) => Failure(e)
    case Success(audio) =>
      match VideoStreams(VideoScan(lines))
      case Failure(e) => Failure(e)
      case Success(video) => if isMusic then Success(audio) else Success(audio + video)
  }

  /** For music every entry is audio; otherwise the audio entries come first and the video
      entries after them, and nothing else is returned. */
  lemma {:induction false} HlsStreamsOrder(manifest: string, isMusic: bool)
    requires HlsStreams(manifest, isMusic).Success?
    ensures var r := HlsStreams(manifest, isMusic).value;
            var na := |AudioScan(Lines(manifest))|;
            (isMusic ==> |r| == na && forall i :: 0 <= i < |r| ==> r[i].mediaType == Audio)
            && (!isMusic ==> |r| == na + |VideoScan(Lines(manifest))|
                             && (forall i :: 0 <= i < na ==> r[i].mediaType == Audio)
                             && (forall i :: na <= i < |r| ==> r[i].mediaType == Video))
            && forall i :: 0 <= i < |r| ==> r[i].mimeType == Hls
  {
  }
}
