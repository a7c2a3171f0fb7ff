/** The multipart streams of the MJPEG proxy (mjpeg.rs): what it writes to its readers, and
    how it cuts an incoming stream into frames. */
module Multipart {
  import opened Basics
  import opened Lines
  import FrameSlot

  const MAX_FRAME := 4 * 1024 * 1024

  // ----- Reading -----

  datatype Progress = Reached(pos: nat) | Ended | NotText

  datatype Headers = Headers(pos: nat, length: Option<nat>) | Cut | HeadersNotText

  /** A frame and where the stream stands after it; a regular end; or why the stream is given up. */
  datatype FrameResult = Frame(frame: Bytes, pos: nat) | Eof | TooLong(length: nat) | NoBoundaryInSight | NotAText

  /** A line that announces a part, with or without the dashes that close a stream. */
  predicate IsBoundary(line: Bytes, boundary: Bytes) {
    EndsWith(TrimEndDashes(TrimEnd(line)), boundary) && HasDashes(line)
  }

  function SkipToBoundary(data: Bytes, pos: nat, boundary: Bytes): (r: Progress)
    requires pos <= |data|
    ensures r.Reached? ==> pos < r.pos <= |data|
    decreases |data| - pos
  {
    var end := LineEnd(data, pos);
    if pos == |data| then Ended
    else if !IsText(data[pos..end]) then NotText
    else if IsBoundary(data[pos..end], boundary) then Reached(end)
    else SkipToBoundary(data, end, boundary)
  }

  const CONTENT_LENGTH: Bytes := Text("content-length")
  const CONTENT_TYPE: Bytes := Text("content-type")

  /** The length so far, updated by one header line. */
  function Noted(line: Bytes, length: Option<nat>): Option<nat> {
    var header := Split(line);
    if header.Some? && SameName(header.value.0, CONTENT_LENGTH) then ParseWord(header.value.1) else length
  }

  function ReadHeaders(data: Bytes, pos: nat, length: Option<nat>): (r: Headers)
    requires pos <= |data|
    ensures r.Headers? ==> pos < r.pos <= |data|
    decreases |data| - pos
  {
    var end := LineEnd(data, pos);
    if pos == |data| then Cut
    else if !IsText(data[pos..end]) then HeadersNotText
    else if Trim(data[pos..end]) == [] then Headers(end, length)
    else ReadHeaders(data, end, Noted(data[pos..end], length))
  }

  /** Without the line breaks at its end. */
  function TrimBreaks(frame: Bytes): Bytes {
    if frame != [] && (frame[|frame| - 1] == RETURN || frame[|frame| - 1] == NEWLINE)
    then TrimBreaks(frame[..|frame| - 1]) else frame
  }

  /** Nothing but line breaks is taken away, and all of them at the end are. */
  lemma {:induction false} BreaksOnly(frame: Bytes)
    ensures var kept := TrimBreaks(frame);
            && kept <= frame && (forall i :: |kept| <= i < |frame| ==> frame[i] == 13 || frame[i] == 10)
            && (kept != [] ==> kept[|kept| - 1] != 13 && kept[|kept| - 1] != 10)
  {
    if frame != [] && (frame[|frame| - 1] == RETURN || frame[|frame| - 1] == NEWLINE) {
      BreaksOnly(frame[..|frame| - 1]);
    }
  }

  /** A part without a length goes as far as the next boundary, which is read with it, or to
      the end of the stream; `k` octets have been read so far. */
  function Scan(data: Bytes, pos: nat, k: nat, needle: Bytes): (r: FrameResult)
    requires pos + k <= |data|
    ensures r.Frame? ==> pos <= r.pos <= |data|
    decreases |data| - pos - k
  {
    if pos + k == |data| then if k == 0 then Eof else Frame(data[pos..], |data|)
    else if k + 1 > MAX_FRAME then NoBoundaryInSight
    else if EndsWith(data[pos..pos + k + 1], needle)
    then Frame(TrimBreaks(data[pos..pos + k + 1 - |needle|]), pos + k + 1)
    else Scan(data, pos, k + 1, needle)
  }

  function TakeFrame(data: Bytes, pos: nat, length: Option<nat>, boundary: Bytes): (r: FrameResult)
    requires pos <= |data|
    ensures r.Frame? ==> pos <= r.pos <= |data|
  {
    if length == None then Scan(data, pos, 0, DASHES + boundary)
    else if length.value > MAX_FRAME then TooLong(length.value)
    else if |data| - pos < length.value then Eof
    else Frame(data[pos..pos + length.value], pos + length.value)
  }

  function ReadFrame(data: Bytes, pos: nat, boundary: Bytes): (r: FrameResult)
    requires pos <= |data|
    ensures r.Frame? ==> pos < r.pos <= |data|
  {
    match SkipToBoundary(data, pos, boundary)
    case Ended => Eof
    case NotText => NotAText
    case Reached(start) =>
      match ReadHeaders(data, start, None)
      case Cut => Eof
      case HeadersNotText => NotAText
      case Headers(body, length) => TakeFrame(data, body, length, boundary)
  }

  /** Every frame of the stream, and how it ended. */
  function AllFrames(data: Bytes, pos: nat, boundary: Bytes): (seq<Bytes>, FrameResult)
    requires pos <= |data|
    decreases |data| - pos
  {
    var r := ReadFrame(data, pos, boundary);
    if !r.Frame? then ([], r)
    else
      var (frames, end) := AllFrames(data, r.pos, boundary);
      ([r.frame] + frames, end)
  }

  // ----- The boundary of a stream -----

  const BOUNDARY_IS: Bytes := Text("boundary=")

  function FindBoundary(value: Bytes): Option<Bytes>
    decreases |value|
  {
    var i := Find(value, SEMICOLON);
    var part := Trim(value[..i]);
    if BOUNDARY_IS <= part then Some(TrimStartDashes(TrimQuotes(part[|BOUNDARY_IS|..])))
    else if i == |value| then None
    else FindBoundary(value[i + 1..])
  }

  datatype HeadResult = Boundary(boundary: Bytes, pos: nat) | HeadCut | NoContentType | NoBoundary | HeadNotText

  function NotedType(line: Bytes, contentType: Option<Bytes>): Option<Bytes> {
    var header := Split(line);
    if header.Some? && SameName(header.value.0, CONTENT_TYPE) then Some(header.value.1) else contentType
  }

  function ReadHead(data: Bytes, pos: nat, contentType: Option<Bytes>): (r: HeadResult)
    requires pos <= |data|
    ensures r.Boundary? ==> pos < r.pos <= |data|
    decreases |data| - pos
  {
    var end := LineEnd(data, pos);
    if pos == |data| then HeadCut
    else if !IsText(data[pos..end]) then HeadNotText
    else if Trim(data[pos..end]) == [] then
      if contentType == None then NoContentType
      else if FindBoundary(contentType.value) == None then NoBoundary
      else Boundary(FindBoundary(contentType.value).value, end)
    else ReadHead(data, end, NotedType(data[pos..end], contentType))
  }

  // ----- Writing -----

  /** How a sender writes its parts: the boundary, and its spelling of the two header names. */
  datatype Style = Style(boundary: Bytes, typeName: Bytes, lengthName: Bytes)

  const JPEG: Bytes := Text("image/jpeg")

  function TypeHeader(style: Style): Bytes {
    Header(style.typeName, JPEG)
  }

  function LengthHeader(style: Style, length: nat): Bytes {
    Header(style.lengthName, Decimal(length))
  }

  function Lead(style: Style, length: nat): Bytes {
    DASHES + style.boundary + CRLF + (TypeHeader(style) + (LengthHeader(style, length) + CRLF))
  }

  function Part(style: Style, frame: Bytes): Bytes {
    Lead(style, |frame|) + (frame + CRLF)
  }

  function Parts(style: Style, frames: seq<Bytes>): Bytes {
    if frames == [] then [] else Part(style, frames[0]) + Parts(style, frames[1..])
  }

  const BOUNDARY: Bytes := Text("quadcontrolframe")

  /** The proxy's own style. */
  const OURS := Style(BOUNDARY, Text("Content-Type"), Text("Content-Length"))

  const STREAM_TYPE: Bytes := Text("multipart/x-mixed-replace")
  const DOWNSTREAM_TYPE: Bytes := STREAM_TYPE + [SEMICOLON, SPACE] + BOUNDARY_IS + BOUNDARY

  function Head(): Bytes {
    Text("HTTP/1.1 200 OK") + CRLF
    + (Header(Text("Access-Control-Allow-Origin"), Text("*"))
       + (Header(Text("Content-Type"), DOWNSTREAM_TYPE)
          + (Header(Text("Cache-Control"), Text("no-store"))
             + (Header(Text("Connection"), Text("close")) + CRLF))))
  }

  // ----- Reading back one part -----

  predicate OneLine(s: Bytes) {
    Plain(s) && NEWLINE !in s
  }

  /** A boundary that can be announced: quoting, trimming and dashes leave it as it is. */
  predicate Announceable(boundary: Bytes) {
    && boundary != [] && SEMICOLON !in boundary && Tight(boundary)
    && boundary[0] != QUOTE && boundary[|boundary| - 1] != QUOTE && !(DASHES <= boundary)
  }

  /** A sender that can be understood: its boundary is one line and does not end in two dashes,
      and the names of its headers are spelled in any letter case. */
  predicate Fit(style: Style) {
    && Announceable(style.boundary) && OneLine(style.boundary) && RETURN !in style.boundary
    && !EndsWith(style.boundary, DASHES)
    && SameName(style.typeName, CONTENT_TYPE) && SameName(style.lengthName, CONTENT_LENGTH)
  }

  lemma AtParts(data: Bytes, pos: nat, first: Bytes, second: Bytes)
    requires At(data, pos, first + second)
    ensures At(data, pos, first) && At(data, pos + |first|, second)
  {
    var whole := first + second;
    assert whole[..|first|] == first && whole[|first|..] == second;
    assert data[pos..pos + |whole|][..|first|] == data[pos..pos + |first|];
    assert data[pos..pos + |whole|][|first|..] == data[pos + |first|..pos + |whole|];
  }

  lemma {:induction false} TrimEndKeepsStart(s: Bytes)
    requires s != [] && Solid(s[0])
    ensures TrimEnd(s) != [] && TrimEnd(s)[0] == s[0]
    decreases |s|
  {
    SolidStart(s);
    if BlankEnd(s) > 0 {
      hide BlankEnd;
      TrimEndKeepsStart(s[..|s| - BlankEnd(s)]);
    }
  }

  lemma NotAllBlank(s: Bytes)
    requires s != [] && Solid(s[0])
    ensures Trim(s) != []
  {
    TrimEndKeepsStart(s);
    SolidStart(TrimEnd(s));
  }

  /** What a header line needs to be read back. */
  predicate Printable(name: Bytes, value: Bytes) {
    && Plain(name) && Plain(value) && Tight(name) && Tight(value) && name != []
    && NEWLINE !in name && NEWLINE !in value && COLON !in name
  }

  lemma HeaderLine(data: Bytes, pos: nat, name: Bytes, value: Bytes)
    requires Printable(name, value) && At(data, pos, Header(name, value))
    ensures LineEnd(data, pos) == pos + |Header(name, value)|
    ensures data[pos..LineEnd(data, pos)] == Header(name, value)
    ensures IsText(Header(name, value)) && Trim(Header(name, value)) != []
    ensures Split(Header(name, value)) == Some((name, value))
  {
    hide Trim, Split, LineEnd;
    var line := name + [COLON] + ([SPACE] + value);
    assert Header(name, value) == line + CRLF;
    LineIs(data, pos, line);
    PlainIsText(Header(name, value));
    NotAllBlank(Header(name, value));
    HeaderSplits(name, value);
  }

  lemma HeadersPast(data: Bytes, pos: nat, name: Bytes, value: Bytes, length: Option<nat>)
    requires Printable(name, value) && At(data, pos, Header(name, value))
    ensures ReadHeaders(data, pos, length)
            == ReadHeaders(data, pos + |Header(name, value)|,
                           if SameName(name, CONTENT_LENGTH) then ParseWord(value) else length)
  {
    hide Trim, Split, LineEnd, Header, SameName, ParseWord, Printable;
    HeaderLine(data, pos, name, value);
  }

  lemma EmptyLine(data: Bytes, pos: nat)
    requires At(data, pos, CRLF)
    ensures LineEnd(data, pos) == pos + 2 && data[pos..pos + 2] == CRLF
    ensures IsText(CRLF) && Trim(CRLF) == [] && !HasDashes(CRLF)
  {
    hide Trim, LineEnd;
    LineIs(data, pos, []);
    assert [] + CRLF == CRLF;
    PlainIsText(CRLF);
    TrimPadded([]);
  }

  lemma BoundaryLine(style: Style, data: Bytes, pos: nat)
    requires Fit(style)
    requires At(data, pos, DASHES + style.boundary + CRLF)
    ensures SkipToBoundary(data, pos, style.boundary) == Reached(pos + |DASHES + style.boundary + CRLF|)
  {
    hide TrimEnd, TrimEndDashes, LineEnd;
    var line := DASHES + style.boundary;
    LineIs(data, pos, line);
    BoundaryRecognised(style.boundary);
  }

  /** A delimiter line is recognised unless its boundary ends in two dashes, which are then
      taken for those that close a stream. */
  lemma BoundaryRecognised(boundary: Bytes)
    requires Announceable(boundary) && OneLine(boundary)
    ensures IsText(DASHES + boundary + CRLF)
    ensures IsBoundary(DASHES + boundary + CRLF, boundary) <==> !EndsWith(boundary, DASHES)
  {
    var line := DASHES + boundary;
    assert line[|line| - |boundary|..] == boundary;
    assert (line + CRLF)[0] == DASH && (line + CRLF)[1] == DASH;
    PlainIsText(line + CRLF);
    LineTight(boundary);
    TrimEndDrops(line, CRLF);
    DashesAtEnd(boundary);
  }

  lemma LineTight(boundary: Bytes)
    requires Announceable(boundary)
    ensures Tight(DASHES + boundary)
  {
    var line := DASHES + boundary;
    assert line[|line| - 1] == boundary[|boundary| - 1] && line[0] == DASH;
  }

  lemma DashesAtEnd(boundary: Bytes)
    requires boundary != [] && !(DASHES <= boundary)
    ensures EndsWith(TrimEndDashes(DASHES + boundary), boundary) <==> !EndsWith(boundary, DASHES)
  {
    hide TrimEndDashes;
    if EndsWith(boundary, DASHES) {
      LosesDashes(boundary);
    } else {
      KeepsBoundary(boundary);
    }
  }

  lemma LosesDashes(boundary: Bytes)
    requires EndsWith(boundary, DASHES) && !(DASHES <= boundary)
    ensures !EndsWith(TrimEndDashes(DASHES + boundary), boundary)
  {
    var line := DASHES + boundary;
    assert line[|line| - 2..] == boundary[|boundary| - 2..];
    var less := line[..|line| - 2];
    assert TrimEndDashes(line) == TrimEndDashes(less);
    hide TrimEndDashes;
    DashesOnlyShorten(less);
    assert less[..2] == DASHES;
    if |TrimEndDashes(less)| == |boundary| {
      assert TrimEndDashes(less) == less;
    }
  }

  lemma KeepsBoundary(boundary: Bytes)
    requires boundary != [] && !EndsWith(boundary, DASHES)
    ensures EndsWith(TrimEndDashes(DASHES + boundary), boundary)
  {
    var line := DASHES + boundary;
    assert line[|line| - |boundary|..] == boundary;
    if |boundary| > 1 {
      assert line[|line| - 2..] == boundary[|boundary| - 2..];
      assert TrimEndDashes(line) == line;
    } else if boundary[0] == DASH {
      ThreeDashes(boundary);
    } else {
      assert line[|line| - 2..] == [DASH, boundary[0]];
      assert TrimEndDashes(line) == line;
    }
  }

  lemma ThreeDashes(boundary: Bytes)
    requires |boundary| == 1 && boundary[0] == DASH
    ensures TrimEndDashes(DASHES + boundary) == boundary
  {
    var line := DASHES + boundary;
    assert line[1..] == DASHES && line[..1] == boundary;
  }

  lemma {:induction false} DashesOnlyShorten(s: Bytes)
    ensures TrimEndDashes(s) <= s
  {
    if EndsWith(s, DASHES) {
      DashesOnlyShorten(s[..|s| - 2]);
    }
  }

  /** A line that does not end in the boundary, trailing dashes aside, is passed over: so is the
      delimiter of another stream, the proxy's own included. */
  lemma OtherLinesPassed(data: Bytes, pos: nat, line: Bytes, boundary: Bytes)
    requires At(data, pos, line + CRLF) && OneLine(line)
    requires !EndsWith(TrimEndDashes(TrimEnd(line + CRLF)), boundary) || !HasDashes(line + CRLF)
    ensures SkipToBoundary(data, pos, boundary) == SkipToBoundary(data, pos + |line| + 2, boundary)
  {
    hide TrimEnd, TrimEndDashes, LineEnd, HasDashes;
    LineIs(data, pos, line);
    PlainIsText(line + CRLF);
  }

  lemma OtherDelimitersPassed(data: Bytes, pos: nat, other: Bytes, boundary: Bytes)
    requires Announceable(other) && OneLine(other) && other[|other| - 1] != DASH
    requires At(data, pos, DASHES + other + CRLF) && !EndsWith(DASHES + other, boundary)
    ensures SkipToBoundary(data, pos, boundary) == SkipToBoundary(data, pos + |other| + 4, boundary)
  {
    hide At, TrimEnd, TrimEndDashes, SkipToBoundary, EndsWith, HasDashes;
    DelimiterTrimmed(other);
    assert OneLine(DASHES + other) by {
      DashesOneLine();
      OneLineBoth(DASHES, other);
    }
    OtherLinesPassed(data, pos, DASHES + other, boundary);
  }

  lemma DelimiterTrimmed(other: Bytes)
    requires Announceable(other) && other[|other| - 1] != DASH
    ensures TrimEndDashes(TrimEnd(DASHES + other + CRLF)) == DASHES + other
  {
    hide TrimEnd;
    var line := DASHES + other;
    LineTight(other);
    TrimEndDrops(line, CRLF);
    assert line[|line| - 1] == other[|other| - 1];
  }

  /** A spelling of a name of letters and dashes. */
  lemma SpellingPrintable(name: Bytes, model: Bytes, value: Bytes)
    requires SameName(name, model) && model != []
    requires forall i :: 0 <= i < |model| ==> model[i] == DASH || 97 <= model[i] <= 122
    requires Plain(value) && Tight(value) && NEWLINE !in value
    ensures Printable(name, value)
  {
    forall i | 0 <= i < |name|
      ensures name[i] == DASH || 65 <= name[i] <= 90 || 97 <= name[i] <= 122
    {
    }
  }

  lemma NamesAreLetters()
    ensures forall i :: 0 <= i < |CONTENT_TYPE| ==> CONTENT_TYPE[i] == DASH || 97 <= CONTENT_TYPE[i] <= 122
    ensures forall i :: 0 <= i < |CONTENT_LENGTH| ==> CONTENT_LENGTH[i] == DASH || 97 <= CONTENT_LENGTH[i] <= 122
    ensures |CONTENT_TYPE| == 12 && |CONTENT_LENGTH| == 14
  {
  }

  lemma JpegPrintable()
    ensures Plain(JPEG) && Tight(JPEG) && NEWLINE !in JPEG && DASH !in JPEG
  {
  }

  lemma TypeHeaderPrintable(style: Style)
    requires Fit(style)
    ensures Printable(style.typeName, JPEG) && !SameName(style.typeName, CONTENT_LENGTH)
  {
    hide Text;
    JpegPrintable();
    NamesAreLetters();
    SpellingPrintable(style.typeName, CONTENT_TYPE, JPEG);
  }

  lemma LengthHeaderPrintable(style: Style, n: nat)
    requires n < USIZE && Fit(style)
    ensures Printable(style.lengthName, Decimal(n))
    ensures SameName(style.lengthName, CONTENT_LENGTH) && ParseWord(Decimal(n)) == Some(n)
  {
    hide Decimal, ParseWord, Text;
    DecimalParses(n);
    NamesAreLetters();
    SpellingPrintable(style.lengthName, CONTENT_LENGTH, Decimal(n));
  }

  lemma HeadersEnd(data: Bytes, pos: nat, length: Option<nat>)
    requires At(data, pos, CRLF)
    ensures ReadHeaders(data, pos, length) == Headers(pos + 2, length)
  {
    hide At, Trim, LineEnd, Noted;
    EmptyLine(data, pos);
  }

  /** The headers of a part are read as far as the frame, and give its length. */
  lemma LeadReads(style: Style, data: Bytes, pos: nat, n: nat)
    requires Fit(style)
    requires n < USIZE && At(data, pos, Lead(style, n))
    ensures SkipToBoundary(data, pos, style.boundary) == Reached(pos + |DASHES + style.boundary + CRLF|)
    ensures ReadHeaders(data, pos + |DASHES + style.boundary + CRLF|, None) == Headers(pos + |Lead(style, n)|, Some(n))
  {
    hide At, Decimal, ParseWord, SameName, Header, Text, Printable, SkipToBoundary, ReadHeaders, Trim, LineEnd;
    var length := LengthHeader(style, n);
    var kind := TypeHeader(style);
    var start := pos + |DASHES + style.boundary + CRLF|;
    AtParts(data, pos, DASHES + style.boundary + CRLF, kind + (length + CRLF));
    AtParts(data, start, kind, length + CRLF);
    AtParts(data, start + |kind|, length, CRLF);
    BoundaryLine(style, data, pos);
    TypeHeaderPrintable(style);
    LengthHeaderPrintable(style, n);
    HeadersPast(data, start, style.typeName, JPEG, None);
    HeadersPast(data, start + |kind|, style.lengthName, Decimal(n), None);
    HeadersEnd(data, start + |kind| + |length|, Some(n));
  }

  lemma BodyReads(style: Style, data: Bytes, pos: nat, frame: Bytes)
    requires Fit(style)
    requires At(data, pos, Lead(style, |frame|) + frame) && |frame| <= MAX_FRAME
    ensures ReadFrame(data, pos, style.boundary) == Frame(frame, pos + |Lead(style, |frame|) + frame|)
  {
    hide Lead, SkipToBoundary, ReadHeaders;
    AtParts(data, pos, Lead(style, |frame|), frame);
    LeadReads(style, data, pos, |frame|);
  }

  lemma PartReads(style: Style, data: Bytes, pos: nat, frame: Bytes)
    requires Fit(style)
    requires At(data, pos, Part(style, frame)) && |frame| <= MAX_FRAME
    ensures ReadFrame(data, pos, style.boundary) == Frame(frame, pos + |Lead(style, |frame|)| + |frame|)
    ensures At(data, pos + |Lead(style, |frame|)| + |frame|, CRLF)
  {
    hide Lead, SkipToBoundary, ReadHeaders;
    assert Part(style, frame) == Lead(style, |frame|) + frame + CRLF;
    AtParts(data, pos, Lead(style, |frame|) + frame, CRLF);
    BodyReads(style, data, pos, frame);
  }

  /** A part that announces more than the limit ends the stream, whatever follows. */
  lemma OversizeIsRefused(style: Style, data: Bytes, pos: nat, n: nat)
    requires Fit(style)
    requires At(data, pos, Lead(style, n)) && MAX_FRAME < n < USIZE
    ensures ReadFrame(data, pos, style.boundary) == TooLong(n)
  {
    hide Lead, SkipToBoundary, ReadHeaders;
    LeadReads(style, data, pos, n);
  }

  lemma ScanStep(data: Bytes, pos: nat, frame: Bytes, needle: Bytes)
    requires frame != [] && At(data, pos, frame)
    ensures EndsWith(frame, needle) ==> |needle| <= |frame|
    ensures Scan(data, pos, |frame| - 1, needle)
            == if |frame| > MAX_FRAME then NoBoundaryInSight
               else if EndsWith(frame, needle) then
                 Frame(TrimBreaks(frame[..|frame| - |needle|]), pos + |frame|)
               else Scan(data, pos, |frame|, needle)
  {
    hide TrimBreaks;
    if EndsWith(frame, needle) {
      assert frame[..|frame| - |needle|] == data[pos..pos + |frame| - |needle|];
    }
  }

  lemma EndsIsAt(data: Bytes, pos: nat, end: nat, needle: Bytes)
    requires pos <= end <= |data|
    ensures EndsWith(data[pos..end], needle) <==> |needle| <= end - pos && At(data, end - |needle|, needle)
  {
    if |needle| <= end - pos {
      assert data[pos..end][end - pos - |needle|..] == data[end - |needle|..end];
    }
  }

  lemma ScanMisses(data: Bytes, pos: nat, k: nat, needle: Bytes)
    requires pos + k < |data| && k < MAX_FRAME
    requires |needle| <= k + 1 ==> !At(data, pos + k + 1 - |needle|, needle)
    ensures Scan(data, pos, k, needle) == Scan(data, pos, k + 1, needle)
  {
    hide TrimBreaks, Scan, EndsWith, At;
    var end := pos + k + 1;
    SliceAt(data, pos, end);
    ScanStep(data, pos, data[pos..end], needle);
    EndsIsAt(data, pos, end, needle);
  }

  lemma ScanHits(data: Bytes, pos: nat, i: nat, needle: Bytes)
    requires needle != [] && At(data, pos + i, needle) && i + |needle| <= MAX_FRAME
    ensures Scan(data, pos, i + |needle| - 1, needle) == Frame(TrimBreaks(data[pos..pos + i]), pos + i + |needle|)
  {
    AtFits(data, pos + i, needle);
    hide TrimBreaks, Scan, EndsWith, At;
    var end := pos + i + |needle|;
    SliceAt(data, pos, end);
    ScanStep(data, pos, data[pos..end], needle);
    EndsIsAt(data, pos, end, needle);
    assert data[pos..end][..i] == data[pos..pos + i];
  }

  /** A part without a length is what stands before the first boundary, line breaks at its end
      aside; and that boundary is read with it. */
  lemma {:induction false} ScanStops(data: Bytes, pos: nat, k: nat, i: nat, needle: Bytes)
    requires needle != [] && At(data, pos + i, needle) && i + |needle| <= MAX_FRAME && k < i + |needle|
    requires forall j :: pos <= j < pos + i ==> !At(data, j, needle)
    ensures Scan(data, pos, k, needle) == Frame(TrimBreaks(data[pos..pos + i]), pos + i + |needle|)
    decreases i + |needle| - k
  {
    hide TrimBreaks, Scan, At, EndsWith;
    var j := pos + k + 1 - |needle|;
    AtFits(data, pos + i, needle);
    if k + 1 < i + |needle| {
      assert pos <= j ==> !At(data, j, needle);
      ScanMisses(data, pos, k, needle);
      ScanStops(data, pos, k + 1, i, needle);
    } else {
      ScanHits(data, pos, i, needle);
    }
  }

  lemma AtFits(data: Bytes, pos: nat, s: Bytes)
    requires At(data, pos, s)
    ensures pos + |s| <= |data|
  {
  }

  lemma SliceAt(data: Bytes, pos: nat, end: nat)
    requires pos <= end <= |data|
    ensures At(data, pos, data[pos..end])
  {
  }

  // ----- Parts without a length -----

  function Needle(style: Style): Bytes {
    DASHES + style.boundary
  }

  function BareLead(style: Style): Bytes {
    DASHES + style.boundary + CRLF + (TypeHeader(style) + CRLF)
  }

  function BarePart(style: Style, frame: Bytes): Bytes {
    BareLead(style) + (frame + CRLF)
  }

  function BareParts(style: Style, frames: seq<Bytes>): Bytes {
    if frames == [] then [] else BarePart(style, frames[0]) + BareParts(style, frames[1..])
  }

  /** A picture as cameras send it: it starts with the octet 255, as every JPEG does, stays
      within the limit and does not hold the delimiter. */
  predicate Picture(style: Style, frame: Bytes) {
    && frame != [] && frame[0] == 255 && |frame| + 2 + |Needle(style)| <= MAX_FRAME
    && forall j :: 0 <= j < |frame| ==> !At(frame, j, Needle(style))
  }

  lemma NeedleTexts(style: Style)
    requires Fit(style)
    ensures OneLine(Needle(style)) && RETURN !in Needle(style) && 2 <= |Needle(style)|
  {
  }

  lemma Inside(data: Bytes, pos: nat, whole: Bytes, i: nat, s: Bytes)
    requires At(data, pos, whole) && i + |s| <= |whole|
    ensures At(data, pos + i, s) == At(whole, i, s)
  {
    var a, b := data[pos + i..pos + i + |s|], whole[i..i + |s|];
    forall k | 0 <= k < |s|
      ensures a[k] == b[k]
    {
      assert data[pos..pos + |whole|][i + k] == data[pos + i + k];
    }
    assert a == b;
  }

  /** The delimiter after a picture is the first one. */
  lemma NoEarlierNeedle(style: Style, data: Bytes, pos: nat, frame: Bytes, j: nat)
    requires Fit(style)
    requires Picture(style, frame) && At(data, pos, frame + CRLF) && pos <= j < pos + |frame| + 2
    ensures !At(data, j, Needle(style))
  {
    hide Text;
    NeedleTexts(style);
    AtParts(data, pos, frame, CRLF);
    var end := pos + |frame|;
    if j + |Needle(style)| <= end {
      Inside(data, pos, frame, j - pos, Needle(style));
      assert !At(frame, j - pos, Needle(style));
    } else if j + |Needle(style)| <= |data| {
      var i := if j <= end then end else end + 1;
      assert data[i] == data[end..end + 2][i - end] == CRLF[i - end];
      assert data[j..j + |Needle(style)|][i - j] == data[i];
      assert Needle(style)[i - j] in Needle(style);
    }
  }

  lemma BareReads(style: Style, data: Bytes, pos: nat)
    requires Fit(style)
    requires At(data, pos, BareLead(style))
    ensures ReadFrame(data, pos, style.boundary) == Scan(data, pos + |BareLead(style)|, 0, Needle(style))
  {
    hide At, Text, Header, Printable, SkipToBoundary, ReadHeaders, Trim, LineEnd, SameName, ParseWord, Scan;
    AtParts(data, pos, Needle(style) + CRLF, TypeHeader(style) + CRLF);
    var start := pos + |Needle(style) + CRLF|;
    AtParts(data, start, TypeHeader(style), CRLF);
    BoundaryLine(style, data, pos);
    TypeHeaderPrintable(style);
    HeadersPast(data, start, style.typeName, JPEG, None);
    HeadersEnd(data, start + |TypeHeader(style)|, None);
  }

  lemma {:induction false} ScanFindsNothing(data: Bytes, pos: nat, k: nat, needle: Bytes)
    requires pos < |data| && pos + k <= |data| && |data| - pos <= MAX_FRAME && needle != []
    requires forall j :: pos <= j <= |data| ==> !At(data, j, needle)
    ensures Scan(data, pos, k, needle) == Frame(data[pos..], |data|)
    decreases |data| - pos - k
  {
    hide TrimBreaks, Scan, At;
    if pos + k < |data| {
      ScanMisses(data, pos, k, needle);
      ScanFindsNothing(data, pos, k + 1, needle);
    } else {
      ScanEnd(data, pos, needle);
    }
  }

  /** A line that is not text ends the search for the next part. */
  lemma NotTextHere(style: Style, data: Bytes, pos: nat)
    requires Fit(style)
    requires pos < |data| && data[pos] == 255
    ensures SkipToBoundary(data, pos, style.boundary) == NotText
  {
    hide IsBoundary;
    assert data[pos..LineEnd(data, pos)][0] == 255;
  }

  lemma TypeLineSkipped(style: Style, data: Bytes, pos: nat)
    requires Fit(style)
    requires At(data, pos, TypeHeader(style))
    ensures SkipToBoundary(data, pos, style.boundary) == SkipToBoundary(data, pos + |TypeHeader(style)|, style.boundary)
  {
    hide At, Trim, Split, LineEnd, Header, Printable, TrimEnd, TrimEndDashes, HasDashes, Text, IsText;
    TypeHeaderPrintable(style);
    HeaderLine(data, pos, style.typeName, JPEG);
    NoDashesInType(style);
  }

  lemma NoDashesInType(style: Style)
    requires Fit(style)
    ensures !HasDashes(TypeHeader(style))
  {
  }

  lemma BreakNoBoundary(style: Style, data: Bytes, pos: nat)
    requires Fit(style)
    requires At(data, pos, CRLF)
    ensures SkipToBoundary(data, pos, style.boundary) == SkipToBoundary(data, pos + 2, style.boundary)
  {
    hide Trim, LineEnd, TrimEnd, TrimEndDashes, HasDashes;
    EmptyLine(data, pos);
  }

  /** The line break after a frame is passed over. */
  lemma BreakSkipped(style: Style, data: Bytes, pos: nat)
    requires Fit(style)
    requires At(data, pos, CRLF)
    ensures ReadFrame(data, pos, style.boundary) == ReadFrame(data, pos + 2, style.boundary)
  {
    hide Trim, LineEnd, TrimEnd, TrimEndDashes, ReadHeaders, HasDashes;
    EmptyLine(data, pos);
    assert !IsBoundary(CRLF, style.boundary);
  }

  lemma {:induction false} PartsRead(style: Style, data: Bytes, pos: nat, after: nat, frames: seq<Bytes>)
    requires Fit(style)
    requires At(data, after, Parts(style, frames)) && after + |Parts(style, frames)| == |data|
    requires pos == after || (pos + 2 == after && At(data, pos, CRLF))
    requires forall f :: f in frames ==> |f| <= MAX_FRAME
    ensures AllFrames(data, pos, style.boundary) == (frames, Eof)
    decreases |frames|
  {
    hide ReadFrame, Part, At, Lead, AllFrames;
    if pos < after {
      BreakSkipped(style, data, pos);
    }
    if frames == [] {
      EndsThere(style, data);
      NoMoreFrames(style, data, pos);
    } else {
      AtParts(data, after, Part(style, frames[0]), Parts(style, frames[1..]));
      PartReads(style, data, after, frames[0]);
      var next := after + |Lead(style, |frames[0]|)| + |frames[0]|;
      PartLength(style, frames[0]);
      PartsRead(style, data, next, next + 2, frames[1..]);
      OneMoreFrame(style, data, pos, frames[0], next);
      assert [frames[0]] + frames[1..] == frames;
    }
  }

  lemma OneMoreFrame(style: Style, data: Bytes, pos: nat, frame: Bytes, next: nat)
    requires Fit(style)
    requires pos < next <= |data| && ReadFrame(data, pos, style.boundary) == Frame(frame, next)
    ensures var (frames, end) := AllFrames(data, next, style.boundary);
            AllFrames(data, pos, style.boundary) == ([frame] + frames, end)
  {
    hide ReadFrame;
  }

  lemma NoMoreFrames(style: Style, data: Bytes, pos: nat)
    requires Fit(style)
    requires pos <= |data| && ReadFrame(data, pos, style.boundary) == Eof
    ensures AllFrames(data, pos, style.boundary) == ([], Eof)
  {
    hide ReadFrame;
  }

  lemma EndsThere(style: Style, data: Bytes)
    requires Fit(style)
    ensures ReadFrame(data, |data|, style.boundary) == Eof
  {
  }

  lemma PartLength(style: Style, frame: Bytes)
    ensures |Part(style, frame)| == |Lead(style, |frame|)| + |frame| + 2
  {
    hide Lead;
  }

  /** The only part there is: everything up to the end, its line break too. */
  lemma OneBarePart(style: Style, frame: Bytes)
    requires Fit(style)
    requires Picture(style, frame)
    ensures AllFrames(BarePart(style, frame), 0, style.boundary) == ([frame + CRLF], Eof)
  {
    hide ReadFrame, Picture, Scan, AllFrames, Text, Header;
    var data := BarePart(style, frame);
    var body := |BareLead(style)|;
    BareLaidOut(style, data, 0, frame);
    PictureFits(style, frame);
    BareReads(style, data, 0);
    forall j | body <= j <= |data|
      ensures !At(data, j, Needle(style))
    {
      if j < |data| {
        NoEarlierNeedle(style, data, body, frame, j);
      } else {
        NeedleTexts(style);
      }
    }
    NeedleTexts(style);
    ScanFindsNothing(data, body, 0, Needle(style));
    EndsThere(style, data);
    NoMoreFrames(style, data, |data|);
    OneMoreFrame(style, data, 0, frame + CRLF, |data|);
    assert [frame + CRLF] + [] == [frame + CRLF];
  }

  lemma BareLaidOut(style: Style, data: Bytes, pos: nat, frame: Bytes)
    requires Fit(style)
    requires At(data, pos, BarePart(style, frame))
    ensures At(data, pos, BareLead(style)) && At(data, pos + |BareLead(style)|, frame + CRLF)
    ensures pos + |BarePart(style, frame)| == |data| ==> data[pos + |BareLead(style)|..] == frame + CRLF
  {
    hide At, Text, Header;
    AtParts(data, pos, BareLead(style), frame + CRLF);
    TailIs(data, pos + |BareLead(style)|, frame + CRLF);
  }

  lemma TailIs(data: Bytes, pos: nat, s: Bytes)
    requires At(data, pos, s)
    ensures pos + |s| == |data| ==> data[pos..] == s
  {
  }

  lemma PictureFits(style: Style, frame: Bytes)
    requires Fit(style)
    requires Picture(style, frame)
    ensures frame != [] && frame[0] == 255 && |frame| + 2 + |Needle(style)| <= MAX_FRAME
  {
  }

  /** A second picture is searched for the delimiter as text, which it is not. */
  lemma SecondPictureNotRead(style: Style, data: Bytes, pos: nat, frame: Bytes)
    requires Fit(style)
    requires At(data, pos, BarePart(style, frame)) && Picture(style, frame)
    ensures pos + |Needle(style)| <= |data| && ReadFrame(data, pos + |Needle(style)|, style.boundary) == NotAText
  {
    hide At, Header, SkipToBoundary, Picture, Fit, TypeHeader;
    PictureFits(style, frame);
    BareAt(style, data, pos, frame);
    BreakNoBoundary(style, data, pos + |Needle(style)|);
    var next := pos + |Needle(style)| + 2;
    TypeLineSkipped(style, data, next);
    BreakNoBoundary(style, data, next + |TypeHeader(style)|);
    NotTextHere(style, data, pos + |BareLead(style)|);
  }

  lemma BareAt(style: Style, data: Bytes, pos: nat, frame: Bytes)
    requires At(data, pos, BarePart(style, frame)) && frame != []
    ensures At(data, pos + |Needle(style)|, CRLF)
    ensures At(data, pos + |Needle(style)| + 2, TypeHeader(style))
    ensures At(data, pos + |Needle(style)| + 2 + |TypeHeader(style)|, CRLF)
    ensures pos + |BareLead(style)| < |data| && data[pos + |BareLead(style)|] == frame[0]
  {
    hide At, TypeHeader;
    AtParts(data, pos, BareLead(style), frame + CRLF);
    AtParts(data, pos, Needle(style) + CRLF, TypeHeader(style) + CRLF);
    AtParts(data, pos, Needle(style), CRLF);
    AtParts(data, pos + |Needle(style)| + 2, TypeHeader(style), CRLF);
    AtParts(data, pos + |BareLead(style)|, frame, CRLF);
    AtFirst(data, pos + |BareLead(style)|, frame);
  }

  lemma AtFirst(data: Bytes, pos: nat, s: Bytes)
    requires At(data, pos, s) && s != []
    ensures pos < |data| && data[pos] == s[0]
  {
    assert data[pos..pos + |s|][0] == data[pos];
  }

  lemma TwoBareParts(style: Style, data: Bytes, first: Bytes, second: Bytes)
    requires Fit(style)
    requires Picture(style, first) && Picture(style, second)
    requires At(data, 0, BarePart(style, first) + BarePart(style, second))
    ensures AllFrames(data, 0, style.boundary) == ([TrimBreaks(first)], NotAText)
  {
    hide ReadFrame, Picture, Scan, AllFrames, Text, Header, At, TrimBreaks;
    var body := |BareLead(style)|;
    var next := |BarePart(style, first)|;
    PictureFits(style, first);
    AtParts(data, 0, BarePart(style, first), BarePart(style, second));
    BareLaidOut(style, data, 0, first);
    BareLaidOut(style, data, next, second);
    BareReads(style, data, 0);
    AtParts(data, next, Needle(style) + CRLF, TypeHeader(style) + CRLF);
    AtParts(data, next, Needle(style), CRLF);
    forall j | body <= j < next
      ensures !At(data, j, Needle(style))
    {
      NoEarlierNeedle(style, data, body, first, j);
    }
    NeedleTexts(style);
    ScanStops(data, body, 0, |first| + 2, Needle(style));
    AtSlice(data, body, first + CRLF);
    BreaksTrimmed(first);
    OneMoreFrame(style, data, 0, TrimBreaks(first), next + |Needle(style)|);
    SecondPictureNotRead(style, data, next, second);
    NoneFound(style, data, next + |Needle(style)|);
    assert [TrimBreaks(first)] + [] == [TrimBreaks(first)];
  }

  lemma AtSlice(data: Bytes, pos: nat, s: Bytes)
    requires At(data, pos, s)
    ensures pos + |s| <= |data| && data[pos..pos + |s|] == s
  {
  }

  lemma BreaksTrimmed(s: Bytes)
    ensures TrimBreaks(s + CRLF) == TrimBreaks(s)
  {
    assert (s + CRLF)[..|s| + 1] == s + [RETURN];
    assert (s + [RETURN])[..|s|] == s;
  }

  lemma NoneFound(style: Style, data: Bytes, pos: nat)
    requires Fit(style)
    requires pos <= |data| && !ReadFrame(data, pos, style.boundary).Frame?
    ensures AllFrames(data, pos, style.boundary) == ([], ReadFrame(data, pos, style.boundary))
  {
    hide ReadFrame;
  }

  /** Pictures announced without a length: the scan for the end of one takes the delimiter of
      the next with it, and the next, now searched for a delimiter line as text, ends the stream
      with an error. So all of them are cut out if and only if there is at most one. */
  lemma PicturesWithoutLength(style: Style, frames: seq<Bytes>)
    requires Fit(style)
    requires forall f :: f in frames ==> Picture(style, f)
    ensures AllFrames(BareParts(style, frames), 0, style.boundary)
            == if frames == [] then ([], Eof)
               else if |frames| == 1 then ([frames[0] + CRLF], Eof)
               else ([TrimBreaks(frames[0])], NotAText)
    ensures |AllFrames(BareParts(style, frames), 0, style.boundary).0| == |frames| <==> |frames| <= 1
  {
    hide AllFrames, BarePart, Picture, TrimBreaks;
    if frames == [] {
      EndsThere(style, []);
      NoneFound(style, [], 0);
    } else if |frames| == 1 {
      assert BareParts(style, frames) == BarePart(style, frames[0]);
      OneBarePart(style, frames[0]);
    } else {
      var data := BareParts(style, frames);
      var two := BarePart(style, frames[0]) + BarePart(style, frames[1]);
      assert data == two + BareParts(style, frames[2..]);
      assert data[0..|two|] == two;
      TwoBareParts(style, data, frames[0], frames[1]);
    }
  }

  // ----- Reading back the head -----

  lemma HeadPast(data: Bytes, pos: nat, name: Bytes, value: Bytes, contentType: Option<Bytes>)
    requires Printable(name, value) && At(data, pos, Header(name, value))
    ensures ReadHead(data, pos, contentType)
            == ReadHead(data, pos + |Header(name, value)|,
                        if SameName(name, CONTENT_TYPE) then Some(value) else contentType)
  {
    hide Trim, Split, LineEnd, Header, SameName, Printable;
    HeaderLine(data, pos, name, value);
  }

  /** A boundary as it is announced: with or without quotes, and with or without the dashes of
      its delimiter lines. */
  function Announced(boundary: Bytes, dashes: Bytes, quote: Bytes): Bytes {
    quote + (dashes + boundary) + quote
  }

  predicate IsForm(dashes: Bytes, quote: Bytes) {
    (dashes == [] || dashes == DASHES) && (quote == [] || quote == [QUOTE])
  }

  function StreamType(form: Bytes): Bytes {
    STREAM_TYPE + [SEMICOLON, SPACE] + BOUNDARY_IS + form
  }

  /** However upstreams announce a boundary, it is understood as the boundary itself. */
  lemma EveryFormUnderstood(boundary: Bytes, dashes: Bytes, quote: Bytes)
    requires Announceable(boundary) && IsForm(dashes, quote)
    ensures FindBoundary(StreamType(Announced(boundary, dashes, quote))) == Some(boundary)
  {
    hide FindBoundary, Trim, TrimStartDashes, TrimQuotes, Announced;
    var form := Announced(boundary, dashes, quote);
    var rest := [SPACE] + (BOUNDARY_IS + form);
    assert StreamType(form) == STREAM_TYPE + [SEMICOLON] + rest;
    TypePartPassed(StreamType(form), rest);
    SecondPart(boundary, dashes, quote);
  }

  lemma TypePartPassed(value: Bytes, rest: Bytes)
    requires value == STREAM_TYPE + [SEMICOLON] + rest
    ensures FindBoundary(value) == FindBoundary(rest)
  {
    hide Find, Trim;
    FindAt(value, SEMICOLON, |STREAM_TYPE|);
    assert value[..|STREAM_TYPE|] == STREAM_TYPE;
    assert value[|STREAM_TYPE| + 1..] == rest;
    TrimPadded(STREAM_TYPE);
    assert STREAM_TYPE[0] != BOUNDARY_IS[0];
  }

  lemma SecondPart(boundary: Bytes, dashes: Bytes, quote: Bytes)
    requires Announceable(boundary) && IsForm(dashes, quote)
    ensures FindBoundary([SPACE] + (BOUNDARY_IS + Announced(boundary, dashes, quote))) == Some(boundary)
  {
    hide Find, Trim, TrimStartDashes, TrimQuotes, Text, Announced;
    var form := Announced(boundary, dashes, quote);
    var part := BOUNDARY_IS + form;
    var rest := [SPACE] + part;
    FormEnds(boundary, dashes, quote);
    PartTrimmed(form);
    assert rest[..|rest|] == rest;
    assert part[|BOUNDARY_IS|..] == form;
    Unquoted(boundary, dashes, quote);
    DashesDropped(boundary, dashes);
  }

  lemma FormEnds(boundary: Bytes, dashes: Bytes, quote: Bytes)
    requires Announceable(boundary) && IsForm(dashes, quote)
    ensures var form := Announced(boundary, dashes, quote);
            form != [] && Solid(form[|form| - 1]) && SEMICOLON !in form
  {
    var form := Announced(boundary, dashes, quote);
    assert form[|form| - 1] == if quote == [] then boundary[|boundary| - 1] else QUOTE;
  }

  lemma PartTrimmed(form: Bytes)
    requires form != [] && Solid(form[|form| - 1]) && SEMICOLON !in form
    ensures var part := BOUNDARY_IS + form;
            Find([SPACE] + part, SEMICOLON) == |[SPACE] + part| && Trim([SPACE] + part) == part
  {
    hide Find, Trim, TrimStart, TrimEnd;
    var part := BOUNDARY_IS + form;
    assert part[|part| - 1] == form[|form| - 1];
    FindNone([SPACE] + part, SEMICOLON);
    TrimEndDrops([SPACE] + part, []);
    assert [SPACE] + part + [] == [SPACE] + part;
    TightTrimStart(part);
    TrimIs([SPACE] + part);
  }

  lemma TrimIs(s: Bytes)
    ensures Trim(s) == TrimStart(TrimEnd(s))
  {
  }

  lemma Unquoted(boundary: Bytes, dashes: Bytes, quote: Bytes)
    requires Announceable(boundary) && IsForm(dashes, quote)
    ensures TrimQuotes(Announced(boundary, dashes, quote)) == dashes + boundary
  {
    var inner := dashes + boundary;
    assert inner[|inner| - 1] == boundary[|boundary| - 1];
    assert inner[0] == if dashes == [] then boundary[0] else DASH;
    hide Announceable;
    QuotesDropped(inner, quote);
  }

  lemma QuotesDropped(inner: Bytes, quote: Bytes)
    requires inner != [] && inner[0] != QUOTE && inner[|inner| - 1] != QUOTE && (quote == [] || quote == [QUOTE])
    ensures TrimQuotes(quote + inner + quote) == inner
  {
    if quote == [] {
      assert [] + inner + [] == inner;
    } else {
      assert (quote + inner + quote)[1..] == inner + quote;
      assert (inner + quote)[..|inner|] == inner;
      assert TrimQuotesEnd(inner + quote) == TrimQuotesEnd(inner) == inner;
    }
  }

  lemma DashesDropped(boundary: Bytes, dashes: Bytes)
    requires !(DASHES <= boundary) && (dashes == [] || dashes == DASHES)
    ensures TrimStartDashes(dashes + boundary) == boundary
  {
    if dashes == [] {
      assert dashes + boundary == boundary;
    } else {
      assert (dashes + boundary)[2..] == boundary;
    }
  }

  lemma StatusLinePassed(data: Bytes)
    requires At(data, 0, Text("HTTP/1.1 200 OK") + CRLF)
    ensures ReadHead(data, 0, None) == ReadHead(data, |Text("HTTP/1.1 200 OK") + CRLF|, None)
  {
    hide LineEnd, Trim;
    var line := Text("HTTP/1.1 200 OK");
    LineIs(data, 0, line);
    PlainIsText(line + CRLF);
    NotAllBlank(line + CRLF);
    FindNone(line + CRLF, COLON);
  }

  lemma OriginPrintable()
    ensures Printable(Text("Access-Control-Allow-Origin"), Text("*"))
    ensures !SameName(Text("Access-Control-Allow-Origin"), CONTENT_TYPE)
  {
  }

  lemma CachePrintable()
    ensures Printable(Text("Cache-Control"), Text("no-store"))
    ensures !SameName(Text("Cache-Control"), CONTENT_TYPE)
  {
  }

  lemma ConnectionPrintable()
    ensures Printable(Text("Connection"), Text("close"))
    ensures !SameName(Text("Connection"), CONTENT_TYPE)
  {
  }

  lemma StreamTypeText()
    ensures OneLine(STREAM_TYPE) && STREAM_TYPE != [] && STREAM_TYPE[0] == 109
  {
  }

  lemma BoundaryTexts()
    ensures OneLine(BOUNDARY_IS) && OneLine(BOUNDARY) && BOUNDARY != [] && BOUNDARY[|BOUNDARY| - 1] == 101
  {
  }

  lemma TypeTexts()
    ensures OneLine(STREAM_TYPE) && OneLine(BOUNDARY_IS) && OneLine(BOUNDARY)
    ensures STREAM_TYPE != [] && BOUNDARY != [] && STREAM_TYPE[0] == 109 && BOUNDARY[|BOUNDARY| - 1] == 101
  {
    hide Text, OneLine;
    StreamTypeText();
    BoundaryTexts();
  }

  lemma TypeNamePrintable()
    ensures Printable(Text("Content-Type"), []) && SameName(Text("Content-Type"), CONTENT_TYPE)
  {
  }

  lemma OneLineBoth(a: Bytes, b: Bytes)
    requires OneLine(a) && OneLine(b)
    ensures OneLine(a + b)
  {
  }

  lemma TypePrintable()
    ensures Printable(Text("Content-Type"), DOWNSTREAM_TYPE)
    ensures SameName(Text("Content-Type"), CONTENT_TYPE)
    ensures FindBoundary(DOWNSTREAM_TYPE) == Some(BOUNDARY)
  {
    hide FindBoundary, Text, OneLine, SameName, Announceable;
    TypeNamePrintable();
    TypeTexts();
    TypeOneLine();
    AnnounceableHere();
    EveryFormUnderstood(BOUNDARY, [], []);
    assert StreamType(Announced(BOUNDARY, [], [])) == DOWNSTREAM_TYPE by {
      assert [] + ([] + BOUNDARY) + [] == BOUNDARY;
    }
    assert DOWNSTREAM_TYPE[0] == STREAM_TYPE[0];
    assert DOWNSTREAM_TYPE[|DOWNSTREAM_TYPE| - 1] == BOUNDARY[|BOUNDARY| - 1];
    assert Plain(DOWNSTREAM_TYPE) && NEWLINE !in DOWNSTREAM_TYPE by {
      OneLineIs(DOWNSTREAM_TYPE);
    }
  }

  lemma OneLineIs(s: Bytes)
    requires OneLine(s)
    ensures Plain(s) && NEWLINE !in s
  {
  }

  lemma TypeOneLine()
    ensures OneLine(DOWNSTREAM_TYPE)
  {
    hide OneLine, Text;
    TypeTexts();
    var separator: Bytes := [SEMICOLON, SPACE];
    SeparatorOneLine();
    OneLineBoth(STREAM_TYPE, separator);
    OneLineBoth(STREAM_TYPE + separator, BOUNDARY_IS);
    OneLineBoth(STREAM_TYPE + separator + BOUNDARY_IS, BOUNDARY);
  }

  lemma SeparatorOneLine()
    ensures OneLine([SEMICOLON, SPACE])
  {
  }

  lemma AnnounceableHere()
    ensures Announceable(BOUNDARY)
  {
  }

  lemma HeadLaidOut(data: Bytes, status: Bytes, origin: Bytes, kind: Bytes, cache: Bytes, connection: Bytes)
    requires At(data, 0, status + (origin + (kind + (cache + (connection + CRLF)))))
    ensures At(data, 0, status) && At(data, |status|, origin) && At(data, |status| + |origin|, kind)
    ensures At(data, |status| + |origin| + |kind|, cache)
    ensures At(data, |status| + |origin| + |kind| + |cache|, connection)
    ensures At(data, |status| + |origin| + |kind| + |cache| + |connection|, CRLF)
  {
    hide At;
    AtParts(data, 0, status, origin + (kind + (cache + (connection + CRLF))));
    AtParts(data, |status|, origin, kind + (cache + (connection + CRLF)));
    AtParts(data, |status| + |origin|, kind, cache + (connection + CRLF));
    AtParts(data, |status| + |origin| + |kind|, cache, connection + CRLF);
    AtParts(data, |status| + |origin| + |kind| + |cache|, connection, CRLF);
  }

  /** The written head is read back as far as the first part, and names the boundary. */
  lemma HeadReads(data: Bytes)
    requires At(data, 0, Head())
    ensures ReadHead(data, 0, None) == Boundary(BOUNDARY, |Head()|)
  {
    hide At, SameName, Header, Text, Printable, ReadHead, FindBoundary, Trim, LineEnd;
    var status := Text("HTTP/1.1 200 OK") + CRLF;
    var origin := Header(Text("Access-Control-Allow-Origin"), Text("*"));
    var kind := Header(Text("Content-Type"), DOWNSTREAM_TYPE);
    var cache := Header(Text("Cache-Control"), Text("no-store"));
    var connection := Header(Text("Connection"), Text("close"));
    HeadLaidOut(data, status, origin, kind, cache, connection);
    StatusLinePassed(data);
    var p1 := |status|;
    var p2 := p1 + |origin|;
    var p3 := p2 + |kind|;
    var p4 := p3 + |cache|;
    OriginPrintable();
    HeadPast(data, p1, Text("Access-Control-Allow-Origin"), Text("*"), None);
    TypePrintable();
    HeadPast(data, p2, Text("Content-Type"), DOWNSTREAM_TYPE, None);
    CachePrintable();
    HeadPast(data, p3, Text("Cache-Control"), Text("no-store"), Some(DOWNSTREAM_TYPE));
    ConnectionPrintable();
    HeadPast(data, p4, Text("Connection"), Text("close"), Some(DOWNSTREAM_TYPE));
    HeadEndsWith(data, p4 + |connection|, DOWNSTREAM_TYPE, BOUNDARY);
  }

  lemma HeadEndsWith(data: Bytes, pos: nat, value: Bytes, boundary: Bytes)
    requires At(data, pos, CRLF) && FindBoundary(value) == Some(boundary)
    ensures ReadHead(data, pos, Some(value)) == Boundary(boundary, pos + 2)
  {
    hide LineEnd, Trim, FindBoundary;
    EmptyLine(data, pos);
  }

  function Downstream(frames: seq<Bytes>): Bytes {
    Head() + Parts(OURS, frames)
  }

  lemma DownstreamHead(frames: seq<Bytes>)
    ensures |Head()| <= |Downstream(frames)|
  {
    hide Head, Parts;
  }

  lemma OursFit()
    ensures Fit(OURS)
  {
    hide Text, OneLine, SameName;
    AnnounceableHere();
    TypeTexts();
    NamesSpelled();
    BoundaryEnds();
  }

  lemma NamesSpelled()
    ensures SameName(Text("Content-Type"), CONTENT_TYPE) && SameName(Text("Content-Length"), CONTENT_LENGTH)
  {
  }

  lemma BoundaryEnds()
    ensures RETURN !in BOUNDARY && !EndsWith(BOUNDARY, DASHES)
  {
    assert BOUNDARY[|BOUNDARY| - 1] == 101;
  }

  // ----- The streams of others -----

  /** The head of a stream as device agents send it. */
  function UpstreamHead(style: Style, dashes: Bytes, quote: Bytes): Bytes {
    Text("HTTP/1.0 200 OK") + CRLF
    + (Header(style.typeName, StreamType(Announced(style.boundary, dashes, quote))) + CRLF)
  }

  lemma UpstreamStatus(data: Bytes)
    requires At(data, 0, Text("HTTP/1.0 200 OK") + CRLF)
    ensures ReadHead(data, 0, None) == ReadHead(data, |Text("HTTP/1.0 200 OK") + CRLF|, None)
  {
    hide LineEnd, Trim;
    var line := Text("HTTP/1.0 200 OK");
    LineIs(data, 0, line);
    PlainIsText(line + CRLF);
    NotAllBlank(line + CRLF);
    FindNone(line + CRLF, COLON);
  }

  lemma FormOneLine(boundary: Bytes, dashes: Bytes, quote: Bytes)
    requires OneLine(boundary) && IsForm(dashes, quote)
    ensures OneLine(Announced(boundary, dashes, quote))
  {
    DashesOneLine();
  }

  lemma UpstreamTypePrintable(style: Style, dashes: Bytes, quote: Bytes)
    requires Fit(style) && IsForm(dashes, quote)
    ensures Printable(style.typeName, StreamType(Announced(style.boundary, dashes, quote)))
  {
    hide FindBoundary, Text, SameName, Printable, Announced;
    var separator: Bytes := [SEMICOLON, SPACE];
    var form := Announced(style.boundary, dashes, quote);
    var value := StreamType(form);
    TypeTexts();
    SeparatorOneLine();
    FormOneLine(style.boundary, dashes, quote);
    FormEnds(style.boundary, dashes, quote);
    OneLineBoth(STREAM_TYPE, separator);
    OneLineBoth(STREAM_TYPE + separator, BOUNDARY_IS);
    OneLineBoth(STREAM_TYPE + separator + BOUNDARY_IS, form);
    assert value[0] == STREAM_TYPE[0] && value[|value| - 1] == form[|form| - 1];
    NamesAreLetters();
    SpellingPrintable(style.typeName, CONTENT_TYPE, value);
  }

  /** The stream of any sender that can be understood, with its boundary announced in any form,
      is read as that boundary, exactly the frames sent, and the regular end. */
  lemma UpstreamsAreUnderstood(style: Style, dashes: Bytes, quote: Bytes, frames: seq<Bytes>)
    requires Fit(style) && IsForm(dashes, quote)
    requires forall f :: f in frames ==> |f| <= MAX_FRAME
    ensures var head := UpstreamHead(style, dashes, quote);
            var data := head + Parts(style, frames);
            && ReadHead(data, 0, None) == Boundary(style.boundary, |head|)
            && AllFrames(data, |head|, style.boundary) == (frames, Eof)
  {
    hide Parts, AllFrames, ReadHead, Fit, At, Header, Text, SameName, FindBoundary, Announced, StreamType, IsForm;
    var value := StreamType(Announced(style.boundary, dashes, quote));
    var status, kind := Text("HTTP/1.0 200 OK") + CRLF, Header(style.typeName, value);
    var head := UpstreamHead(style, dashes, quote);
    var data := head + Parts(style, frames);
    WholeAt(data);
    AtParts(data, 0, head, Parts(style, frames));
    PartsRead(style, data, |head|, |head|, frames);
    AtParts(data, 0, status, kind + CRLF);
    AtParts(data, |status|, kind, CRLF);
    UpstreamStatus(data);
    UpstreamTypePrintable(style, dashes, quote);
    HeadPast(data, |status|, style.typeName, value, None);
    FitName(style);
    EveryFormUnderstood(style.boundary, dashes, quote);
    HeadEndsWith(data, |status| + |kind|, value, style.boundary);
  }

  lemma FitName(style: Style)
    requires Fit(style)
    ensures SameName(style.typeName, CONTENT_TYPE) && Announceable(style.boundary)
  {
  }

  lemma WholeAt(data: Bytes)
    ensures At(data, 0, data)
  {
    assert data[0..|data|] == data;
  }

  /** Cut anywhere, exactly the frames whose octets arrived are read. */
  lemma UpstreamsCutAnywhere(style: Style, frames: seq<Bytes>, n: nat)
    requires Fit(style) && n < |Parts(style, frames)|
    requires forall f :: f in frames ==> |f| <= MAX_FRAME
    ensures GotPrefix(style, AllFrames(Parts(style, frames)[..n], 0, style.boundary), frames, n)
  {
    hide Parts, AllFrames, Fit;
    var data := Parts(style, frames)[..n];
    assert data[0..] == data;
    PartsCut(style, data, 0, frames);
  }

  /** What is written for any frames within the limit, whatever octets they hold, is read
      back as exactly these frames, and then the regular end. */
  lemma RoundTrip(frames: seq<Bytes>)
    requires forall f :: f in frames ==> |f| <= MAX_FRAME
    ensures ReadHead(Downstream(frames), 0, None) == Boundary(BOUNDARY, |Head()|)
    ensures AllFrames(Downstream(frames), |Head()|, BOUNDARY) == (frames, Eof)
  {
    hide Head, Parts, AllFrames, ReadHead, Fit;
    OursFit();
    var data := Downstream(frames);
    assert data[0..|data|] == data;
    AtParts(data, 0, Head(), Parts(OURS, frames));
    HeadReads(data);
    PartsRead(OURS, data, |Head()|, |Head()|, frames);
  }

  // ----- A connection cut off anywhere -----

  /** What is left of the stream from `pos` on is the beginning of `s`, and not all of it. */
  predicate CutOff(data: Bytes, pos: nat, s: Bytes) {
    pos <= |data| && |data| - pos < |s| && data[pos..] == s[..|data| - pos]
  }

  lemma CutOffInFirst(data: Bytes, pos: nat, first: Bytes, second: Bytes)
    requires CutOff(data, pos, first + second) && |data| - pos < |first|
    ensures CutOff(data, pos, first)
  {
    var m := |data| - pos;
    assert (first + second)[..m] == first[..m];
  }

  lemma CutOffInSecond(data: Bytes, pos: nat, first: Bytes, second: Bytes)
    requires CutOff(data, pos, first + second) && |first| <= |data| - pos
    ensures At(data, pos, first) && CutOff(data, pos + |first|, second)
  {
    var m := |data| - pos;
    assert (first + second)[..m][..|first|] == first;
    assert data[pos..][..|first|] == data[pos..pos + |first|];
    assert (first + second)[..m][|first|..] == second[..m - |first|];
    assert data[pos..][|first|..] == data[pos + |first|..];
  }

  /** The last line of a cut stream. */
  lemma CutLine(data: Bytes, pos: nat, line: Bytes)
    requires CutOff(data, pos, line + CRLF) && OneLine(line)
    ensures LineEnd(data, pos) == |data| && IsText(data[pos..])
    ensures pos < |data| && line != [] ==> data[pos..][0] == line[0]
  {
    hide LineEnd;
    var whole := line + CRLF;
    forall j | pos <= j < |data|
      ensures data[j] != NEWLINE && data[j] < 128 && data[j] == whole[j - pos]
    {
      assert data[j] == data[pos..][j - pos] == whole[j - pos];
      assert j - pos < |line| ==> whole[j - pos] == line[j - pos];
    }
    LineEndsWithStream(data, pos);
    PlainIsText(data[pos..]);
  }

  lemma CutHeader(data: Bytes, pos: nat, name: Bytes, value: Bytes, length: Option<nat>)
    requires Printable(name, value) && CutOff(data, pos, Header(name, value))
    ensures ReadHeaders(data, pos, length) == Cut
  {
    hide Trim, LineEnd, Noted;
    var line := name + [COLON] + ([SPACE] + value);
    assert Header(name, value) == line + CRLF;
    CutLine(data, pos, line);
    if pos < |data| {
      NotAllBlank(data[pos..]);
      assert data[pos..|data|] == data[pos..];
    }
  }

  /** Nothing is made of the last line of a cut stream. */
  lemma LastLine(style: Style, data: Bytes, pos: nat)
    requires Fit(style)
    requires pos <= |data| && LineEnd(data, pos) == |data| && IsText(data[pos..])
    ensures ReadFrame(data, pos, style.boundary) == Eof
  {
    hide IsBoundary, LineEnd;
    assert data[pos..|data|] == data[pos..];
    assert SkipToBoundary(data, |data|, style.boundary) == Ended;
    assert ReadHeaders(data, |data|, None) == Cut;
  }

  lemma CutBoundary(style: Style, data: Bytes, pos: nat)
    requires Fit(style)
    requires CutOff(data, pos, DASHES + style.boundary + CRLF)
    ensures ReadFrame(data, pos, style.boundary) == Eof
  {
    hide Text, OneLine, ReadFrame, LineEnd;
    TypeTexts();
    DashesOneLine();
    OneLineBoth(DASHES, style.boundary);
    CutLine(data, pos, DASHES + style.boundary);
    LastLine(style, data, pos);
  }

  lemma DashesOneLine()
    ensures OneLine(DASHES)
  {
  }

  lemma CutHeaders(style: Style, data: Bytes, pos: nat, n: nat)
    requires Fit(style)
    requires n <= MAX_FRAME
    requires CutOff(data, pos, TypeHeader(style)
                               + (LengthHeader(style, n) + CRLF))
    ensures ReadHeaders(data, pos, None)
            == if |data| - pos == |TypeHeader(style)
                                   + (LengthHeader(style, n) + CRLF)| - 1
               then Headers(|data|, Some(n)) else Cut
  {
    hide At, CutOff, Decimal, ParseWord, SameName, Header, Text, Printable, ReadHeaders;
    var kind := TypeHeader(style);
    var length := LengthHeader(style, n);
    TypeHeaderPrintable(style);
    LengthHeaderPrintable(style, n);
    if |data| - pos < |kind| {
      CutOffInFirst(data, pos, kind, length + CRLF);
      CutHeader(data, pos, style.typeName, JPEG, None);
    } else {
      CutOffInSecond(data, pos, kind, length + CRLF);
      HeadersPast(data, pos, style.typeName, JPEG, None);
      var next := pos + |kind|;
      if |data| - next < |length| {
        CutOffInFirst(data, next, length, CRLF);
        CutHeader(data, next, style.lengthName, Decimal(n), None);
      } else {
        CutOffInSecond(data, next, length, CRLF);
        HeadersPast(data, next, style.lengthName, Decimal(n), None);
        CutEmptyLine(data, next + |length|, Some(n));
      }
    }
  }

  lemma CutEmptyLine(data: Bytes, pos: nat, length: Option<nat>)
    requires CutOff(data, pos, CRLF)
    ensures ReadHeaders(data, pos, length) == if |data| == pos then Cut else Headers(|data|, length)
  {
    hide LineEnd, Noted;
    assert CRLF == [] + CRLF;
    CutLine(data, pos, []);
    assert data[pos..|data|] == data[pos..];
    if pos < |data| {
      assert data[pos..] == [RETURN];
      assert TrimEnd([RETURN]) == [] by {
        TrimEndDrops([], [RETURN]);
        assert [] + [RETURN] == [RETURN];
      }
    }
  }

  /** A part that is cut off gives no frame; or, if the frame is empty and only the last octet
      of the headers is missing, that empty frame. */
  lemma CutPart(style: Style, data: Bytes, pos: nat, frame: Bytes)
    requires Fit(style)
    requires |frame| <= MAX_FRAME && CutOff(data, pos, Lead(style, |frame|) + frame)
    ensures ReadFrame(data, pos, style.boundary)
            == if frame == [] && |data| - pos == |Lead(style, 0)| - 1 then Frame([], |data|) else Eof
  {
    hide At, CutOff, Decimal, Header, Text, SkipToBoundary, ReadHeaders;
    var mark := DASHES + style.boundary + CRLF;
    var lead := Lead(style, |frame|);
    var headers := TypeHeader(style)
                   + (LengthHeader(style, |frame|) + CRLF);
    assert lead == mark + headers;
    assert pos <= |data| by {
      CutOffBounds(data, pos, lead + frame);
    }
    if |data| - pos < |lead| {
      CutOffInFirst(data, pos, lead, frame);
      if |data| - pos < |mark| {
        CutOffInFirst(data, pos, mark, headers);
        CutBoundary(style, data, pos);
      } else {
        CutOffInSecond(data, pos, mark, headers);
        BoundaryLine(style, data, pos);
        CutHeaders(style, data, pos + |mark|, |frame|);
        assert data[|data|..|data|] == [];
      }
    } else {
      CutOffInSecond(data, pos, lead, frame);
      LeadReads(style, data, pos, |frame|);
      CutOffBounds(data, pos + |lead|, frame);
    }
  }

  lemma CutOffBounds(data: Bytes, pos: nat, s: Bytes)
    requires CutOff(data, pos, s)
    ensures pos <= |data| && |data| - pos < |s|
  {
  }

  /** After a frame: the stream ends before the next line does. */
  lemma CutBreak(style: Style, data: Bytes, pos: nat)
    requires Fit(style)
    requires CutOff(data, pos, CRLF)
    ensures ReadFrame(data, pos, style.boundary) == Eof
  {
    hide LineEnd, ReadFrame;
    assert CRLF == [] + CRLF;
    CutLine(data, pos, []);
    LastLine(style, data, pos);
  }

  lemma PartsOf(style: Style, frames: seq<Bytes>)
    requires Fit(style)
    requires frames != []
    ensures Parts(style, frames) == (Lead(style, |frames[0]|) + frames[0]) + (CRLF + Parts(style, frames[1..]))
  {
    hide Lead;
    assert (Lead(style, |frames[0]|) + frames[0]) + (CRLF + Parts(style, frames[1..]))
        == Lead(style, |frames[0]|) + (frames[0] + CRLF) + Parts(style, frames[1..]);
  }

  /** How many frames can be read from the first `n` octets: a frame counts as soon as its own
      octets are there; an empty one, even if the last octet of its headers is missing. */
  function Readable(style: Style, frames: seq<Bytes>, n: nat): nat
    decreases |frames|
  {
    if frames == [] then 0
    else
      var whole := |Lead(style, |frames[0]|)| + |frames[0]|;
      if n + 2 <= whole || (n + 1 == whole && frames[0] != []) then 0
      else if n < whole + 2 then 1
      else 1 + Readable(style, frames[1..], n - whole - 2)
  }

  /** A result on a cut stream: exactly the readable frames, and then the regular end. */
  predicate GotPrefix(style: Style, got: (seq<Bytes>, FrameResult), frames: seq<Bytes>, n: nat) {
    got.1 == Eof && Readable(style, frames, n) <= |frames| && got.0 == frames[..Readable(style, frames, n)]
  }

  lemma CutInFrame(style: Style, data: Bytes, after: nat, frames: seq<Bytes>)
    requires Fit(style)
    requires frames != [] && |frames[0]| <= MAX_FRAME
    requires CutOff(data, after, Lead(style, |frames[0]|) + frames[0])
    ensures GotPrefix(style, AllFrames(data, after, style.boundary), frames, |data| - after)
  {
    hide ReadFrame, Lead;
    CutPart(style, data, after, frames[0]);
    PartLength(style, frames[0]);
    EndsThere(style, data);
    assert AllFrames(data, |data|, style.boundary) == ([], Eof);
  }

  lemma CutInBreak(style: Style, data: Bytes, after: nat, frames: seq<Bytes>)
    requires Fit(style)
    requires frames != [] && |frames[0]| <= MAX_FRAME
    requires At(data, after, Lead(style, |frames[0]|) + frames[0])
    requires CutOff(data, after + |Lead(style, |frames[0]|) + frames[0]|, CRLF)
    ensures GotPrefix(style, AllFrames(data, after, style.boundary), frames, |data| - after)
  {
    hide ReadFrame, Lead;
    BodyReads(style, data, after, frames[0]);
    var next := after + |Lead(style, |frames[0]|) + frames[0]|;
    CutBreak(style, data, next);
    PartLength(style, frames[0]);
    assert AllFrames(data, next, style.boundary) == ([], Eof);
  }

  lemma PastBreak(style: Style, data: Bytes, after: nat, frames: seq<Bytes>)
    requires Fit(style)
    requires frames != [] && |frames[0]| <= MAX_FRAME
    requires At(data, after, Part(style, frames[0]))
    requires GotPrefix(style, AllFrames(data, after + |Part(style, frames[0])|, style.boundary), frames[1..],
                       |data| - after - |Part(style, frames[0])|)
    ensures GotPrefix(style, AllFrames(data, after, style.boundary), frames, |data| - after)
  {
    hide ReadFrame, Lead, Part;
    PartReads(style, data, after, frames[0]);
    PartLength(style, frames[0]);
    var next := after + |Lead(style, |frames[0]|)| + |frames[0]|;
    BreakSkipped(style, data, next);
    assert AllFrames(data, next, style.boundary) == AllFrames(data, next + 2, style.boundary);
  }

  lemma {:induction false} PartsCut(style: Style, data: Bytes, after: nat, frames: seq<Bytes>)
    requires Fit(style)
    requires CutOff(data, after, Parts(style, frames))
    requires forall f :: f in frames ==> |f| <= MAX_FRAME
    ensures GotPrefix(style, AllFrames(data, after, style.boundary), frames, |data| - after)
    decreases |frames|
  {
    hide AllFrames, Lead, CutOff, At, Part, GotPrefix, Parts;
    CutOffBounds(data, after, Parts(style, frames));
    if frames == [] {
      assert Parts(style, []) == [] by {
        NoParts(style);
      }
    } else {
      var body := Lead(style, |frames[0]|) + frames[0];
      PartsOf(style, frames);
      if |data| - after < |body| {
        CutOffInFirst(data, after, body, CRLF + Parts(style, frames[1..]));
        CutInFrame(style, data, after, frames);
      } else {
        CutOffInSecond(data, after, body, CRLF + Parts(style, frames[1..]));
        var next := after + |body|;
        if |data| - next < 2 {
          CutOffInFirst(data, next, CRLF, Parts(style, frames[1..]));
          CutInBreak(style, data, after, frames);
        } else {
          CutOffInSecond(data, next, CRLF, Parts(style, frames[1..]));
          PartsCut(style, data, next + 2, frames[1..]);
          PartLength(style, frames[0]);
          WholePart(style, data, after, frames[0]);
          PastBreak(style, data, after, frames);
        }
      }
    }
  }

  lemma NoParts(style: Style)
    requires Fit(style)
    ensures Parts(style, []) == []
  {
  }

  lemma WholePart(style: Style, data: Bytes, pos: nat, frame: Bytes)
    requires Fit(style)
    requires At(data, pos, Lead(style, |frame|) + frame) && At(data, pos + |Lead(style, |frame|) + frame|, CRLF)
    ensures At(data, pos, Part(style, frame))
  {
    hide Lead;
    var body := Lead(style, |frame|) + frame;
    var end := pos + |body|;
    assert Part(style, frame) == body + CRLF;
    assert data[pos..end + 2] == data[pos..end] + data[end..end + 2];
  }

  lemma {:induction false} AllReadable(style: Style, frames: seq<Bytes>)
    ensures Readable(style, frames, |Parts(style, frames)|) == |frames|
  {
    hide Lead, Part;
    if frames != [] {
      PartLength(style, frames[0]);
      AllReadable(style, frames[1..]);
    }
  }

  /** What a connection that takes `room` octets and then breaks is sent of a stream. */
  function Taken(stream: Bytes, room: nat): Bytes {
    if room < |stream| then stream[..room] else stream
  }

  /** Wherever the connection breaks after the head, the reader gets exactly the frames whose
      octets arrived, in order, and then the regular end: never a part of a frame. */
  lemma CutAnywhere(frames: seq<Bytes>, room: nat)
    requires forall f :: f in frames ==> |f| <= MAX_FRAME
    requires |Head()| <= room
    ensures var data := Taken(Downstream(frames), room);
            GotPrefix(OURS, AllFrames(data, |Head()|, BOUNDARY), frames, |data| - |Head()|)
  {
    hide Head, Parts, AllFrames, Fit, Readable;
    OursFit();
    var data := Taken(Downstream(frames), room);
    if room < |Downstream(frames)| {
      assert data[|Head()|..] == Parts(OURS, frames)[..room - |Head()|];
      PartsCut(OURS, data, |Head()|, frames);
    } else {
      RoundTrip(frames);
      AllReadable(OURS, frames);
    }
  }

  // ----- The reader and the writer -----

  lemma ScanEnd(data: Bytes, pos: nat, needle: Bytes)
    requires pos <= |data|
    ensures Scan(data, pos, |data| - pos, needle) == if pos == |data| then Eof else Frame(data[pos..], |data|)
  {
  }

  method WithoutBreaks(part: Bytes) returns (frame: Bytes)
    ensures frame == TrimBreaks(part)
  {
    frame := part;
    while frame != [] && (frame[|frame| - 1] == RETURN || frame[|frame| - 1] == NEWLINE)
      invariant TrimBreaks(frame) == TrimBreaks(part)
    {
      frame := frame[..|frame| - 1];
    }
  }

  /** A buffered reader: everything the other side will ever send, and how far it has been read. */
  class Incoming {
    const data: Bytes
    var pos: nat

    constructor (data: Bytes)
      ensures this.data == data && pos == 0
    {
      this.data, pos := data, 0;
    }

    method ReadLine() returns (line: Option<Bytes>)
      requires pos <= |data|
      modifies this
      ensures pos == LineEnd(data, old(pos))
      ensures line == if old(pos) == |data| then None else Some(data[old(pos)..pos])
    {
      var start := pos;
      while pos < |data| && data[pos] != NEWLINE
        invariant start <= pos <= |data| && LineEnd(data, pos) == LineEnd(data, start)
      {
        pos := pos + 1;
      }
      if pos < |data| {
        pos := pos + 1;
      }
      line := if start == |data| then None else Some(data[start..pos]);
    }

    /** Up to and including the next boundary line. */
    method FindPart(boundary: Bytes) returns (r: Progress)
      requires pos <= |data|
      modifies this
      ensures pos <= |data| && r == SkipToBoundary(data, old(pos), boundary)
      ensures r.Reached? ==> pos == r.pos
    {
      hide LineEnd, IsBoundary, IsText;
      ghost var start := pos;
      while true
        invariant pos <= |data| && SkipToBoundary(data, pos, boundary) == SkipToBoundary(data, start, boundary)
        decreases |data| - pos
      {
        var line := ReadLine();
        if line == None {
          return Ended;
        }
        if !IsText(line.value) {
          return NotText;
        }
        if IsBoundary(line.value, boundary) {
          return Reached(pos);
        }
      }
    }

    method ReadPartHeaders() returns (r: Headers)
      requires pos <= |data|
      modifies this
      ensures pos <= |data| && r == ReadHeaders(data, old(pos), None)
      ensures r.Headers? ==> pos == r.pos
    {
      hide LineEnd, Trim, Split, SameName, ParseWord, IsText;
      ghost var start := pos;
      var length: Option<nat> := None;
      while true
        invariant pos <= |data| && ReadHeaders(data, pos, length) == ReadHeaders(data, start, None)
        decreases |data| - pos
      {
        var line := ReadLine();
        if line == None {
          return Cut;
        }
        if !IsText(line.value) {
          return HeadersNotText;
        }
        if Trim(line.value) == [] {
          return Headers(pos, length);
        }
        var header := Split(line.value);
        if header != None && SameName(header.value.0, CONTENT_LENGTH) {
          length := ParseWord(header.value.1);
        }
      }
    }

    /** `read_frame`. */
    method NextFrame(boundary: Bytes) returns (r: FrameResult)
      requires pos <= |data|
      modifies this
      ensures pos <= |data| && r == ReadFrame(data, old(pos), boundary)
      ensures r.Frame? ==> pos == r.pos
    {
      hide SkipToBoundary, ReadHeaders;
      var part := FindPart(boundary);
      if part.Ended? {
        return Eof;
      }
      if part.NotText? {
        return NotAText;
      }
      var headers := ReadPartHeaders();
      if headers.Cut? {
        return Eof;
      }
      if headers.HeadersNotText? {
        return NotAText;
      }
      if headers.length == None {
        r := ScanToBoundary(DASHES + boundary);
        return;
      }
      var length := headers.length.value;
      if length > MAX_FRAME {
        return TooLong(length);
      }
      if |data| - pos < length {
        pos := |data|;
        return Eof;
      }
      r := Frame(data[pos..pos + length], pos + length);
      pos := pos + length;
    }

    /** `scan_to_boundary`, one octet at a time. */
    method ScanToBoundary(needle: Bytes) returns (r: FrameResult)
      requires pos <= |data|
      modifies this
      ensures pos <= |data| && r == Scan(data, old(pos), 0, needle)
      ensures r.Frame? ==> pos == r.pos
    {
      hide TrimBreaks, EndsWith, Scan;
      ghost var start := pos;
      var frame: Bytes := [];
      while pos < |data|
        invariant start <= pos <= |data| && frame == data[start..pos]
        invariant Scan(data, start, 0, needle) == Scan(data, start, pos - start, needle)
      {
        frame := frame + [data[pos]];
        pos := pos + 1;
        ScanStep(data, start, frame, needle);
        if |frame| > MAX_FRAME {
          return NoBoundaryInSight;
        }
        if EndsWith(frame, needle) {
          frame := WithoutBreaks(frame[..|frame| - |needle|]);
          return Frame(frame, pos);
        }
      }
      ScanEnd(data, start, needle);
      return if frame == [] then Eof else Frame(frame, pos);
    }

    /** `read_upstream_boundary`. */
    method ReadUpstreamBoundary() returns (r: HeadResult)
      requires pos <= |data|
      modifies this
      ensures pos <= |data| && r == ReadHead(data, old(pos), None)
      ensures r.Boundary? ==> pos == r.pos
    {
      hide LineEnd, Trim, Split, SameName, IsText, FindBoundary;
      ghost var start := pos;
      var contentType: Option<Bytes> := None;
      while true
        invariant pos <= |data| && ReadHead(data, pos, contentType) == ReadHead(data, start, None)
        decreases |data| - pos
      {
        var line := ReadLine();
        if line == None {
          return HeadCut;
        }
        if !IsText(line.value) {
          return HeadNotText;
        }
        if Trim(line.value) == [] {
          break;
        }
        var header := Split(line.value);
        if header != None && SameName(header.value.0, CONTENT_TYPE) {
          contentType := Some(header.value.1);
        }
      }
      if contentType == None {
        return NoContentType;
      }
      var boundary := FindBoundary(contentType.value);
      r := if boundary == None then NoBoundary else Boundary(boundary.value, pos);
    }
  }

  /** Whether the lines from `pos` on end in a blank one, all of them text. */
  predicate RequestEnds(data: Bytes, pos: nat)
    requires pos <= |data|
    decreases |data| - pos
  {
    var end := LineEnd(data, pos);
    && pos < |data| && IsText(data[pos..end])
    && (Trim(data[pos..end]) == [] || RequestEnds(data, end))
  }

  /** The sending half of a viewer's connection, which takes `room` octets before it breaks. */
  class Outgoing {
    const room: nat
    var sent: Bytes

    constructor (room: nat)
      ensures this.room == room && sent == []
    {
      this.room, sent := room, [];
    }

    /** `write_all`: on a failure, some of it may have been sent. */
    method WriteAll(s: Bytes) returns (ok: bool)
      requires |sent| <= room
      modifies this
      ensures sent == Taken(old(sent) + s, room) && |sent| <= room && ok == (|old(sent) + s| <= room)
    {
      ok := |sent| + |s| <= room;
      sent := if ok then sent + s else (sent + s)[..room];
    }
  }

  lemma StillTaken(before: Bytes, more: Bytes, room: nat)
    ensures room <= |before| ==> Taken(before + more, room) == Taken(before, room)
  {
    if room <= |before| {
      assert (before + more)[..room] == before[..room];
    }
  }

  lemma TakenWhole(s: Bytes, room: nat)
    ensures |s| <= room ==> Taken(s, room) == s
  {
  }

  method WritePart(viewer: Outgoing, frame: Bytes) returns (ok: bool)
    requires |viewer.sent| <= viewer.room
    modifies viewer
    ensures viewer.sent == Taken(old(viewer.sent) + Part(OURS, frame), viewer.room)
    ensures |viewer.sent| <= viewer.room && ok == (|old(viewer.sent)| + |Part(OURS, frame)| <= viewer.room)
  {
    hide Lead, Taken;
    ghost var before, room := viewer.sent, viewer.room;
    var lead := Lead(OURS, |frame|);
    PartLength(OURS, frame);
    assert before + Part(OURS, frame) == before + lead + frame + CRLF;
    StillTaken(before + lead, frame + CRLF, room);
    assert before + lead + (frame + CRLF) == before + Part(OURS, frame);
    StillTaken(before + lead + frame, CRLF, room);
    TakenWhole(before + lead, room);
    TakenWhole(before + lead + frame, room);
    ok := viewer.WriteAll(lead);
    if ok {
      ok := viewer.WriteAll(frame);
    }
    if ok {
      ok := viewer.WriteAll(CRLF);
    }
  }

  /** `write_downstream`: nothing before the request is read to its blank line; then the head
      and the frames the slot gives, until a write fails. */
  method WriteDownstream(request: Incoming, viewer: Outgoing, frames: seq<Bytes>)
    requires request.pos <= |request.data| && viewer.sent == []
    modifies request, viewer
    ensures viewer.sent
            == if RequestEnds(request.data, old(request.pos)) then Taken(Downstream(frames), viewer.room) else []
  {
    hide Head, Lead, LineEnd, IsText, Trim, Taken;
    ghost var start := request.pos;
    while true
      invariant request.pos <= |request.data| && viewer.sent == []
      invariant RequestEnds(request.data, request.pos) == RequestEnds(request.data, start)
      decreases |request.data| - request.pos
    {
      var line := request.ReadLine();
      if line == None || !IsText(line.value) {
        return;
      }
      if Trim(line.value) == [] {
        break;
      }
    }
    var ok := viewer.WriteAll(Head());
    assert Head() + Parts(OURS, frames) == Downstream(frames);
    assert [] + Head() == Head();
    StillTaken(Head(), Parts(OURS, frames), viewer.room);
    TakenWhole(Head(), viewer.room);
    if !ok {
      return;
    }
    for i := 0 to |frames|
      invariant viewer.sent + Parts(OURS, frames[i..]) == Downstream(frames) && |viewer.sent| <= viewer.room
    {
      ghost var before := viewer.sent;
      ok := WritePart(viewer, frames[i]);
      assert frames[i..][1..] == frames[i + 1..];
      assert before + Part(OURS, frames[i]) + Parts(OURS, frames[i + 1..]) == Downstream(frames);
      StillTaken(before + Part(OURS, frames[i]), Parts(OURS, frames[i + 1..]), viewer.room);
      TakenWhole(before + Part(OURS, frames[i]), viewer.room);
      if !ok {
        return;
      }
    }
    TakenWhole(Downstream(frames), viewer.room);
  }

  // ----- Together with the slot -----

  function Frames(got: seq<FrameSlot.Delivery>): seq<Bytes> {
    seq(|got|, i requires 0 <= i < |got| => got[i].frame)
  }

  lemma FramesPublished(got: seq<FrameSlot.Delivery>, published: seq<Bytes>)
    requires forall i :: 0 <= i < |got| ==>
                         1 <= got[i].number <= |published| && got[i].frame == published[got[i].number - 1]
    ensures |Frames(got)| == |got|
    ensures forall i :: 0 <= i < |got| ==> Frames(got)[i] == published[got[i].number - 1]
    ensures (forall f :: f in published ==> |f| <= MAX_FRAME) ==> forall f :: f in Frames(got) ==> |f| <= MAX_FRAME
  {
  }

  lemma CutOrWhole(frames: seq<Bytes>, room: nat)
    requires |Head()| <= room && forall f :: f in frames ==> |f| <= MAX_FRAME
    ensures var data := Taken(Downstream(frames), room);
            && |Head()| <= |data|
            && GotPrefix(OURS, AllFrames(data, |Head()|, BOUNDARY), frames, |data| - |Head()|)
            && (|Downstream(frames)| <= room ==> AllFrames(data, |Head()|, BOUNDARY) == (frames, Eof))
  {
    hide Head, Parts, AllFrames, GotPrefix, Downstream;
    DownstreamHead(frames);
    CutAnywhere(frames, room);
    RoundTrip(frames);
  }

  /** Over every run of the slot, and wherever the connection breaks after the head, a viewer
      recovers from what it was sent exactly the frames its writer took, as far as their octets
      came through: published ones, in the order they were published. */
  lemma ViewersSeePublishedFrames(events: seq<FrameSlot.Event>, id: nat, room: nat)
    requires var w := FrameSlot.Run(FrameSlot.Fresh(), events);
             id in w.readers && forall f :: f in w.published ==> |f| <= MAX_FRAME
    requires |Head()| <= room
    ensures var w := FrameSlot.Run(FrameSlot.Fresh(), events);
            var got := w.readers[id].got;
            var data := Taken(Downstream(Frames(got)), room);
            && GotPrefix(OURS, AllFrames(data, |Head()|, BOUNDARY), Frames(got), |data| - |Head()|)
            && (|Downstream(Frames(got))| <= room ==> AllFrames(data, |Head()|, BOUNDARY) == (Frames(got), Eof))
            && (forall i :: 0 <= i < |got| ==>
                  1 <= got[i].number <= |w.published| && Frames(got)[i] == w.published[got[i].number - 1])
            && (forall i, j :: 0 <= i < j < |got| ==> got[i].number < got[j].number)
  {
    hide FrameSlot.Run, FrameSlot.Fresh, Head, Parts, AllFrames, GotPrefix, Downstream, Taken, Frames;
    var w := FrameSlot.Run(FrameSlot.Fresh(), events);
    FrameSlot.ReadersSeeIncreasingFrames(events, id);
    FramesPublished(w.readers[id].got, w.published);
    CutOrWhole(Frames(w.readers[id].got), room);
  }
}
