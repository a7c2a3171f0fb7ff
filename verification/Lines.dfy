/** Text as the MJPEG proxy reads and writes it: lines in UTF-8, trimming, header lines and
    decimal numbers. */
module Lines {
  import opened Basics

  const NEWLINE: Byte := 10
  const RETURN: Byte := 13
  const SPACE: Byte := 32
  const QUOTE: Byte := 34
  const PLUS: Byte := 43
  const DASH: Byte := 45
  const COLON: Byte := 58
  const SEMICOLON: Byte := 59
  const CRLF: Bytes := [RETURN, NEWLINE]
  const DASHES: Bytes := [DASH, DASH]
  const USIZE := 0x1_0000_0000_0000_0000

  /** The octets of an ASCII text. */
  function Text(s: string): Bytes
    requires forall i :: 0 <= i < |s| ==> s[i] as int < 128
  {
    seq(|s|, i requires 0 <= i < |s| => s[i] as int as Byte)
  }

  predicate Plain(s: Bytes) {
    forall i :: 0 <= i < |s| ==> s[i] < 128
  }

  // ----- UTF-8 -----

  predicate Follows(b: Byte) {
    0x80 <= b < 0xC0
  }

  /** The length of the character that `s` starts with, 0 if it starts with none. */
  function CharLength(s: Bytes): (n: nat)
    ensures n <= |s|
  {
    if s == [] then 0
    else if s[0] < 0x80 then 1
    else if 0xC2 <= s[0] < 0xE0 then if |s| >= 2 && Follows(s[1]) then 2 else 0
    else if 0xE0 <= s[0] < 0xF0 then
      if |s| >= 3 && Follows(s[1]) && Follows(s[2]) && (s[0] == 0xE0 ==> s[1] >= 0xA0) && (s[0] == 0xED ==> s[1] < 0xA0)
      then 3 else 0
    else if 0xF0 <= s[0] < 0xF5 then
      if |s| >= 4 && Follows(s[1]) && Follows(s[2]) && Follows(s[3])
         && (s[0] == 0xF0 ==> s[1] >= 0x90) && (s[0] == 0xF4 ==> s[1] < 0x90)
      then 4 else 0
    else 0
  }

  /** What can be read as a string. */
  predicate IsText(s: Bytes)
    decreases |s|
  {
    s == [] || (CharLength(s) > 0 && IsText(s[CharLength(s)..]))
  }

  lemma {:induction false} PlainIsText(s: Bytes)
    requires Plain(s)
    ensures IsText(s)
    decreases |s|
  {
    if s != [] {
      PlainIsText(s[1..]);
    }
  }

  // ----- Trimming and searching -----

  predicate Blank(b: Byte) {
    9 <= b <= 13 || b == SPACE
  }

  /** The white space characters of more than one octet. */
  predicate IsWideBlank(c: Bytes) {
    || c == [0xC2, 0x85] || c == [0xC2, 0xA0] || c == [0xE1, 0x9A, 0x80] || c == [0xE3, 0x80, 0x80]
    || (|c| == 3 && c[..2] == [0xE2, 0x80] && (0x80 <= c[2] <= 0x8A || c[2] == 0xA8 || c[2] == 0xA9 || c[2] == 0xAF))
    || c == [0xE2, 0x81, 0x9F]
  }

  /** The length of the white space character at the end, 0 if there is none. */
  function BlankEnd(s: Bytes): (n: nat)
    ensures n <= |s|
  {
    if s != [] && Blank(s[|s| - 1]) then 1
    else if |s| >= 2 && IsWideBlank(s[|s| - 2..]) then 2
    else if |s| >= 3 && IsWideBlank(s[|s| - 3..]) then 3
    else 0
  }

  function BlankStart(s: Bytes): (n: nat)
    ensures n <= |s|
  {
    if s != [] && Blank(s[0]) then 1
    else if |s| >= 2 && IsWideBlank(s[..2]) then 2
    else if |s| >= 3 && IsWideBlank(s[..3]) then 3
    else 0
  }

  function TrimEnd(s: Bytes): Bytes
    decreases |s|
  {
    if BlankEnd(s) == 0 then s else TrimEnd(s[..|s| - BlankEnd(s)])
  }

  function TrimStart(s: Bytes): Bytes
    decreases |s|
  {
    if BlankStart(s) == 0 then s else TrimStart(s[BlankStart(s)..])
  }

  function Trim(s: Bytes): Bytes {
    TrimStart(TrimEnd(s))
  }

  predicate EndsWith(s: Bytes, t: Bytes) {
    |t| <= |s| && s[|s| - |t|..] == t
  }

  /** Without any number of trailing pairs of dashes. */
  function TrimEndDashes(s: Bytes): Bytes {
    if EndsWith(s, DASHES) then TrimEndDashes(s[..|s| - 2]) else s
  }

  function TrimStartDashes(s: Bytes): Bytes {
    if DASHES <= s then TrimStartDashes(s[2..]) else s
  }

  function TrimQuotesEnd(s: Bytes): Bytes {
    if s != [] && s[|s| - 1] == QUOTE then TrimQuotesEnd(s[..|s| - 1]) else s
  }

  function TrimQuotes(s: Bytes): Bytes {
    if s != [] && s[0] == QUOTE then TrimQuotes(s[1..]) else TrimQuotesEnd(s)
  }

  predicate HasDashes(s: Bytes) {
    exists i :: 0 <= i < |s| - 1 && s[i] == DASH && s[i + 1] == DASH
  }

  function Lower(b: Byte): Byte {
    if 65 <= b <= 90 then b + 32 else b
  }

  predicate SameName(a: Bytes, b: Bytes) {
    |a| == |b| && forall i :: 0 <= i < |a| ==> Lower(a[i]) == Lower(b[i])
  }

  /** Where `c` first occurs, or the length. */
  function Find(s: Bytes, c: Byte): (i: nat)
    ensures i <= |s|
  {
    if s == [] || s[0] == c then 0 else 1 + Find(s[1..], c)
  }

  /** The name and the value of a header line, each trimmed. */
  function Split(line: Bytes): Option<(Bytes, Bytes)> {
    var i := Find(line, COLON);
    if i == |line| then None else Some((Trim(line[..i]), Trim(line[i + 1..])))
  }

  // ----- Trimming -----

  /** An octet that is a character by itself, and no white space. */
  predicate Solid(b: Byte) {
    b < 128 && !Blank(b)
  }

  /** Nothing to trim at either end. */
  predicate Tight(s: Bytes) {
    s == [] || (Solid(s[0]) && Solid(s[|s| - 1]))
  }

  lemma WideIsWide(c: Bytes)
    requires c != [] && IsWideBlank(c)
    ensures c[0] >= 128 && c[|c| - 1] >= 128
  {
    assert |c| == 3 && c[..2] == [0xE2, 0x80] ==> c[0] == c[..2][0];
  }

  lemma SolidEnd(s: Bytes)
    requires s == [] || Solid(s[|s| - 1])
    ensures BlankEnd(s) == 0
  {
    hide IsWideBlank;
    if |s| >= 2 && IsWideBlank(s[|s| - 2..]) {
      WideIsWide(s[|s| - 2..]);
    }
    if |s| >= 3 && IsWideBlank(s[|s| - 3..]) {
      WideIsWide(s[|s| - 3..]);
    }
  }

  lemma SolidStart(s: Bytes)
    requires s == [] || Solid(s[0])
    ensures BlankStart(s) == 0
    ensures s != [] ==> BlankEnd(s) < |s|
  {
    hide IsWideBlank;
    if |s| >= 2 && IsWideBlank(s[..2]) {
      WideIsWide(s[..2]);
    }
    if |s| >= 3 && IsWideBlank(s[..3]) {
      WideIsWide(s[..3]);
    }
    assert s[..|s|] == s[0..] == s;
  }

  lemma {:induction false} TrimEndDrops(s: Bytes, blanks: Bytes)
    requires s == [] || Solid(s[|s| - 1])
    requires forall i :: 0 <= i < |blanks| ==> Blank(blanks[i])
    ensures TrimEnd(s + blanks) == s
    decreases |blanks|
  {
    if blanks == [] {
      assert s + blanks == s;
      SolidEnd(s);
    } else {
      var fewer := blanks[..|blanks| - 1];
      assert (s + blanks)[..|s + blanks| - 1] == s + fewer;
      assert (s + blanks)[|s + blanks| - 1] == blanks[|blanks| - 1];
      assert BlankEnd(s + blanks) == 1;
      hide BlankEnd;
      TrimEndDrops(s, fewer);
    }
  }

  lemma TrimPadded(s: Bytes)
    requires Tight(s)
    ensures Trim(s) == s && Trim([SPACE] + s + CRLF) == s && Trim(s + CRLF) == s
  {
    hide TrimEnd, TrimStart;
    TrimEndDrops(s, []);
    assert s + [] == s;
    TrimEndDrops(s, CRLF);
    TightTrimStart(s);
    SpacedTrimEnd(s);
  }

  lemma TightTrimStart(s: Bytes)
    requires Tight(s)
    ensures TrimStart(s) == s && TrimStart([SPACE] + s) == s
  {
    SolidStart(s);
    assert ([SPACE] + s)[1..] == s;
  }

  lemma SpacedTrimEnd(s: Bytes)
    requires Tight(s)
    ensures TrimStart(TrimEnd([SPACE] + s + CRLF)) == s
  {
    if s == [] {
      TrimEndDrops([], [SPACE] + CRLF);
      assert [SPACE] + s + CRLF == [] + ([SPACE] + CRLF);
    } else {
      TrimEndDrops([SPACE] + s, CRLF);
      TightTrimStart(s);
    }
  }

  lemma {:induction false} FindAt(s: Bytes, c: Byte, i: nat)
    requires i < |s| && s[i] == c && forall j :: 0 <= j < i ==> s[j] != c
    ensures Find(s, c) == i
  {
    if i > 0 {
      FindAt(s[1..], c, i - 1);
    }
  }

  lemma {:induction false} FindNone(s: Bytes, c: Byte)
    requires forall j :: 0 <= j < |s| ==> s[j] != c
    ensures Find(s, c) == |s|
  {
    if s != [] {
      FindNone(s[1..], c);
    }
  }

  function Header(name: Bytes, value: Bytes): Bytes {
    name + [COLON] + ([SPACE] + value + CRLF)
  }

  /** A header line reads back as its name and its value. */
  lemma HeaderSplits(name: Bytes, value: Bytes)
    requires Tight(name) && Tight(value) && forall i :: 0 <= i < |name| ==> name[i] != COLON
    ensures Split(Header(name, value)) == Some((name, value))
  {
    hide Find, Trim, Tight;
    var line := Header(name, value);
    FindAt(line, COLON, |name|);
    assert line[..|name|] == name;
    assert line[|name| + 1..] == [SPACE] + value + CRLF;
    TrimPadded(name);
    TrimPadded(value);
  }

  predicate Blanks(s: Bytes) {
    forall i :: 0 <= i < |s| ==> Blank(s[i])
  }

  lemma {:induction false} TrimStartDrops(before: Bytes, s: Bytes)
    requires Blanks(before) && Tight(s) && s != []
    ensures TrimStart(before + s) == s
    decreases |before|
  {
    if before == [] {
      assert before + s == s;
      SolidStart(s);
    } else {
      assert (before + s)[1..] == before[1..] + s;
      TrimStartDrops(before[1..], s);
    }
  }

  lemma PaddingTrimmed(before: Bytes, s: Bytes, after: Bytes)
    requires Blanks(before) && Blanks(after) && Tight(s)
    ensures Trim(before + s + after) == s
  {
    hide TrimEnd, TrimStart;
    if s == [] {
      assert before + s + after == [] + (before + after);
      TrimEndDrops([], before + after);
      TightTrimStart([]);
    } else {
      assert (before + s)[|before + s| - 1] == s[|s| - 1];
      TrimEndDrops(before + s, after);
      TrimStartDrops(before, s);
    }
  }

  /** However a header line is spaced, it reads back as its name and its value. */
  lemma SpacedHeaderSplits(a: Bytes, name: Bytes, b: Bytes, c: Bytes, value: Bytes, d: Bytes)
    requires Blanks(a) && Blanks(b) && Blanks(c) && Blanks(d)
    requires Tight(name) && Tight(value) && COLON !in name
    ensures Split(a + name + b + [COLON] + (c + value + d)) == Some((name, value))
  {
    hide Find, Trim, Tight;
    var front := a + name + b;
    var line := front + [COLON] + (c + value + d);
    FindAt(line, COLON, |front|);
    assert line[..|front|] == front;
    assert line[|front| + 1..] == c + value + d;
    PaddingTrimmed(a, name, b);
    PaddingTrimmed(c, value, d);
  }

  // ----- Decimal numbers -----

  predicate IsDigit(b: Byte) {
    48 <= b <= 57
  }

  function Decimal(n: nat): Bytes {
    if n < 10 then [(48 + n) as Byte] else Decimal(n / 10) + [(48 + n % 10) as Byte]
  }

  function Digits(s: Bytes): Option<nat> {
    if s == [] then Some(0)
    else if !IsDigit(s[|s| - 1]) || Digits(s[..|s| - 1]) == None then None
    else Some(10 * Digits(s[..|s| - 1]).value + (s[|s| - 1] as nat - 48))
  }

  /** Parses an unsigned machine word: one plus sign is let through, nothing else. */
  function ParseWord(s: Bytes): Option<nat> {
    var digits := if |s| > 1 && s[0] == PLUS then s[1..] else s;
    if digits == [] || Digits(digits) == None || Digits(digits).value >= USIZE then None
    else Digits(digits)
  }

  lemma {:induction false} DecimalDigits(n: nat)
    ensures Digits(Decimal(n)) == Some(n)
    ensures Decimal(n) != [] && forall i :: 0 <= i < |Decimal(n)| ==> IsDigit(Decimal(n)[i])
  {
    if n < 10 {
      var s := Decimal(n);
      assert s[..0] == [];
      assert Digits(s[..0]) == Some(0);
    } else {
      DecimalDigits(n / 10);
      var s := Decimal(n);
      assert s[..|s| - 1] == Decimal(n / 10);
    }
  }

  lemma {:induction false} OnlyDigits(s: Bytes)
    requires Digits(s).Some?
    ensures forall i :: 0 <= i < |s| ==> 48 <= s[i] <= 57
  {
    if s != [] {
      OnlyDigits(s[..|s| - 1]);
    }
  }

  /** A plus sign in front is let through; a length beyond the machine word and anything else that
      is not a digit are not. */
  lemma WordsExactly(n: nat, s: Bytes, i: nat)
    ensures ParseWord([43] + Decimal(n)) == ParseWord(Decimal(n))
            == if n < 0x1_0000_0000_0000_0000 then Some(n) else None
    ensures i < |s| && !(48 <= s[i] <= 57) && !(i == 0 && s[0] == 43) ==> ParseWord(s) == None
    ensures ParseWord([]) == ParseWord([43]) == None
  {
    DecimalDigits(n);
    assert ([43] + Decimal(n))[1..] == Decimal(n);
    if i < |s| && !(48 <= s[i] <= 57) && !(i == 0 && s[0] == 43) {
      var plus := |s| > 1 && s[0] == PLUS;
      var digits := if plus then s[1..] else s;
      var j := if plus then i - 1 else i;
      assert digits[j] == s[i];
      if Digits(digits).Some? {
        OnlyDigits(digits);
      }
    }
  }

  /** A length printed in decimal is parsed back. */
  lemma DecimalParses(n: nat)
    requires n < USIZE
    ensures ParseWord(Decimal(n)) == Some(n)
    ensures Plain(Decimal(n)) && Tight(Decimal(n)) && NEWLINE !in Decimal(n)
  {
    hide Decimal, Digits;
    DecimalDigits(n);
    assert forall i :: 0 <= i < |Decimal(n)| ==> IsDigit(Decimal(n)[i]);
  }

  // ----- Lines of a stream -----

  /** Where the line that starts at `pos` ends: after its newline, or where the stream ends. */
  function LineEnd(data: Bytes, pos: nat): (end: nat)
    requires pos <= |data|
    ensures pos <= end <= |data| && (pos < |data| ==> pos < end)
    decreases |data| - pos
  {
    if pos == |data| then pos else if data[pos] == NEWLINE then pos + 1 else LineEnd(data, pos + 1)
  }

  /** `s` stands in the stream at `pos`. */
  predicate At(data: Bytes, pos: nat, s: Bytes) {
    pos + |s| <= |data| && data[pos..pos + |s|] == s
  }

  lemma {:induction false} LineEndsAt(data: Bytes, pos: nat, k: nat)
    requires pos <= k < |data| && data[k] == NEWLINE && forall j :: pos <= j < k ==> data[j] != NEWLINE
    ensures LineEnd(data, pos) == k + 1
    decreases k - pos
  {
    if pos < k {
      LineEndsAt(data, pos + 1, k);
    }
  }

  lemma {:induction false} LineEndsWithStream(data: Bytes, pos: nat)
    requires pos <= |data| && forall j :: pos <= j < |data| ==> data[j] != NEWLINE
    ensures LineEnd(data, pos) == |data|
    decreases |data| - pos
  {
    if pos < |data| {
      LineEndsWithStream(data, pos + 1);
    }
  }

  /** A text that ends in its only newline is read as one line. */
  lemma LineIs(data: Bytes, pos: nat, line: Bytes)
    requires At(data, pos, line + CRLF) && NEWLINE !in line
    ensures LineEnd(data, pos) == pos + |line| + 2 && data[pos..LineEnd(data, pos)] == line + CRLF
  {
    var whole := line + CRLF;
    var k := pos + |line| + 1;
    assert forall i :: 0 <= i < |whole| ==> data[pos + i] == whole[i];
    forall j | pos <= j < k
      ensures data[j] != NEWLINE
    {
      assert data[j] == whole[j - pos];
    }
    assert data[k] == whole[k - pos];
    LineEndsAt(data, pos, k);
  }
}
