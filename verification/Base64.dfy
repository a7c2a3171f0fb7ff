/** The hand-written base64 decoder of the WDA client (wda.rs, `decode_base64`),
    against the encoding of sections 3.5 and 4 of RFC 4648. */
module Base64 {
  import opened Basics

  const PAD: Byte := 61
  const WORD := 0x1_0000_0000

  // ----- The encoding -----

  /** The base64 alphabet. */
  function Symbol(v: nat): Byte
    requires v < 64
  {
    if v < 26 then (65 + v) as Byte
    else if v < 52 then (97 + v - 26) as Byte
    else if v < 62 then (48 + v - 52) as Byte
    else if v == 62 then 43
    else 47
  }

  ghost predicate Sixes(v: seq<nat>) {
    forall i :: 0 <= i < |v| ==> v[i] < 64
  }

  function Split1(a: nat): seq<nat> {
    [a / 4, a % 4 * 16]
  }

  function Split2(a: nat, b: nat): seq<nat> {
    [a / 4, a % 4 * 16 + b / 16, b % 16 * 4]
  }

  function Split3(a: nat, b: nat, c: nat): seq<nat> {
    [a / 4, a % 4 * 16 + b / 16, b % 16 * 4 + c / 64, c % 64]
  }

  /** The input cut into six-bit values, the last one filled up with zero bits. */
  function SixBits(x: Bytes): (v: seq<nat>)
    ensures Sixes(v)
    decreases |x|
  {
    if |x| == 0 then []
    else if |x| == 1 then Split1(x[0] as nat)
    else if |x| == 2 then Split2(x[0] as nat, x[1] as nat)
    else Split3(x[0] as nat, x[1] as nat, x[2] as nat) + SixBits(x[3..])
  }

  ghost function Symbols(v: seq<nat>): Bytes
    requires Sixes(v)
  {
    seq(|v|, i requires 0 <= i < |v| => Symbol(v[i]))
  }

  function Pads(n: nat): Bytes {
    seq(n, _ => PAD)
  }

  function Padding(x: Bytes): nat {
    (3 - |x| % 3) % 3
  }

  /** The canonical padded encoding. */
  ghost function Encode(x: Bytes): Bytes {
    Symbols(SixBits(x)) + Pads(Padding(x))
  }

  // ----- What the decoder accepts -----

  predicate IsAsciiWhitespace(b: Byte) {
    b == 9 || b == 10 || b == 12 || b == 13 || b == 32
  }

  function Cleaned(input: Bytes): Bytes {
    if input == [] then []
    else (if IsAsciiWhitespace(input[0]) then [] else [input[0]]) + Cleaned(input[1..])
  }

  function Sextet(c: Byte): (r: Option<nat>)
    ensures r.Some? ==> r.value < 64
  {
    if 65 <= c <= 90 then Some((c - 65) as nat)
    else if 97 <= c <= 122 then Some((c - 97) as nat + 26)
    else if 48 <= c <= 57 then Some((c - 48) as nat + 52)
    else if c == 43 then Some(62)
    else if c == 47 then Some(63)
    else None
  }

  predicate AllSextets(p: Bytes) {
    forall i :: 0 <= i < |p| ==> Sextet(p[i]).Some?
  }

  function Values(p: Bytes): (v: seq<nat>)
    requires AllSextets(p)
    ensures |v| == |p| && Sixes(v)
  {
    seq(|p|, i requires 0 <= i < |p| => Sextet(p[i]).value)
  }

  function Join(v: seq<nat>): (x: Bytes)
    requires 2 <= |v| <= 4 && Sixes(v)
    ensures |x| == |v| - 1
  {
    [(v[0] * 4 + v[1] / 16) as Byte]
    + (if |v| >= 3 then [(v[1] % 16 * 16 + v[2] / 4) as Byte] else [])
    + (if |v| == 4 then [(v[2] % 4 * 64 + v[3]) as Byte] else [])
  }

  /** The octets that a run of six-bit values completes. */
  ghost function Unpacked(v: seq<nat>): Bytes
    requires Sixes(v)
    decreases |v|
  {
    if |v| < 2 then []
    else if |v| < 4 then Join(v)
    else Join(v[..4]) + Unpacked(v[4..])
  }

  /** The bits at its end that complete no octet. */
  ghost function Leftover(v: seq<nat>): nat
    requires Sixes(v)
    decreases |v|
  {
    if |v| == 0 then 0
    else if |v| == 1 then v[0]
    else if |v| == 2 then v[1] % 16
    else if |v| == 3 then v[2] % 4
    else Leftover(v[4..])
  }

  /** Where the padding begins. */
  function FindPad(c: Bytes): (at: nat)
    ensures at <= |c|
    ensures at < |c| ==> c[at] == PAD
    ensures forall i :: 0 <= i < at ==> c[i] != PAD
  {
    if c == [] || c[0] == PAD then 0 else 1 + FindPad(c[1..])
  }

  /** What the decoder returns for an input free of white space. */
  ghost function Decode(c: Bytes): Option<Bytes> {
    var at := FindPad(c);
    var padding := |c| - at;
    if c[at..] == Pads(padding) && padding <= 2 && |c| % 4 == 0
       && AllSextets(c[..at]) && Leftover(Values(c[..at])) == 0
    then Some(Unpacked(Values(c[..at])))
    else None
  }

  // ----- Accepted inputs are exactly the canonical encodings -----

  lemma SymbolSextet(v: nat)
    requires v < 64
    ensures Sextet(Symbol(v)) == Some(v) && Symbol(v) != PAD
  {
  }

  lemma SextetSymbol(c: Byte)
    requires Sextet(c).Some?
    ensures Symbol(Sextet(c).value) == c
  {
  }

  lemma JoinSplit(a: Byte, b: Byte, c: Byte)
    ensures Sixes(Split1(a as nat)) && Join(Split1(a as nat)) == [a]
    ensures Sixes(Split2(a as nat, b as nat)) && Join(Split2(a as nat, b as nat)) == [a, b]
    ensures Sixes(Split3(a as nat, b as nat, c as nat))
    ensures Join(Split3(a as nat, b as nat, c as nat)) == [a, b, c]
  {
  }

  lemma DivMod(n: int, d: int, q: int, r: int)
    requires 0 <= r < d && n == d * q + r
    ensures n / d == q && n % d == r
  {
    var e := q - n / d;
    assert n == d * (n / d) + n % d;
    assert d * e == n % d - r;
    assert e > 0 ==> d * e >= d;
    assert e < 0 ==> d * e <= -d;
  }

  lemma SplitJoin2(a: nat, b: nat)
    requires a < 64 && b < 64 && b % 16 == 0
    ensures var x := Join([a, b]); Split1(x[0] as nat) == [a, b]
  {
  }

  lemma SplitJoin3(a: nat, b: nat, c: nat)
    requires a < 64 && b < 64 && c < 64 && c % 4 == 0
    ensures var x := Join([a, b, c]); Split2(x[0] as nat, x[1] as nat) == [a, b, c]
  {
    DivMod(a * 4 + b / 16, 4, a, b / 16);
    DivMod(b % 16 * 16 + c / 4, 16, b % 16, c / 4);
  }

  lemma SplitJoin4(a: nat, b: nat, c: nat, d: nat)
    requires a < 64 && b < 64 && c < 64 && d < 64
    ensures var x := Join([a, b, c, d]); Split3(x[0] as nat, x[1] as nat, x[2] as nat) == [a, b, c, d]
  {
    DivMod(a * 4 + b / 16, 4, a, b / 16);
    DivMod(b % 16 * 16 + c / 4, 16, b % 16, c / 4);
    DivMod(c % 4 * 64 + d, 64, c % 4, d);
  }

  lemma SixBitsFront(a: Byte, b: Byte, c: Byte, x: Bytes)
    ensures SixBits([a, b, c] + x) == Split3(a as nat, b as nat, c as nat) + SixBits(x)
  {
    assert ([a, b, c] + x)[3..] == x;
  }

  lemma UnpackedFront(v: seq<nat>)
    requires |v| >= 4 && Sixes(v)
    ensures Unpacked(v) == Join(v[..4]) + Unpacked(v[4..])
    ensures Leftover(v) == Leftover(v[4..])
  {
  }

  /** A group of four values in front of any others stands for its own three octets. */
  lemma UnpackedGroup(q: seq<nat>, v: seq<nat>)
    requires |q| == 4 && Sixes(q) && Sixes(v) && Sixes(q + v)
    ensures Unpacked(q + v) == Join(q) + Unpacked(v)
    ensures Leftover(q + v) == Leftover(v)
  {
    hide Unpacked, Leftover, Join;
    UnpackedFront(q + v);
    assert (q + v)[..4] == q && (q + v)[4..] == v;
  }

  lemma PaddingStep(x: Bytes, n: nat)
    requires |x| >= 3
    ensures Padding(x) == Padding(x[3..])
    ensures (n + Padding(x)) % 4 == 0 ==> (4 + n + Padding(x)) % 4 == 0
  {
  }

  lemma PaddingBack(g: Bytes, x: Bytes, n: nat)
    requires |g| == 3
    ensures Padding(g + x) == Padding(x)
    ensures (n + 4) % 4 == n % 4
  {
  }

  lemma {:induction false} UnpackSixBits(x: Bytes)
    ensures Unpacked(SixBits(x)) == x
    ensures Leftover(SixBits(x)) == 0
    ensures (|SixBits(x)| + Padding(x)) % 4 == 0
    decreases |x|
  {
    if |x| > 2 {
      hide Join, Split3, SixBits, Unpacked, Leftover, Padding;
      var y := x[3..];
      PaddingStep(x, |SixBits(y)|);
      JoinSplit(x[0], x[1], x[2]);
      SixBitsFront(x[0], x[1], x[2], y);
      assert x == [x[0], x[1], x[2]] + y;
      UnpackSixBits(y);
      UnpackedGroup(Split3(x[0] as nat, x[1] as nat, x[2] as nat), SixBits(y));
    } else {
      UnpackSixBitsShort(x);
    }
  }

  lemma UnpackSixBitsShort(x: Bytes)
    requires |x| <= 2
    ensures Unpacked(SixBits(x)) == x
    ensures Leftover(SixBits(x)) == 0
    ensures (|SixBits(x)| + Padding(x)) % 4 == 0
  {
    hide Join;
    if |x| == 2 {
      JoinSplit(x[0], x[1], 0);
      assert x == [x[0], x[1]];
    } else if |x| == 1 {
      JoinSplit(x[0], 0, 0);
      assert x == [x[0]];
    }
  }

  lemma GroupOfFour(a: nat, b: nat, c: nat, d: nat, x: Bytes)
    requires a < 64 && b < 64 && c < 64 && d < 64
    ensures SixBits(Join([a, b, c, d]) + x) == [a, b, c, d] + SixBits(x)
  {
    hide SixBits, Join, Split3;
    SplitJoin4(a, b, c, d);
    var g := Join([a, b, c, d]);
    assert g == [g[0], g[1], g[2]];
    SixBitsFront(g[0], g[1], g[2], x);
  }

  lemma {:induction false} SixBitsUnpack(v: seq<nat>)
    requires Sixes(v) && |v| % 4 != 1 && Leftover(v) == 0
    ensures SixBits(Unpacked(v)) == v
    ensures Padding(Unpacked(v)) == (4 - |v| % 4) % 4
    decreases |v|
  {
    hide Join, Split1, Split2, Split3;
    if |v| >= 4 {
      hide SixBits, Unpacked, Leftover, Padding;
      var u := v[4..];
      PaddingBack(Join(v[..4]), Unpacked(u), |u|);
      UnpackedFront(v);
      SixBitsUnpack(u);
      GroupOfFour(v[0], v[1], v[2], v[3], Unpacked(u));
      assert v[..4] == [v[0], v[1], v[2], v[3]];
      assert v == v[..4] + u;
    } else {
      SixBitsUnpackShort(v);
    }
  }

  lemma SixBitsUnpackShort(v: seq<nat>)
    requires Sixes(v) && |v| < 4 && |v| != 1 && Leftover(v) == 0
    ensures SixBits(Unpacked(v)) == v
    ensures Padding(Unpacked(v)) == (4 - |v|) % 4
  {
    hide Join, Split1, Split2, Split3;
    if |v| == 3 {
      SplitJoin3(v[0], v[1], v[2]);
      assert v == [v[0], v[1], v[2]];
    } else if |v| == 2 {
      SplitJoin2(v[0], v[1]);
      assert v == [v[0], v[1]];
    }
  }

  lemma ValuesSymbols(v: seq<nat>)
    requires Sixes(v)
    ensures AllSextets(Symbols(v)) && Values(Symbols(v)) == v
    ensures forall i :: 0 <= i < |v| ==> Symbols(v)[i] != PAD
  {
    forall i | 0 <= i < |v|
      ensures Sextet(Symbols(v)[i]) == Some(v[i]) && Symbols(v)[i] != PAD
    {
      SymbolSextet(v[i]);
    }
  }

  lemma SymbolsValues(p: Bytes)
    requires AllSextets(p)
    ensures Symbols(Values(p)) == p
  {
    forall i | 0 <= i < |p|
      ensures Symbols(Values(p))[i] == p[i]
    {
      SextetSymbol(p[i]);
    }
  }

  /** An encoding decodes to what was encoded. */
  lemma DecodeEncode(x: Bytes)
    ensures Decode(Encode(x)) == Some(x)
  {
    hide SixBits, Unpacked, Leftover, Symbols, Sextet;
    var v := SixBits(x);
    var p := Symbols(v);
    var c := Encode(x);
    UnpackSixBits(x);
    ValuesSymbols(v);
    assert |p| == |Values(p)|;
    assert |c| == |p| + Padding(x);
    var at := FindPad(c);
    assert forall i :: 0 <= i < |p| ==> c[i] == p[i];
    assert at >= |p|;
    assert |p| < |c| ==> c[|p|] == PAD;
    assert c[..at] == p && c[at..] == Pads(Padding(x));
  }

  /** An input decodes to `x` exactly when it is the canonical encoding of `x`. */
  lemma DecodeIff(c: Bytes, x: Bytes)
    ensures Decode(c) == Some(x) <==> c == Encode(x)
  {
    hide SixBits, Unpacked, Leftover, Symbols, Sextet;
    DecodeEncode(x);
    if Decode(c) == Some(x) {
      var at := FindPad(c);
      var p := c[..at];
      SixBitsUnpack(Values(p));
      SymbolsValues(p);
      assert c == p + c[at..];
    }
  }

  // ----- The bit accumulator -----

  /** Number of accumulator bits not yet written out after `k` symbols. */
  function PendingBits(k: nat): nat {
    match k % 4
    case 0 => 0
    case 1 => 6
    case 2 => 4
    case _ => 2
  }

  /** `1 << bits`, for the numbers of bits that can be pending. */
  function Pow2(bits: nat): (p: nat)
    ensures p > 0
  {
    if bits == 0 then 1 else if bits == 2 then 4 else if bits == 4 then 16 else 64
  }

  /** What one more six-bit value completes. */
  function Pushed(k: nat, l: nat, w: nat): Bytes
    requires k < 4 && l < Pow2(PendingBits(k)) && w < 64
  {
    if k == 0 then []
    else if k == 1 then [(l * 4 + w / 16) as Byte]
    else if k == 2 then [(l * 16 + w / 4) as Byte]
    else [(l * 64 + w) as Byte]
  }

  lemma {:induction false} LeftoverBound(v: seq<nat>)
    requires Sixes(v)
    ensures Leftover(v) < Pow2(PendingBits(|v|))
    decreases |v|
  {
    if |v| >= 4 {
      hide Pow2;
      LeftoverBound(v[4..]);
      assert |v[4..]| % 4 == |v| % 4;
    }
  }

  lemma {:induction false} UnpackedPush(v: seq<nat>, w: nat)
    requires Sixes(v) && w < 64
    ensures Sixes(v + [w])
    ensures Leftover(v) < Pow2(PendingBits(|v| % 4))
    ensures Unpacked(v + [w]) == Unpacked(v) + Pushed(|v| % 4, Leftover(v), w)
    ensures Leftover(v + [w]) == w % Pow2(PendingBits((|v| + 1) % 4))
    decreases |v|
  {
    hide Join, Pushed, Pow2, PendingBits, Unpacked, Leftover;
    if |v| >= 4 {
      UnpackedFront(v);
      UnpackedFront(v + [w]);
      assert (v + [w])[4..] == v[4..] + [w];
      assert (v + [w])[..4] == v[..4];
      assert |v[4..]| % 4 == |v| % 4;
      assert (|v[4..]| + 1) % 4 == (|v| + 1) % 4;
      UnpackedPush(v[4..], w);
    } else if |v| == 0 {
      UnpackedPush0(w);
      assert v == [] && v + [w] == [w];
    } else if |v| == 1 {
      UnpackedPush1(v[0], w);
      assert v == [v[0]] && v + [w] == [v[0], w];
    } else if |v| == 2 {
      UnpackedPush2(v[0], v[1], w);
      assert v == [v[0], v[1]] && v + [w] == [v[0], v[1], w];
    } else {
      UnpackedPush3(v[0], v[1], v[2], w);
      assert v == [v[0], v[1], v[2]] && v + [w] == [v[0], v[1], v[2], w];
    }
  }

  lemma UnpackedPush0(w: nat)
    requires w < 64
    ensures Leftover([]) < Pow2(PendingBits(0))
    ensures Unpacked([w]) == [] && Unpacked([]) == [] && Pushed(0, Leftover([]), w) == []
    ensures Leftover([w]) == w % Pow2(PendingBits(1))
  {
  }

  lemma UnpackedPush1(a: nat, w: nat)
    requires a < 64 && w < 64
    ensures Leftover([a]) < Pow2(PendingBits(1))
    ensures Unpacked([a, w]) == Unpacked([a]) + Pushed(1, Leftover([a]), w)
    ensures Leftover([a, w]) == w % Pow2(PendingBits(2))
  {
  }

  lemma UnpackedPush2(a: nat, b: nat, w: nat)
    requires a < 64 && b < 64 && w < 64
    ensures Leftover([a, b]) < Pow2(PendingBits(2))
    ensures Unpacked([a, b, w]) == Unpacked([a, b]) + Pushed(2, Leftover([a, b]), w)
    ensures Leftover([a, b, w]) == w % Pow2(PendingBits(3))
  {
  }

  lemma UnpackedPush3(a: nat, b: nat, c: nat, w: nat)
    requires a < 64 && b < 64 && c < 64 && w < 64
    ensures Leftover([a, b, c]) < Pow2(PendingBits(3))
    ensures Unpacked([a, b, c, w]) == Unpacked([a, b, c]) + Pushed(3, Leftover([a, b, c]), w)
    ensures Leftover([a, b, c, w]) == w % Pow2(PendingBits(0))
  {
    var u := [a, b, c, w];
    assert u[4..] == [] && u[..4] == u;
  }

  /** What one turn of the decoding loop does to the accumulator with `k % 4`
      values pending: whatever the dropped high bits were, the octet written out
      and the bits kept are those of the exact values. */
  ghost predicate StepIsExact(k: nat, accumulator: nat, w: nat)
    requires k < 4 && accumulator < WORD && w < 64
  {
    var next := accumulator * 64 % WORD + w;
    var kept := PendingBits((k + 1) % 4);
    var l := accumulator % Pow2(PendingBits(k));
    && next < WORD
    && next % Pow2(kept) == w % Pow2(kept)
    && PendingBits(k) + 6 == kept + (if k == 0 then 0 else 8)
    && (k != 0 ==> Pushed(k, l, w) == [(next / Pow2(kept) % 256) as Byte])
  }

  lemma AccumulatorStep(k: nat, accumulator: nat, w: nat)
    requires k < 4 && accumulator < WORD && w < 64
    ensures StepIsExact(k, accumulator, w)
  {
    hide StepIsExact;
    if k == 0 {
      StepIsExact0(accumulator, w);
    } else if k == 1 {
      StepIsExact1(accumulator, w);
    } else if k == 2 {
      StepIsExact2(accumulator, w);
    } else {
      StepIsExact3(accumulator, w);
    }
  }

  lemma StepIsExact0(accumulator: nat, w: nat)
    requires accumulator < WORD && w < 64
    ensures StepIsExact(0, accumulator, w)
  {
    Shifted(accumulator);
    DivMod(accumulator % 0x400_0000 * 64 + w, 64, accumulator % 0x400_0000, w);
  }

  lemma StepIsExact1(accumulator: nat, w: nat)
    requires accumulator < WORD && w < 64
    ensures StepIsExact(1, accumulator, w)
  {
    Shifted(accumulator);
    Octet1(accumulator, w);
  }

  lemma StepIsExact2(accumulator: nat, w: nat)
    requires accumulator < WORD && w < 64
    ensures StepIsExact(2, accumulator, w)
  {
    Shifted(accumulator);
    Octet2(accumulator, w);
  }

  lemma StepIsExact3(accumulator: nat, w: nat)
    requires accumulator < WORD && w < 64
    ensures StepIsExact(3, accumulator, w)
  {
    Shifted(accumulator);
    Octet3(accumulator, w);
  }

  lemma Shifted(accumulator: nat)
    ensures accumulator * 64 % WORD == accumulator % 0x400_0000 * 64
  {
    DivMod(accumulator * 64, WORD, accumulator / 0x400_0000, accumulator % 0x400_0000 * 64);
  }

  lemma Octet1(accumulator: nat, w: nat)
    requires w < 64
    ensures
      var next := accumulator % 0x400_0000 * 64 + w;
      && next / 16 % 256 == accumulator % 64 * 4 + w / 16
      && next % 16 == w % 16
  {
    var m := accumulator % 0x400_0000;
    var q := m / 64;
    var l := m % 64;
    DivMod(accumulator, 64, 1048576 * (accumulator / 0x400_0000) + q, l);
    DivMod(m * 64 + w, 16, m * 4 + w / 16, w % 16);
    DivMod(m * 4 + w / 16, 256, q, l * 4 + w / 16);
  }

  lemma Octet2(accumulator: nat, w: nat)
    requires w < 64
    ensures
      var next := accumulator % 0x400_0000 * 64 + w;
      && next / 4 % 256 == accumulator % 16 * 16 + w / 4
      && next % 4 == w % 4
  {
    var m := accumulator % 0x400_0000;
    var q := m / 16;
    var l := m % 16;
    DivMod(accumulator, 16, 4194304 * (accumulator / 0x400_0000) + q, l);
    DivMod(m * 64 + w, 4, m * 16 + w / 4, w % 4);
    DivMod(m * 16 + w / 4, 256, q, l * 16 + w / 4);
  }

  lemma Octet3(accumulator: nat, w: nat)
    requires w < 64
    ensures
      var next := accumulator % 0x400_0000 * 64 + w;
      && next / 1 % 256 == accumulator % 4 * 64 + w / 1
      && next % 1 == w % 1
  {
    var m := accumulator % 0x400_0000;
    var q := m / 4;
    var l := m % 4;
    DivMod(accumulator, 4, 16777216 * (accumulator / 0x400_0000) + q, l);
    DivMod(m * 64 + w, 1, m * 64 + w / 1, w % 1);
    DivMod(m * 64 + w / 1, 256, q, l * 64 + w / 1);
  }

  /** The state of the decoding loop after `i` symbols. The accumulator is a 32-bit
      word: shifting it left drops its high bits, and only its pending low bits
      mean anything. */
  ghost predicate LoopState(p: Bytes, i: nat, out: Bytes, accumulator: nat, bits: nat) {
    && i <= |p|
    && AllSextets(p[..i])
    && accumulator < WORD
    && bits == PendingBits(i % 4)
    && out == Unpacked(Values(p[..i]))
    && accumulator % Pow2(bits) == Leftover(Values(p[..i]))
  }

  lemma LoopStep(p: Bytes, i: nat, out: Bytes, accumulator: nat, bits: nat)
    requires LoopState(p, i, out, accumulator, bits)
    requires i < |p| && Sextet(p[i]).Some?
    ensures
      var next := accumulator * 64 % WORD + Sextet(p[i]).value;
      if bits + 6 >= 8
      then LoopState(p, i + 1, out + [(next / Pow2(bits - 2) % 256) as Byte], next, bits - 2)
      else LoopState(p, i + 1, out, next, bits + 6)
  {
    hide Unpacked, Leftover, Sextet, Pow2, PendingBits, Pushed;
    var w := Sextet(p[i]).value;
    var v := Values(p[..i]);
    assert p[..i + 1] == p[..i] + [p[i]];
    assert Values(p[..i + 1]) == v + [w];
    assert (i + 1) % 4 == (i % 4 + 1) % 4;
    UnpackedPush(v, w);
    AccumulatorStep(i % 4, accumulator, w);
    PendingStep(i % 4, Leftover(v), w);
  }

  lemma PendingStep(k: nat, l: nat, w: nat)
    requires k < 4 && l < Pow2(PendingBits(k)) && w < 64
    ensures PendingBits(k) + 6 >= 8 <==> k != 0
    ensures k == 0 ==> Pushed(k, l, w) == []
  {
  }

  /** The decoding loop. */
  method UnpackPayload(payload: Bytes) returns (r: Option<Bytes>)
    requires |payload| % 4 != 1
    ensures r == if AllSextets(payload) && Leftover(Values(payload)) == 0
                 then Some(Unpacked(Values(payload))) else None
  {
    hide Unpacked, Leftover, Sextet, Pow2;
    var out: Bytes := [];
    var accumulator := 0;
    var bits := 0;
    var i := 0;
    StartOfPayload();
    while i < |payload|
      invariant 0 <= accumulator && 0 <= bits && 0 <= i
      invariant LoopState(payload, i, out, accumulator, bits)
    {
      hide LoopState;
      var s := Sextet(payload[i]);
      if s == None {
        return None;
      }
      LoopStep(payload, i, out, accumulator, bits);
      accumulator := accumulator * 64 % WORD + s.value;
      bits := bits + 6;
      if bits >= 8 {
        bits := bits - 8;
        out := out + [(accumulator / Pow2(bits) % 256) as Byte];
      }
      i := i + 1;
    }
    assert payload[..i] == payload;
    if accumulator % Pow2(bits) != 0 {
      return None;
    }
    r := Some(out);
  }

  lemma StartOfPayload()
    ensures PendingBits(0) == 0 && Pow2(0) == 1
    ensures Unpacked([]) == [] && Leftover([]) == 0
  {
  }

  /** `decode_base64`. */
  method DecodeBase64(input: Bytes) returns (r: Option<Bytes>)
    ensures r == Decode(Cleaned(input))
  {
    hide Unpacked, Leftover, Sextet, Cleaned;
    var cleaned := Cleaned(input);
    var at := FindPad(cleaned);
    var padding := 0;
    if at < |cleaned| {
      padding := |cleaned| - at;
      if (exists i :: at <= i < |cleaned| && cleaned[i] != PAD) || padding > 2 {
        assert cleaned[at..] == Pads(padding) ==>
            forall i :: at <= i < |cleaned| ==> cleaned[i] == Pads(padding)[i - at];
        return None;
      }
    }
    assert cleaned[at..] == Pads(padding);
    var payload := cleaned[..at];
    if (|payload| + padding) % 4 != 0 {
      return None;
    }
    r := UnpackPayload(payload);
  }

  /** A round trip through the decoder, with white space anywhere in its input: it
      returns `x` exactly on the inputs that are the encoding of `x` with white
      space strewn in. */
  lemma DecodesExactly(input: Bytes, x: Bytes)
    ensures Decode(Cleaned(input)) == Some(x) <==> Cleaned(input) == Encode(x)
    ensures Decode(Encode(x)) == Some(x) && Cleaned(Encode(x)) == Encode(x)
  {
    DecodeIff(Cleaned(input), x);
    DecodeEncode(x);
    CleanedEncode(x);
  }

  /** What cleaning does, octet by octet: the five white space octets go, wherever they stand, and
      all others stay, in their order. */
  lemma {:induction false} CleanedPiecewise(a: Bytes, b: Bytes)
    ensures Cleaned(a + b) == Cleaned(a) + Cleaned(b)
    ensures forall c :: Cleaned([c]) == if c in {9, 10, 12, 13, 32} then [] else [c]
    decreases |a|
  {
    forall c: Byte
      ensures Cleaned([c]) == if c in {9, 10, 12, 13, 32} then [] else [c]
    {
      assert [c][1..] == [];
    }
    if a == [] {
      assert a + b == b;
    } else {
      assert (a + b)[1..] == a[1..] + b;
      CleanedPiecewise(a[1..], b);
    }
  }

  /** Three of the test vectors of section 10 of RFC 4648, and one with the last two symbols. */
  lemma Vectors()
    ensures Encode([102]) == [90, 103, 61, 61]
    ensures Encode([102, 111]) == [90, 109, 56, 61]
    ensures Encode([102, 111, 111]) == [90, 109, 57, 118]
    ensures Encode([251, 255, 191]) == [43, 47, 43, 47]
  {
    VectorBits();
    hide SixBits;
  }

  lemma VectorBits()
    ensures SixBits([102]) == [25, 32] && SixBits([102, 111]) == [25, 38, 60]
    ensures SixBits([102, 111, 111]) == [25, 38, 61, 47] && SixBits([251, 255, 191]) == [62, 63, 62, 63]
  {
    assert [102, 111, 111][3..] == [] && [251, 255, 191][3..] == [];
  }

  lemma CleanedEncode(x: Bytes)
    ensures Cleaned(Encode(x)) == Encode(x)
  {
    var c := Encode(x);
    var v := SixBits(x);
    forall i | 0 <= i < |c|
      ensures !IsAsciiWhitespace(c[i])
    {
      if i < |v| {
        assert c[i] == Symbol(v[i]);
      }
    }
    CleanedIdentity(c);
  }

  lemma CleanedIdentity(c: Bytes)
    requires forall i :: 0 <= i < |c| ==> !IsAsciiWhitespace(c[i])
    ensures Cleaned(c) == c
  {
  }
}
