/** The streaming Annex B parser (AnnexBParser.swift).

    `Closed` and `Last` are the reference reading of a whole byte stream; the
    parser class works on a residual buffer and lists of start codes, chunk by
    chunk. */
module AnnexB {
  import opened Basics

  datatype Kind = NonIdrSlice | IdrSlice | Sps | Pps | AccessUnitDelimiter | Other(raw: Byte)

  datatype NalUnit = NalUnit(kind: Kind, payload: Bytes)

  function KindOf(rawType: Byte): Kind {
    match rawType
    case 1 => NonIdrSlice
    case 5 => IdrSlice
    case 7 => Sps
    case 8 => Pps
    case 9 => AccessUnitDelimiter
    case _ => Other(rawType)
  }

  /** `makeUnit`: nothing for an empty slice or one with the forbidden bit set. */
  function MakeUnit(slice: Bytes): Option<NalUnit> {
    if slice == [] || slice[0] >= 0x80 then None
    else Some(NalUnit(KindOf(slice[0] % 0x20), slice))
  }

  function UnitList(slice: Bytes): seq<NalUnit> {
    match MakeUnit(slice)
    case None => []
    case Some(unit) => [unit]
  }

  // ----- The reference reading of a byte stream -----

  /** Length of the start code standing at `i`; 0 when there is none. */
  function CodeAt(s: Bytes, i: nat): (n: nat)
    ensures n == 0 || ((n == 3 || n == 4) && i + n <= |s|)
  {
    if i + 2 < |s| && s[i] == 0 && s[i + 1] == 0 then
      if s[i + 2] == 1 then 3
      else if i + 3 < |s| && s[i + 2] == 0 && s[i + 3] == 1 then 4
      else 0
    else 0
  }

  /** The first position from `i` on where a start code stands; `|s|` when there is none. */
  function Next(s: Bytes, i: nat): (j: nat)
    requires i <= |s|
    ensures i <= j <= |s|
    ensures j < |s| ==> CodeAt(s, j) != 0
    decreases |s| - i
  {
    if i == |s| || CodeAt(s, i) != 0 then i else Next(s, i + 1)
  }

  /** The units that two consecutive start codes enclose, from the start code at `at` on. */
  function Closed(s: Bytes, at: nat): seq<NalUnit>
    requires CodeAt(s, at) != 0
    decreases |s| - at
  {
    var begin := at + CodeAt(s, at);
    var next := Next(s, begin);
    if next == |s| then [] else UnitList(s[begin..next]) + Closed(s, next)
  }

  /** The position of the last start code. */
  function Last(s: Bytes, at: nat): (last: nat)
    requires CodeAt(s, at) != 0
    ensures at <= last < |s| && CodeAt(s, last) != 0
    decreases |s| - at
  {
    var next := Next(s, at + CodeAt(s, at));
    if next == |s| then at else Last(s, next)
  }

  /** The unit that the last start code opens. */
  function LastUnit(s: Bytes, at: nat): seq<NalUnit>
    requires CodeAt(s, at) != 0
  {
    var last := Last(s, at);
    UnitList(s[last + CodeAt(s, last)..])
  }

  function LastThree(s: Bytes): Bytes {
    if |s| <= 3 then s else s[|s| - 3..]
  }

  function Synced(s: Bytes): bool {
    Next(s, 0) < |s|
  }

  /** The units a stream has completed so far. */
  function Complete(s: Bytes): seq<NalUnit> {
    if Synced(s) then Closed(s, Next(s, 0)) else []
  }

  /** The end of the stream that later bytes can still affect. */
  function Residue(s: Bytes): Bytes {
    if Synced(s) then s[Last(s, Next(s, 0))..] else LastThree(s)
  }

  /** The unit left open, emitted only at the end of the stream. */
  function Open(s: Bytes): seq<NalUnit> {
    if Synced(s) then LastUnit(s, Next(s, 0)) else []
  }

  /** Every unit of a complete stream. */
  function AllUnits(s: Bytes): seq<NalUnit> {
    Complete(s) + Open(s)
  }

  // ----- Start codes under slicing and extension -----

  lemma NextFirst(s: Bytes, i: nat, k: nat)
    requires i <= |s| && i <= k < Next(s, i)
    ensures CodeAt(s, k) == 0
    decreases |s| - i
  {
    if i < k {
      NextFirst(s, i + 1, k);
    }
  }

  /** Two scans agree as soon as both stop at the same place. */
  lemma NextIs(s: Bytes, i: nat, j: nat)
    requires i <= j <= |s|
    requires j < |s| ==> CodeAt(s, j) != 0
    requires forall k :: i <= k < j ==> CodeAt(s, k) == 0
    ensures Next(s, i) == j
    decreases j - i
  {
    if i < j {
      NextIs(s, i + 1, j);
    }
  }

  lemma NextDrop(s: Bytes, d: nat, i: nat)
    requires d + i <= |s|
    ensures Next(s[d..], i) + d == Next(s, d + i)
    ensures CodeAt(s[d..], i) == CodeAt(s, d + i)
    decreases |s| - i
  {
    if d + i < |s| && CodeAt(s, d + i) == 0 {
      NextDrop(s, d, i + 1);
    }
  }

  lemma CodeAtExtend(s: Bytes, c: Bytes, i: nat)
    requires CodeAt(s, i) != 0
    ensures CodeAt(s + c, i) == CodeAt(s, i)
  {
  }

  /** A start code found in a prefix is found at the same place, with the same
      length, whatever bytes follow. */
  lemma NextExtend(s: Bytes, c: Bytes, i: nat)
    requires i <= |s| && Next(s, i) < |s|
    ensures Next(s + c, i) == Next(s, i)
    ensures CodeAt(s + c, Next(s, i)) == CodeAt(s, Next(s, i))
    decreases |s| - i
  {
    if CodeAt(s, i) == 0 {
      NextExtend(s, c, i + 1);
      assert i + 4 <= |s|;
    }
  }

  /** The units that `c` completes are read from the last start code of `s` on. */
  lemma {:induction false} ClosedExtend(s: Bytes, c: Bytes, at: nat)
    requires CodeAt(s, at) != 0
    ensures CodeAt(s + c, at) == CodeAt(s, at)
    ensures CodeAt(s + c, Last(s, at)) == CodeAt(s, Last(s, at))
    ensures Closed(s + c, at) == Closed(s, at) + Closed(s + c, Last(s, at))
    ensures Last(s + c, at) == Last(s + c, Last(s, at))
    decreases |s| - at
  {
    hide UnitList, MakeUnit, CodeAt, Next;
    var begin := at + CodeAt(s, at);
    CodeAtExtend(s, c, at);
    var next := Next(s, begin);
    if next < |s| {
      NextExtend(s, c, begin);
      ClosedExtend(s, c, next);
      assert (s + c)[begin..next] == s[begin..next];
    }
  }

  lemma {:induction false} ClosedDrop(s: Bytes, d: nat, at: nat)
    requires d + at <= |s| && CodeAt(s, d + at) != 0
    ensures CodeAt(s[d..], at) == CodeAt(s, d + at)
    ensures Closed(s[d..], at) == Closed(s, d + at)
    ensures Last(s[d..], at) + d == Last(s, d + at)
    decreases |s| - at
  {
    hide UnitList, MakeUnit, CodeAt;
    NextDrop(s, d, at);
    var begin := d + at + CodeAt(s, d + at);
    NextDrop(s, d, begin - d);
    var next := Next(s, begin);
    if next < |s| {
      ClosedDrop(s, d, next - d);
      assert s[d..][begin - d..next - d] == s[begin..next];
    }
  }

  lemma LastUnitDrop(s: Bytes, d: nat)
    requires d <= |s| && CodeAt(s, d) != 0
    ensures CodeAt(s[d..], 0) == CodeAt(s, d)
    ensures Closed(s[d..], 0) == Closed(s, d)
    ensures LastUnit(s[d..], 0) == LastUnit(s, d)
  {
    hide UnitList, CodeAt, Next, Last, Closed;
    ClosedDrop(s, d, 0);
    var last := Last(s[d..], 0);
    NextDrop(s, d, last);
    assert s[d..][last + CodeAt(s[d..], last)..] == s[d + last + CodeAt(s, d + last)..];
  }

  /** What one start code contributes, in terms of the start code after it. */
  lemma ClosedStep(s: Bytes, at: nat)
    requires at < |s| && CodeAt(s, at) != 0
    ensures
      var begin := at + CodeAt(s, at);
      var next := Next(s, begin);
      if next == |s| then Closed(s, at) == [] && Last(s, at) == at
      else Closed(s, at) == UnitList(s[begin..next]) + Closed(s, next) && Last(s, at) == Last(s, next)
  {
  }

  /** No start code follows the last one. */
  lemma {:induction false} LastIsLast(s: Bytes, at: nat)
    requires CodeAt(s, at) != 0
    ensures Next(s, Last(s, at) + CodeAt(s, Last(s, at))) == |s|
    decreases |s| - at
  {
    var next := Next(s, at + CodeAt(s, at));
    if next < |s| {
      LastIsLast(s, next);
    }
  }

  // ----- The residue stands for the whole stream read so far -----

  /** A stream cut off at its last start code. */
  lemma FromLast(s: Bytes, last: nat)
    requires last < |s| && CodeAt(s, last) != 0
    requires Next(s, last + CodeAt(s, last)) == |s|
    ensures
      var r := s[last..];
      && Next(r, 0) == 0 && CodeAt(r, 0) != 0
      && Closed(r, 0) == []
      && LastUnit(r, 0) == LastUnit(s, last)
  {
    hide CodeAt, Closed, Last, UnitList, Next;
    NextDrop(s, last, 0);
    NextIs(s[last..], 0, 0);
    ClosedStep(s, last);
    LastUnitDrop(s, last);
  }

  /** The residue of a synchronised stream begins with its last start code. */
  lemma ResidueSynced(s: Bytes)
    requires Synced(s)
    ensures Synced(Residue(s))
    ensures Complete(Residue(s)) == [] && Open(Residue(s)) == Open(s)
  {
    hide CodeAt, Closed, Last, UnitList, Next;
    var at := Next(s, 0);
    var last := Last(s, at);
    LastIsLast(s, at);
    FromLast(s, last);
    ClosedStep(s, last);
  }

  /** The residue of a stream without a start code holds none either, and one
      that appears later begins inside it. */
  lemma ResidueUnsynced(s: Bytes, c: Bytes)
    requires !Synced(s)
    ensures !Synced(LastThree(s))
    ensures Next(s + c, 0) == Next(LastThree(s) + c, 0) + (|s| - |LastThree(s)|)
    ensures |s| <= 3 ==> LastThree(s) == s
    ensures LastThree(s) == s[|s| - |LastThree(s)|..]
  {
    var d := |s| - |LastThree(s)|;
    NextDrop(s, d, 0);
    forall k | 0 <= k < |s|
      ensures CodeAt(s, k) == 0
    {
      NextFirst(s, 0, k);
    }
    NextIs(s, d, |s|);
    var t := s + c;
    assert t[d..] == LastThree(s) + c;
    NextDrop(t, d, 0);
    var j := Next(t, d);
    forall k | 0 <= k < j
      ensures CodeAt(t, k) == 0
    {
      if k < d {
        assert CodeAt(s, k) == 0;
      } else {
        NextFirst(t, d, k);
      }
    }
    NextIs(t, 0, j);
  }

  /** Reading `c` after `s` gives the same units, and leaves the same residue, as
      reading it after the residue of `s`. */
  lemma ResidueSuffices(s: Bytes, c: Bytes)
    ensures Complete(s + c) == Complete(s) + Complete(Residue(s) + c)
    ensures Residue(s + c) == Residue(Residue(s) + c)
  {
    hide Complete, Residue;
    if Synced(s) {
      ResidueSufficesSynced(s, c);
    } else {
      ResidueSufficesUnsynced(s, c);
    }
  }

  lemma ResidueSufficesSynced(s: Bytes, c: Bytes)
    requires Synced(s)
    ensures Complete(s + c) == Complete(s) + Complete(Residue(s) + c)
    ensures Residue(s + c) == Residue(Residue(s) + c)
  {
    hide UnitList, CodeAt, Closed, Last, Next;
    var at := Next(s, 0);
    var last := Last(s, at);
    NextExtend(s, c, 0);
    ClosedExtend(s, c, at);
    var t := s + c;
    var u := Residue(s) + c;
    assert u == t[last..];
    NextDrop(t, last, 0);
    ClosedDrop(t, last, 0);
    NextIs(u, 0, 0);
    assert u[Last(u, 0)..] == t[last + Last(u, 0)..];
  }

  lemma ResidueSufficesUnsynced(s: Bytes, c: Bytes)
    requires !Synced(s)
    ensures Complete(s + c) == Complete(s) + Complete(Residue(s) + c)
    ensures Residue(s + c) == Residue(Residue(s) + c)
  {
    hide UnitList, CodeAt, Closed, Last, Next;
    ResidueUnsynced(s, c);
    var r := LastThree(s);
    var d := |s| - |r|;
    var t := s + c;
    var u := r + c;
    assert u == t[d..];
    if Synced(t) {
      ClosedDrop(t, d, Next(u, 0));
      var last := Last(u, Next(u, 0));
      assert u[last..] == t[d + last..];
    } else {
      assert LastThree(u) == LastThree(t);
    }
  }

  /** What the residue alone still holds of the stream. */
  lemma ResidueIsRead(s: Bytes)
    ensures Complete(Residue(s)) == [] && Open(Residue(s)) == Open(s)
    ensures Synced(Residue(s)) == Synced(s)
  {
    if Synced(s) {
      ResidueSynced(s);
    } else {
      ResidueUnsynced(s, []);
    }
  }

  /** The residual buffer is at most three bytes until a start code has been seen;
      from then on it is the stream from its last start code on. */
  lemma ResidueShape(s: Bytes)
    ensures !Synced(s) ==> |Residue(s)| <= 3 && AllUnits(s) == []
    ensures Synced(s) ==>
      exists last :: 0 <= last < |s| && CodeAt(s, last) != 0 && Residue(s) == s[last..]
                     && forall k :: last + CodeAt(s, last) <= k < |s| ==> CodeAt(s, k) == 0
  {
    if Synced(s) {
      var last := Last(s, Next(s, 0));
      LastIsLast(s, Next(s, 0));
      var begin := last + CodeAt(s, last);
      forall k | begin <= k < |s|
        ensures CodeAt(s, k) == 0
      {
        NextFirst(s, begin, k);
      }
    }
  }

  // ----- The parser -----

  datatype StartCode = StartCode(index: nat, codeLength: nat)

  /** `nextStartCode`. */
  method NextStartCode(data: Bytes, start: nat) returns (found: Option<StartCode>)
    requires start <= |data|
    ensures found == (var j := Next(data, start);
                      if j == |data| then None else Some(StartCode(j, CodeAt(data, j))))
  {
    var index := start;
    while index + 2 < |data|
      invariant start <= index <= |data|
      invariant Next(data, start) == Next(data, index)
    {
      if data[index] == 0 && data[index + 1] == 0 {
        if data[index + 2] == 1 {
          return Some(StartCode(index, 3));
        }
        if index + 3 < |data| && data[index + 2] == 0 && data[index + 3] == 1 {
          return Some(StartCode(index, 4));
        }
      }
      index := index + 1;
    }
    NextIs(data, index, |data|);
    found := None;
  }

  /** `starts` lists the start codes of `s` in order, all of those below `upTo`. */
  ghost predicate IsStartList(s: Bytes, starts: seq<StartCode>, upTo: nat)
  {
    && (starts == [] ==> upTo == 0)
    && (starts != [] ==>
          && starts[0].index == Next(s, 0)
          && upTo == starts[|starts| - 1].index + starts[|starts| - 1].codeLength)
    && (forall p :: 0 <= p < |starts| ==>
          && starts[p].index < |s|
          && starts[p].codeLength == CodeAt(s, starts[p].index) > 0)
    && (forall p :: 0 < p < |starts| ==>
          starts[p].index == Next(s, starts[p - 1].index + starts[p - 1].codeLength))
  }

  /** The first loop of `drain`. */
  method FindStarts(s: Bytes) returns (starts: seq<StartCode>, ghost upTo: nat)
    ensures IsStartList(s, starts, upTo)
    ensures upTo <= |s| && Next(s, upTo) == |s|
  {
    hide CodeAt, Next;
    starts := [];
    var index := 0;
    while index < |s|
      invariant index <= |s|
      invariant IsStartList(s, starts, index)
      decreases |s| - index
    {
      var found := NextStartCode(s, index);
      if found == None {
        break;
      }
      starts := starts + [found.value];
      index := found.value.index + found.value.codeLength;
    }
    upTo := index;
  }

  /** The second loop of `drain`. */
  method MakeUnits(s: Bytes, starts: seq<StartCode>, ghost upTo: nat, flushTail: bool)
    returns (units: seq<NalUnit>)
    requires IsStartList(s, starts, upTo) && starts != []
    requires upTo <= |s| && Next(s, upTo) == |s|
    ensures Synced(s) && starts[|starts| - 1].index == Last(s, Next(s, 0))
    ensures units == Complete(s) + if flushTail then Open(s) else []
  {
    hide CodeAt, Next, Closed, Last, MakeUnit;
    units := [];
    ghost var first := Next(s, 0);
    ghost var last := starts[|starts| - 1].index;
    assert s[last + CodeAt(s, last)..] == s[last + CodeAt(s, last)..|s|];
    var position := 0;
    while position < |starts|
      invariant 0 <= position <= |starts|
      invariant position < |starts| ==>
        && Last(s, first) == Last(s, starts[position].index)
        && Closed(s, first) == units + Closed(s, starts[position].index)
      invariant position == |starts| ==>
        && flushTail
        && Last(s, first) == last
        && units == Closed(s, first) + LastUnit(s, first)
    {
      var start := starts[position];
      ClosedStep(s, start.index);
      var payloadStart := start.index + start.codeLength;
      var payloadEnd;
      if position + 1 < |starts| {
        payloadEnd := starts[position + 1].index;
      } else if flushTail {
        payloadEnd := |s|;
      } else {
        break;
      }
      var unit := MakeUnit(s[payloadStart..payloadEnd]);
      if unit.Some? {
        units := units + [unit.value];
      }
      position := position + 1;
    }
  }

  class AnnexBParser {
    var buffer: Bytes
    /** Everything fed to the parser, and everything it has emitted. */
    ghost var stream: Bytes
    ghost var emitted: seq<NalUnit>

    ghost predicate Valid()
      reads this
    {
      buffer == Residue(stream) && emitted == Complete(stream)
    }

    constructor ()
      ensures Valid() && stream == [] && emitted == []
    {
      buffer := [];
      stream, emitted := [], [];
    }

    method Append(chunk: Bytes) returns (units: seq<NalUnit>)
      requires Valid()
      modifies this
      ensures Valid()
      ensures stream == old(stream) + chunk
      ensures emitted == old(emitted) + units
    {
      hide Complete, Residue;
      ResidueSuffices(stream, chunk);
      buffer := buffer + chunk;
      units := Drain(false);
      stream := stream + chunk;
      emitted := emitted + units;
    }

    /** Ends the stream: together with what was emitted before, every unit of it. */
    method Finish() returns (units: seq<NalUnit>)
      requires Valid()
      modifies this
      ensures old(emitted) + units == AllUnits(old(stream))
      ensures buffer == if Synced(old(stream)) then [] else old(buffer)
    {
      hide Complete, Residue, Open, Synced;
      ResidueIsRead(stream);
      units := Drain(true);
    }

    method Drain(flushTail: bool) returns (units: seq<NalUnit>)
      modifies this`buffer
      ensures units == Complete(old(buffer)) + if flushTail then Open(old(buffer)) else []
      ensures buffer == if flushTail then (if Synced(old(buffer)) then [] else old(buffer))
                        else Residue(old(buffer))
    {
      var starts, upTo := FindStarts(buffer);
      if starts == [] {
        if !flushTail && |buffer| > 3 {
          buffer := buffer[|buffer| - 3..];
        }
        return [];
      }
      units := MakeUnits(buffer, starts, upTo, flushTail);
      if flushTail {
        buffer := [];
      } else {
        buffer := buffer[starts[|starts| - 1].index..];
      }
    }
  }

  // ----- Chunk independence -----

  function Flatten(chunks: seq<Bytes>): Bytes {
    if chunks == [] then [] else chunks[0] + Flatten(chunks[1..])
  }

  datatype Fed = Fed(units: seq<NalUnit>, buffer: Bytes)

  /** What successive `append` calls emit and leave, starting from a residual buffer. */
  function Feed(buffer: Bytes, chunks: seq<Bytes>): Fed
    decreases |chunks|
  {
    if chunks == [] then Fed([], buffer)
    else
      var all := buffer + chunks[0];
      var later := Feed(Residue(all), chunks[1..]);
      Fed(Complete(all) + later.units, later.buffer)
  }

  lemma EmptyStream()
    ensures Complete([]) == [] && Residue([]) == [] && Open([]) == []
  {
  }

  lemma {:induction false} FeedAgrees(s: Bytes, chunks: seq<Bytes>)
    ensures
      var fed := Feed(Residue(s), chunks);
      var t := s + Flatten(chunks);
      && Complete(s) + fed.units == Complete(t)
      && fed.buffer == Residue(t)
    decreases |chunks|
  {
    hide Complete, Residue;
    if chunks == [] {
      assert s + [] == s;
    } else {
      ResidueSuffices(s, chunks[0]);
      FeedAgrees(s + chunks[0], chunks[1..]);
      assert s + chunks[0] + Flatten(chunks[1..]) == s + Flatten(chunks);
    }
  }

  /** However a stream is cut into chunks, `append` on each of them followed by
      `finish` yields the units of the stream. */
  lemma ChunkIndependence(chunks: seq<Bytes>)
    ensures
      var fed := Feed([], chunks);
      fed.units + Open(fed.buffer) == AllUnits(Flatten(chunks))
  {
    hide Complete, Residue, Feed, Open;
    EmptyStream();
    FeedAgrees([], chunks);
    assert [] + Flatten(chunks) == Flatten(chunks);
    ResidueIsRead(Flatten(chunks));
  }

  /** The same through the parser itself. */
  method FeedParser(chunks: seq<Bytes>) returns (units: seq<NalUnit>)
    ensures units == AllUnits(Flatten(chunks))
  {
    hide Complete, Residue, Open;
    var parser := new AnnexBParser();
    units := [];
    var i := 0;
    while i < |chunks|
      invariant 0 <= i <= |chunks|
      invariant parser.Valid()
      invariant parser.emitted == units
      invariant parser.stream + Flatten(chunks[i..]) == Flatten(chunks)
    {
      assert chunks[i..][1..] == chunks[i + 1..];
      var more := parser.Append(chunks[i]);
      units := units + more;
      i := i + 1;
    }
    assert parser.stream == Flatten(chunks);
    var last := parser.Finish();
    units := units + last;
  }

  // ----- Round trip -----

  function Code(long: bool): Bytes {
    if long then [0, 0, 0, 1] else [0, 0, 1]
  }

  /** A payload that start codes can set off: nonempty, no start code inside, no trailing zero
      byte. Conforming encoders produce these, with the forbidden bit clear. */
  ghost predicate Codable(p: Bytes) {
    && p != [] && p[|p| - 1] != 0
    && forall k :: 0 <= k < |p| - 2 ==> !(p[k] == 0 && p[k + 1] == 0 && p[k + 2] == 1)
  }

  datatype Coded = Coded(long: bool, payload: Bytes)

  ghost predicate AllCodable(nals: seq<Coded>) {
    forall i :: 0 <= i < |nals| ==> Codable(nals[i].payload)
  }

  function Print(nals: seq<Coded>): Bytes {
    if nals == [] then [] else Code(nals[0].long) + nals[0].payload + Print(nals[1..])
  }

  /** The units that were printed. */
  function Units(nals: seq<Coded>): seq<NalUnit> {
    if nals == [] then [] else UnitList(nals[0].payload) + Units(nals[1..])
  }

  /** Nothing in such a payload, or across its end, reads as a start code. */
  lemma NoCodeInside(p: Bytes, rest: Bytes, q: nat)
    requires Codable(p) && q < |p|
    ensures CodeAt(p + rest, q) == 0
  {
    var s := p + rest;
    assert s[|p| - 1] == p[|p| - 1] != 0;
    if q + 2 < |p| {
      assert !(p[q] == 0 && p[q + 1] == 0 && p[q + 2] == 1);
      if q + 3 < |p| {
        assert !(p[q + 1] == 0 && p[q + 2] == 0 && p[q + 3] == 1);
      }
    }
  }

  /** After one printed unit the next start code is exactly where the next unit begins. */
  lemma PrintedBoundary(long: bool, p: Bytes, rest: Bytes)
    requires Codable(p)
    requires rest == [] || CodeAt(rest, 0) != 0
    ensures
      var s := Code(long) + p + rest;
      var n := |Code(long)|;
      && CodeAt(s, 0) == n
      && Next(s, n) == n + |p|
      && s[n..n + |p|] == p
      && s[n + |p|..] == rest
  {
    var n := |Code(long)|;
    var s := Code(long) + p + rest;
    assert s[n..] == p + rest;
    assert (p + rest)[|p|..] == rest;
    NextDrop(p + rest, |p|, 0);
    forall q | 0 <= q < |p|
      ensures CodeAt(p + rest, q) == 0
    {
      NoCodeInside(p, rest, q);
    }
    NextIs(p + rest, 0, |p|);
    NextDrop(s, n, 0);
  }

  lemma {:induction false} PrintedUnits(nals: seq<Coded>)
    requires nals != [] && AllCodable(nals)
    ensures CodeAt(Print(nals), 0) != 0
    ensures Closed(Print(nals), 0) + LastUnit(Print(nals), 0) == Units(nals)
    decreases |nals|
  {
    hide UnitList, CodeAt, Closed, Last, Next, LastUnit, Code;
    var s := Print(nals);
    var rest := Print(nals[1..]);
    var p := nals[0].payload;
    var d := |Code(nals[0].long)| + |p|;
    if |nals| > 1 {
      PrintedUnits(nals[1..]);
      PrintedFirst(nals[0].long, p, rest);
      assert s[d..] == rest;
      LastUnitDrop(s, d);
    } else {
      PrintedFirst(nals[0].long, p, []);
    }
  }

  lemma PrintedFirst(long: bool, p: Bytes, rest: Bytes)
    requires Codable(p)
    requires rest == [] || CodeAt(rest, 0) != 0
    ensures
      var s := Code(long) + p + rest;
      var d := |Code(long)| + |p|;
      && CodeAt(s, 0) != 0
      && (rest == [] ==> Closed(s, 0) + LastUnit(s, 0) == UnitList(p))
      && (rest != [] ==>
            && CodeAt(s, d) != 0
            && Closed(s, 0) == UnitList(p) + Closed(s, d)
            && LastUnit(s, 0) == LastUnit(s, d))
  {
    hide UnitList, CodeAt, Closed, Last, Next;
    PrintedBoundary(long, p, rest);
    var s := Code(long) + p + rest;
    ClosedStep(s, 0);
    if rest == [] {
      assert s[|Code(long)|..] == p;
    }
  }

  predicate Forbidden(p: Bytes) {
    p != [] && p[0] >= 128
  }

  /** The payloads whose forbidden bit is clear. */
  function Sound(nals: seq<Coded>): seq<Bytes> {
    if nals == [] then []
    else (if Forbidden(nals[0].payload) then [] else [nals[0].payload]) + Sound(nals[1..])
  }

  /** The kind that the low five bits of a header tell. */
  predicate IsKind(kind: Kind, rawType: Byte) {
    && (kind == NonIdrSlice <==> rawType == 1) && (kind == IdrSlice <==> rawType == 5)
    && (kind == Sps <==> rawType == 7) && (kind == Pps <==> rawType == 8)
    && (kind == AccessUnitDelimiter <==> rawType == 9)
    && (kind.Other? ==> kind.raw == rawType)
  }

  /** Units printed with any mix of the two start codes come back, in order, unchanged and with
      their kinds, but for those with the forbidden bit set, however the printed stream is cut
      into chunks. */
  lemma RoundTrip(nals: seq<Coded>, chunks: seq<Bytes>)
    requires AllCodable(nals)
    requires Flatten(chunks) == Print(nals)
    ensures
      var fed := Feed([], chunks);
      var units := fed.units + Open(fed.buffer);
      && |units| == |Sound(nals)|
      && (forall i :: 0 <= i < |units| ==>
            units[i].payload == Sound(nals)[i] != [] && IsKind(units[i].kind, Sound(nals)[i][0] % 32))
      && ((forall i :: 0 <= i < |nals| ==> !Forbidden(nals[i].payload)) ==>
            |units| == |nals| && forall i :: 0 <= i < |nals| ==> units[i].payload == nals[i].payload)
  {
    hide UnitList, CodeAt, Feed, IsKind, Units, Sound;
    ChunkIndependence(chunks);
    UnitsOneByOne(nals);
    if forall i :: 0 <= i < |nals| ==> !Forbidden(nals[i].payload) {
      SoundOneByOne(nals);
    }
    if nals != [] {
      PrintedUnits(nals);
    }
  }

  lemma {:induction false} UnitsOneByOne(nals: seq<Coded>)
    requires AllCodable(nals)
    ensures nals == [] ==> Units(nals) == []
    ensures |Units(nals)| == |Sound(nals)|
    ensures forall i :: 0 <= i < |Sound(nals)| ==>
              Units(nals)[i].payload == Sound(nals)[i] != [] && IsKind(Units(nals)[i].kind, Sound(nals)[i][0] % 32)
    decreases |nals|
  {
    if nals != [] {
      UnitsOneByOne(nals[1..]);
      UnitIs(nals[0].payload);
      hide UnitList, IsKind;
    }
  }

  lemma UnitIs(p: Bytes)
    requires p != []
    ensures Forbidden(p) ==> UnitList(p) == []
    ensures !Forbidden(p) ==>
              |UnitList(p)| == 1 && UnitList(p)[0].payload == p && IsKind(UnitList(p)[0].kind, p[0] % 32)
  {
  }

  lemma {:induction false} SoundOneByOne(nals: seq<Coded>)
    requires forall i :: 0 <= i < |nals| ==> !Forbidden(nals[i].payload)
    ensures |Sound(nals)| == |nals| && forall i :: 0 <= i < |nals| ==> Sound(nals)[i] == nals[i].payload
    decreases |nals|
  {
    if nals != [] {
      SoundOneByOne(nals[1..]);
    }
  }
}
