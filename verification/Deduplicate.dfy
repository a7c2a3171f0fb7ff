/** De-duplication of listed Android devices (wireless.rs): one phone shows up over USB and
    over several wireless transports, and its serial number property tells which entries
    are the same phone. */
module Deduplicate {
  import opened Basics

  type Serial = string

  /** `state` stands for whatever else is listed about a device. */
  datatype Device = Device(serial: Serial, state: string)

  /** What reading the identity behind a serial gives; `None` if it cannot be read. */
  type Reading = Serial -> Option<string>

  predicate IsWireless(d: Device) {
    "adb-" <= d.serial
  }

  /** Both identities are known and equal. */
  predicate Same(read: Reading, a: Device, b: Device) {
    read(a.serial) != None && read(a.serial) == read(b.serial)
  }

  // ----- The pairs of entries that are the same phone -----

  /** Entries number `i` and `j` are the same phone. */
  predicate SameAt(listed: seq<Device>, read: Reading, i: nat, j: nat) {
    i < j < |listed| && Same(read, listed[i], listed[j])
  }

  predicate Before(a: (nat, nat), b: (nat, nat)) {
    a.0 < b.0 || (a.0 == b.0 && a.1 < b.1)
  }

  /** `at` gives, row by row and each once, all places `p` before `next` of two entries that are
      the same phone, and `pairs` their serials. */
  ghost predicate Lists(listed: seq<Device>, read: Reading, next: (nat, nat), at: seq<(nat, nat)>,
                        pairs: seq<(Serial, Serial)>)
  {
    && |at| == |pairs|
    && (forall k :: 0 <= k < |at| ==>
          && SameAt(listed, read, at[k].0, at[k].1) && Before(at[k], next)
          && pairs[k] == (listed[at[k].0].serial, listed[at[k].1].serial))
    && (forall k, l :: 0 <= k < l < |at| ==> Before(at[k], at[l]))
    && (forall i: nat, j: nat :: SameAt(listed, read, i, j) && Before((i, j), next) ==> (i, j) in at)
  }

  ghost predicate ListsAll(listed: seq<Device>, read: Reading, pairs: seq<(Serial, Serial)>) {
    var end := (|listed|, |listed| + 1);
    exists at :: Lists(listed, read, end, at, pairs)
  }

  lemma NextPlace(listed: seq<Device>, read: Reading, i: nat, j: nat, at: seq<(nat, nat)>, pairs: seq<(Serial, Serial)>)
    requires Lists(listed, read, (i, j), at, pairs)
    ensures if SameAt(listed, read, i, j)
            then Lists(listed, read, (i, j + 1), at + [(i, j)], pairs + [(listed[i].serial, listed[j].serial)])
            else Lists(listed, read, (i, j + 1), at, pairs)
  {
    hide SameAt;
  }

  lemma NextRow(listed: seq<Device>, read: Reading, i: nat, j: nat, at: seq<(nat, nat)>, pairs: seq<(Serial, Serial)>)
    requires Lists(listed, read, (i, j), at, pairs)
    requires |listed| <= j || (i < |listed| && read(listed[i].serial) == None)
    ensures Lists(listed, read, (i + 1, i + 2), at, pairs)
  {
    assert forall k: nat :: SameAt(listed, read, i, k) ==> Before((i, k), (i, j));
    var next := i + 1;
    assert forall k: nat :: SameAt(listed, read, next, k) ==> next + 1 <= k;
    hide SameAt;
  }

  /** All pairs of entries that are the same phone, row by row. */
  method IdentityPairs(listed: seq<Device>, read: Reading) returns (pairs: seq<(Serial, Serial)>)
    ensures ListsAll(listed, read, pairs)
  {
    hide Lists, Same;
    pairs := [];
    ghost var at: seq<(nat, nat)> := [];
    NoPlaces(listed, read);
    for i := 0 to |listed|
      invariant Lists(listed, read, (i, i + 1), at, pairs)
    {
      var identity := read(listed[i].serial);
      ghost var next := i + 1;
      if identity != None {
        for j := i + 1 to |listed|
          invariant next == j && Lists(listed, read, (i, next), at, pairs)
        {
          NextPlace(listed, read, i, j, at, pairs);
          if read(listed[j].serial) == identity {
            assert SameAt(listed, read, i, j) by {
              KnownSame(listed, read, i, j);
            }
            pairs, at := pairs + [(listed[i].serial, listed[j].serial)], at + [(i, j)];
          } else {
            assert !SameAt(listed, read, i, j) by {
              KnownSame(listed, read, i, j);
            }
          }
          next := j + 1;
        }
      }
      NextRow(listed, read, i, next, at, pairs);
    }
    ghost var end := (|listed|, |listed| + 1);
    assert Lists(listed, read, end, at, pairs);
  }

  lemma KnownSame(listed: seq<Device>, read: Reading, i: nat, j: nat)
    requires i < j < |listed| && read(listed[i].serial) != None
    ensures SameAt(listed, read, i, j) == (read(listed[j].serial) == read(listed[i].serial))
  {
  }

  lemma NoPlaces(listed: seq<Device>, read: Reading)
    ensures Lists(listed, read, (0, 1), [], [])
  {
  }

  // ----- Equivalence classes -----

  /** The entry at `i` is the first of its phone; entries of unknown identity each count. */
  ghost predicate IsFirst(listed: seq<Device>, read: Reading, i: nat)
    requires i < |listed|
  {
    forall j :: 0 <= j < i ==> !Same(read, listed[j], listed[i])
  }

  /** Where phones first appear, in order. */
  ghost function Firsts(listed: seq<Device>, read: Reading, n: nat): (firsts: seq<nat>)
    requires n <= |listed|
    ensures forall k :: 0 <= k < |firsts| ==> firsts[k] < n
  {
    if n == 0 then [] else Firsts(listed, read, n - 1) + if IsFirst(listed, read, n - 1) then [n - 1] else []
  }

  /** The entry that stands for the phone first seen at `i`, among the first `n`: its first
      wireless entry, or the entry at `i` if it has none. */
  ghost predicate Represents(listed: seq<Device>, read: Reading, n: nat, i: nat, r: nat)
    requires i < n <= |listed|
  {
    && i <= r < n && (r == i || Same(read, listed[i], listed[r]))
    && (IsWireless(listed[r]) ==>
          forall j :: i <= j < r ==> !(IsWireless(listed[j]) && (j == i || Same(read, listed[i], listed[j]))))
    && (!IsWireless(listed[r]) ==>
          r == i && forall j :: i <= j < n ==> !(IsWireless(listed[j]) && (j == i || Same(read, listed[i], listed[j]))))
  }

  /** `result` has one entry for each phone among the first `n`, in the order of first appearance. */
  ghost predicate OnePerPhone(listed: seq<Device>, read: Reading, n: nat, result: seq<Device>, chosen: seq<nat>)
    requires n <= |listed|
  {
    var firsts := Firsts(listed, read, n);
    && |result| == |chosen| == |firsts|
    && forall k :: 0 <= k < |firsts| ==>
         Represents(listed, read, n, firsts[k], chosen[k]) && result[k] == listed[chosen[k]]
  }

  ghost predicate Deduplicated(listed: seq<Device>, read: Reading, result: seq<Device>) {
    exists chosen :: OnePerPhone(listed, read, |listed|, result, chosen)
  }

  lemma {:induction false} FirstsComplete(listed: seq<Device>, read: Reading, n: nat, j: nat)
    requires j < n <= |listed|
    ensures exists k :: 0 <= k < |Firsts(listed, read, n)|
                        && (Firsts(listed, read, n)[k] == j
                            || Same(read, listed[Firsts(listed, read, n)[k]], listed[j]))
    decreases n, j
  {
    var firsts := Firsts(listed, read, n);
    var fewer := Firsts(listed, read, n - 1);
    if j < n - 1 {
      FirstsComplete(listed, read, n - 1, j);
      var k :| 0 <= k < |fewer| && (fewer[k] == j || Same(read, listed[fewer[k]], listed[j]));
      assert firsts[k] == fewer[k];
    } else if IsFirst(listed, read, j) {
      assert firsts[|fewer|] == j;
    } else {
      var i :| 0 <= i < j && Same(read, listed[i], listed[j]);
      FirstsComplete(listed, read, n - 1, i);
      var k :| 0 <= k < |fewer| && (fewer[k] == i || Same(read, listed[fewer[k]], listed[i]));
      assert firsts[k] == fewer[k];
    }
  }

  lemma {:induction false} FirstsAreFirst(listed: seq<Device>, read: Reading, n: nat)
    requires n <= |listed|
    ensures forall k :: 0 <= k < |Firsts(listed, read, n)| ==> IsFirst(listed, read, Firsts(listed, read, n)[k])
    ensures forall k, l :: 0 <= k < l < |Firsts(listed, read, n)| ==>
              Firsts(listed, read, n)[k] < Firsts(listed, read, n)[l]
  {
    if n > 0 {
      FirstsAreFirst(listed, read, n - 1);
      var firsts := Firsts(listed, read, n);
      var fewer := Firsts(listed, read, n - 1);
      assert forall k :: 0 <= k < |fewer| ==> firsts[k] == fewer[k] && IsFirst(listed, read, fewer[k]);
      assert |firsts| > |fewer| ==> firsts[|fewer|] == n - 1 && IsFirst(listed, read, n - 1);
    }
  }

  // ----- The algorithm -----

  /** The pairs are those of entries that are the same phone. */
  ghost predicate Tells(listed: seq<Device>, read: Reading, pairs: seq<(Serial, Serial)>) {
    && (forall p :: p in pairs ==> exists i: nat, j: nat ::
                      SameAt(listed, read, i, j) && p == (listed[i].serial, listed[j].serial))
    && (forall i: nat, j: nat :: SameAt(listed, read, i, j) ==> (listed[i].serial, listed[j].serial) in pairs)
  }

  lemma ListsTells(listed: seq<Device>, read: Reading, pairs: seq<(Serial, Serial)>)
    requires ListsAll(listed, read, pairs)
    ensures Tells(listed, read, pairs)
  {
    var at: seq<(nat, nat)> :| Lists(listed, read, (|listed|, |listed| + 1), at, pairs);
    forall i: nat, j: nat | SameAt(listed, read, i, j)
      ensures (listed[i].serial, listed[j].serial) in pairs
    {
      assert (i, j) in at;
      var k :| 0 <= k < |at| && at[k] == (i, j);
      assert pairs[k] in pairs;
    }
    forall p | p in pairs
      ensures exists i: nat, j: nat :: SameAt(listed, read, i, j) && p == (listed[i].serial, listed[j].serial)
    {
      var k :| 0 <= k < |pairs| && pairs[k] == p;
      assert SameAt(listed, read, at[k].0, at[k].1);
    }
  }

  predicate Paired(pairs: seq<(Serial, Serial)>, a: Device, b: Device) {
    (a.serial, b.serial) in pairs || (b.serial, a.serial) in pairs
  }

  lemma PairedIsSame(listed: seq<Device>, read: Reading, pairs: seq<(Serial, Serial)>, i: nat, j: nat)
    requires Tells(listed, read, pairs) && i < j < |listed|
    ensures Paired(pairs, listed[i], listed[j]) <==> Same(read, listed[i], listed[j])
  {
    assert Same(read, listed[i], listed[j]) ==> SameAt(listed, read, i, j);
  }

  /** The first of `result` that is paired with `device`. */
  method Position(result: seq<Device>, pairs: seq<(Serial, Serial)>, device: Device) returns (index: Option<nat>)
    ensures index.Some? ==> index.value < |result| && Paired(pairs, result[index.value], device)
    ensures index == None ==> forall k :: 0 <= k < |result| ==> !Paired(pairs, result[k], device)
  {
    for k := 0 to |result|
      invariant forall l :: 0 <= l < k ==> !Paired(pairs, result[l], device)
    {
      if (result[k].serial, device.serial) in pairs || (device.serial, result[k].serial) in pairs {
        return Some(k);
      }
    }
    index := None;
  }

  lemma NewPhone(listed: seq<Device>, read: Reading, n: nat, result: seq<Device>, chosen: seq<nat>)
    requires n < |listed| && OnePerPhone(listed, read, n, result, chosen)
    requires forall k :: 0 <= k < |result| ==> !Same(read, result[k], listed[n])
    ensures OnePerPhone(listed, read, n + 1, result + [listed[n]], chosen + [n])
  {
    var firsts := Firsts(listed, read, n);
    forall j | 0 <= j < n
      ensures !Same(read, listed[j], listed[n])
    {
      FirstsComplete(listed, read, n, j);
      var k :| 0 <= k < |firsts| && (firsts[k] == j || Same(read, listed[firsts[k]], listed[j]));
      assert Represents(listed, read, n, firsts[k], chosen[k]) && result[k] == listed[chosen[k]];
    }
    assert IsFirst(listed, read, n);
    forall k | 0 <= k < |firsts|
      ensures Represents(listed, read, n + 1, firsts[k], chosen[k])
    {
      assert Represents(listed, read, n, firsts[k], chosen[k]);
    }
  }

  lemma OtherPhoneStays(listed: seq<Device>, read: Reading, n: nat, i: nat, r: nat)
    requires i < n < |listed| && Represents(listed, read, n, i, r) && !Same(read, listed[i], listed[n])
    ensures Represents(listed, read, n + 1, i, r)
  {
  }

  lemma PhoneGains(listed: seq<Device>, read: Reading, n: nat, i: nat, r: nat)
    requires i < n < |listed| && Represents(listed, read, n, i, r) && Same(read, listed[i], listed[n])
    ensures Represents(listed, read, n + 1, i, if IsWireless(listed[n]) && !IsWireless(listed[r]) then n else r)
  {
    hide IsWireless;
  }

  lemma NotFirst(listed: seq<Device>, read: Reading, n: nat, i: nat)
    requires i < n < |listed| && Same(read, listed[i], listed[n])
    ensures Firsts(listed, read, n + 1) == Firsts(listed, read, n)
  {
    assert !IsFirst(listed, read, n);
  }

  lemma OnlyOneFirst(listed: seq<Device>, read: Reading, n: nat, k: nat, l: nat)
    requires n < |listed| && k < |Firsts(listed, read, n)| && l < |Firsts(listed, read, n)| && k != l
    requires Same(read, listed[Firsts(listed, read, n)[k]], listed[n])
    ensures !Same(read, listed[Firsts(listed, read, n)[l]], listed[n])
  {
    hide Firsts;
    FirstsAreFirst(listed, read, n);
    var firsts := Firsts(listed, read, n);
    assert IsFirst(listed, read, firsts[l]) && IsFirst(listed, read, firsts[k]);
  }

  lemma KnownPhone(listed: seq<Device>, read: Reading, n: nat, result: seq<Device>, chosen: seq<nat>, k: nat)
    requires n < |listed| && OnePerPhone(listed, read, n, result, chosen)
    requires k < |result| && Same(read, result[k], listed[n])
    ensures var better := IsWireless(listed[n]) && !IsWireless(result[k]);
            OnePerPhone(listed, read, n + 1, if better then result[k := listed[n]] else result,
                        if better then chosen[k := n] else chosen)
  {
    hide Firsts, IsWireless;
    var firsts := Firsts(listed, read, n);
    assert Represents(listed, read, n, firsts[k], chosen[k]) && result[k] == listed[chosen[k]];
    assert Same(read, listed[firsts[k]], listed[n]);
    hide Same, Represents;
    NotFirst(listed, read, n, firsts[k]);
    forall l | 0 <= l < |firsts|
      ensures l != k ==> Represents(listed, read, n + 1, firsts[l], chosen[l])
      ensures l == k ==> Represents(listed, read, n + 1, firsts[k],
                                    if IsWireless(listed[n]) && !IsWireless(result[k]) then n else chosen[k])
    {
      assert Represents(listed, read, n, firsts[l], chosen[l]) && result[l] == listed[chosen[l]];
      if l == k {
        PhoneGains(listed, read, n, firsts[k], chosen[k]);
      } else {
        OnlyOneFirst(listed, read, n, k, l);
        OtherPhoneStays(listed, read, n, firsts[l], chosen[l]);
      }
    }
  }

  /** No entry is lost but to another it is paired with. */
  ghost predicate KeptOrPaired(pairs: seq<(Serial, Serial)>, listed: seq<Device>, n: nat, result: seq<Device>)
    requires n <= |listed|
  {
    && (forall d :: d in result ==> d in listed)
    && (forall i :: 0 <= i < n ==> listed[i] in result || exists e :: e in listed && Paired(pairs, e, listed[i]))
  }

  lemma OneMoreKept(pairs: seq<(Serial, Serial)>, listed: seq<Device>, n: nat, result: seq<Device>, k: nat)
    requires n < |listed| && KeptOrPaired(pairs, listed, n, result)
    ensures KeptOrPaired(pairs, listed, n + 1, result + [listed[n]])
    ensures k < |result| && Paired(pairs, result[k], listed[n]) ==>
              KeptOrPaired(pairs, listed, n + 1, result)
              && KeptOrPaired(pairs, listed, n + 1, result[k := listed[n]])
  {
    if k < |result| && Paired(pairs, result[k], listed[n]) {
      var other := result[k := listed[n]];
      assert result[k] in result && other[k] == listed[n];
      assert Paired(pairs, listed[n], result[k]) && Paired(pairs, result[k], listed[n]);
      forall i | 0 <= i < n + 1
        ensures listed[i] in other || exists e :: e in listed && Paired(pairs, e, listed[i])
      {
        if i < n && listed[i] in result && listed[i] != result[k] {
          var l :| 0 <= l < |result| && result[l] == listed[i];
          assert other[l] == listed[i];
        }
      }
    }
  }

  /** One entry for each phone, in the order phones first appear: its first wireless entry if
      it has one, its first entry otherwise. Entries of unknown identity are all kept. That is
      so for the pairs of an actual reading; whatever the pairs, no entry is lost but to
      another it is paired with. */
  method DeduplicateDevices(listed: seq<Device>, ghost read: Reading, pairs: seq<(Serial, Serial)>)
    returns (result: seq<Device>)
    ensures Tells(listed, read, pairs) ==> Deduplicated(listed, read, result)
    ensures KeptOrPaired(pairs, listed, |listed|, result)
  {
    hide Same, Firsts, Represents, OnePerPhone, Tells, IsWireless, KeptOrPaired;
    result := [];
    ghost var chosen: seq<nat> := [];
    NothingListed(listed, read, pairs);
    for n := 0 to |listed|
      invariant Tells(listed, read, pairs) ==> OnePerPhone(listed, read, n, result, chosen)
      invariant KeptOrPaired(pairs, listed, n, result)
    {
      var device := listed[n];
      var duplicate := Position(result, pairs, device);
      ghost var k := if duplicate.Some? then duplicate.value else 0;
      OneMoreKept(pairs, listed, n, result, k);
      ghost var after, choice := result, chosen;
      if Tells(listed, read, pairs) {
        after, choice := Chosen(listed, read, pairs, n, result, chosen, duplicate);
      }
      if duplicate.Some? {
        var index := duplicate.value;
        if IsWireless(device) && !IsWireless(result[index]) {
          result := result[index := device];
        }
      } else {
        result := result + [device];
      }
      chosen := choice;
    }
  }

  /** One turn of the loop on the pairs of an actual reading. */
  ghost method Chosen(listed: seq<Device>, read: Reading, pairs: seq<(Serial, Serial)>, n: nat,
                      result: seq<Device>, chosen: seq<nat>, duplicate: Option<nat>)
    returns (after: seq<Device>, choice: seq<nat>)
    requires Tells(listed, read, pairs) && n < |listed| && OnePerPhone(listed, read, n, result, chosen)
    requires duplicate.Some? ==> duplicate.value < |result| && Paired(pairs, result[duplicate.value], listed[n])
    requires duplicate == None ==> forall k :: 0 <= k < |result| ==> !Paired(pairs, result[k], listed[n])
    ensures OnePerPhone(listed, read, n + 1, after, choice)
    ensures after == match duplicate
                     case None => result + [listed[n]]
                     case Some(k) =>
                       if IsWireless(listed[n]) && !IsWireless(result[k]) then result[k := listed[n]] else result
  {
    hide Same, Firsts, Represents, OnePerPhone, Tells, IsWireless;
    ResultListed(listed, read, n, result, chosen);
    forall k | 0 <= k < |result|
      ensures Paired(pairs, result[k], listed[n]) <==> Same(read, result[k], listed[n])
    {
      PairedIsSame(listed, read, pairs, chosen[k], n);
    }
    if duplicate.Some? {
      var k := duplicate.value;
      KnownPhone(listed, read, n, result, chosen, k);
      if IsWireless(listed[n]) && !IsWireless(result[k]) {
        after, choice := result[k := listed[n]], chosen[k := n];
      } else {
        after, choice := result, chosen;
      }
    } else {
      NewPhone(listed, read, n, result, chosen);
      after, choice := result + [listed[n]], chosen + [n];
    }
  }

  lemma NothingListed(listed: seq<Device>, read: Reading, pairs: seq<(Serial, Serial)>)
    ensures OnePerPhone(listed, read, 0, [], []) && KeptOrPaired(pairs, listed, 0, [])
  {
  }

  lemma ResultListed(listed: seq<Device>, read: Reading, n: nat, result: seq<Device>, chosen: seq<nat>)
    requires n <= |listed| && OnePerPhone(listed, read, n, result, chosen)
    ensures |chosen| == |result|
    ensures forall k :: 0 <= k < |result| ==> chosen[k] < n && result[k] == listed[chosen[k]]
  {
    var firsts := Firsts(listed, read, n);
    assert forall k :: 0 <= k < |firsts| ==> Represents(listed, read, n, firsts[k], chosen[k]);
  }

  /** Both steps together, as after a successful pairing. */
  method VisibleDevices(listed: seq<Device>, read: Reading) returns (result: seq<Device>)
    ensures Deduplicated(listed, read, result)
  {
    var pairs := IdentityPairs(listed, read);
    ListsTells(listed, read, pairs);
    result := DeduplicateDevices(listed, read, pairs);
  }

  /** A phone that is listed wirelessly is shown by a wireless entry. */
  lemma WirelessPreferred(listed: seq<Device>, read: Reading, result: seq<Device>, d: Device)
    requires Deduplicated(listed, read, result) && d in listed && "adb-" <= d.serial
    ensures exists r :: r in result && "adb-" <= r.serial && (r == d || Same(read, r, d))
  {
    var n := |listed|;
    var chosen :| OnePerPhone(listed, read, n, result, chosen);
    var firsts := Firsts(listed, read, n);
    var j :| 0 <= j < n && listed[j] == d;
    FirstsComplete(listed, read, n, j);
    FirstsAreFirst(listed, read, n);
    var k :| 0 <= k < |firsts| && (firsts[k] == j || Same(read, listed[firsts[k]], listed[j]));
    assert Represents(listed, read, n, firsts[k], chosen[k]) && result[k] == listed[chosen[k]];
    assert IsFirst(listed, read, firsts[k]);
    assert result[k] in result && IsWireless(result[k]);
  }

  /** What that amounts to: no two results are the same phone, and every listed entry is a
      result itself or the same phone as one. */
  lemma EveryPhoneOnce(listed: seq<Device>, read: Reading, result: seq<Device>)
    requires Deduplicated(listed, read, result)
    ensures forall k, l :: 0 <= k < l < |result| ==> !Same(read, result[k], result[l])
    ensures forall d :: d in listed ==> d in result || exists r :: r in result && Same(read, r, d)
    ensures forall d :: d in listed && read(d.serial) == None ==> d in result
  {
    var n := |listed|;
    var chosen :| OnePerPhone(listed, read, n, result, chosen);
    var firsts := Firsts(listed, read, n);
    FirstsAreFirst(listed, read, n);
    forall k, l | 0 <= k < l < |result|
      ensures !Same(read, result[k], result[l])
    {
      assert Represents(listed, read, n, firsts[k], chosen[k]) && Represents(listed, read, n, firsts[l], chosen[l]);
      assert IsFirst(listed, read, firsts[l]);
    }
    forall j: nat | j < n
      ensures listed[j] in result
              || (read(listed[j].serial) != None && exists r :: r in result && Same(read, r, listed[j]))
    {
      FirstsComplete(listed, read, n, j);
      var k :| 0 <= k < |firsts| && (firsts[k] == j || Same(read, listed[firsts[k]], listed[j]));
      assert Represents(listed, read, n, firsts[k], chosen[k]) && result[k] in result;
    }
  }
}
