/** The list of recently used apps (src-tauri, lib.rs, `remember_recent_app`). */
module RecentApps {
  import opened Basics

  type Bundle = string

  const LIMIT := 8
  const SPRINGBOARD := "com.apple.springboard"

  datatype App = App(bundle: Bundle, name: Option<string>)

  function Lower(c: char): char {
    if 'A' <= c <= 'Z' then (c as int + 32) as char else c
  }

  /** The home screen is not an app, however it is capitalised. */
  predicate Ignored(bundle: Bundle) {
    bundle == "" || (|bundle| == |SPRINGBOARD| && forall i :: 0 <= i < |bundle| ==> Lower(bundle[i]) == SPRINGBOARD[i])
  }

  function Without(list: seq<App>, bundle: Bundle): seq<App> {
    if list == [] then []
    else (if list[0].bundle == bundle then [] else [list[0]]) + Without(list[1..], bundle)
  }

  function Bundles(list: seq<App>): seq<Bundle> {
    seq(|list|, i requires 0 <= i < |list| => list[i].bundle)
  }

  function Truncated(list: seq<App>): seq<App> {
    if |list| > LIMIT then list[..LIMIT] else list
  }

  function Remember(list: seq<App>, bundle: Bundle, installed: map<Bundle, string>): seq<App> {
    if Ignored(bundle) then list
    else
      var name := if bundle in installed then Some(installed[bundle]) else None;
      Truncated([App(bundle, name)] + Without(list, bundle))
  }

  // ----- What the list is for -----

  function Removed(s: seq<Bundle>, b: Bundle): seq<Bundle> {
    if s == [] then [] else (if s[0] == b then [] else [s[0]]) + Removed(s[1..], b)
  }

  /** The different apps seen, the one seen last in front. */
  function MostRecent(seen: seq<Bundle>): seq<Bundle> {
    if seen == [] then []
    else
      var last := seen[|seen| - 1];
      var before := MostRecent(seen[..|seen| - 1]);
      if Ignored(last) then before else [last] + Removed(before, last)
  }

  function First(s: seq<Bundle>, n: nat): seq<Bundle> {
    if |s| > n then s[..n] else s
  }

  predicate Distinct(s: seq<Bundle>) {
    forall i, j :: 0 <= i < j < |s| ==> s[i] != s[j]
  }

  lemma {:induction false} RemovedBoth(a: seq<Bundle>, b: seq<Bundle>, x: Bundle)
    ensures Removed(a + b, x) == Removed(a, x) + Removed(b, x)
  {
    if a == [] {
      assert a + b == b;
    } else {
      assert (a + b)[1..] == a[1..] + b;
      RemovedBoth(a[1..], b, x);
    }
  }

  lemma {:induction false} RemovedHas(s: seq<Bundle>, x: Bundle)
    ensures forall y :: y in Removed(s, x) <==> y in s && y != x
    ensures Distinct(s) ==> Distinct(Removed(s, x)) && |Removed(s, x)| >= |s| - (if x in s then 1 else 0)
  {
    if s != [] {
      RemovedHas(s[1..], x);
      assert s == [s[0]] + s[1..];
      assert Distinct(s) ==> s[0] !in s[1..] && Distinct(s[1..]);
    }
  }

  lemma {:induction false} MostRecentDistinct(seen: seq<Bundle>)
    ensures Distinct(MostRecent(seen))
    ensures forall b :: b in MostRecent(seen) <==> b in seen && !Ignored(b)
  {
    if seen != [] {
      var before := seen[..|seen| - 1];
      MostRecentDistinct(before);
      RemovedHas(MostRecent(before), seen[|seen| - 1]);
      assert seen == before + [seen[|seen| - 1]];
    }
  }

  /** Forgetting the oldest does not change what the next few steps leave at the front. */
  lemma TruncationIsHarmless(s: seq<Bundle>, x: Bundle)
    requires Distinct(s)
    ensures First([x] + Removed(First(s, LIMIT), x), LIMIT) == First([x] + Removed(s, x), LIMIT)
  {
    if |s| > LIMIT {
      var head := s[..LIMIT];
      assert s == head + s[LIMIT..];
      RemovedBoth(head, s[LIMIT..], x);
      RemovedHas(head, x);
      assert [x] + Removed(s, x) == ([x] + Removed(head, x)) + Removed(s[LIMIT..], x);
    }
  }

  lemma {:induction false} WithoutBundles(list: seq<App>, bundle: Bundle)
    ensures Bundles(Without(list, bundle)) == Removed(Bundles(list), bundle)
  {
    if list != [] {
      WithoutBundles(list[1..], bundle);
      assert Bundles(list)[1..] == Bundles(list[1..]);
      assert Bundles(Without(list, bundle))
          == (if list[0].bundle == bundle then [] else [list[0].bundle]) + Bundles(Without(list[1..], bundle));
    }
  }

  lemma RememberBundles(list: seq<App>, bundle: Bundle, installed: map<Bundle, string>)
    ensures Bundles(Remember(list, bundle, installed))
            == if Ignored(bundle) then Bundles(list) else First([bundle] + Removed(Bundles(list), bundle), LIMIT)
  {
    hide Ignored, Without, Removed;
    WithoutBundles(list, bundle);
    var name := if bundle in installed then Some(installed[bundle]) else None;
    assert Bundles([App(bundle, name)] + Without(list, bundle)) == [bundle] + Bundles(Without(list, bundle));
  }

  datatype Sighting = Sighting(bundle: Bundle, installed: map<Bundle, string>)

  function Seen(sightings: seq<Sighting>): seq<Bundle> {
    seq(|sightings|, i requires 0 <= i < |sightings| => sightings[i].bundle)
  }

  function RememberAll(sightings: seq<Sighting>): seq<App> {
    if sightings == [] then []
    else
      var last := sightings[|sightings| - 1];
      Remember(RememberAll(sightings[..|sightings| - 1]), last.bundle, last.installed)
  }

  /** After any sightings the list holds the eight apps seen last, each once, the latest first. */
  lemma {:induction false} EightMostRecent(sightings: seq<Sighting>)
    ensures Bundles(RememberAll(sightings)) == First(MostRecent(Seen(sightings)), LIMIT)
  {
    hide Removed, Remember;
    if sightings == [] {
      assert Bundles([]) == [];
    } else {
      var before, last := sightings[..|sightings| - 1], sightings[|sightings| - 1];
      EightMostRecent(before);
      assert Seen(sightings)[..|sightings| - 1] == Seen(before);
      RememberBundles(RememberAll(before), last.bundle, last.installed);
      MostRecentDistinct(Seen(before));
      TruncationIsHarmless(MostRecent(Seen(before)), last.bundle);
    }
  }

  /** Where `b` was seen last, counting from 1; 0 if never. */
  function LastSeen(seen: seq<Bundle>, b: Bundle): nat {
    if seen == [] then 0 else if seen[|seen| - 1] == b then |seen| else LastSeen(seen[..|seen| - 1], b)
  }

  lemma {:induction false} LastSeenBounds(seen: seq<Bundle>, b: Bundle)
    ensures LastSeen(seen, b) <= |seen|
  {
    if seen != [] {
      LastSeenBounds(seen[..|seen| - 1], b);
    }
  }

  lemma {:induction false} RemovedOrder(s: seq<Bundle>, x: Bundle, seen: seq<Bundle>)
    requires forall i, j :: 0 <= i < j < |s| ==> LastSeen(seen, s[i]) > LastSeen(seen, s[j])
    ensures forall i, j :: 0 <= i < j < |Removed(s, x)| ==>
              LastSeen(seen, Removed(s, x)[i]) > LastSeen(seen, Removed(s, x)[j])
  {
    hide LastSeen;
    if s != [] {
      RemovedOrder(s[1..], x, seen);
      RemovedHas(s[1..], x);
      var rest := Removed(s[1..], x);
      forall j | 0 <= j < |rest|
        ensures LastSeen(seen, s[0]) > LastSeen(seen, rest[j])
      {
        assert rest[j] in s[1..];
      }
    }
  }

  /** `MostRecent` is ordered by when each app was seen last. */
  lemma {:induction false} LatestFirst(seen: seq<Bundle>)
    ensures forall i, j :: 0 <= i < j < |MostRecent(seen)| ==>
              LastSeen(seen, MostRecent(seen)[i]) > LastSeen(seen, MostRecent(seen)[j])
  {
    if seen != [] {
      var before, last := seen[..|seen| - 1], seen[|seen| - 1];
      LatestFirst(before);
      RemovedOrder(MostRecent(before), last, before);
      RemovedHas(MostRecent(before), last);
      MostRecentDistinct(before);
      var list := MostRecent(seen);
      forall b | b in MostRecent(before) && b != last
        ensures LastSeen(seen, b) == LastSeen(before, b) <= |before|
      {
        LastSeenBounds(before, b);
      }
      var rest := Removed(MostRecent(before), last);
      if Ignored(last) {
        assert list == MostRecent(before) && last !in list;
        hide MostRecent, LastSeen;
      } else {
        assert list == [last] + rest && LastSeen(seen, last) == |seen|;
        hide MostRecent, LastSeen, Removed;
        assert forall i :: 1 <= i < |list| ==> list[i] == rest[i - 1] && list[i] in rest;
      }
    }
  }

  /** The app seen is in front, under the name it is installed with, if it is; all others are as
      they were. */
  lemma SeenIsInFront(list: seq<App>, bundle: Bundle, installed: map<Bundle, string>)
    requires !Ignored(bundle)
    ensures var after := Remember(list, bundle, installed);
            && after != [] && after[0].bundle == bundle
            && after[0].name == (if bundle in installed then Some(installed[bundle]) else None)
            && |after| <= 8 && forall i :: 1 <= i < |after| ==> after[i] in list && after[i].bundle != bundle
  {
    hide Ignored, Without;
    WithoutIs(list, bundle);
    var others := Without(list, bundle);
    forall i | 1 <= i <= |others|
      ensures ([App(bundle, None)] + others)[i] in others
    {
    }
  }

  /** Without an app, and for the home screen in any spelling of its letters, nothing changes. */
  lemma NoAppNoChange(list: seq<App>, bundle: Bundle, installed: map<Bundle, string>)
    requires bundle == "" || bundle == "com.apple.springboard" || bundle == "com.apple.SpringBoard"
    ensures Remember(list, bundle, installed) == list
  {
    hide Truncated, Without, Ignored;
    assert Ignored(bundle) by {
      HomeScreenIgnored();
    }
  }

  lemma HomeScreenIgnored()
    ensures Ignored("") && Ignored("com.apple.springboard") && Ignored("com.apple.SpringBoard")
  {
  }

  lemma {:induction false} WithoutIs(list: seq<App>, bundle: Bundle)
    ensures forall a :: a in Without(list, bundle) <==> a in list && a.bundle != bundle
  {
    if list != [] {
      WithoutIs(list[1..], bundle);
      assert list == [list[0]] + list[1..];
    }
  }

  // ----- The method -----

  class Meta {
    var recentApps: seq<App>

    constructor ()
      ensures recentApps == []
    {
      recentApps := [];
    }

    method RememberRecentApp(bundle: Bundle, installed: map<Bundle, string>)
      modifies this
      ensures recentApps == Remember(old(recentApps), bundle, installed)
    {
      if Ignored(bundle) {
        return;
      }
      var kept: seq<App> := [];
      for i := 0 to |recentApps|
        invariant recentApps == old(recentApps)
        invariant kept + Without(recentApps[i..], bundle) == Without(recentApps, bundle)
      {
        assert recentApps[i..][1..] == recentApps[i + 1..];
        if recentApps[i].bundle != bundle {
          kept := kept + [recentApps[i]];
        }
      }
      assert recentApps[|recentApps|..] == [];
      assert kept == Without(recentApps, bundle);
      var name := if bundle in installed then Some(installed[bundle]) else None;
      recentApps := [App(bundle, name)] + kept;
      if |recentApps| > LIMIT {
        recentApps := recentApps[..LIMIT];
      }
    }
  }
}
