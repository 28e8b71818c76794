/** The registry of SDK levels (`SdkStore`): one `Sdk` per configured level,
    kept in ascending level order as a `TreeMap` keeps them, and the
    selection of the levels a shadow declaration applies to. */
module SdkRegistry {
  import opened Java
  import opened SdkArchive

  /** The `minSdk` and `maxSdk` of an `@Implementation` annotation; `-1`
      means that side is not bounded. */
  datatype Implementation = Implementation(minSdk: int32, maxSdk: int32)

  /** An inclusive range of SDK levels. */
  datatype Bounds = Bounds(lo: int32, hi: int32)

  function Max(a: int32, b: int32): int32 { if a < b then b else a }
  function Min(a: int32, b: int32): int32 { if a < b then a else b }

  /** The levels a declaration applies to: its own bounds, with an absent
      annotation or `-1` meaning 0 below and `Integer.MAX_VALUE` above,
      intersected with the class's bounds, where only the class's upper
      `-1` means unbounded. */
  function EffectiveBounds(implementation: Option<Implementation>, classMinSdk: int32, classMaxSdk: int32): Bounds {
    var declaredMin := if implementation.None? || implementation.value.minSdk == -1 then 0 else implementation.value.minSdk;
    var declaredMax := if implementation.None? || implementation.value.maxSdk == -1 then INTEGER_MAX_VALUE else implementation.value.maxSdk;
    Bounds(Max(declaredMin, classMinSdk), if classMaxSdk != -1 then Min(declaredMax, classMaxSdk) else declaredMax)
  }

  predicate InBounds(v: int32, b: Bounds) {
    b.lo <= v <= b.hi
  }

  /** Levels strictly increase along `sdks`: sorted, and no level twice. */
  predicate StrictlyAscending(sdks: seq<Sdk>) {
    forall i, j :: 0 <= i < j < |sdks| ==> sdks[i].sdkInt < sdks[j].sdkInt
  }

  function Levels(sdks: seq<Sdk>): (r: seq<int32>)
    ensures |r| == |sdks|
  {
    seq(|sdks|, i requires 0 <= i < |sdks| => sdks[i].sdkInt)
  }

  /** `TreeMap.put` keyed by level: `sdk` replaces the SDK of its level, or
      is inserted in order. */
  function Put(sdks: seq<Sdk>, sdk: Sdk): (r: seq<Sdk>)
    requires StrictlyAscending(sdks)
    ensures StrictlyAscending(r)
    ensures sdk in r
    ensures forall i :: 0 <= i < |r| ==> r[i] == sdk || (r[i] in sdks && r[i].sdkInt != sdk.sdkInt)
    ensures forall j :: 0 <= j < |sdks| && sdks[j].sdkInt != sdk.sdkInt ==> sdks[j] in r
  {
    if |sdks| == 0 then [sdk]
    else if sdk.sdkInt < sdks[0].sdkInt then [sdk] + sdks
    else if sdk.sdkInt == sdks[0].sdkInt then [sdk] + sdks[1..]
    else
      var rest := Put(sdks[1..], sdk);
      PutAfterHead(sdks, sdk, rest);
      [sdks[0]] + rest
  }

  /** The step of `Put` past a head of smaller level: the head stays below
      everything the insertion into the tail produces, and the tail keeps
      every SDK of another level. */
  lemma {:induction false} PutAfterHead(sdks: seq<Sdk>, sdk: Sdk, rest: seq<Sdk>)
    requires StrictlyAscending(sdks) && |sdks| > 0 && sdks[0].sdkInt < sdk.sdkInt
    requires forall i :: 0 <= i < |rest| ==> rest[i] == sdk || (rest[i] in sdks[1..] && rest[i].sdkInt != sdk.sdkInt)
    requires forall j :: 0 <= j < |sdks[1..]| && sdks[1..][j].sdkInt != sdk.sdkInt ==> sdks[1..][j] in rest
    requires StrictlyAscending(rest)
    ensures StrictlyAscending([sdks[0]] + rest)
    ensures forall j :: 1 <= j < |sdks| && sdks[j].sdkInt != sdk.sdkInt ==> sdks[j] in rest
  {
    forall i | 0 <= i < |rest| ensures sdks[0].sdkInt < rest[i].sdkInt {
      if rest[i] != sdk {
        var j :| 0 <= j < |sdks[1..]| && sdks[1..][j] == rest[i];
        assert sdks[j + 1] == rest[i];
      }
    }
    forall j | 1 <= j < |sdks| && sdks[j].sdkInt != sdk.sdkInt ensures sdks[j] in rest {
      assert sdks[1..][j - 1] == sdks[j];
    }
    var r := [sdks[0]] + rest;
    forall i, j | 0 <= i < j < |r| ensures r[i].sdkInt < r[j].sdkInt {
      if i > 0 {
        assert r[i] == rest[i - 1] && r[j] == rest[j - 1];
      } else {
        assert r[j] == rest[j - 1];
      }
    }
  }

  class SdkStore {
    /** The `TreeMap<Integer, Sdk>`; each SDK's key is its own level. */
    const sdks: seq<Sdk>

    /** Levels strictly ascend, and every SDK is ready for lookups. */
    ghost predicate Valid()
      reads sdks
    {
      && StrictlyAscending(sdks)
      && forall s :: s in sdks ==> s.Valid()
    }

    /** `SdkStore(Properties)`, given the properties already parsed into
        level and jar path: one fresh, unopened `Sdk` per entry. */
    constructor (properties: map<int32, string>)
      ensures Valid()
      ensures forall s :: s in sdks ==> s.sdkInt in properties && s.path == properties[s.sdkInt]
      ensures forall v :: v in properties <==> v in Levels(sdks)
      ensures forall s :: s in sdks ==> fresh(s) && s.Valid() && s.jarFile.None? && s.classInfos == map[]
    {
      var entries: seq<Sdk> := [];
      var remaining := properties.Keys;
      while remaining != {}
        invariant remaining <= properties.Keys
        invariant StrictlyAscending(entries)
        invariant forall s :: s in entries ==>
          s.sdkInt in properties && s.sdkInt !in remaining && s.path == properties[s.sdkInt]
        invariant forall v :: v in properties && v !in remaining <==> v in Levels(entries)
        invariant forall s :: s in entries ==> fresh(s) && s.Valid() && s.jarFile.None? && s.classInfos == map[]
        decreases remaining
      {
        var sdkInt :| sdkInt in remaining;
        var sdk := new Sdk(sdkInt, properties[sdkInt]);
        LevelsPut(entries, sdk);
        entries := Put(entries, sdk);
        remaining := remaining - {sdkInt};
      }
      sdks := entries;
    }

    /** `sdksMatching`: exactly the registered SDKs whose level lies in the
        effective bounds, inclusive, in strictly ascending level order. */
    method SdksMatching(implementation: Option<Implementation>, classMinSdk: int32, classMaxSdk: int32)
      returns (matchingSdks: seq<Sdk>)
      requires Valid()
      ensures forall s :: s in matchingSdks <==>
        s in sdks && InBounds(s.sdkInt, EffectiveBounds(implementation, classMinSdk, classMaxSdk))
      ensures StrictlyAscending(matchingSdks)
      ensures forall s :: s in matchingSdks ==> s.Valid()
    {
      var minSdk: int32 := if implementation.None? then -1 else implementation.value.minSdk;
      if minSdk == -1 {
        minSdk := 0;
      }
      if classMinSdk > minSdk {
        minSdk := classMinSdk;
      }

      var maxSdk: int32 := if implementation.None? then -1 else implementation.value.maxSdk;
      if maxSdk == -1 {
        maxSdk := INTEGER_MAX_VALUE;
      }
      if classMaxSdk != -1 && classMaxSdk < maxSdk {
        maxSdk := classMaxSdk;
      }

      matchingSdks := [];
      for i := 0 to |sdks|
        invariant matchingSdks == Select(sdks[..i], Bounds(minSdk, maxSdk))
      {
        assert sdks[..i + 1][..i] == sdks[..i];
        var sdkInt := sdks[i].sdkInt;
        if sdkInt >= minSdk && sdkInt <= maxSdk {
          matchingSdks := matchingSdks + [sdks[i]];
        }
      }
      assert sdks[..|sdks|] == sdks;
      SelectExactly(sdks, EffectiveBounds(implementation, classMinSdk, classMaxSdk));
    }
  }

  /** The SDKs of `sdks` whose level lies in `b`, in their order. */
  function Select(sdks: seq<Sdk>, b: Bounds): seq<Sdk> {
    if |sdks| == 0 then []
    else Select(sdks[..|sdks| - 1], b) + if InBounds(sdks[|sdks| - 1].sdkInt, b) then [sdks[|sdks| - 1]] else []
  }

  /** Selecting from strictly ascending SDKs gives exactly those in bounds,
      still strictly ascending. */
  lemma {:induction false} SelectExactly(sdks: seq<Sdk>, b: Bounds)
    requires StrictlyAscending(sdks)
    ensures forall s :: s in Select(sdks, b) <==> s in sdks && InBounds(s.sdkInt, b)
    ensures StrictlyAscending(Select(sdks, b))
  {
    if |sdks| > 0 {
      var n := |sdks| - 1;
      var prefix, last := sdks[..n], sdks[n];
      assert sdks == prefix + [last];
      SelectExactly(prefix, b);
      var before := Select(prefix, b);
      if InBounds(last.sdkInt, b) {
        var r := before + [last];
        assert Select(sdks, b) == r;
        SelectBelow(prefix, b, last.sdkInt);
        forall i, j | 0 <= i < j < |r| ensures r[i].sdkInt < r[j].sdkInt {
          if j < |before| {
            assert r[i] == before[i] && r[j] == before[j];
          } else {
            assert r[i] == before[i] && r[j] == last;
          }
        }
      } else {
        assert Select(sdks, b) == before;
      }
    }
  }

  /** Selecting keeps every level under a bound that all of `sdks` is under. */
  lemma {:induction false} SelectBelow(sdks: seq<Sdk>, b: Bounds, v: int32)
    requires forall k :: 0 <= k < |sdks| ==> sdks[k].sdkInt < v
    ensures forall i :: 0 <= i < |Select(sdks, b)| ==> Select(sdks, b)[i].sdkInt < v
  {
    if |sdks| > 0 {
      SelectBelow(sdks[..|sdks| - 1], b, v);
    }
  }

  /** The levels after `Put` are the levels before plus the new one. */
  lemma {:induction false} LevelsPut(sdks: seq<Sdk>, sdk: Sdk)
    requires StrictlyAscending(sdks)
    ensures forall v :: v in Levels(Put(sdks, sdk)) <==> v == sdk.sdkInt || v in Levels(sdks)
  {
    var r := Put(sdks, sdk);
    forall v | v in Levels(r) ensures v == sdk.sdkInt || v in Levels(sdks) {
      var i :| 0 <= i < |r| && Levels(r)[i] == v;
      assert r[i] in r;
      if r[i] != sdk {
        var j :| 0 <= j < |sdks| && sdks[j] == r[i];
        assert Levels(sdks)[j] == v;
      }
    }
    forall v | v == sdk.sdkInt || v in Levels(sdks) ensures v in Levels(r) {
      if v == sdk.sdkInt {
        var i :| 0 <= i < |r| && r[i] == sdk;
        assert Levels(r)[i] == v;
      } else {
        var j :| 0 <= j < |sdks| && Levels(sdks)[j] == v;
        assert sdks[j] in sdks;
        var i :| 0 <= i < |r| && r[i] == sdks[j];
        assert Levels(r)[i] == v;
      }
    }
  }

  /** With no annotation and both class bounds `-1`, every SDK whose level
      is not negative is selected. */
  lemma UnboundedSelectsAll(v: int32)
    requires 0 <= v
    ensures InBounds(v, EffectiveBounds(None, -1, -1))
  {
  }

  /** The effective range lies inside the declaration's own range and the
      class's range. */
  lemma EffectiveBoundsIntersect(implementation: Implementation, classMinSdk: int32, classMaxSdk: int32, v: int32)
    requires InBounds(v, EffectiveBounds(Some(implementation), classMinSdk, classMaxSdk))
    ensures classMinSdk <= v && (classMaxSdk != -1 ==> v <= classMaxSdk)
    ensures implementation.minSdk != -1 ==> implementation.minSdk <= v
    ensures implementation.maxSdk != -1 ==> v <= implementation.maxSdk
  {
  }

  /** A declaration for levels 16 and up in a class for levels up to 23,
      against SDKs 14, 16, 21 and 24, applies at 16 and 21 only. */
  lemma SixteenToTwentyThree(v: int32)
    requires v in [14, 16, 21, 24]
    ensures InBounds(v, EffectiveBounds(Some(Implementation(16, -1)), -1, 23)) <==> v in [16, 21]
  {
  }
}
