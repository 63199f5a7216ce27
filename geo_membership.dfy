/**
 * Deciding whether an upstream station belongs to Thailand: its name contains
 * one of seven keywords, or its coordinates lie in the region polygon.
 */
module GeoMembership {
  import opened ThailandRegion

  /**
   * The point-in-polygon test. The point is built as `[lon, lat]`, so the
   * first argument is checked against the ring's latitudes and the second
   * against its longitudes. Points on the boundary count as inside.
   */
  predicate InThailand(lat: real, lon: real) {
    InRectangularRing(Position(lon, lat), Ring)
  }

  lemma InThailandIff(lat: real, lon: real)
    ensures InThailand(lat, lon) <==> 5.613 <= lat <= 20.465 && 97.343 <= lon <= 105.637
  {
    RegionExtent();
  }

  lemma InThailandSamples()
    ensures InThailand(13.0, 100.0)
    ensures !InThailand(0.0, 0.0)
    ensures !InThailand(100.0, 13.0)
  {
    InThailandIff(13.0, 100.0);
    InThailandIff(0.0, 0.0);
    InThailandIff(100.0, 13.0);
  }

  /** Station-name keywords, compared case-sensitively. */
  const NameKeywords: seq<string> := [
    "Thailand",
    "ประเทศไทย",
    "กรุงเทพ",
    "เชียงใหม่",
    "สมุทร",
    "ตาก",
    "บุรี"
  ]

  /** `s.includes(k)`: some suffix of `s` starts with `k`. */
  predicate Includes(s: string, k: string)
    decreases |s|
  {
    k <= s || (|s| > 0 && Includes(s[1..], k))
  }

  /** `k` occurs in `s` starting at index `i`. */
  ghost predicate OccursAt(k: string, s: string, i: int) {
    0 <= i <= |s| - |k| && s[i..i + |k|] == k
  }

  /** `k` occurs in `s` at some position. */
  ghost predicate OccursIn(k: string, s: string) {
    exists i :: OccursAt(k, s, i)
  }

  lemma {:induction false} IncludesOccurs(s: string, k: string)
    requires Includes(s, k)
    ensures OccursIn(k, s)
    decreases |s|
  {
    if k <= s {
      assert OccursAt(k, s, 0);
    } else {
      IncludesOccurs(s[1..], k);
      var i :| OccursAt(k, s[1..], i);
      assert s[1..][i..i + |k|] == s[i + 1..i + 1 + |k|];
      assert OccursAt(k, s, i + 1);
    }
  }

  lemma {:induction false} OccursIncludes(s: string, k: string, i: int)
    requires OccursAt(k, s, i)
    ensures Includes(s, k)
    decreases i
  {
    if i == 0 {
      assert s[..|k|] == k;
    } else {
      assert s[1..][i - 1..i - 1 + |k|] == s[i..i + |k|];
      OccursIncludes(s[1..], k, i - 1);
    }
  }

  /** `includes` is substring containment. */
  lemma IncludesIff(s: string, k: string)
    ensures Includes(s, k) <==> OccursIn(k, s)
  {
    if Includes(s, k) {
      IncludesOccurs(s, k);
    }
    if OccursIn(k, s) {
      var i :| OccursAt(k, s, i);
      OccursIncludes(s, k, i);
    }
  }

  /** Every character of an included string is a character of the including one. */
  lemma {:induction false} IncludedCharacters(s: string, k: string)
    ensures Includes(s, k) ==> forall j :: 0 <= j < |k| ==> k[j] in s
    decreases |s|
  {
    if |s| > 0 {
      IncludedCharacters(s[1..], k);
      assert forall j :: 0 <= j < |s[1..]| ==> s[1..][j] == s[j + 1];
    }
  }

  /** `nameKw.some((k) => name.includes(k))` */
  predicate NameMatches(name: string) {
    exists i :: 0 <= i < |NameKeywords| && Includes(name, NameKeywords[i])
  }

  /** A name in which any of the seven keywords occurs, anywhere, matches. */
  lemma KeywordOccurrenceMatches(name: string, i: int)
    requires 0 <= i < |NameKeywords| && OccursIn(NameKeywords[i], name)
    ensures NameMatches(name)
  {
    IncludesIff(name, NameKeywords[i]);
  }

  /** A station is Thai when its name matches or its position is in the region. */
  predicate IsThaiStation(name: string, lat: real, lon: real) {
    NameMatches(name) || InThailand(lat, lon)
  }

  /**
   * The decision spelled out: true exactly when some keyword occurs in the name
   * (whatever the coordinates) or the coordinates lie in the closed latitude
   * and longitude ranges (whatever the name).
   */
  lemma IsThaiStationIff(name: string, lat: real, lon: real)
    ensures IsThaiStation(name, lat, lon) <==>
      (exists k :: k in NameKeywords && OccursIn(k, name)) ||
      (5.613 <= lat <= 20.465 && 97.343 <= lon <= 105.637)
  {
    InThailandIff(lat, lon);
    forall i | 0 <= i < |NameKeywords| {
      IncludesIff(name, NameKeywords[i]);
    }
    if exists k :: k in NameKeywords && OccursIn(k, name) {
      var k :| k in NameKeywords && OccursIn(k, name);
      var i :| 0 <= i < |NameKeywords| && NameKeywords[i] == k;
      assert Includes(name, NameKeywords[i]);
    }
  }

  /** The first character of each keyword. */
  const KeywordInitials: string := "Tปกเสตบ"

  /** A name that lacks the first character of every keyword matches none of them. */
  lemma NoKeywordInitial(name: string)
    requires forall c :: c in name ==> c !in KeywordInitials
    ensures !NameMatches(name)
  {
    assert forall i :: 0 <= i < |NameKeywords| ==> NameKeywords[i][0] in KeywordInitials;
    forall i | 0 <= i < |NameKeywords| ensures !Includes(name, NameKeywords[i]) {
      IncludedCharacters(name, NameKeywords[i]);
    }
  }

  lemma IsThaiStationByName()
    ensures IsThaiStation("Bangkok Thailand", 0.0, 0.0)
  {
    var bangkok := "Bangkok Thailand";
    assert OccursAt(NameKeywords[0], bangkok, 8);
    IncludesIff(bangkok, NameKeywords[0]);
  }

  lemma IsThaiStationByPosition()
    ensures IsThaiStation("Somewhere", 13.0, 100.0)
  {
    InThailandSamples();
  }

  lemma IsThaiStationNeither()
    ensures !IsThaiStation("Somewhere", 0.0, 0.0)
  {
    assert !NameMatches("Somewhere") by {
      NoKeywordInitial("Somewhere");
    }
    assert !InThailand(0.0, 0.0) by {
      InThailandIff(0.0, 0.0);
    }
  }

  lemma IsThaiStationParisNeither()
    ensures !IsThaiStation("Paris", 48.0, 2.0)
  {
    assert !NameMatches("Paris") by {
      NoKeywordInitial("Paris");
    }
    assert !InThailand(48.0, 2.0) by {
      InThailandIff(48.0, 2.0);
    }
  }

  /** Keyword matching is case-sensitive: the lower-case country name matches no keyword. */
  lemma LowerCaseNameDoesNotMatch()
    ensures !NameMatches("bangkok thailand")
  {
    NoKeywordInitial("bangkok thailand");
  }
}
