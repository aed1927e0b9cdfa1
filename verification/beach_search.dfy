/**
 * The beach search endpoint (lineapp/src/app/api/beaches/search/route.ts):
 * a guard on the query length, a case-insensitive substring match over a
 * fixed catalogue of Israeli beaches, and the removal of `altNames` from
 * each result.
 */
module BeachSearch {
  import opened Types
  import opened Seqs

  /** A catalogue entry. */
  datatype Beach = Beach(
    id: string,
    name: string,
    altNames: seq<string>,
    latitude: real,
    longitude: real,
    region: string,
    country: string)

  /** What the endpoint returns for a beach: every field but `altNames`. */
  datatype BeachSummary = BeachSummary(
    id: string,
    name: string,
    latitude: real,
    longitude: real,
    region: string,
    country: string)

  /** `({ altNames, ...beach }) => beach`. */
  function Summary(b: Beach): (r: BeachSummary)
    ensures r.id == b.id && r.name == b.name && r.latitude == b.latitude && r.longitude == b.longitude
    ensures r.region == b.region && r.country == b.country
  {
    BeachSummary(b.id, b.name, b.latitude, b.longitude, b.region, b.country)
  }

  const Netanya := Beach("beach_netanya", "Netanya Beach", ["נתניה", "netania"], 32.3194, 34.8612, "Central", "Israel")
  const Haifa := Beach("beach_haifa", "Haifa Carmel Beach", ["חיפה", "carmel", "כרמל"], 32.8245, 34.9887, "North", "Israel")
  const Ashdod := Beach("beach_ashdod", "Ashdod Beach", ["אשדוד"], 31.8067, 34.6479, "South", "Israel")
  const Ashkelon := Beach("beach_ashkelon", "Ashkelon Beach", ["אשקלון"], 31.6736, 34.5681, "South", "Israel")
  const Herzliya := Beach("beach_herzliya", "Herzliya Beach", ["הרצליה", "herzeliya"], 32.1649, 34.7701, "Central", "Israel")
  const Hilton := Beach("beach_tel_aviv_hilton", "Tel Aviv Hilton Beach", ["תל אביב", "hilton", "הילטון"], 32.0901, 34.7730, "Tel Aviv", "Israel")
  const Gordon := Beach("beach_tel_aviv_gordon", "Tel Aviv Gordon Beach", ["גורדון", "gordon"], 32.0831, 34.7683, "Tel Aviv", "Israel")
  const BatYam := Beach("beach_bat_yam", "Bat Yam Beach", ["בת ים"], 32.0167, 34.7500, "Central", "Israel")
  const Rishon := Beach("beach_rishon", "Rishon LeZion Beach", ["ראשון לציון", "rishon lezion"], 31.9642, 34.7396, "Central", "Israel")
  const Hadera := Beach("beach_hadera", "Hadera Beach", ["חדרה"], 32.4340, 34.8667, "North", "Israel")
  const Nahariya := Beach("beach_nahariya", "Nahariya Beach", ["נהריה"], 33.0067, 35.0833, "North", "Israel")
  const Eilat := Beach("beach_eilat", "Eilat Beach", ["אילת"], 29.5577, 34.9519, "South", "Israel")

  /** `mockBeaches`, in declaration order. */
  const Catalogue: seq<Beach> :=
    [Netanya, Haifa, Ashdod, Ashkelon, Herzliya, Hilton, Gordon, BatYam, Rishon, Hadera, Nahariya, Eilat]

  // ------------------------------------------------------------ strings

  /** `toLowerCase` on one character, for the ASCII letters. */
  function LowerChar(c: char): char
  {
    if 'A' <= c <= 'Z' then (c as int - 'A' as int + 'a' as int) as char else c
  }

  /** `toLowerCase`. */
  function ToLower(s: string): (r: string)
    ensures |r| == |s|
    ensures forall i :: 0 <= i < |s| ==> r[i] == LowerChar(s[i])
  {
    seq(|s|, i requires 0 <= i < |s| => LowerChar(s[i]))
  }

  /** Lowering is idempotent and leaves no upper-case ASCII letter. */
  lemma {:induction false} ToLowerIdempotent(s: string)
    ensures ToLower(ToLower(s)) == ToLower(s)
    ensures forall i :: 0 <= i < |s| ==> !('A' <= ToLower(s)[i] <= 'Z')
  {
  }

  /** Whether `t` occurs in `s` at offset `i`, comparing from position `j` of `t` on. */
  predicate MatchesFrom(s: string, t: string, i: nat, j: nat)
    requires i + |t| <= |s| && j <= |t|
    decreases |t| - j
  {
    j == |t| || (s[i + j] == t[j] && MatchesFrom(s, t, i, j + 1))
  }

  /** Whether `t` occurs in `s` at some offset from `i` on. */
  predicate ContainsFrom(s: string, t: string, i: nat)
    decreases |s| - i
  {
    i + |t| <= |s| && (MatchesFrom(s, t, i, 0) || ContainsFrom(s, t, i + 1))
  }

  /** `s.includes(t)`. */
  predicate Includes(s: string, t: string)
  {
    ContainsFrom(s, t, 0)
  }

  lemma {:induction false} MatchesFromIsSlice(s: string, t: string, i: nat, j: nat)
    requires i + |t| <= |s| && j <= |t|
    ensures MatchesFrom(s, t, i, j) <==> s[i + j..i + |t|] == t[j..]
    decreases |t| - j
  {
    if j < |t| {
      MatchesFromIsSlice(s, t, i, j + 1);
      assert s[i + j..i + |t|] == [s[i + j]] + s[i + j + 1..i + |t|];
      assert t[j..] == [t[j]] + t[j + 1..];
    }
  }

  /** `t` occurs in `s` starting at offset `k`. */
  predicate OccursAt(s: string, t: string, k: nat)
  {
    k + |t| <= |s| && s[k..k + |t|] == t
  }

  lemma {:induction false} ContainsFromIsSubstring(s: string, t: string, i: nat)
    ensures ContainsFrom(s, t, i) <==> exists k: nat :: i <= k && OccursAt(s, t, k)
    decreases |s| - i
  {
    if i + |t| <= |s| {
      MatchesFromIsSlice(s, t, i, 0);
      ContainsFromIsSubstring(s, t, i + 1);
      assert t[0..] == t;
      if MatchesFrom(s, t, i, 0) {
        assert OccursAt(s, t, i);
      }
      if exists k: nat :: i <= k && OccursAt(s, t, k) {
        var k: nat :| i <= k && OccursAt(s, t, k);
        if k > i {
          assert ContainsFrom(s, t, i + 1);
        }
      }
    } else {
      forall k: nat | i <= k ensures !OccursAt(s, t, k) {
      }
    }
  }

  /** `includes` is the substring relation. */
  lemma {:induction false} IncludesIsSubstring(s: string, t: string)
    ensures Includes(s, t) <==> exists k: nat :: OccursAt(s, t, k)
  {
    ContainsFromIsSubstring(s, t, 0);
  }

  /** Every character of an included string occurs in the including one. */
  lemma {:induction false} IncludedCharsOccur(s: string, t: string, c: char)
    ensures Includes(s, t) && c in t ==> c in s
  {
    if Includes(s, t) && c in t {
      IncludesIsSubstring(s, t);
      var k: nat :| OccursAt(s, t, k);
      var j :| 0 <= j < |t| && t[j] == c;
      assert s[k + j] == s[k..k + |t|][j];
    }
  }

  /** Every string includes itself. */
  lemma {:induction false} IncludesSelf(s: string)
    ensures Includes(s, s)
  {
    IncludesIsSubstring(s, s);
    assert OccursAt(s, s, 0);
  }

  // ------------------------------------------------------------- search

  /** The body of the `filter` callback, for an already lowered query. */
  predicate Matches(b: Beach, lowerQuery: string)
  {
    Includes(ToLower(b.name), lowerQuery)
    || Includes(ToLower(b.region), lowerQuery)
    || exists alt :: alt in b.altNames && Includes(ToLower(alt), lowerQuery)
  }

  function MatchesQuery(lowerQuery: string): Beach -> bool
  {
    (b: Beach) => Matches(b, lowerQuery)
  }

  /** The body of `GET` over a given catalogue, for the `q` parameter (absent is `None`). */
  function SearchIn(catalogue: seq<Beach>, query: Option<string>): seq<BeachSummary>
  {
    if query.None? || |query.value| < 2 then []
    else Map(Filter(catalogue, MatchesQuery(ToLower(query.value))), Summary)
  }

  /** What `GET` returns: the search over `mockBeaches`. */
  function Search(query: Option<string>): seq<BeachSummary>
  {
    SearchIn(Catalogue, query)
  }

  /** A missing query, the empty one and one-character ones find nothing. */
  lemma {:induction false} ShortQueryFindsNothing(catalogue: seq<Beach>, query: Option<string>)
    requires query.None? || |query.value| < 2
    ensures SearchIn(catalogue, query) == []
  {
  }

  /**
   * A summary is returned iff it summarises a catalogue beach whose
   * lowered name, region or some lowered alternative name contains the
   * lowered query.
   */
  lemma {:induction false} SearchMembership(catalogue: seq<Beach>, query: string)
    requires |query| >= 2
    ensures forall x :: x in SearchIn(catalogue, Some(query)) <==>
      exists b :: b in catalogue && Matches(b, ToLower(query)) && x == Summary(b)
  {
    var p := MatchesQuery(ToLower(query));
    var kept := Filter(catalogue, p);
    FilterMembership(catalogue, p);
    forall x | x in SearchIn(catalogue, Some(query))
      ensures exists b :: b in catalogue && Matches(b, ToLower(query)) && x == Summary(b)
    {
      var k :| 0 <= k < |kept| && Map(kept, Summary)[k] == x;
      assert kept[k] in kept;
    }
    forall b | b in catalogue && Matches(b, ToLower(query))
      ensures Summary(b) in SearchIn(catalogue, Some(query))
    {
      assert p(b);
      var k :| 0 <= k < |kept| && kept[k] == b;
      assert Map(kept, Summary)[k] == Summary(b);
    }
  }

  /** Result `k` summarises catalogue entry `ix[k]`, and the indices grow strictly. */
  predicate SummarisesInOrder(r: seq<BeachSummary>, catalogue: seq<Beach>, ix: seq<nat>)
  {
    |ix| == |r|
    && (forall k :: 0 <= k < |ix| ==> ix[k] < |catalogue| && r[k] == Summary(catalogue[ix[k]]))
    && (forall k, l :: 0 <= k < l < |ix| ==> ix[k] < ix[l])
  }

  /** The results follow catalogue order: they summarise catalogue entries at strictly growing indices. */
  lemma {:induction false} SearchKeepsCatalogueOrder(catalogue: seq<Beach>, query: string)
    ensures exists ix: seq<nat> :: SummarisesInOrder(SearchIn(catalogue, Some(query)), catalogue, ix)
  {
    var r := SearchIn(catalogue, Some(query));
    if |query| < 2 {
      assert SummarisesInOrder(r, catalogue, []);
    } else {
      var p := MatchesQuery(ToLower(query));
      FilterIsSubsequence(catalogue, p);
      var ix := FilterIndices(catalogue, p);
      assert forall k :: 0 <= k < |ix| ==> r[k] == Summary(Filter(catalogue, p)[k]);
      assert SummarisesInOrder(r, catalogue, ix);
    }
  }

  /** The catalogue's ids are distinct. */
  lemma {:induction false} CatalogueIdsDistinct()
    ensures forall i, j :: 0 <= i < j < |Catalogue| ==> Catalogue[i].id != Catalogue[j].id
  {
    forall i, j | 0 <= i < j < |Catalogue|
      ensures Catalogue[i].id != Catalogue[j].id
    {
      var a, b := Catalogue[i].id, Catalogue[j].id;
      assert |a| != |b| || a[6] != b[6] || a[|a| - 3] != b[|b| - 3] || a[8] != b[8];
    }
  }

  /** Over a catalogue with distinct ids, no beach is returned twice. */
  lemma {:induction false} SearchInHasNoDuplicates(catalogue: seq<Beach>, query: string)
    requires forall i, j :: 0 <= i < j < |catalogue| ==> catalogue[i].id != catalogue[j].id
    ensures forall k, l :: 0 <= k < l < |SearchIn(catalogue, Some(query))| ==>
      SearchIn(catalogue, Some(query))[k].id != SearchIn(catalogue, Some(query))[l].id
  {
    if |query| >= 2 {
      var p := MatchesQuery(ToLower(query));
      FilterIsSubsequence(catalogue, p);
      var ix, r := FilterIndices(catalogue, p), SearchIn(catalogue, Some(query));
      forall k, l | 0 <= k < l < |r| ensures r[k].id != r[l].id {
        assert r[k] == Summary(catalogue[ix[k]]) && r[l] == Summary(catalogue[ix[l]]);
      }
    }
  }

  /** No beach of `mockBeaches` is returned twice: the result ids are distinct. */
  lemma {:induction false} SearchHasNoDuplicates(query: string)
    ensures forall k, l :: 0 <= k < l < |Search(Some(query))| ==> Search(Some(query))[k].id != Search(Some(query))[l].id
  {
    CatalogueIdsDistinct();
    SearchInHasNoDuplicates(Catalogue, query);
  }

  /** Queries equal up to ASCII letter case return the same results. */
  lemma {:induction false} CaseInsensitive(catalogue: seq<Beach>, q1: string, q2: string)
    requires ToLower(q1) == ToLower(q2)
    ensures SearchIn(catalogue, Some(q1)) == SearchIn(catalogue, Some(q2))
  {
  }

  /** A field without the letter v, in either case, never contains "tel aviv". */
  lemma {:induction false} NoVNoTelAviv(s: string)
    requires 'v' !in s && 'V' !in s
    ensures !Includes(ToLower(s), "tel aviv")
  {
    forall i | 0 <= i < |s| ensures ToLower(s)[i] != 'v' {
      assert s[i] != 'v' && s[i] != 'V';
    }
    assert "tel aviv"[5] == 'v';
    IncludedCharsOccur(ToLower(s), "tel aviv", 'v');
  }

  /** A field shorter than the query cannot include it. */
  lemma {:induction false} ShortFieldMisses(s: string, q: string)
    requires |s| < |q|
    ensures !Includes(ToLower(s), q)
  {
  }

  /** A field without the letter v, in either case, does not include "tel aviv". */
  lemma {:induction false} NoVFieldMisses(s: string, q: string)
    requires q == "tel aviv" && 'v' !in s && 'V' !in s
    ensures !Includes(ToLower(s), q)
  {
    NoVNoTelAviv(s);
  }

  /** A beach none of whose fields includes the query does not match it. */
  lemma {:induction false} FieldsMiss(b: Beach, name: string, region: string, alts: seq<string>, q: string)
    requires b.name == name && b.region == region && b.altNames == alts
    requires !Includes(ToLower(name), q) && !Includes(ToLower(region), q)
    requires forall k :: 0 <= k < |alts| ==> !Includes(ToLower(alts[k]), q)
    ensures !Matches(b, q)
  {
    forall alt | alt in b.altNames ensures !Includes(ToLower(alt), q) {
      var k :| 0 <= k < |b.altNames| && b.altNames[k] == alt;
    }
  }

  /** The two Tel Aviv beaches match through their region. */
  lemma {:induction false} TelAvivBeachesMatch()
    ensures Matches(Hilton, "tel aviv") && Matches(Gordon, "tel aviv")
  {
    assert ToLower("Tel Aviv") == "tel aviv";
    IncludesSelf("tel aviv");
  }

  // Every other beach misses "tel aviv": its short fields by length, its
  // long ones because they have no v.

  lemma {:induction false} NetanyaNameMisses(q: string)
    requires q == "tel aviv"
    ensures !Includes(ToLower("Netanya Beach"), q)
  {
    NoVFieldMisses("Netanya Beach", q);
  }

  lemma {:induction false} NetanyaMisses(q: string)
    requires q == "tel aviv"
    ensures !Matches(Netanya, q)
  {
    NetanyaNameMisses(q);
    ShortFieldMisses("Central", q);
    ShortFieldMisses("נתניה", q);
    ShortFieldMisses("netania", q);
    FieldsMiss(Netanya, "Netanya Beach", "Central", ["נתניה", "netania"], q);
  }

  lemma {:induction false} HaifaNameMisses(q: string)
    requires q == "tel aviv"
    ensures !Includes(ToLower("Haifa Carmel Beach"), q)
  {
    NoVFieldMisses("Haifa Carmel Beach", q);
  }

  lemma {:induction false} HaifaMisses(q: string)
    requires q == "tel aviv"
    ensures !Matches(Haifa, q)
  {
    HaifaNameMisses(q);
    ShortFieldMisses("North", q);
    ShortFieldMisses("חיפה", q);
    ShortFieldMisses("carmel", q);
    ShortFieldMisses("כרמל", q);
    FieldsMiss(Haifa, "Haifa Carmel Beach", "North", ["חיפה", "carmel", "כרמל"], q);
  }

  lemma {:induction false} AshdodNameMisses(q: string)
    requires q == "tel aviv"
    ensures !Includes(ToLower("Ashdod Beach"), q)
  {
    NoVFieldMisses("Ashdod Beach", q);
  }

  lemma {:induction false} AshdodMisses(q: string)
    requires q == "tel aviv"
    ensures !Matches(Ashdod, q)
  {
    AshdodNameMisses(q);
    ShortFieldMisses("South", q);
    ShortFieldMisses("אשדוד", q);
    FieldsMiss(Ashdod, "Ashdod Beach", "South", ["אשדוד"], q);
  }

  lemma {:induction false} AshkelonNameMisses(q: string)
    requires q == "tel aviv"
    ensures !Includes(ToLower("Ashkelon Beach"), q)
  {
    NoVFieldMisses("Ashkelon Beach", q);
  }

  lemma {:induction false} AshkelonMisses(q: string)
    requires q == "tel aviv"
    ensures !Matches(Ashkelon, q)
  {
    AshkelonNameMisses(q);
    ShortFieldMisses("South", q);
    ShortFieldMisses("אשקלון", q);
    FieldsMiss(Ashkelon, "Ashkelon Beach", "South", ["אשקלון"], q);
  }

  lemma {:induction false} HerzliyaNameMisses(q: string)
    requires q == "tel aviv"
    ensures !Includes(ToLower("Herzliya Beach"), q)
  {
    NoVFieldMisses("Herzliya Beach", q);
  }

  lemma {:induction false} HerzliyaLatinNameMisses(q: string)
    requires q == "tel aviv"
    ensures !Includes(ToLower("herzeliya"), q)
  {
    NoVFieldMisses("herzeliya", q);
  }

  lemma {:induction false} HerzliyaMisses(q: string)
    requires q == "tel aviv"
    ensures !Matches(Herzliya, q)
  {
    HerzliyaNameMisses(q);
    ShortFieldMisses("Central", q);
    ShortFieldMisses("הרצליה", q);
    HerzliyaLatinNameMisses(q);
    FieldsMiss(Herzliya, "Herzliya Beach", "Central", ["הרצליה", "herzeliya"], q);
  }

  lemma {:induction false} BatYamNameMisses(q: string)
    requires q == "tel aviv"
    ensures !Includes(ToLower("Bat Yam Beach"), q)
  {
    NoVFieldMisses("Bat Yam Beach", q);
  }

  lemma {:induction false} BatYamMisses(q: string)
    requires q == "tel aviv"
    ensures !Matches(BatYam, q)
  {
    BatYamNameMisses(q);
    ShortFieldMisses("Central", q);
    ShortFieldMisses("בת ים", q);
    FieldsMiss(BatYam, "Bat Yam Beach", "Central", ["בת ים"], q);
  }

  lemma {:induction false} RishonNameMisses(q: string)
    requires q == "tel aviv"
    ensures !Includes(ToLower("Rishon LeZion Beach"), q)
  {
    NoVFieldMisses("Rishon LeZion Beach", q);
  }

  lemma {:induction false} RishonHebrewNameMisses(q: string)
    requires q == "tel aviv"
    ensures !Includes(ToLower("ראשון לציון"), q)
  {
    NoVFieldMisses("ראשון לציון", q);
  }

  lemma {:induction false} RishonLatinNameMisses(q: string)
    requires q == "tel aviv"
    ensures !Includes(ToLower("rishon lezion"), q)
  {
    NoVFieldMisses("rishon lezion", q);
  }

  lemma {:induction false} RishonMisses(q: string)
    requires q == "tel aviv"
    ensures !Matches(Rishon, q)
  {
    RishonNameMisses(q);
    ShortFieldMisses("Central", q);
    RishonHebrewNameMisses(q);
    RishonLatinNameMisses(q);
    FieldsMiss(Rishon, "Rishon LeZion Beach", "Central", ["ראשון לציון", "rishon lezion"], q);
  }

  lemma {:induction false} HaderaNameMisses(q: string)
    requires q == "tel aviv"
    ensures !Includes(ToLower("Hadera Beach"), q)
  {
    NoVFieldMisses("Hadera Beach", q);
  }

  lemma {:induction false} HaderaMisses(q: string)
    requires q == "tel aviv"
    ensures !Matches(Hadera, q)
  {
    HaderaNameMisses(q);
    ShortFieldMisses("North", q);
    ShortFieldMisses("חדרה", q);
    FieldsMiss(Hadera, "Hadera Beach", "North", ["חדרה"], q);
  }

  lemma {:induction false} NahariyaNameMisses(q: string)
    requires q == "tel aviv"
    ensures !Includes(ToLower("Nahariya Beach"), q)
  {
    NoVFieldMisses("Nahariya Beach", q);
  }

  lemma {:induction false} NahariyaMisses(q: string)
    requires q == "tel aviv"
    ensures !Matches(Nahariya, q)
  {
    NahariyaNameMisses(q);
    ShortFieldMisses("North", q);
    ShortFieldMisses("נהריה", q);
    FieldsMiss(Nahariya, "Nahariya Beach", "North", ["נהריה"], q);
  }

  lemma {:induction false} EilatNameMisses(q: string)
    requires q == "tel aviv"
    ensures !Includes(ToLower("Eilat Beach"), q)
  {
    NoVFieldMisses("Eilat Beach", q);
  }

  lemma {:induction false} EilatMisses(q: string)
    requires q == "tel aviv"
    ensures !Matches(Eilat, q)
  {
    EilatNameMisses(q);
    ShortFieldMisses("South", q);
    ShortFieldMisses("אילת", q);
    FieldsMiss(Eilat, "Eilat Beach", "South", ["אילת"], q);
  }

  /** A predicate that holds of exactly the two Tel Aviv beaches filters the catalogue down to them. */
  lemma {:induction false} FilterTelAvivOnly(p: Beach -> bool)
    requires p(Hilton) && p(Gordon)
    requires !p(Netanya) && !p(Haifa) && !p(Ashdod) && !p(Ashkelon) && !p(Herzliya)
    requires !p(BatYam) && !p(Rishon) && !p(Hadera) && !p(Nahariya) && !p(Eilat)
    ensures Filter(Catalogue, p) == [Hilton, Gordon]
  {
    var front, back := [Netanya, Haifa, Ashdod, Ashkelon, Herzliya], [BatYam, Rishon, Hadera, Nahariya, Eilat];
    assert Catalogue == front + [Hilton, Gordon] + back;
    FilterMiddle(front, [Hilton, Gordon], back, p);
  }

  /** The query "tel aviv" is already lower case. */
  lemma {:induction false} TelAvivQueryIsLower()
    ensures ToLower("tel aviv") == "tel aviv"
  {
  }

  /** Exactly the Hilton and Gordon beaches pass the filter for "tel aviv". */
  lemma {:induction false} TelAvivFilter(q: string)
    requires q == "tel aviv"
    ensures Filter(Catalogue, MatchesQuery(q)) == [Hilton, Gordon]
  {
    TelAvivBeachesMatch();
    NetanyaMisses(q);
    HaifaMisses(q);
    AshdodMisses(q);
    AshkelonMisses(q);
    HerzliyaMisses(q);
    BatYamMisses(q);
    RishonMisses(q);
    HaderaMisses(q);
    NahariyaMisses(q);
    EilatMisses(q);
    FilterTelAvivOnly(MatchesQuery(q));
  }

  /** Searching "tel aviv" returns the Hilton and Gordon beaches, in that order, and nothing else. */
  lemma {:induction false} TelAvivSearch()
    ensures Search(Some("tel aviv")) == [Summary(Hilton), Summary(Gordon)]
  {
    TelAvivQueryIsLower();
    TelAvivFilter("tel aviv");
    MapPair(Hilton, Gordon, Summary);
  }
}
