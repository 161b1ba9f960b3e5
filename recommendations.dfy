/**
 * `getRecommendedPosts`: orders a catalog by how well each listing matches the
 * areas, tenant types and rent of the listings the user liked.
 */
module Recommendations {
  import opened Text
  import opened Listings
  import opened StableSort

  /** The area of a location: the text before its first comma, trimmed. */
  function Area(location: string): (r: string)
    ensures |r| <= |location|
  {
    Trim(BeforeComma(location))
  }

  /** `allPosts.filter(p => likedPostIds.includes(p.id))`. */
  function LikedPosts(all: seq<Listing>, liked: seq<int>): (r: seq<Listing>)
    ensures |r| <= |all|
    ensures forall p :: p in r <==> p in all && p.id in liked
  {
    if all == [] then []
    else (if all[0].id in liked then [all[0]] else []) + LikedPosts(all[1..], liked)
  }

  /** What the liked listings say about the user: their areas, types, and total rent over their count. */
  datatype Profile = Profile(areas: seq<string>, types: seq<string>, rentSum: int, count: nat)

  function RentSum(ps: seq<Listing>): int {
    if ps == [] then 0 else ps[0].rent + RentSum(ps[1..])
  }

  /** The preference profile built from the liked listings (`locations`, `types`, `avgRent` = rentSum / count). */
  function BuildProfile(liked: seq<Listing>): (r: Profile)
    ensures r.count == |liked| && r.rentSum == RentSum(liked)
    ensures forall a :: a in r.areas <==> exists p :: p in liked && Area(p.location) == a
    ensures forall t :: t in r.types <==> exists p :: p in liked && p.tenantType == t
  {
    if liked == [] then Profile([], [], 0, 0)
    else
      var rest := BuildProfile(liked[1..]);
      assert forall p :: p in liked <==> p == liked[0] || p in liked[1..];
      Profile([Area(liked[0].location)] + rest.areas, [liked[0].tenantType] + rest.types,
              liked[0].rent + rest.rentSum, rest.count + 1)
  }

  /**
   * `rent >= avgRent * 0.8 && rent <= avgRent * 1.2` with `avgRent = rentSum / count`,
   * cleared of the division: 4 * rentSum <= 5 * count * rent <= 6 * rentSum.
   */
  predicate InRentBand(prof: Profile, rent: int) {
    4 * prof.rentSum <= 5 * prof.count * rent <= 6 * prof.rentSum
  }

  /**
   * The cleared form is the source's band: for a non-empty profile, the rent lies
   * within 80% to 120% of the average rent `rentSum / count`, in exact arithmetic.
   */
  lemma InRentBandIsAverageBand(prof: Profile, rent: int)
    requires prof.count > 0
    ensures var avg := prof.rentSum as real / prof.count as real;
      InRentBand(prof, rent) <==> avg * 0.8 <= rent as real <= avg * 1.2
  {
    var c := prof.count as real;
    var avg := prof.rentSum as real / c;
    assert avg * c == prof.rentSum as real;
    var x := rent as real;
    assert avg * 0.8 <= x <==> 4.0 * (avg * c) <= 5.0 * c * x by {
      ScaleByPositive(avg * 0.8, x, 5.0 * c);
      assert (avg * 0.8) * (5.0 * c) == 4.0 * (avg * c);
    }
    assert x <= avg * 1.2 <==> 5.0 * c * x <= 6.0 * (avg * c) by {
      ScaleByPositive(x, avg * 1.2, 5.0 * c);
      assert (avg * 1.2) * (5.0 * c) == 6.0 * (avg * c);
    }
    assert (5 * prof.count * rent) as real == 5.0 * c * x;
    assert (4 * prof.rentSum) as real == 4.0 * prof.rentSum as real;
    assert (6 * prof.rentSum) as real == 6.0 * prof.rentSum as real;
  }

  lemma ScaleByPositive(a: real, b: real, k: real)
    requires k > 0.0
    ensures a <= b <==> a * k <= b * k
  {
    if a <= b {
      assert (b - a) * k >= 0.0;
    } else {
      assert (a - b) * k > 0.0;
    }
  }

  predicate AreaMatch(prof: Profile, post: Listing) { Area(post.location) in prof.areas }
  predicate TypeMatch(prof: Profile, post: Listing) { post.tenantType in prof.types }

  /** The three weights added up, `score += 30`, `score += 15`, `score += 20`, for the match flags given. */
  function Weights(area: bool, kind: bool, band: bool): int {
    (if area then 30 else 0) + (if kind then 15 else 0) + (if band then 20 else 0)
  }

  /** The weights are distinct enough that the total tells which matches were made. */
  lemma WeightsDecode(area: bool, kind: bool, band: bool)
    ensures Weights(area, kind, band) in {0, 15, 20, 30, 35, 45, 50, 65}
    ensures area <==> Weights(area, kind, band) in {30, 45, 50, 65}
    ensures kind <==> Weights(area, kind, band) % 10 == 5
    ensures band <==> Weights(area, kind, band) in {20, 35, 50, 65}
  {
  }

  /** The affinity of one listing: the weights of the matches it makes. */
  function Score(prof: Profile, post: Listing): (r: int)
    ensures 0 <= r <= 65
  {
    Weights(AreaMatch(prof, post), TypeMatch(prof, post), InRentBand(prof, post.rent))
  }

  /**
   * A score is one of the eight sums of the weights, and it tells which of the
   * three matches the listing made.
   */
  lemma ScoreValues(prof: Profile, post: Listing)
    ensures Score(prof, post) in {0, 15, 20, 30, 35, 45, 50, 65}
    ensures AreaMatch(prof, post) <==> Score(prof, post) in {30, 45, 50, 65}
    ensures TypeMatch(prof, post) <==> Score(prof, post) % 10 == 5
    ensures InRentBand(prof, post.rent) <==> Score(prof, post) in {20, 35, 50, 65}
  {
    WeightsDecode(AreaMatch(prof, post), TypeMatch(prof, post), InRentBand(prof, post.rent));
  }

  /** `allPosts.map(post => ({ ...post, score }))`. */
  function ScoreAll(prof: Profile, all: seq<Listing>): (r: seq<Scored<Listing>>)
    ensures |r| == |all|
    ensures forall i :: 0 <= i < |r| ==> r[i] == Scored(all[i], Score(prof, all[i]))
  {
    seq(|all|, i requires 0 <= i < |all| => Scored(all[i], Score(prof, all[i])))
  }

  /** The profile the recommender builds for a catalog and a list of liked ids. */
  function ProfileOf(all: seq<Listing>, liked: seq<int>): Profile {
    BuildProfile(LikedPosts(all, liked))
  }

  /**
   * `getRecommendedPosts(allPosts, likedPostIds)`: a reordering of the catalog,
   * left as it is when no liked id names a listing of the catalog.
   */
  function RecommendedPosts(all: seq<Listing>, liked: seq<int>): (r: seq<Listing>)
    ensures |r| == |all| && multiset(r) == multiset(all)
    ensures liked == [] ==> r == all
    ensures (forall p :: p in all ==> p.id !in liked) ==> r == all
  {
    if |liked| == 0 then all
    else
      var likedPosts := LikedPosts(all, liked);
      if |likedPosts| == 0 then all
      else
        var scored := ScoreAll(BuildProfile(likedPosts), all);
        StripPermutation(SortByScore(scored), scored);
        StripScoreAll(BuildProfile(likedPosts), all);
        Strip(SortByScore(scored))
  }

  lemma StripScoreAll(prof: Profile, all: seq<Listing>)
    ensures Strip(ScoreAll(prof, all)) == all
  {
  }

  /** Scores never increase along the sequence. */
  predicate RankedDesc(prof: Profile, s: seq<Listing>) {
    forall i, j :: 0 <= i < j < |s| ==> Score(prof, s[i]) >= Score(prof, s[j])
  }

  /** The listings of `s` that score `k`, in order. */
  function ScoringAt(prof: Profile, s: seq<Listing>, k: int): (r: seq<Listing>)
    ensures |r| <= |s|
  {
    if s == [] then []
    else (if Score(prof, s[0]) == k then [s[0]] else []) + ScoringAt(prof, s[1..], k)
  }

  /** Scoring a catalog and then filtering by score is filtering and then scoring. */
  lemma {:induction false} ScoreAllWithScore(prof: Profile, s: seq<Listing>, k: int)
    ensures WithScore(ScoreAll(prof, s), k) == ScoreAll(prof, ScoringAt(prof, s, k))
  {
    if s != [] {
      ScoreAllWithScore(prof, s[1..], k);
      var h := Scored(s[0], Score(prof, s[0]));
      assert ScoreAll(prof, s) == [h] + ScoreAll(prof, s[1..]);
      WithScoreCons(h, ScoreAll(prof, s[1..]), k);
      ScoreAllAppend(prof, if Score(prof, s[0]) == k then [s[0]] else [], ScoringAt(prof, s[1..], k));
    }
  }

  lemma ScoreAllAppend(prof: Profile, a: seq<Listing>, b: seq<Listing>)
    ensures ScoreAll(prof, a + b) == ScoreAll(prof, a) + ScoreAll(prof, b)
  {
  }

  /** Scoring forgets nothing: the listings come back out of their scores. */
  lemma ScoreAllInjective(prof: Profile, a: seq<Listing>, b: seq<Listing>)
    requires ScoreAll(prof, a) == ScoreAll(prof, b)
    ensures a == b
  {
    assert a == Strip(ScoreAll(prof, a)) && b == Strip(ScoreAll(prof, b));
  }

  /** A scored sequence all of whose scores are the listings' own scores is the scoring of its listings. */
  lemma ScoredBackToScoreAll(prof: Profile, all: seq<Listing>, t: seq<Scored<Listing>>)
    requires multiset(t) == multiset(ScoreAll(prof, all))
    ensures t == ScoreAll(prof, Strip(t))
  {
    forall i | 0 <= i < |t| ensures t[i].score == Score(prof, t[i].post) {
      assert t[i] in multiset(ScoreAll(prof, all));
    }
  }

  /** When some liked id names a listing of the catalog, the result is ordered by score, highest first. */
  lemma RecommendedRanked(all: seq<Listing>, liked: seq<int>)
    requires exists p :: p in all && p.id in liked
    ensures RankedDesc(ProfileOf(all, liked), RecommendedPosts(all, liked))
  {
    var sorted := RecommendedScored(all, liked);
  }

  /** Among listings of equal score the result keeps catalog order: the sort is stable. */
  lemma RecommendedStable(all: seq<Listing>, liked: seq<int>, k: int)
    requires exists p :: p in all && p.id in liked
    ensures ScoringAt(ProfileOf(all, liked), RecommendedPosts(all, liked), k)
            == ScoringAt(ProfileOf(all, liked), all, k)
  {
    var prof := ProfileOf(all, liked);
    var r := RecommendedPosts(all, liked);
    var sorted := RecommendedScored(all, liked);
    ScoreAllWithScore(prof, r, k);
    ScoreAllWithScore(prof, all, k);
    ScoreAllInjective(prof, ScoringAt(prof, r, k), ScoringAt(prof, all, k));
  }

  /** The scored, sorted catalog behind a non-trivial recommendation. */
  lemma RecommendedScored(all: seq<Listing>, liked: seq<int>) returns (sorted: seq<Scored<Listing>>)
    requires exists p :: p in all && p.id in liked
    ensures sorted == ScoreAll(ProfileOf(all, liked), RecommendedPosts(all, liked))
    ensures SortedDesc(sorted)
    ensures forall k :: WithScore(sorted, k) == WithScore(ScoreAll(ProfileOf(all, liked), all), k)
  {
    var p :| p in all && p.id in liked;
    assert p in LikedPosts(all, liked);
    var prof := ProfileOf(all, liked);
    sorted := SortByScore(ScoreAll(prof, all));
    ScoredBackToScoreAll(prof, all, sorted);
  }

  /**
   * The order is the only one with those two properties: any arrangement of the
   * catalog ranked by score and stable within each score is the recommendation.
   */
  lemma RecommendedUnique(all: seq<Listing>, liked: seq<int>, o: seq<Listing>)
    requires exists p :: p in all && p.id in liked
    requires RankedDesc(ProfileOf(all, liked), o)
    requires forall k :: ScoringAt(ProfileOf(all, liked), o, k) == ScoringAt(ProfileOf(all, liked), all, k)
    ensures o == RecommendedPosts(all, liked)
  {
    var prof := ProfileOf(all, liked);
    var sorted := RecommendedScored(all, liked);
    var so := ScoreAll(prof, o);
    forall k ensures WithScore(so, k) == WithScore(sorted, k) {
      ScoreAllWithScore(prof, o, k);
      ScoreAllWithScore(prof, all, k);
    }
    StableOrderUnique(so, sorted);
    ScoreAllInjective(prof, o, RecommendedPosts(all, liked));
  }

  /** Ids that name no listing of the catalog, repeats and order of the ids change nothing. */
  lemma RecommendedIgnoresUnknownIds(all: seq<Listing>, l1: seq<int>, l2: seq<int>)
    requires forall p :: p in all ==> (p.id in l1 <==> p.id in l2)
    ensures RecommendedPosts(all, l1) == RecommendedPosts(all, l2)
  {
    LikedPostsSameIds(all, l1, l2);
  }

  lemma {:induction false} LikedPostsSameIds(all: seq<Listing>, l1: seq<int>, l2: seq<int>)
    requires forall p :: p in all ==> (p.id in l1 <==> p.id in l2)
    ensures LikedPosts(all, l1) == LikedPosts(all, l2)
  {
    if all != [] {
      assert all[0] in all;
      assert forall p :: p in all[1..] ==> p in all;
      LikedPostsSameIds(all[1..], l1, l2);
    }
  }

  /** A liked listing always matches its own area and type. */
  lemma LikedMatchesItself(all: seq<Listing>, liked: seq<int>, p: Listing)
    requires p in all && p.id in liked
    ensures AreaMatch(ProfileOf(all, liked), p) && TypeMatch(ProfileOf(all, liked), p)
  {
    assert p in LikedPosts(all, liked);
    ProfileHasLiked(LikedPosts(all, liked), p);
  }

  /** So a liked listing scores at least 45, whatever its rent. */
  lemma LikedScoresHigh(all: seq<Listing>, liked: seq<int>, p: Listing)
    requires p in all && p.id in liked
    ensures Score(ProfileOf(all, liked), p) in {45, 65}
  {
    LikedMatchesItself(all, liked, p);
  }

  /** A profile holds the area and the type of every listing it is built from. */
  lemma {:induction false} ProfileHasLiked(liked: seq<Listing>, p: Listing)
    requires p in liked
    ensures Area(p.location) in BuildProfile(liked).areas
    ensures p.tenantType in BuildProfile(liked).types
  {
    if liked[0] != p {
      ProfileHasLiked(liked[1..], p);
    }
  }

  /** With a single liked listing of non-negative rent, that listing reaches the top score 65. */
  lemma SingleLikedScoresTop(all: seq<Listing>, liked: seq<int>, p: Listing)
    requires LikedPosts(all, liked) == [p] && p.rent >= 0
    ensures Score(ProfileOf(all, liked), p) == 65
    ensures forall q :: Score(ProfileOf(all, liked), q) <= Score(ProfileOf(all, liked), p)
  {
    assert p in LikedPosts(all, liked);
    var prof := ProfileOf(all, liked);
    assert RentSum([p]) == p.rent by { assert [p][1..] == []; }
    assert InRentBand(prof, p.rent);
  }

  /** The areas of the five mock listings. */
  lemma MockAreas()
    ensures Area(Mock1.location) == "Mohammadpur"
    ensures Area(Mock2.location) == "Dhanmondi"
    ensures Area(Mock3.location) == "Mirpur 10"
    ensures Area(Mock4.location) == "Uttara"
    ensures Area(Mock5.location) == "Farmgate"
  {
    MockArea1();
    MockArea2();
    MockArea3();
    MockArea4();
    MockArea5();
  }

  lemma MockArea1()
    ensures Area(Mock1.location) == "Mohammadpur"
  {
    assert Mock1.location == "Mohammadpur, Road 3";
    AreaAt("Mohammadpur, Road 3", 11);
  }

  lemma MockArea2()
    ensures Area(Mock2.location) == "Dhanmondi"
  {
    assert Mock2.location == "Dhanmondi, Road 12A";
    AreaAt("Dhanmondi, Road 12A", 9);
  }

  lemma MockArea3()
    ensures Area(Mock3.location) == "Mirpur 10"
  {
    assert Mock3.location == "Mirpur 10";
    AreaAt("Mirpur 10", 9);
  }

  lemma MockArea4()
    ensures Area(Mock4.location) == "Uttara"
  {
    assert Mock4.location == "Uttara, Sector 4";
    AreaAt("Uttara, Sector 4", 6);
  }

  lemma MockArea5()
    ensures Area(Mock5.location) == "Farmgate"
  {
    assert Mock5.location == "Farmgate, Indira Road";
    AreaAt("Farmgate, Indira Road", 8);
  }

  /** The area of a location whose first comma is at `k` (or that has none, `k == |s|`) and that has no space around the cut. */
  lemma AreaAt(s: string, k: nat)
    requires 0 < k <= |s| && ',' !in s[..k] && (k == |s| || s[k] == ',')
    requires !IsSpace(s[0]) && !IsSpace(s[k - 1])
    ensures Area(s) == s[..k]
  {
    BeforeCommaAt(s, k);
    TrimKeeps(s[..k]);
  }

  /** What the recommender reads of the mock catalog: ids, areas, tenant types and rents. */
  lemma MockFacts()
    ensures |MockListings| == 5
    ensures MockListings[0].id == 1 && MockListings[1].id == 2 && MockListings[2].id == 3
            && MockListings[3].id == 4 && MockListings[4].id == 5
    ensures Area(MockListings[1].location) != Area(MockListings[0].location) && Area(MockListings[2].location) != Area(MockListings[0].location)
            && Area(MockListings[3].location) != Area(MockListings[0].location) && Area(MockListings[4].location) != Area(MockListings[0].location)
    ensures MockListings[4].tenantType == MockListings[0].tenantType
    ensures MockListings[1].tenantType != MockListings[0].tenantType && MockListings[2].tenantType != MockListings[0].tenantType
            && MockListings[3].tenantType != MockListings[0].tenantType
    ensures [MockListings[0].rent, MockListings[1].rent, MockListings[2].rent,
             MockListings[3].rent, MockListings[4].rent] == [6000, 12000, 3500, 15000, 3000]
  {
    MockIds();
    MockRentsPositive();
    MockAreas();
    assert [MockListings[0].tenantType, MockListings[1].tenantType, MockListings[2].tenantType,
            MockListings[3].tenantType, MockListings[4].tenantType]
        == ["Bachelor Male", "Small Family", "Student Female", "Small Family", "Bachelor Male"];
    assert |"Mohammadpur"| == 11 && |"Dhanmondi"| == 9 && |"Mirpur 10"| == 9 && |"Uttara"| == 6 && |"Farmgate"| == 8;
  }

  /**
   * With listing 1 liked, the home page order is 1, 5, 2, 3, 4: listing 1 scores
   * 65, listing 5 shares its tenant type (15), the others score 0 and keep their order.
   */
  lemma MockRecommendation()
    ensures RecommendedPosts(MockListings, [1]) == [Mock1, Mock5, Mock2, Mock3, Mock4]
  {
    MockFacts();
    FirstOfFiveLiked(MockListings);
  }

  /** The mock scenario for any catalog that agrees with the mock one on what the recommender reads. */
  lemma FirstOfFiveLiked(l: seq<Listing>)
    requires |l| == 5 && l[0].id == 1 && l[1].id == 2 && l[2].id == 3 && l[3].id == 4 && l[4].id == 5
    requires Area(l[1].location) != Area(l[0].location) && Area(l[2].location) != Area(l[0].location)
            && Area(l[3].location) != Area(l[0].location) && Area(l[4].location) != Area(l[0].location)
    requires l[4].tenantType == l[0].tenantType
    requires l[1].tenantType != l[0].tenantType && l[2].tenantType != l[0].tenantType
            && l[3].tenantType != l[0].tenantType
    requires [l[0].rent, l[1].rent, l[2].rent, l[3].rent, l[4].rent] == [6000, 12000, 3500, 15000, 3000]
    ensures RecommendedPosts(l, [1]) == [l[0], l[4], l[1], l[2], l[3]]
  {
    var prof := ProfileOf(l, [1]);
    FirstOfFiveProfile(l);
    FirstOfFiveScores(prof, l);
    var o := [l[0], l[4], l[1], l[2], l[3]];
    FirstOfFiveOrder(prof, l);
    assert l[0] in l && l[0].id in [1];
    RecommendedUnique(l, [1], o);
  }

  lemma FirstOfFiveScores(prof: Profile, l: seq<Listing>)
    requires |l| == 5 && prof == Profile([Area(l[0].location)], [l[0].tenantType], 6000, 1)
    requires Area(l[1].location) != Area(l[0].location) && Area(l[2].location) != Area(l[0].location)
            && Area(l[3].location) != Area(l[0].location) && Area(l[4].location) != Area(l[0].location)
    requires l[4].tenantType == l[0].tenantType
    requires l[1].tenantType != l[0].tenantType && l[2].tenantType != l[0].tenantType
            && l[3].tenantType != l[0].tenantType
    requires [l[0].rent, l[1].rent, l[2].rent, l[3].rent, l[4].rent] == [6000, 12000, 3500, 15000, 3000]
    ensures [Score(prof, l[0]), Score(prof, l[1]), Score(prof, l[2]), Score(prof, l[3]), Score(prof, l[4])]
            == [65, 0, 0, 0, 15]
  {
    assert AreaMatch(prof, l[0]) && TypeMatch(prof, l[0]) && InRentBand(prof, l[0].rent);
    assert !AreaMatch(prof, l[1]) && !TypeMatch(prof, l[1]) && !InRentBand(prof, l[1].rent);
    assert !AreaMatch(prof, l[2]) && !TypeMatch(prof, l[2]) && !InRentBand(prof, l[2].rent);
    assert !AreaMatch(prof, l[3]) && !TypeMatch(prof, l[3]) && !InRentBand(prof, l[3].rent);
    assert !AreaMatch(prof, l[4]) && TypeMatch(prof, l[4]) && !InRentBand(prof, l[4].rent);
    assert Weights(true, true, true) == 65 && Weights(false, false, false) == 0
        && Weights(false, true, false) == 15;
  }

  /** Ranking scores 65, 0, 0, 0, 15 stably gives positions 1, 5, 2, 3, 4. */
  lemma FirstOfFiveOrder(prof: Profile, l: seq<Listing>)
    requires |l| == 5
    requires [Score(prof, l[0]), Score(prof, l[1]), Score(prof, l[2]), Score(prof, l[3]), Score(prof, l[4])]
             == [65, 0, 0, 0, 15]
    ensures RankedDesc(prof, [l[0], l[4], l[1], l[2], l[3]])
    ensures forall k :: ScoringAt(prof, [l[0], l[4], l[1], l[2], l[3]], k) == ScoringAt(prof, l, k)
  {
    var o := [l[0], l[4], l[1], l[2], l[3]];
    assert [Score(prof, o[0]), Score(prof, o[1]), Score(prof, o[2]), Score(prof, o[3]), Score(prof, o[4])]
           == [65, 15, 0, 0, 0];
    FirstOfFiveMoved(prof, l);
    SameScoringAt(prof, o, l);
  }

  lemma FirstOfFiveMoved(prof: Profile, l: seq<Listing>)
    requires |l| == 5 && Score(prof, l[4]) == 15
    requires Score(prof, l[1]) == 0 && Score(prof, l[2]) == 0 && Score(prof, l[3]) == 0
    ensures forall k :: WithScore(ScoreAll(prof, [l[0], l[4], l[1], l[2], l[3]]), k) == WithScore(ScoreAll(prof, l), k)
  {
    var s := ScoreAll(prof, l);
    WithScoreLastToSecond(s);
    ScoreAllLastToSecond(prof, l);
  }

  lemma ScoreAllLastToSecond(prof: Profile, l: seq<Listing>)
    requires |l| == 5
    ensures ScoreAll(prof, [l[0], l[4], l[1], l[2], l[3]])
            == [ScoreAll(prof, l)[0], ScoreAll(prof, l)[4], ScoreAll(prof, l)[1], ScoreAll(prof, l)[2], ScoreAll(prof, l)[3]]
  {
    var o := [l[0], l[4], l[1], l[2], l[3]];
    var s := ScoreAll(prof, l);
    var t := ScoreAll(prof, o);
    assert t[0] == s[0] && t[1] == s[4] && t[2] == s[1] && t[3] == s[2] && t[4] == s[3];
  }

  /** Listings with the same scored subsequences have the same filtered subsequences. */
  lemma SameScoringAt(prof: Profile, a: seq<Listing>, b: seq<Listing>)
    requires forall k :: WithScore(ScoreAll(prof, a), k) == WithScore(ScoreAll(prof, b), k)
    ensures forall k :: ScoringAt(prof, a, k) == ScoringAt(prof, b, k)
  {
    forall k ensures ScoringAt(prof, a, k) == ScoringAt(prof, b, k) {
      ScoreAllWithScore(prof, a, k);
      ScoreAllWithScore(prof, b, k);
      ScoreAllInjective(prof, ScoringAt(prof, a, k), ScoringAt(prof, b, k));
    }
  }

  lemma FirstOfFiveProfile(l: seq<Listing>)
    requires |l| == 5 && l[0].id == 1 && l[1].id == 2 && l[2].id == 3 && l[3].id == 4 && l[4].id == 5
    ensures LikedPosts(l, [1]) == [l[0]]
    ensures ProfileOf(l, [1]) == Profile([Area(l[0].location)], [l[0].tenantType], l[0].rent, 1)
  {
    assert forall p :: p in l[1..] ==> p.id != 1;
    LikedPostsNone(l[1..], [1]);
    ProfileOfOne(l[0]);
  }

  /** No listing is liked when no id names one. */
  lemma {:induction false} LikedPostsNone(all: seq<Listing>, liked: seq<int>)
    requires forall p :: p in all ==> p.id !in liked
    ensures LikedPosts(all, liked) == []
  {
    if all != [] {
      assert all[0] in all;
      assert forall p :: p in all[1..] ==> p in all;
      LikedPostsNone(all[1..], liked);
    }
  }

  lemma ProfileOfOne(p: Listing)
    ensures BuildProfile([p]) == Profile([Area(p.location)], [p.tenantType], p.rent, 1)
  {
    assert [p][1..] == [];
  }
}
