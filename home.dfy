/**
 * The home page: the listings it shows (recommended order when the visitor has
 * liked something, catalog order otherwise), the Popular Locations chips, the
 * first eight Featured Listings and the Active Ads counter.
 */
module Home {
  import opened Listings
  import opened Lists
  import opened Recommendations

  /** `MOCK_LISTINGS.map(item => item.location.split(',')[0].trim())`. */
  function Areas(ls: seq<Listing>): (r: seq<string>)
    ensures |r| == |ls|
  {
    seq(|ls|, i requires 0 <= i < |ls| => Area(ls[i].location))
  }

  /** `Array.from(new Set(areas))`: the Popular Locations chips. */
  function Locations(ls: seq<Listing>): (r: seq<string>)
    ensures |r| <= |ls|
  {
    Dedup(Areas(ls))
  }

  /**
   * Every chip is the area of some listing, every listing's area has a chip,
   * no chip repeats, and the chips follow the order in which the areas first appear.
   */
  lemma LocationsSpec(ls: seq<Listing>)
    ensures NoDuplicates(Locations(ls))
    ensures forall a :: a in Locations(ls) <==> exists l :: l in ls && Area(l.location) == a
    ensures forall i, j :: 0 <= i < j < |Locations(ls)| ==>
              Locations(ls)[i] in Areas(ls) && Locations(ls)[j] in Areas(ls) &&
              FirstIndex(Areas(ls), Locations(ls)[i]) < FirstIndex(Areas(ls), Locations(ls)[j])
  {
    var names := Areas(ls);
    DedupSpec(names);
    forall a ensures a in names <==> exists l :: l in ls && Area(l.location) == a {
      if a in names {
        var i :| 0 <= i < |names| && names[i] == a;
        assert ls[i] in ls;
      }
      if exists l :: l in ls && Area(l.location) == a {
        var l :| l in ls && Area(l.location) == a;
        var i :| 0 <= i < |ls| && ls[i] == l;
        assert names[i] == a;
      }
    }
  }

  /** The mock catalog has five distinct areas, listed in catalog order. */
  lemma MockLocations()
    ensures Locations(MockListings) == ["Mohammadpur", "Dhanmondi", "Mirpur 10", "Uttara", "Farmgate"]
  {
    MockAreaNames();
    MockAreasDistinct();
    DedupDistinct(["Mohammadpur", "Dhanmondi", "Mirpur 10", "Uttara", "Farmgate"]);
  }

  lemma MockAreaNames()
    ensures Areas(MockListings) == ["Mohammadpur", "Dhanmondi", "Mirpur 10", "Uttara", "Farmgate"]
  {
    MockAreas();
    AreasOfFive(MockListings);
  }

  lemma AreasOfFive(ls: seq<Listing>)
    requires |ls| == 5
    ensures Areas(ls) == [Area(ls[0].location), Area(ls[1].location), Area(ls[2].location),
                          Area(ls[3].location), Area(ls[4].location)]
  {
  }

  lemma MockAreasDistinct()
    ensures NoDuplicates(["Mohammadpur", "Dhanmondi", "Mirpur 10", "Uttara", "Farmgate"])
  {
    var names := ["Mohammadpur", "Dhanmondi", "Mirpur 10", "Uttara", "Farmgate"];
    assert names[0][0] == 'M' && names[1][0] == 'D' && names[2][0] == 'M' && names[3][0] == 'U' && names[4][0] == 'F';
    assert names[0][1] == 'o' && names[2][1] == 'i';
  }

  /** A list without repeats is its own deduplication. */
  lemma {:induction false} DedupDistinct(s: seq<string>)
    requires NoDuplicates(s)
    ensures Dedup(s) == s
  {
    if s != [] {
      var p := s[..|s| - 1];
      assert NoDuplicates(p);
      DedupDistinct(p);
      assert s[|s| - 1] !in p;
      assert s == p + [s[|s| - 1]];
    }
  }

  /** `listings.slice(0, 8)`: the Featured Listings, at most eight, in displayed order. */
  function Featured(ls: seq<Listing>): (r: seq<Listing>)
    ensures |r| == (if |ls| < 8 then |ls| else 8)
    ensures r <= ls
  {
    if |ls| < 8 then ls else ls[..8]
  }

  /** A catalog of at most eight listings is featured in full. */
  lemma FeaturedSmallCatalog(ls: seq<Listing>)
    requires |ls| <= 8
    ensures Featured(ls) == ls
  {
  }

  /** `totalAds`: the number of listings in the catalog, shown as "5+ Active Ads". */
  function TotalAds(): (n: nat)
    ensures n == |MockListings|
  {
    |MockListings|
  }

  /** The mock catalog lists ids 1 to 5, so the counter shows 5. */
  lemma TotalAdsOfMocks()
    ensures TotalAds() == 5
  {
    MockIds();
    assert |Ids(MockListings)| == |MockListings|;
  }

  /** The home page state: the listings it displays. */
  class HomePage {
    var listings: seq<Listing>

    /** `useState<Listing[]>(MOCK_LISTINGS)`. */
    constructor()
      ensures listings == MockListings
    {
      listings := MockListings;
    }

    /**
     * The mount effect: `liked` is the parsed `liked_posts` entry of local storage
     * (`[]` when there is none). A non-empty list replaces the listings by the
     * recommended order of the mock catalog; an empty one leaves them alone.
     */
    method LoadLiked(liked: seq<int>)
      modifies this
      ensures |liked| > 0 ==> listings == RecommendedPosts(MockListings, liked)
      ensures |liked| == 0 ==> listings == old(listings)
    {
      if |liked| > 0 {
        listings := RecommendedPosts(MockListings, liked);
      }
    }

    /** The cards rendered under Featured Listings. */
    function FeaturedCards(): seq<Listing>
      reads this
    {
      Featured(listings)
    }
  }

  /** What the page displays for a list of liked ids, starting from the catalog. */
  function Displayed(liked: seq<int>): (r: seq<Listing>)
    ensures |r| == |MockListings|
  {
    if |liked| > 0 then RecommendedPosts(MockListings, liked) else MockListings
  }

  /**
   * Whatever was liked, the page shows every mock listing exactly once, all of
   * them featured; without a liked id that names a listing, in catalog order.
   */
  lemma DisplayedSpec(liked: seq<int>)
    ensures multiset(Displayed(liked)) == multiset(MockListings)
    ensures Featured(Displayed(liked)) == Displayed(liked)
    ensures (forall l :: l in MockListings ==> l.id !in liked) ==> Displayed(liked) == MockListings
  {
  }

  /** A visitor who liked listing 1 sees 1, 5, 2, 3, 4. */
  lemma DisplayedAfterLikingFirst()
    ensures Displayed([1]) == [Mock1, Mock5, Mock2, Mock3, Mock4]
  {
    MockRecommendation();
  }

  /** Mounting the page and running its effect shows `Displayed(liked)`. */
  method MountHome(liked: seq<int>) returns (shown: seq<Listing>)
    ensures shown == Displayed(liked)
  {
    var page := new HomePage();
    page.LoadLiked(liked);
    shown := page.FeaturedCards();
    DisplayedSpec(liked);
  }
}
