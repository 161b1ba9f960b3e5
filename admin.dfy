/**
 * The admin panel's moderation logic: the handlers that rewrite the listings,
 * verification requests and user accounts it holds, the filter and search over
 * the listings, the Restricted and pending counters, and the admin-only guard.
 */
module Admin {
  import opened Wrappers
  import opened Text
  import opened Listings
  import opened Navigation

  datatype VerificationStatus = Pending | Approved | Paused

  /** An identity verification request. */
  datatype Verification = Verification(id: int, name: string, phone: string, idImage: string, date: string,
                                       status: VerificationStatus)

  /** `MOCK_VERIFICATIONS`: two pending requests. */
  const MockVerifications: seq<Verification> := [
    Verification(1, "Tanvir Ahmed", "01711223344", RoomImage, "2025-01-02", Pending),
    Verification(2, "Sabbir Hossain", "01888776655", RoomImage, "2025-01-01", Pending)
  ]

  /** An account row of Account Control. */
  datatype User = User(id: string, name: string, phone: string, role: string, status: string, isFlagged: bool)

  /** The mock accounts the panel starts with; only `u2` is flagged. */
  const MockUsers: seq<User> := [
    User("u1", "Rabetul Islam", "01885356821", "admin", "active", false),
    User("u2", "John Doe", "01712345678", "user", "active", true),
    User("u3", "Jane Smith", "01900112233", "user", "active", false)
  ]

  /** The options of the status select. */
  datatype FilterType = AllContent | ActiveOnly | PausedOnly | RestrictedOnly

  datatype Tab = Moderation | Verifications | Users | Stats

  // ----- listings -----

  /** `{ ...l, isActive: !l.isActive }`: an absent flag counts as false, so it becomes true. */
  function FlipActive(l: Listing): (r: Listing)
    ensures r.isActive.Some? && (Truthy(r.isActive) <==> !Truthy(l.isActive))
    ensures r.(isActive := l.isActive) == l
  {
    l.(isActive := Some(!Truthy(l.isActive)))
  }

  /** `toggleListingStatus(id)`: flips `isActive` on the listings with that id. */
  function ToggleListingStatus(ls: seq<Listing>, id: int): (r: seq<Listing>)
    ensures |r| == |ls|
    ensures forall i :: 0 <= i < |ls| ==> r[i].id == ls[i].id
  {
    seq(|ls|, i requires 0 <= i < |ls| => if ls[i].id == id then FlipActive(ls[i]) else ls[i])
  }

  /**
   * Toggling changes only `isActive`, only on the listings with the id, to the
   * negation of its truthiness; other listings are untouched.
   */
  lemma ToggleListingStatusSpec(ls: seq<Listing>, id: int, i: int)
    requires 0 <= i < |ls|
    ensures ls[i].id != id ==> ToggleListingStatus(ls, id)[i] == ls[i]
    ensures ls[i].id == id ==> ToggleListingStatus(ls, id)[i].isActive == Some(!Truthy(ls[i].isActive))
    ensures ToggleListingStatus(ls, id)[i].(isActive := ls[i].isActive) == ls[i]
  {
  }

  /** A listing without an `isActive` flag becomes active on its first toggle. */
  lemma ToggleAbsentActivates(ls: seq<Listing>, id: int, i: int)
    requires 0 <= i < |ls| && ls[i].id == id && ls[i].isActive == None
    ensures ToggleListingStatus(ls, id)[i].isActive == Some(true)
  {
  }

  /** Toggling twice restores every listing whose flag was set. */
  lemma ToggleListingStatusTwice(ls: seq<Listing>, id: int)
    requires forall l :: l in ls && l.id == id ==> l.isActive != None
    ensures ToggleListingStatus(ToggleListingStatus(ls, id), id) == ls
  {
    var r := ToggleListingStatus(ToggleListingStatus(ls, id), id);
    forall i | 0 <= i < |ls| ensures r[i] == ls[i] {
      if ls[i].id == id {
        assert ls[i] in ls;
        assert ToggleListingStatus(ls, id)[i] == FlipActive(ls[i]);
        assert ls[i].isActive.Some? && ls[i].isActive == Some(ls[i].isActive.value);
        if ls[i].isActive.value {
          assert FlipActive(ls[i]).isActive == Some(false);
        } else {
          assert FlipActive(ls[i]).isActive == Some(true);
        }
      }
    }
  }

  /** `{ ...l, isUnderReview: true, isActive: false }`. */
  function Restrict(l: Listing): Listing {
    l.(isUnderReview := Some(true), isActive := Some(false))
  }

  /** `markAsRestricted(id)`: puts the listings with that id under review and deactivates them. */
  function MarkAsRestricted(ls: seq<Listing>, id: int): (r: seq<Listing>)
    ensures |r| == |ls|
    ensures forall i :: 0 <= i < |ls| ==> r[i].id == ls[i].id
  {
    seq(|ls|, i requires 0 <= i < |ls| => if ls[i].id == id then Restrict(ls[i]) else ls[i])
  }

  /**
   * Restricting sets exactly the two flags on the listings with the id, and
   * leaves every other field and every other listing as it was.
   */
  lemma MarkAsRestrictedSpec(ls: seq<Listing>, id: int, i: int)
    requires 0 <= i < |ls|
    ensures ls[i].id != id ==> MarkAsRestricted(ls, id)[i] == ls[i]
    ensures ls[i].id == id ==>
              MarkAsRestricted(ls, id)[i].isUnderReview == Some(true) && MarkAsRestricted(ls, id)[i].isActive == Some(false)
    ensures MarkAsRestricted(ls, id)[i].(isUnderReview := ls[i].isUnderReview, isActive := ls[i].isActive) == ls[i]
  {
  }

  /** Restricting twice is restricting once. */
  lemma MarkAsRestrictedIdempotent(ls: seq<Listing>, id: int)
    ensures MarkAsRestricted(MarkAsRestricted(ls, id), id) == MarkAsRestricted(ls, id)
  {
  }

  /** `listings.filter(l => l.id !== id)`. */
  function WithoutId(ls: seq<Listing>, id: int): (r: seq<Listing>)
    ensures |r| <= |ls|
  {
    if ls == [] then [] else (if ls[0].id == id then [] else [ls[0]]) + WithoutId(ls[1..], id)
  }

  /** Removal keeps exactly the listings with another id. */
  lemma {:induction false} WithoutIdMembers(ls: seq<Listing>, id: int)
    ensures forall l :: l in WithoutId(ls, id) <==> l in ls && l.id != id
  {
    if ls != [] {
      WithoutIdMembers(ls[1..], id);
      assert ls == [ls[0]] + ls[1..];
    }
  }

  /** Removal works piecewise, so the kept listings stay in their order. */
  lemma {:induction false} WithoutIdAppend(a: seq<Listing>, b: seq<Listing>, id: int)
    ensures WithoutId(a + b, id) == WithoutId(a, id) + WithoutId(b, id)
  {
    if a == [] {
      assert a + b == b;
    } else {
      assert (a + b)[0] == a[0] && (a + b)[1..] == a[1..] + b;
      WithoutIdAppend(a[1..], b, id);
    }
  }

  /** Removing an id no listing has changes nothing. */
  lemma {:induction false} WithoutAbsentId(ls: seq<Listing>, id: int)
    requires forall l :: l in ls ==> l.id != id
    ensures WithoutId(ls, id) == ls
  {
    if ls != [] {
      assert ls[0] in ls;
      assert forall l :: l in ls[1..] ==> l in ls;
      WithoutAbsentId(ls[1..], id);
    }
  }

  /** `deleteListing(id)`: removes the listings with that id when the confirm dialog is accepted. */
  function DeleteListing(ls: seq<Listing>, id: int, confirmed: bool): (r: seq<Listing>)
    ensures !confirmed ==> r == ls
    ensures confirmed ==> forall l :: l in r <==> l in ls && l.id != id
  {
    WithoutIdMembers(ls, id);
    if confirmed then WithoutId(ls, id) else ls
  }

  // ----- filter and search -----

  /** The status select: `all`, `isActive !== false`, paused but not under review, or under review. */
  predicate MatchesFilter(l: Listing, f: FilterType) {
    match f
    case AllContent => true
    case ActiveOnly => l.isActive != Some(false)
    case PausedOnly => l.isActive == Some(false) && !Truthy(l.isUnderReview)
    case RestrictedOnly => Truthy(l.isUnderReview)
  }

  /** The search box: the lower-cased title contains the lower-cased query, or the id's digits contain it. */
  predicate MatchesSearch(l: Listing, q: string) {
    Contains(ToLower(l.title), ToLower(q)) || Contains(IntToString(l.id), q)
  }

  /** `filteredListings`. */
  function FilteredListings(ls: seq<Listing>, q: string, f: FilterType): (r: seq<Listing>)
    ensures |r| <= |ls|
  {
    if ls == [] then []
    else (if MatchesSearch(ls[0], q) && MatchesFilter(ls[0], f) then [ls[0]] else []) + FilteredListings(ls[1..], q, f)
  }

  /** The list shows exactly the listings that match both the search and the filter. */
  lemma {:induction false} FilteredListingsMembers(ls: seq<Listing>, q: string, f: FilterType)
    ensures forall l :: l in FilteredListings(ls, q, f) <==> l in ls && MatchesSearch(l, q) && MatchesFilter(l, f)
  {
    if ls != [] {
      FilteredListingsMembers(ls[1..], q, f);
      assert ls == [ls[0]] + ls[1..];
    }
  }

  /** Every listing matches the empty search. */
  lemma EmptySearchMatches(l: Listing)
    ensures MatchesSearch(l, "")
  {
  }

  /** An empty search with All Content shows every listing, in order. */
  lemma {:induction false} EmptySearchShowsAll(ls: seq<Listing>)
    ensures FilteredListings(ls, "", AllContent) == ls
  {
    if ls != [] {
      EmptySearchMatches(ls[0]);
      EmptySearchShowsAll(ls[1..]);
    }
  }

  /**
   * Active and Paused never both hold, neither do Paused and Restricted, and every
   * listing is shown under at least one of the three.
   */
  lemma FiltersCover(l: Listing)
    ensures !(MatchesFilter(l, ActiveOnly) && MatchesFilter(l, PausedOnly))
    ensures !(MatchesFilter(l, PausedOnly) && MatchesFilter(l, RestrictedOnly))
    ensures MatchesFilter(l, ActiveOnly) || MatchesFilter(l, PausedOnly) || MatchesFilter(l, RestrictedOnly)
  {
  }

  /** A listing just restricted is shown only under All Content and Restricted. */
  lemma RestrictedShownOnlyThere(l: Listing, f: FilterType)
    ensures MatchesFilter(Restrict(l), f) <==> f == AllContent || f == RestrictedOnly
  {
  }

  /**
   * For a listing not under review whose flag is set, a toggle moves it from
   * Active to Paused and back.
   */
  lemma ToggleMovesBetweenActiveAndPaused(l: Listing)
    requires !Truthy(l.isUnderReview) && l.isActive != None
    ensures MatchesFilter(l, ActiveOnly) ==> MatchesFilter(FlipActive(l), PausedOnly) && !MatchesFilter(FlipActive(l), ActiveOnly)
    ensures MatchesFilter(l, PausedOnly) ==> MatchesFilter(FlipActive(l), ActiveOnly) && !MatchesFilter(FlipActive(l), PausedOnly)
  {
    assert l.isActive.Some? && l.isActive == Some(l.isActive.value);
    if MatchesFilter(l, ActiveOnly) {
      assert l.isActive.value;
    }
  }

  /**
   * A listing without the flag already counts as active and shows the Pause
   * button, yet its first toggle sets the flag to true: it stays under Active.
   */
  lemma PauseWithoutFlagStaysActive(l: Listing)
    requires l.isActive == None
    ensures MatchesFilter(l, ActiveOnly) && MatchesFilter(FlipActive(l), ActiveOnly)
    ensures !MatchesFilter(FlipActive(l), PausedOnly)
  {
  }

  // ----- counters -----

  /** The Restricted counter: `listings.filter(l => l.isUnderReview).length`. */
  function RestrictedCount(ls: seq<Listing>): (n: nat)
    ensures n <= |ls|
  {
    if ls == [] then 0 else (if Truthy(ls[0].isUnderReview) then 1 else 0) + RestrictedCount(ls[1..])
  }

  /** The counter agrees with what the Restricted filter shows under an empty search. */
  lemma {:induction false} RestrictedCountIsFilter(ls: seq<Listing>)
    ensures RestrictedCount(ls) == |FilteredListings(ls, "", RestrictedOnly)|
  {
    if ls != [] {
      EmptySearchMatches(ls[0]);
      RestrictedCountIsFilter(ls[1..]);
    }
  }

  /** Restricting a listing not yet under review raises the counter by the number of listings with that id. */
  lemma {:induction false} RestrictRaisesCount(ls: seq<Listing>, id: int)
    requires forall l :: l in ls && l.id == id ==> !Truthy(l.isUnderReview)
    ensures RestrictedCount(MarkAsRestricted(ls, id)) == RestrictedCount(ls) + |ls| - |WithoutId(ls, id)|
  {
    if ls != [] {
      var r := MarkAsRestricted(ls, id);
      var t := MarkAsRestricted(ls[1..], id);
      assert r[1..] == t;
      assert forall l :: l in ls[1..] ==> l in ls;
      RestrictRaisesCount(ls[1..], id);
      assert RestrictedCount(r) == (if Truthy(r[0].isUnderReview) then 1 else 0) + RestrictedCount(t);
      if ls[0].id == id {
        assert ls[0] in ls;
        assert Truthy(r[0].isUnderReview) && !Truthy(ls[0].isUnderReview);
        assert |WithoutId(ls, id)| == |WithoutId(ls[1..], id)|;
      } else {
        assert r[0] == ls[0];
        assert |WithoutId(ls, id)| == 1 + |WithoutId(ls[1..], id)|;
      }
    }
  }

  /** The pending badge: the number of requests still pending. */
  function PendingCount(vs: seq<Verification>): (n: nat)
    ensures n <= |vs|
  {
    if vs == [] then 0 else (if vs[0].status == Pending then 1 else 0) + PendingCount(vs[1..])
  }

  // ----- verifications and users -----

  /** `handleApprove(id)` and `pauseVerification(id)`: sets the status of the requests with that id. */
  function SetVerificationStatus(vs: seq<Verification>, id: int, s: VerificationStatus): (r: seq<Verification>)
    ensures |r| == |vs|
  {
    seq(|vs|, i requires 0 <= i < |vs| => if vs[i].id == id then vs[i].(status := s) else vs[i])
  }

  /** Only the requests with the id change, and only in their status, whatever it was before. */
  lemma SetVerificationStatusSpec(vs: seq<Verification>, id: int, s: VerificationStatus, i: int)
    requires 0 <= i < |vs|
    ensures vs[i].id == id ==> SetVerificationStatus(vs, id, s)[i] == vs[i].(status := s)
    ensures vs[i].id != id ==> SetVerificationStatus(vs, id, s)[i] == vs[i]
  {
  }

  /** The last status set wins: approving after pausing is approving, and so on. */
  lemma SetVerificationStatusLastWins(vs: seq<Verification>, id: int, s: VerificationStatus, t: VerificationStatus)
    ensures SetVerificationStatus(SetVerificationStatus(vs, id, s), id, t) == SetVerificationStatus(vs, id, t)
  {
  }

  /** Approving or pausing a request takes the pending ones with that id off the badge. */
  lemma {:induction false} SetStatusPendingCount(vs: seq<Verification>, id: int, s: VerificationStatus)
    requires s != Pending
    ensures PendingCount(SetVerificationStatus(vs, id, s)) == PendingCount(vs) - PendingWithId(vs, id)
  {
    if vs != [] {
      SetStatusPendingCount(vs[1..], id, s);
      assert SetVerificationStatus(vs, id, s) == [SetVerificationStatus(vs, id, s)[0]] + SetVerificationStatus(vs[1..], id, s);
    }
  }

  /** How many pending requests carry the id. */
  function PendingWithId(vs: seq<Verification>, id: int): (n: nat)
    ensures n <= PendingCount(vs)
  {
    if vs == [] then 0 else (if vs[0].status == Pending && vs[0].id == id then 1 else 0) + PendingWithId(vs[1..], id)
  }

  /** Both mock requests are pending; approving the first leaves one on the badge. */
  lemma MockPending()
    ensures PendingCount(MockVerifications) == 2
    ensures PendingCount(SetVerificationStatus(MockVerifications, 1, Approved)) == 1
  {
    SetStatusPendingCount(MockVerifications, 1, Approved);
    assert PendingWithId(MockVerifications, 1) == 1;
  }

  /** `toggleUserFlag(id)`: flips `isFlagged` on the accounts with that id. */
  function ToggleUserFlag(us: seq<User>, id: string): (r: seq<User>)
    ensures |r| == |us|
  {
    seq(|us|, i requires 0 <= i < |us| => if us[i].id == id then us[i].(isFlagged := !us[i].isFlagged) else us[i])
  }

  /** Only the accounts with the id change, and only in their flag, which is negated. */
  lemma ToggleUserFlagSpec(us: seq<User>, id: string, i: int)
    requires 0 <= i < |us|
    ensures us[i].id == id ==> ToggleUserFlag(us, id)[i].isFlagged == !us[i].isFlagged
    ensures ToggleUserFlag(us, id)[i].(isFlagged := us[i].isFlagged) == us[i]
    ensures us[i].id != id ==> ToggleUserFlag(us, id)[i] == us[i]
  {
  }

  /** Flagging twice is no change. */
  lemma ToggleUserFlagTwice(us: seq<User>, id: string)
    ensures ToggleUserFlag(ToggleUserFlag(us, id), id) == us
  {
  }

  // ----- the page -----

  /** The admin panel's state. */
  class AdminPanel {
    var activeTab: Tab
    var listings: seq<Listing>
    var verifications: seq<Verification>
    var isLoading: bool
    var searchQuery: string
    var filterType: FilterType
    var users: seq<User>

    constructor()
      ensures activeTab == Moderation && listings == MockListings && verifications == MockVerifications
      ensures isLoading && searchQuery == "" && filterType == AllContent && users == MockUsers
    {
      activeTab := Moderation;
      listings := MockListings;
      verifications := MockVerifications;
      isLoading := true;
      searchQuery := "";
      filterType := AllContent;
      users := MockUsers;
    }

    /**
     * The admin-only guard. `storedRole` is the `role` of the stored `user`
     * entry, `None` when there is no entry, it is `null`, or it has no role.
     */
    method CheckAccess(storedRole: Option<string>) returns (dest: Destination)
      modifies this
      ensures storedRole == Some("admin") ==> dest == Stay && !isLoading
      ensures storedRole != Some("admin") ==> dest == HomeRoute && isLoading == old(isLoading)
      ensures listings == old(listings) && verifications == old(verifications) && users == old(users)
      ensures activeTab == old(activeTab) && searchQuery == old(searchQuery) && filterType == old(filterType)
    {
      if storedRole == Some("admin") {
        isLoading := false;
        dest := Stay;
      } else {
        dest := HomeRoute;
      }
    }

    method ToggleListing(id: int)
      modifies this
      ensures listings == ToggleListingStatus(old(listings), id)
      ensures verifications == old(verifications) && users == old(users) && isLoading == old(isLoading)
      ensures activeTab == old(activeTab) && searchQuery == old(searchQuery) && filterType == old(filterType)
    {
      listings := ToggleListingStatus(listings, id);
    }

    method RestrictListing(id: int)
      modifies this
      ensures listings == MarkAsRestricted(old(listings), id)
      ensures verifications == old(verifications) && users == old(users) && isLoading == old(isLoading)
      ensures activeTab == old(activeTab) && searchQuery == old(searchQuery) && filterType == old(filterType)
    {
      listings := MarkAsRestricted(listings, id);
    }

    /** `confirmed` is the answer to the confirm dialog. */
    method Delete(id: int, confirmed: bool)
      modifies this
      ensures listings == DeleteListing(old(listings), id, confirmed)
      ensures verifications == old(verifications) && users == old(users) && isLoading == old(isLoading)
      ensures activeTab == old(activeTab) && searchQuery == old(searchQuery) && filterType == old(filterType)
    {
      if confirmed {
        listings := WithoutId(listings, id);
      }
    }

    method Approve(id: int)
      modifies this
      ensures verifications == SetVerificationStatus(old(verifications), id, Approved)
      ensures listings == old(listings) && users == old(users) && isLoading == old(isLoading)
      ensures activeTab == old(activeTab) && searchQuery == old(searchQuery) && filterType == old(filterType)
    {
      verifications := SetVerificationStatus(verifications, id, Approved);
    }

    method PauseVerification(id: int)
      modifies this
      ensures verifications == SetVerificationStatus(old(verifications), id, Paused)
      ensures listings == old(listings) && users == old(users) && isLoading == old(isLoading)
      ensures activeTab == old(activeTab) && searchQuery == old(searchQuery) && filterType == old(filterType)
    {
      verifications := SetVerificationStatus(verifications, id, Paused);
    }

    method ToggleFlag(id: string)
      modifies this
      ensures users == ToggleUserFlag(old(users), id)
      ensures listings == old(listings) && verifications == old(verifications) && isLoading == old(isLoading)
      ensures activeTab == old(activeTab) && searchQuery == old(searchQuery) && filterType == old(filterType)
    {
      users := ToggleUserFlag(users, id);
    }

    /** The listings the moderation tab shows. */
    function Shown(): seq<Listing>
      reads this
    {
      FilteredListings(listings, searchQuery, filterType)
    }
  }

  /** On the fresh panel every mock listing shows under All Content and Active, none under Paused or Restricted. */
  lemma FreshPanelFilters(ls: seq<Listing>)
    requires forall l :: l in ls ==> l.isActive == Some(true) && l.isUnderReview == None
    ensures FilteredListings(ls, "", ActiveOnly) == ls
    ensures FilteredListings(ls, "", PausedOnly) == [] && FilteredListings(ls, "", RestrictedOnly) == []
    ensures RestrictedCount(ls) == 0
  {
    EmptySearchKeepsMatching(ls, ActiveOnly);
    EmptySearchDropsOthers(ls, PausedOnly);
    EmptySearchDropsOthers(ls, RestrictedOnly);
    RestrictedCountIsFilter(ls);
  }

  /** Under an empty search a filter every listing passes shows them all. */
  lemma {:induction false} EmptySearchKeepsMatching(ls: seq<Listing>, f: FilterType)
    requires forall l :: l in ls ==> MatchesFilter(l, f)
    ensures FilteredListings(ls, "", f) == ls
  {
    if ls != [] {
      assert ls[0] in ls;
      assert forall l :: l in ls[1..] ==> l in ls;
      EmptySearchMatches(ls[0]);
      EmptySearchKeepsMatching(ls[1..], f);
    }
  }

  /** A filter no listing passes shows nothing. */
  lemma {:induction false} EmptySearchDropsOthers(ls: seq<Listing>, f: FilterType)
    requires forall l :: l in ls ==> !MatchesFilter(l, f)
    ensures FilteredListings(ls, "", f) == []
  {
    if ls != [] {
      assert ls[0] in ls;
      assert forall l :: l in ls[1..] ==> l in ls;
      EmptySearchDropsOthers(ls[1..], f);
    }
  }

  lemma MockPanelFilters()
    ensures FilteredListings(MockListings, "", ActiveOnly) == MockListings
    ensures FilteredListings(MockListings, "", PausedOnly) == [] && RestrictedCount(MockListings) == 0
  {
    MockAllActive();
    FreshPanelFilters(MockListings);
  }
}
