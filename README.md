# Mess & sublet listings: a verified model of the recommender and the page logic

This project models the decision logic of a rental-listings web app for Dhaka
messes, sublets and flats, and proves properties of that model in Dafny.

- **Recommender.** It takes a catalog and the liked listing ids. It builds a
  preference profile from the liked listings: their areas, their tenant types
  and their average rent. It scores every listing by area, type and rent band.
  Then it stable-sorts the catalog by descending score.
- **Five mock listings.** Every page starts from them, and they serve as a
  worked test vector.
- **Pages, one class each.** Each class has the page's React state as its
  fields and the page's handlers as its methods:
  - the home page;
  - the admin moderation panel;
  - the create/edit listing form;
  - the search page;
  - the listing card's photo carousel;
  - the one-time-password input;
  - the signup, login, sign-in and code-verification pages.
- **The mock verify-otp endpoint**, as a pure function from request to response.
- **The code input keeps its mounted size.** The verify page renders once
  before it reads the stored number, so its code input mounts with six cells. The
  demo number then lowers only the expected length, to three. Six cells stay on
  screen, and any three filled cells complete the code (`VerifyPage.DemoCodeEntry`).

What the browser or the network would supply enters as parameters:

- local storage entries;
- whether a request succeeded;
- the answer of a `confirm()` dialog;
- the verify-otp response.

A page change is returned as a `Navigation.Destination`.

Modules:

- **Shared.** `Wrappers` (Option), `Text` (the JavaScript string operations used:
  `trim`, `split(',')[0]`, `toLowerCase`, `includes`, integer `toString`,
  the `isNaN(Number(s))` test), `Lists` (the filter/toggle/index-removal list
  expressions and `new Set` deduplication), `Listings` (the record and the mock
  catalog), `StableSort` (a stable descending insertion sort on scored values),
  `Navigation`.
- **Recommender.** `Recommendations`.
- **Pages and endpoint.** `Home`, `Admin`, `PostForm`, `Search`, `PostCard`,
  `OtpInput`, `Phone` (the number formatting shared by signup and login),
  `Signup`, `Login`, `AuthPage`, `VerifyPage`, `VerifyOtpRoute`.

## Model

| member | source | states |
|---|---|---|
| Text.Trim | src/lib/recommendations.ts:10 | `trim` never lengthens a string |
| Text.TrimSpec | src/lib/recommendations.ts:10 | `trim` yields an infix without white space at either end, and is empty exactly when the string is all white space |
| Text.TrimStartSpec | src/lib/recommendations.ts:10 | leading trimming keeps a suffix, drops only white space and stops at the first other character |
| Text.TrimEndSpec | src/lib/recommendations.ts:10 | trailing trimming keeps a prefix, drops only white space and stops at the last other character |
| Text.TrimIdempotent | src/components/post/PostForm.tsx:79 | trimming twice equals trimming once |
| Text.BeforeCommaSpec | src/lib/recommendations.ts:10 | `split(',')[0]` is a comma-free prefix that ends at the first comma or at the end of the string |
| Text.BeforeCommaAt | src/lib/recommendations.ts:22 | the text before the first comma is fixed by the position of that comma |
| Text.BeforeComma | src/lib/recommendations.ts:10 | `split(',')[0]` never lengthens the text; `BeforeCommaSpec` gives its exact shape |
| Text.Contains | src/app/admin/page.tsx:82 | `includes` as a recursive test; its meaning is `ContainsIffOccurs` |
| Text.ToLower | src/app/admin/page.tsx:82 | lower-casing keeps the length |
| Text.ContainsIffOccurs | src/app/admin/page.tsx:82 | `includes` holds exactly when the query occurs at some position |
| Text.NatToStringRoundTrip | src/app/admin/page.tsx:82 | reading back the decimal rendering of an id gives the id |
| Text.IntToString | src/app/admin/page.tsx:82 | the rendering of an integer is non-empty and starts with `-` exactly for negatives |
| Text.DigitsAreNumeric | src/components/auth/OTPInput.tsx:21 | the empty string and every digit string pass the `isNaN(Number(v))` check |
| Text.SingleCharNumeric | src/components/auth/OTPInput.tsx:21 | a one-character value passes exactly when it is a digit or white space |
| Text.IsNumericText | src/components/auth/OTPInput.tsx:21 | `!isNaN(Number(v))`: the trimmed text is empty, a signed or unsigned decimal, or a hex/octal/binary integer; `DigitsAreNumeric` and `SingleCharNumeric` give its consequences |
| Lists.RemoveAllSpec | src/components/post/PostForm.tsx:64 | filtering out a value removes all of its occurrences, keeps every other value's count, and shortens the list by exactly the removed occurrences |
| Lists.RemoveAll | src/components/post/PostForm.tsx:64 | `filter(y => y !== x)` never lengthens the list; `RemoveAllSpec` gives what it keeps |
| Lists.RemoveAllAppend | src/components/post/PostForm.tsx:64 | the filter distributes over concatenation, so kept values stay in order |
| Lists.Toggle | src/components/post/PostForm.tsx:60-67 | a present value is removed everywhere, other counts kept; an absent one is appended at the end |
| Lists.ToggleTwiceAbsent | src/components/post/PostForm.tsx:69-76 | toggling an absent value twice restores the list |
| Lists.ToggleNoDuplicates | src/app/search/page.tsx:27-29 | toggling keeps a duplicate-free list duplicate-free |
| Lists.ToggleFlipsMembership | src/app/search/page.tsx:24-31 | toggling flips membership of the toggled value and of no other |
| Lists.ToggleKeepsOthers | src/app/search/page.tsx:24-31 | with the toggled value filtered out, the list is unchanged: other values keep their order |
| Lists.RemoveIndex | src/components/post/PostForm.tsx:124-129 | the element at an in-range index is cut out; an out-of-range index changes nothing |
| Lists.DedupSpec | src/app/page.tsx:26 | deduplication has no repeats, keeps exactly the input's values, in first-occurrence order |
| Lists.Dedup | src/app/page.tsx:26 | `Array.from(new Set(s))` never lengthens the list; `DedupSpec` gives what it keeps and in which order |
| Lists.FirstIndex | src/components/auth/OTPInput.tsx:45 | `indexOf` of a present value points at it, with no earlier occurrence |
| Listings.MockIds | src/lib/data.ts:22-118 | the mock ids are 1 to 5, pairwise distinct |
| Listings.MockRentsPositive | src/lib/data.ts:27-104 | the mock rents are 6000, 12000, 3500, 15000 and 3000, all positive |
| Listings.MockAllActive | src/lib/data.ts:41-116 | every mock listing is active and not under review |
| Recommendations.LikedPosts | src/lib/recommendations.ts:6 | the liked listings are exactly the catalog listings whose id was liked |
| Recommendations.Area | src/lib/recommendations.ts:22 | the area of a location is its trimmed text before the first comma, never longer than the location |
| Recommendations.BuildProfile | src/lib/recommendations.ts:10-12 | the profile holds the liked listings' areas and types, their rent sum and their count |
| Recommendations.WeightsDecode | src/lib/recommendations.ts:21-31 | the weight sum is one of 0, 15, 20, 30, 35, 45, 50, 65 and identifies the matches made |
| Recommendations.InRentBand | src/lib/recommendations.ts:31 | the rent band with the division cleared: 4·sum ≤ 5·count·rent ≤ 6·sum |
| Recommendations.InRentBandIsAverageBand | src/lib/recommendations.ts:12-31 | for a non-empty profile the cleared band is exactly 0.8·avg ≤ rent ≤ 1.2·avg with avg = sum / count, in exact arithmetic |
| Recommendations.Score | src/lib/recommendations.ts:21-36 | a listing's score lies between 0 and 65; `ScoreValues` says which sums occur and what they reveal |
| Recommendations.ScoreValues | src/lib/recommendations.ts:21-31 | a score is one of the eight sums; it contains 30 iff the area matched, ends in 5 iff the type matched, contains 20 iff the rent is in the band |
| Recommendations.ScoreAll | src/lib/recommendations.ts:15-37 | each catalog listing is paired with its score, in catalog order |
| Recommendations.StripScoreAll | src/lib/recommendations.ts:42 | removing the scores gives back the catalog |
| Recommendations.RecommendedPosts | src/lib/recommendations.ts:3-43 | the result is a permutation of the catalog; with no liked id, or none naming a catalog listing, it is the catalog itself |
| Recommendations.RecommendedRanked | src/lib/recommendations.ts:40-41 | the scores along the result never increase |
| Recommendations.RecommendedStable | src/lib/recommendations.ts:40-41 | listings of equal score keep their catalog order |
| Recommendations.RecommendedScored | src/lib/recommendations.ts:15-42 | the sorted scored list is sorted and, score by score, equal to the scored catalog |
| Recommendations.RecommendedUnique | src/lib/recommendations.ts:40-42 | any order that is ranked and stable is the recommender's output |
| Recommendations.RecommendedIgnoresUnknownIds | src/lib/recommendations.ts:6 | liked ids that name no catalog listing make no difference |
| Recommendations.LikedMatchesItself | src/lib/recommendations.ts:10-28 | a liked listing matches the profile on area and on type |
| Recommendations.LikedScoresHigh | src/lib/recommendations.ts:21-31 | a liked listing scores 45 or 65 |
| Recommendations.SingleLikedScoresTop | src/lib/recommendations.ts:10-31 | with exactly one liked listing (non-negative rent) it scores 65 and nothing scores above it |
| Recommendations.ProfileHasLiked | src/lib/recommendations.ts:10-11 | each liked listing's area and type are in the profile |
| Recommendations.MockAreas | src/lib/data.ts:28-105 | the mock areas are Mohammadpur, Dhanmondi, Mirpur 10, Uttara and Farmgate |
| Recommendations.MockFacts | src/lib/data.ts:22-118 | the mock ids, areas, types and rents the worked example relies on |
| Recommendations.FirstOfFiveLiked | src/lib/recommendations.ts:3-43 | for a five-listing catalog shaped like the mocks, liking id 1 orders it first, fifth, second, third, fourth |
| Recommendations.FirstOfFiveScores | src/lib/recommendations.ts:21-31 | in that catalog the scores are 65, 0, 0, 0, 15 |
| Recommendations.FirstOfFiveOrder | src/lib/recommendations.ts:40-41 | the order first, fifth, second, third, fourth is ranked and stable for those scores |
| Recommendations.FirstOfFiveProfile | src/lib/recommendations.ts:6-12 | liking id 1 of that catalog gives the profile of its first listing alone |
| Recommendations.MockRecommendation | src/lib/data.ts:22-118 | liking listing 1 of the mock catalog yields the listings 1, 5, 2, 3, 4 |
| StableSort.SortByScore | src/lib/recommendations.ts:40-41 | the sort is a permutation, sorted by descending score, and keeps each score's elements in input order |
| StableSort.InsertSorted | src/lib/recommendations.ts:41 | inserting into a sorted list keeps it sorted |
| StableSort.InsertWithScore | src/lib/recommendations.ts:41 | an inserted element goes in front of the elements of its own score |
| StableSort.StableOrderUnique | src/lib/recommendations.ts:40-41 | two sorted lists with the same elements of each score, in the same order, are equal |
| StableSort.StripPermutation | src/lib/recommendations.ts:42 | permuting scored values permutes the values |
| StableSort.WithScoreMembers | src/lib/recommendations.ts:41 | the elements of one score are exactly the members with that score |
| StableSort.WithScoreAppend | src/lib/recommendations.ts:41 | selecting one score distributes over concatenation |
| Home.Areas | src/app/page.tsx:26 | one area per listing |
| Home.LocationsSpec | src/app/page.tsx:26 | the location chips are each listing's area exactly once, in first-occurrence order |
| Home.Locations | src/app/page.tsx:26 | there are never more chips than listings; `LocationsSpec` gives which and in which order |
| Home.MockLocations | src/app/page.tsx:26 | for the mock catalog the chips are the five areas in catalog order |
| Home.Featured | src/app/page.tsx:114 | the featured cards are the first min(8, n) displayed listings |
| Home.FeaturedSmallCatalog | src/app/page.tsx:114 | a catalog of at most eight is featured in full |
| Home.TotalAds | src/app/page.tsx:24 | the ad counter is the length of the mock catalog |
| Home.TotalAdsOfMocks | src/app/page.tsx:24 | with the mock ids 1 to 5 the counter shows 5 |
| Home.HomePage.constructor | src/app/page.tsx:12 | the page starts on the mock catalog |
| Home.HomePage.LoadLiked | src/app/page.tsx:14-21 | a non-empty liked list replaces the listings by the recommended order; an empty one changes nothing |
| Home.DisplayedSpec | src/app/page.tsx:12-21 | the page shows every mock listing exactly once; with no matching liked id, in catalog order |
| Home.Displayed | src/app/page.tsx:12-21 | the displayed list always has as many entries as the mock catalog |
| Home.DisplayedAfterLikingFirst | src/app/page.tsx:14-21 | a visitor who liked listing 1 sees 1, 5, 2, 3, 4 |
| Home.MountHome | src/app/page.tsx:12-21 | mounting the page and running its effect shows the recommended or catalog order |
| Admin.ToggleListingStatus | src/app/admin/page.tsx:48-52 | same length and ids |
| Admin.FlipActive | src/app/admin/page.tsx:50 | the flag becomes defined with the opposite truthiness; no other field changes |
| Admin.ToggleListingStatusSpec | src/app/admin/page.tsx:48-52 | matching listings get `isActive = !isActive`, nothing else changes in any listing |
| Admin.ToggleAbsentActivates | src/app/admin/page.tsx:50 | an undefined `isActive` becomes true |
| Admin.ToggleListingStatusTwice | src/app/admin/page.tsx:48-52 | toggling twice is the identity when the flag is defined |
| Admin.MarkAsRestrictedSpec | src/app/admin/page.tsx:54-59 | matching listings become under review and inactive; nothing else changes |
| Admin.MarkAsRestrictedIdempotent | src/app/admin/page.tsx:54-59 | restricting twice equals restricting once |
| Admin.MarkAsRestricted | src/app/admin/page.tsx:54-59 | restricting keeps the length and every id; `MarkAsRestrictedSpec` gives the fields |
| Admin.WithoutId | src/app/admin/page.tsx:63 | deleting never adds listings; `WithoutIdMembers` gives which remain |
| Admin.WithoutIdMembers | src/app/admin/page.tsx:63 | deletion keeps exactly the listings with another id |
| Admin.WithoutIdAppend | src/app/admin/page.tsx:63 | deletion distributes over concatenation, keeping the rest in order |
| Admin.WithoutAbsentId | src/app/admin/page.tsx:63 | deleting an absent id changes nothing |
| Admin.DeleteListing | src/app/admin/page.tsx:61-65 | without confirmation nothing changes; with it exactly the listings with that id go |
| Admin.FilteredListingsMembers | src/app/admin/page.tsx:81-88 | the shown listings are those matching both the search and the status filter |
| Admin.FilteredListings | src/app/admin/page.tsx:81-88 | the shown list is never longer than the listings; `FilteredListingsMembers` gives which are shown |
| Admin.MatchesSearch | src/app/admin/page.tsx:82 | the lower-cased title contains the lower-cased query, or the id's digits contain the query; `EmptySearchMatches` covers the empty query |
| Admin.MatchesFilter | src/app/admin/page.tsx:83-86 | the four status tabs; `FiltersCover` gives how they relate |
| Admin.EmptySearchMatches | src/app/admin/page.tsx:82 | every listing matches the empty query |
| Admin.EmptySearchKeepsMatching | src/app/admin/page.tsx:81-88 | under an empty query a tab every listing passes shows all of them, in order |
| Admin.EmptySearchDropsOthers | src/app/admin/page.tsx:81-88 | a tab no listing passes shows nothing |
| Admin.EmptySearchShowsAll | src/app/admin/page.tsx:81-88 | an empty query with the "all" filter shows every listing in order |
| Admin.FiltersCover | src/app/admin/page.tsx:84-86 | every listing is active, paused or restricted; active and paused exclude each other, as do paused and restricted |
| Admin.RestrictedShownOnlyThere | src/app/admin/page.tsx:54-88 | a freshly restricted listing shows under "restricted" and "all" only |
| Admin.ToggleMovesBetweenActiveAndPaused | src/app/admin/page.tsx:48-85 | toggling a defined, unrestricted flag moves a listing between the active and paused tabs |
| Admin.PauseWithoutFlagStaysActive | src/app/admin/page.tsx:50-84 | a listing with undefined `isActive` counts as active before and after a toggle |
| Admin.RestrictedCountIsFilter | src/app/admin/page.tsx:113 | the restricted counter equals the number of listings the restricted filter shows |
| Admin.RestrictedCount | src/app/admin/page.tsx:113 | the restricted counter never exceeds the number of listings; `RestrictedCountIsFilter` ties it to the tab |
| Admin.RestrictRaisesCount | src/app/admin/page.tsx:54-59 | restricting unrestricted listings raises the counter by their number |
| Admin.SetVerificationStatusSpec | src/app/admin/page.tsx:67-75 | the matching verification takes the new status; the others are untouched |
| Admin.SetVerificationStatus | src/app/admin/page.tsx:67-75 | the requests keep their number; `SetVerificationStatusSpec` gives the fields |
| Admin.PendingCount | src/app/admin/page.tsx:144 | the pending badge never exceeds the number of requests; `SetStatusPendingCount` gives how it moves |
| Admin.SetVerificationStatusLastWins | src/app/admin/page.tsx:67-75 | the last status set wins, from any prior status |
| Admin.SetStatusPendingCount | src/app/admin/page.tsx:67-75 | approving or pausing lowers the pending badge by the pending entries with that id |
| Admin.MockPending | src/app/admin/page.tsx:17-20 | the badge starts at 2 and approving request 1 lowers it to 1 |
| Admin.ToggleUserFlagSpec | src/app/admin/page.tsx:77-79 | the matching user's flag flips; nothing else changes |
| Admin.ToggleUserFlag | src/app/admin/page.tsx:77-79 | the users keep their number; `ToggleUserFlagSpec` gives the fields |
| Admin.ToggleUserFlagTwice | src/app/admin/page.tsx:77-79 | flagging is an involution |
| Admin.AdminPanel.constructor | src/app/admin/page.tsx:24-36 | the panel's initial state |
| Admin.AdminPanel.CheckAccess | src/app/admin/page.tsx:38-46 | an admin stays and loading stops; anyone else is sent home |
| Admin.AdminPanel.ToggleListing | src/app/admin/page.tsx:48-52 | the listings become their toggled version; no other field changes |
| Admin.AdminPanel.RestrictListing | src/app/admin/page.tsx:54-59 | the listings become their restricted version; no other field changes |
| Admin.AdminPanel.Delete | src/app/admin/page.tsx:61-65 | the listings lose the id only when confirmed; no other field changes |
| Admin.AdminPanel.Approve | src/app/admin/page.tsx:67-70 | the verification becomes approved; no other field changes |
| Admin.AdminPanel.PauseVerification | src/app/admin/page.tsx:72-75 | the verification becomes paused; no other field changes |
| Admin.AdminPanel.ToggleFlag | src/app/admin/page.tsx:77-79 | the user's flag flips; no other field changes |
| Admin.FreshPanelFilters | src/app/admin/page.tsx:81-113 | with every listing active and unrestricted, all are active, none paused or restricted |
| Admin.MockPanelFilters | src/lib/data.ts:41-116 | the mock catalog initially passes the active filter in full |
| PostForm.MergeExtremes | src/components/post/PostForm.tsx:39-52 | no initial data gives the defaults; complete initial data gives that data |
| PostForm.MergeIdempotent | src/components/post/PostForm.tsx:39-52 | overriding twice equals overriding once; a complete override ignores the defaults |
| PostForm.InitialFormFields | src/components/post/PostForm.tsx:39-52 | each given field of the initial data wins, any other takes its default |
| PostForm.Merge | src/components/post/PostForm.tsx:39-52 | `{ ...defaults, ...initialData }` field by field; `InitialFormFields` and `MergeExtremes` give its meaning |
| PostForm.NextStepOf | src/components/post/PostForm.tsx:55 | the next step is one further, capped at the last |
| PostForm.PrevStepOf | src/components/post/PostForm.tsx:56 | the previous step is one back, floored at zero |
| PostForm.StepMoves | src/components/post/PostForm.tsx:55-56 | both moves keep the step in 0..4 and undo each other away from the ends |
| PostForm.NextReachesLast | src/components/post/PostForm.tsx:55 | enough presses of Next always reach the photos step |
| PostForm.AddCustom | src/components/post/PostForm.tsx:78-86 | the restrictions only grow, by at most one entry at the end |
| PostForm.AddCustomSpec | src/components/post/PostForm.tsx:78-86 | an entry is added iff the trimmed text is non-empty and new, and it is that trimmed text |
| PostForm.AddCustomNoDuplicates | src/components/post/PostForm.tsx:78-86 | adding keeps the list duplicate-free, and adding the same text again changes nothing |
| PostForm.AddCustomIgnoresPadding | src/components/post/PostForm.tsx:79 | surrounding white space never changes what is added |
| PostForm.RemoveImageSpec | src/components/post/PostForm.tsx:124-129 | removing photo i drops exactly that photo and keeps the rest in order |
| PostForm.ToggleChoice | src/components/post/PostForm.tsx:60-76 | a facility or restriction toggle flips only its own membership, keeps the others in order and without repeats, and twice restores an absent one |
| PostForm.PrimaryActionAt | src/components/post/PostForm.tsx:406 | the primary button submits exactly on the last step |
| PostForm.PrimaryLabel | src/components/post/PostForm.tsx:407 | the label is "Next Step" exactly when the button advances |
| PostForm.PostFormPage.constructor | src/components/post/PostForm.tsx:38-53 | step 0, the merged form data, an empty custom restriction |
| PostForm.PostFormPage.NextStep | src/components/post/PostForm.tsx:55 | the step becomes the next one and stays in range |
| PostForm.PostFormPage.PrevStep | src/components/post/PostForm.tsx:56 | the step becomes the previous one and stays in range |
| PostForm.PostFormPage.ToggleFacility | src/components/post/PostForm.tsx:60-67 | only the facilities change, by the toggle |
| PostForm.PostFormPage.ToggleRestriction | src/components/post/PostForm.tsx:69-76 | only the restrictions change, by the toggle |
| PostForm.PostFormPage.SetCustomRestriction | src/components/post/PostForm.tsx:276 | the custom text input takes the typed text; step and form data stay |
| PostForm.PostFormPage.AddCustomRestriction | src/components/post/PostForm.tsx:78-86 | on success the trimmed text is appended and the input cleared; otherwise nothing changes |
| PostForm.PostFormPage.RemoveImage | src/components/post/PostForm.tsx:124-129 | only the photos change, by removing the index |
| PostForm.PostFormPage.Primary | src/components/post/PostForm.tsx:343-352 | the last step goes to the dashboard; any other advances |
| Search.SwitchView | src/app/search/page.tsx:50 | the view button always changes the view |
| Search.SwitchViewInvolution | src/app/search/page.tsx:50 | switching twice restores the view |
| Search.ToggleType | src/app/search/page.tsx:24-31 | only the types change, and the toggled type's membership flips |
| Search.ToggleTypeSpec | src/app/search/page.tsx:24-31 | other types keep membership and order, no duplicates appear, and twice restores an absent type |
| Search.RenderedIgnoresFilters | src/app/search/page.tsx:59-70 | no filter setting changes the results; the list view shows the whole mock catalog |
| Search.Rendered | src/app/search/page.tsx:59-70 | the mock catalog in list view, no cards in map view; `RenderedIgnoresFilters` gives its independence from the filters |
| Search.SearchPage.constructor | src/app/search/page.tsx:15-22 | filters hidden, list view, nothing filtered |
| Search.SearchPage.ToggleTypeFilter | src/app/search/page.tsx:24-31 | the filters become their toggled version |
| Search.SearchPage.SwitchViewMode | src/app/search/page.tsx:50 | the view switches; nothing else changes |
| Search.SearchPage.SetArea | src/app/search/page.tsx:44 | the area box takes the typed text; nothing else changes |
| Search.SearchPage.SetRentRange | src/app/search/page.tsx:176-177 | the rent boxes take the typed texts; nothing else changes |
| Search.SearchPage.SetShowFilters | src/app/search/page.tsx:47 | the filter dialog opens or closes; view and filters stay |
| PostCard.Gallery | src/components/ui/PostCard.tsx:22 | the gallery is the photo list when non-empty, else the cover image, so never empty |
| PostCard.ArrowsSpec | src/components/ui/PostCard.tsx:24-34 | both arrows keep the index on a photo, step it by one modulo the count, and undo each other |
| PostCard.NextIndex | src/components/ui/PostCard.tsx:24-28 | the right arrow keeps an in-range index in range |
| PostCard.PrevIndex | src/components/ui/PostCard.tsx:30-34 | the left arrow keeps an in-range index in range |
| PostCard.NextTimesAdd | src/components/ui/PostCard.tsx:27 | presses of the right arrow compose by addition |
| PostCard.FullCycle | src/components/ui/PostCard.tsx:27 | as many right-arrow presses as photos come back to the start |
| PostCard.NextTimesInRange | src/components/ui/PostCard.tsx:27 | any number of presses keeps the index on a photo |
| PostCard.PostCardView.constructor | src/components/ui/PostCard.tsx:18-22 | first photo, not liked |
| PostCard.PostCardView.NextImage | src/components/ui/PostCard.tsx:24-28 | the index advances cyclically and stays in range |
| PostCard.PostCardView.PrevImage | src/components/ui/PostCard.tsx:30-34 | the index steps back cyclically and stays in range |
| PostCard.PostCardView.HandleLike | src/components/ui/PostCard.tsx:36-48 | without a stored user it sends to login and keeps the heart; otherwise the heart flips |
| OtpInput.Substring | src/components/auth/OTPInput.tsx:25 | `substring` with a clamped start keeps a suffix |
| OtpInput.LastCharacter | src/components/auth/OTPInput.tsx:25 | the written cell is the value's last character, or empty for an empty value |
| OtpInput.FilledCount | src/components/auth/OTPInput.tsx:29 | the number of filled cells never exceeds the number of cells |
| OtpInput.JoinLength | src/components/auth/OTPInput.tsx:29-30 | with at most one character per cell, the joined code has one character per filled cell, and the count reaches the number of cells iff all are filled |
| OtpInput.JoinFull | src/components/auth/OTPInput.tsx:29-30 | with at most one character per cell, the joined code has full length iff every cell is filled |
| OtpInput.OtpBoxes.constructor | src/components/auth/OTPInput.tsx:10-18 | as many empty cells as the first `length` prop, focus on the first |
| OtpInput.OtpBoxes.SetLength | src/components/auth/OTPInput.tsx:10-11 | a new `length` prop reaches the handlers while the cells stay as mounted |
| OtpInput.OtpBoxes.HandleChange | src/components/auth/OTPInput.tsx:20-38 | a non-numeric value is ignored; otherwise only the cell changes, the code is reported iff exactly `length` cells are filled (iff all are, when `length` is the cell count), and the focus moves on after a non-empty value |
| OtpInput.OtpBoxes.HandleClick | src/components/auth/OTPInput.tsx:40-47 | past an empty cell the first empty cell takes the focus |
| OtpInput.OtpBoxes.HandleKeyDown | src/components/auth/OTPInput.tsx:49-54 | backspace in an empty cell other than the first moves the focus back one |
| OtpInput.ClickMovesBack | src/components/auth/OTPInput.tsx:44-45 | a click never moves the focus past the empty predecessor |
| Phone.Normalize | src/app/auth/signup/page.tsx:47-51 | the formatted number starts with `+88` and ends with the typed one |
| Phone.NormalizeCases | src/app/auth/login/page.tsx:21 | a leading `0` gets `+88`, a leading `+88` is kept, anything else gets `+880` |
| Phone.NormalizeIdempotent | src/app/auth/signup/page.tsx:47-51 | formatting twice equals formatting once |
| Phone.LeadingZeroOptional | src/app/auth/login/page.tsx:21 | a number with or without its leading zero formats alike |
| Phone.LocalNumberLength | src/app/auth/signup/page.tsx:47-48 | an eleven-digit `01…` number becomes fourteen characters |
| Signup.TickOf | src/app/auth/signup/page.tsx:27-33 | the countdown drops by one only on the verify step while above zero |
| Signup.TicksSaturate | src/app/auth/signup/page.tsx:29-30 | on the verify step n seconds take the timer to max(t − n, 0) |
| Signup.TicksFrozen | src/app/auth/signup/page.tsx:29 | off the verify step the timer stands still |
| Signup.SignupPage.constructor | src/app/auth/signup/page.tsx:15-24 | the details step, empty fields, timer 30, local storage as it was |
| Signup.SignupPage.Edit | src/app/auth/signup/page.tsx:159-195 | the name, password and phone inputs take the typed texts; step, timer, code and storage stay |
| Signup.SignupPage.HandleDetailsSubmit | src/app/auth/signup/page.tsx:35-39 | the phone step follows only when name and password are given; every other field and the storage stay |
| Signup.SignupPage.HandlePhoneSubmit | src/app/auth/signup/page.tsx:41-72 | on success the phone is formatted, the step is verify and the timer 30; on failure nothing changes; name, password, code and storage always stay |
| Signup.SignupPage.Tick | src/app/auth/signup/page.tsx:27-33 | one second of the countdown, which stays in 0..30; nothing else changes |
| Signup.SignupPage.Back | src/app/auth/signup/page.tsx:209 | back to the details step; nothing else changes |
| Signup.SignupPage.ChangeNumber | src/app/auth/signup/page.tsx:240 | back to the phone step; nothing else changes |
| Signup.SignupPage.HandleResend | src/app/auth/signup/page.tsx:121-136 | a completed resend restarts the countdown at 30; nothing else changes |
| Signup.SignupPage.HandleVerify | src/app/auth/signup/page.tsx:74-119 | a verified answer stores the token and the user JSON, then goes to the dashboard only if the profile request resolved; a failed or thrown verification stores nothing and stays; the form fields stay |
| Signup.BackThenNext | src/app/auth/signup/page.tsx:35-39 | going back from the phone step keeps the typed details, so Next leads to the phone step again with the number and storage intact |
| Signup.VerifyThenLike | src/components/ui/PostCard.tsx:36-48 | after a verified signup the heart of any card flips instead of sending to login |
| Login.LoginPage.HandleSendOtp | src/app/auth/login/page.tsx:15-42 | on success the formatted number is stored and the visitor goes to verify; on failure nothing is stored |
| Login.LoginPage.constructor | src/app/auth/login/page.tsx:12 | an empty number box; the stored `auth_phone` as it was |
| Login.LoginPage.SetPhone | src/app/auth/login/page.tsx:62 | the number box takes the typed text; storage stays |
| AuthPage.AuthPageView.HandlePhoneSubmit | src/app/auth/page.tsx:18-33 | the error is cleared; a number under 11 characters sets the error, any other starts the request |
| AuthPage.AuthPageView.HandleOtpSubmit | src/app/auth/page.tsx:35-50 | the error is cleared; a code not of length 6 sets the error, a 6-character one starts the request |
| AuthPage.AuthPageView.Elapse | src/app/auth/page.tsx:29-49 | the finished request stops loading and moves to the code step or the home page |
| AuthPage.AuthPageView.ChangeNumber | src/app/auth/page.tsx:131 | back to the phone step |
| AuthPage.AuthPageView.SetOtp | src/app/auth/page.tsx:111-114 | the code box holds at most six characters |
| AuthPage.AuthPageView.constructor | src/app/auth/page.tsx:12-16 | the phone step, empty boxes, not loading, no error, nothing pending |
| AuthPage.AuthPageView.SetPhone | src/app/auth/page.tsx:84 | the number box takes the typed text; nothing else changes |
| AuthPage.PhoneFlow | src/app/auth/page.tsx:18-33 | a typed number reaches the code step iff it has at least 11 characters, with no digit check |
| AuthPage.OtpFlow | src/app/auth/page.tsx:35-50 | a typed code reaches the home page iff it has six characters |
| VerifyPage.TickOf | src/app/auth/verify/page.tsx:23-25 | a tick never goes below zero; a positive timer drops by one and any other becomes zero, so a non-negative timer never rises |
| VerifyPage.VerifyPageView.constructor | src/app/auth/verify/page.tsx:11-13 | an empty phone, timer 30, nothing stored |
| VerifyPage.CodeLength | src/app/auth/verify/page.tsx:81-86 | the expected code length is three exactly for the demo number, six otherwise |
| VerifyPage.DemoCodeEntry | src/app/auth/verify/page.tsx:11-20 | the demo visitor gets six cells, and three digits in the first three complete the code `123` |
| VerifyPage.Press | src/components/auth/OTPInput.tsx:20-38 | typing one digit writes just that cell, and the code is reported exactly when the filled count reaches the current `length` |
| VerifyPage.AfterVerify | src/app/auth/verify/page.tsx:41-53 | a new user goes to signup, any other verified one to the dashboard, an error stays |
| VerifyPage.VerifyPageView.Mount | src/app/auth/verify/page.tsx:15-21 | without a stored number the visitor goes to login; otherwise it is shown |
| VerifyPage.VerifyPageView.Tick | src/app/auth/verify/page.tsx:23-25 | the timer follows the saturating tick |
| VerifyPage.VerifyPageView.HandleResend | src/app/auth/verify/page.tsx:62-66 | the timer restarts at 30 |
| VerifyPage.VerifyPageView.HandleVerify | src/app/auth/verify/page.tsx:30-60 | a verified answer stores the user JSON and the token and routes on `isNewUser`; a failed or thrown request stores nothing and stays |
| VerifyPage.EndToEnd | src/app/auth/verify/page.tsx:46-50 | against the mock endpoint, the demo code lands on the dashboard, the new number on signup, a wrong code stays |
| VerifyOtpRoute.Post | src/app/api/auth/verify-otp/route.ts:3-39 | an unreadable body is the 500; a missing field the 400 "required"; otherwise accepted iff `123456` or the demo phone with `123`, else 400 "Invalid OTP"; an acceptance echoes the phone, is verified, carries the fixed token and is new iff the one "new" number |
| VerifyOtpRoute.UserJson | src/app/auth/signup/page.tsx:89 | `JSON.stringify(user)` is an object literal, never the empty string |
| VerifyOtpRoute.Quoted | src/app/auth/signup/page.tsx:89 | a JSON string literal wraps the text in quotes |
| VerifyOtpRoute.MissingFieldRejected | src/app/api/auth/verify-otp/route.ts:7-9 | a missing or empty phone or code is the 400 "required" error |
| VerifyOtpRoute.AcceptRule | src/app/api/auth/verify-otp/route.ts:12-16 | accepted iff the code is `123456` or the demo phone sent `123`; otherwise 400 "Invalid OTP" |
| VerifyOtpRoute.AcceptedResponse | src/app/api/auth/verify-otp/route.ts:18-34 | echoes the phone, verified, fixed token; new user iff the one "new" number; demo identity iff the demo code |
| VerifyOtpRoute.DemoPhoneUniversalCode | src/app/api/auth/verify-otp/route.ts:12-24 | the demo phone with `123456` logs in as the ordinary user |

## Left out

- Rendering, styling and animation (JSX, framer-motion). View-only pages and components are not part of this model.
- Only the effects of network calls are modelled. A request's outcome, or the verify-otp response, is passed in as a parameter; the requests themselves are not modelled.
  - The send-otp and complete-profile endpoints are not part of this model.
  - The ImgBB photo upload loop of the listing form is not part of this model.
- Local storage, `confirm()` and `alert()`: stored entries and dialog answers are parameters or fields; alerts are dropped.
- Parsing the `liked_posts` and `user` JSON. The admin guard receives the stored `role` directly, and the home page receives the parsed liked ids.
- `VerifyOtpRoute.UserJson` writes the user record without JSON string escapes; the handler's values contain no quote or backslash.
- Timers (`setInterval`, `setTimeout`) are explicit `Tick` and `Elapse` calls.
  - `AuthPage.AuthPageView.Elapse`: several scheduled callbacks collapse into the one pending slot.
  - The `loading` flags that only show a spinner across a request are not modelled.
- Floating point in the rent band. The band is stated without division as 4·sum ≤ 5·count·rent ≤ 6·sum, so IEEE rounding at the band's edges is not captured.
- `Text.ToLower` folds ASCII letters only; JavaScript's `toLowerCase` also folds non-ASCII letters.
- Strings are sequences of code points, not UTF-16 code units. "Last character" in the OTP input is therefore a code point.
- Plain input setters are modelled for the search page, the signup, login and sign-in inputs and the custom restriction box. The rent, date, area, address, floor, description and contact inputs of the listing form, the tenant-type buttons, and the admin panel's tab, search and filter selectors are left out.
- `OtpInput.OtpBoxes.HandleClick`: the browser focusing the clicked cell is modelled as the click setting the focus; `setSelectionRange` has no modelled effect.
- `PostForm.MergeIdempotent` and the other merge lemmas treat a property that is present but `undefined` in `initialData` as absent; JavaScript's spread would copy the `undefined`.
- `VerifyOtpRoute.Post` takes `phone` and `otp` as optional strings; other JSON value types in the body are not modelled.
- Reject and Ban buttons of the admin panel have no handlers and nothing to model.
- Search filtering by rent, type or facilities: the page never applies its filters, and the model does not add them.
