/**
 * The `Listing` record and the five mock listings every page starts from.
 * Optional TypeScript fields (`floor?`, `images?`, ...) are `Option` values.
 */
module Listings {
  import opened Wrappers

  datatype Category = Mess | Sublet | Flat

  /**
   * One rental ad. `tenantType` is the source's `type` field (a Dafny keyword).
   * `isUnderReview` is not declared in the TypeScript interface; the admin panel
   * adds it to a listing when it restricts the listing, and reads it back untyped.
   */
  datatype Listing = Listing(
    id: int,
    title: string,
    category: Category,
    rent: int,
    location: string,
    floor: Option<string>,
    tenantType: string,
    beds: int,
    baths: int,
    facilities: seq<string>,
    image: string,
    images: Option<seq<string>>,
    description: Option<string>,
    contactNumber: Option<string>,
    availableFrom: Option<string>,
    restrictions: Option<seq<string>>,
    isVerified: Option<bool>,
    isActive: Option<bool>,
    isUnderReview: Option<bool>)

  /** JavaScript truthiness of an optional flag: `undefined` and `false` are falsy. */
  predicate Truthy(b: Option<bool>) {
    b == Some(true)
  }

  const RoomImage := "https://i.ibb.co/5GzXhqB/room1.jpg"

  const Mock1: Listing :=
    Listing(1, "Single Room for Bachelor", Mess, 6000, "Mohammadpur, Road 3", Some("4th"),
      "Bachelor Male", 1, 1, ["Wifi", "Gas", "Lift"], RoomImage,
      Some([RoomImage, RoomImage, RoomImage]),
      Some("A nice single room available for a bachelor. Full tiles, clean bathroom, and south-facing window. The flat is on the 4th floor with lift facility."),
      Some("+8801700000000"), Some("Jan 1, 2025"), Some(["Muslim Only", "Non-Smoker"]),
      Some(true), Some(true), None)

  const Mock2: Listing :=
    Listing(2, "Sublet for Small Family", Sublet, 12000, "Dhanmondi, Road 12A", Some("1st"),
      "Small Family", 2, 2, ["Wifi", "Gas", "Generator"], RoomImage,
      Some([RoomImage, RoomImage]),
      Some("Two rooms sublet available for a small family in Dhanmondi. High security building, near attractive locations."),
      Some("+8801700000000"), Some("Ready"), Some(["Family Only", "No Pets"]),
      Some(true), Some(true), None)

  const Mock3: Listing :=
    Listing(3, "Seat in Shared Room", Mess, 3500, "Mirpur 10", Some("2nd"),
      "Student Female", 1, 1, ["Wifi", "Security"], RoomImage,
      None,
      Some("One seat available in a shared room for a female student. Study environment, strictly for students."),
      Some("+8801700000000"), Some("Feb 1, 2025"), Some(["Female Student Only", "Job Holders Not Allowed"]),
      Some(false), Some(true), None)

  const Mock4: Listing :=
    Listing(4, "Master Bed for Couple", Sublet, 15000, "Uttara, Sector 4", Some("6th"),
      "Small Family", 1, 1, ["Wifi", "Gas", "Lift", "Generator", "Balcony"], RoomImage,
      None,
      Some("Huge master bedroom with attached bath and balcony. Perfect for a couple. 6th floor with nice view."),
      Some("+8801700000000"), Some("Jan 1, 2025"), None,
      Some(true), Some(true), None)

  const Mock5: Listing :=
    Listing(5, "Single Seat", Mess, 3000, "Farmgate, Indira Road", Some("3rd"),
      "Bachelor Male", 1, 1, ["Wifi", "Maid Service"], RoomImage,
      None,
      Some("Budget friendly seat at Farmgate. Very close to Tejgaon college and University."),
      Some("+8801700000000"), Some("Immediate"), None,
      Some(false), Some(true), None)

  /** `MOCK_LISTINGS`. */
  const MockListings: seq<Listing> := [Mock1, Mock2, Mock3, Mock4, Mock5]

  /** The ids of a catalog, in catalog order. */
  function Ids(ls: seq<Listing>): (r: seq<int>)
    ensures |r| == |ls| && forall i :: 0 <= i < |ls| ==> r[i] == ls[i].id
  {
    if ls == [] then [] else [ls[0].id] + Ids(ls[1..])
  }

  /** The mock ids are 1 to 5, in that order, and pairwise distinct. */
  lemma MockIds()
    ensures Ids(MockListings) == [1, 2, 3, 4, 5]
    ensures forall i, j :: 0 <= i < j < |MockListings| ==> MockListings[i].id != MockListings[j].id
  {
  }

  /** Every mock rent is positive. */
  lemma MockRentsPositive()
    ensures forall l :: l in MockListings ==> l.rent > 0
    ensures [MockListings[0].rent, MockListings[1].rent, MockListings[2].rent,
             MockListings[3].rent, MockListings[4].rent] == [6000, 12000, 3500, 15000, 3000]
  {
  }

  /** Every mock listing starts active and not under review. */
  lemma MockAllActive()
    ensures forall l :: l in MockListings ==> l.isActive == Some(true) && l.isUnderReview == None
  {
  }
}
