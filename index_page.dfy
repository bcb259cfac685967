/** The home page's category strip: the listings shown for the selected category id. */
module IndexPage {
  import opened Properties
  import opened Sequences

  predicate HasAmenity(p: Property, amenity: string) {
    amenity in p.amenities
  }

  /** Whether the listing shows under `category`: one exact, case-sensitive rule per known id, and
      nothing for any other id. */
  predicate InCategory(category: string, p: Property) {
    if category == "all" then true
    else if category == "beachfront" && HasAmenity(p, "Waterfront") then true
    else if category == "mountain" && HasAmenity(p, "Mountain View") then true
    else if category == "apartment" && p.propertyType == Apartment then true
    else if category == "trending" && p.featured then true
    else false
  }

  /** The category ids that have a rule. */
  predicate KnownCategory(category: string) {
    category in ["all", "beachfront", "mountain", "apartment", "trending"]
  }

  /** `properties.filter(...)` by the selected category. */
  function FilterByCategory(s: seq<Property>, category: string): (r: seq<Property>)
    ensures |r| <= |s|
    ensures forall i :: 0 <= i < |r| ==> InCategory(category, r[i])
  {
    Filter(s, (p: Property) => InCategory(category, p))
  }

  /** The result is the input with some listings deleted and none reordered; it keeps every listing
      the category accepts. */
  lemma CategoryIsSubsequence(s: seq<Property>, category: string)
    ensures IsSubsequence(FilterByCategory(s, category), s)
    ensures forall i :: 0 <= i < |s| && InCategory(category, s[i]) ==> s[i] in FilterByCategory(s, category)
  {
    FilterIsSubsequence(s, (p: Property) => InCategory(category, p));
    FilterMembers(s, (p: Property) => InCategory(category, p));
  }

  /** "all" shows every listing, in order. */
  lemma AllKeepsEverything(s: seq<Property>)
    ensures FilterByCategory(s, "all") == s
  {
    FilterKeepsAll(s, (p: Property) => InCategory("all", p));
  }

  lemma CategoryIdempotent(s: seq<Property>, category: string)
    ensures FilterByCategory(FilterByCategory(s, category), category) == FilterByCategory(s, category)
  {
    FilterIdempotent(s, (p: Property) => InCategory(category, p));
  }

  lemma BeachfrontIsWaterfront(s: seq<Property>)
    ensures FilterByCategory(s, "beachfront") == Filter(s, (p: Property) => HasAmenity(p, "Waterfront"))
  {
    FilterSameTest(s, (p: Property) => InCategory("beachfront", p), (p: Property) => HasAmenity(p, "Waterfront"));
  }

  lemma MountainIsMountainView(s: seq<Property>)
    ensures FilterByCategory(s, "mountain") == Filter(s, (p: Property) => HasAmenity(p, "Mountain View"))
  {
    FilterSameTest(s, (p: Property) => InCategory("mountain", p), (p: Property) => HasAmenity(p, "Mountain View"));
  }

  lemma ApartmentIsApartmentType(s: seq<Property>)
    ensures FilterByCategory(s, "apartment") == Filter(s, (p: Property) => p.propertyType == Apartment)
  {
    FilterSameTest(s, (p: Property) => InCategory("apartment", p), (p: Property) => p.propertyType == Apartment);
  }

  lemma TrendingIsFeatured(s: seq<Property>)
    ensures FilterByCategory(s, "trending") == Filter(s, (p: Property) => p.featured)
  {
    FilterSameTest(s, (p: Property) => InCategory("trending", p), (p: Property) => p.featured);
  }

  /** Any id without a rule shows nothing, including ids the category strip offers. */
  lemma {:induction false} UnknownCategoryIsEmpty(s: seq<Property>, category: string)
    requires !KnownCategory(category)
    ensures FilterByCategory(s, category) == []
    decreases |s|
  {
    if s != [] {
      UnknownCategoryIsEmpty(s[1..], category);
      assert !InCategory(category, s[0]);
    }
  }

  lemma StripOnlyCategoriesAreEmpty(s: seq<Property>)
    ensures FilterByCategory(s, "countryside") == []
    ensures FilterByCategory(s, "camping") == []
    ensures FilterByCategory(s, "loft") == []
  {
    UnknownCategoryIsEmpty(s, "countryside");
    UnknownCategoryIsEmpty(s, "camping");
    UnknownCategoryIsEmpty(s, "loft");
  }

  lemma SampleApartments()
    ensures FilterByCategory(Listings, "apartment") == [Listing2, Listing4]
  {
    FilterListings((p: Property) => InCategory("apartment", p));
  }

  lemma SampleTrending()
    ensures FilterByCategory(Listings, "trending") == [Listing1, Listing2, Listing5, Listing6]
  {
    FilterListings((p: Property) => InCategory("trending", p));
  }

  /** No sample listing shows under "beachfront". */
  lemma SampleBeachfront()
    ensures FilterByCategory(Listings, "beachfront") == []
  {
    FilterListings((p: Property) => InCategory("beachfront", p));
  }

  /** No sample listing shows under "mountain": listing 8 says "Mountain Views", not "Mountain View". */
  lemma SampleMountain()
    ensures FilterByCategory(Listings, "mountain") == []
  {
    FilterListings((p: Property) => InCategory("mountain", p));
  }
}
