/** The property detail page: the listing named by the route's id, and up to three similar listings. */
module PropertyDetail {
  import opened Wrappers
  import opened Properties
  import opened Sequences

  /** Position of the first listing whose id is `id`, if any. */
  function FindIndex(s: seq<Property>, id: string): (r: Option<nat>)
    ensures r.Some? ==> r.value < |s| && s[r.value].id == id
    ensures r.Some? ==> forall j :: 0 <= j < r.value ==> s[j].id != id
    ensures r.None? ==> forall j :: 0 <= j < |s| ==> s[j].id != id
    decreases |s|
  {
    if s == [] then None
    else if s[0].id == id then Some(0)
    else
      match FindIndex(s[1..], id)
      case None => None
      case Some(k) => Some(k + 1)
  }

  /** `properties.find(p => p.id === id)`. */
  function Find(s: seq<Property>, id: string): (r: Option<Property>)
    ensures r.Some? ==> r.value.id == id
    ensures r.Some? ==> exists i :: 0 <= i < |s| && s[i] == r.value && forall j :: 0 <= j < i ==> s[j].id != id
    ensures r.None? <==> forall j :: 0 <= j < |s| ==> s[j].id != id
  {
    match FindIndex(s, id)
    case None => None
    case Some(i) => Some(s[i])
  }

  /** Same type as the current listing, and not the current listing. */
  predicate IsSimilar(current: Property, p: Property) {
    p.propertyType == current.propertyType && p.id != current.id
  }

  /** `similarProperties`: the first three listings of the current one's type other than itself,
      or none when no listing has the route's id. */
  function SimilarProperties(s: seq<Property>, id: string): (r: seq<Property>)
    ensures |r| <= 3
    ensures Find(s, id).None? ==> r == []
    ensures Find(s, id).Some? ==> forall i :: 0 <= i < |r| ==> IsSimilar(Find(s, id).value, r[i])
    ensures forall i :: 0 <= i < |r| ==> r[i].id != id
  {
    match Find(s, id)
    case None => []
    case Some(current) => Take(Filter(s, (p: Property) => IsSimilar(current, p)), 3)
  }

  /** The similar listings are the first three, in order, of all listings similar to the current one. */
  lemma SimilarIsPrefix(s: seq<Property>, id: string)
    requires Find(s, id).Some?
    ensures var all := Filter(s, (p: Property) => IsSimilar(Find(s, id).value, p));
      SimilarProperties(s, id) <= all && |SimilarProperties(s, id)| == (if |all| < 3 then |all| else 3)
  {
  }

  /** Listings with distinct ids: the one found for each listing's own id is that listing. */
  lemma FindListing(i: nat)
    requires i < |Listings|
    ensures Find(Listings, Listings[i].id) == Some(Listings[i])
  {
    IdsDistinct();
  }

  lemma SimilarToListing1()
    ensures SimilarProperties(Listings, "1") == [Listing3, Listing5, Listing8]
  {
    FindListing(0);
    FilterListings((p: Property) => IsSimilar(Listing1, p));
  }

  lemma SimilarToListing4()
    ensures SimilarProperties(Listings, "4") == [Listing2]
  {
    FindListing(3);
    FilterListings((p: Property) => IsSimilar(Listing4, p));
  }

  /** Listing 6 is the only condo. */
  lemma SimilarToListing6()
    ensures SimilarProperties(Listings, "6") == []
  {
    FindListing(5);
    FilterListings((p: Property) => IsSimilar(Listing6, p));
  }

  /** An id no listing has shows no similar listings. */
  lemma SimilarToUnknownId(id: string)
    requires forall i :: 0 <= i < |Listings| ==> Listings[i].id != id
    ensures SimilarProperties(Listings, id) == []
  {
  }

  /** For instance "9", one past the last sample id. */
  lemma SimilarToId9()
    ensures SimilarProperties(Listings, "9") == []
  {
    ListingIds();
    SimilarToUnknownId("9");
  }
}
