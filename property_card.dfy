/** What a listing card shows besides the record's own fields: the city, the type label, the
    badges and the price text. */
module PropertyCard {
  import opened Wrappers
  import opened Text
  import opened Properties

  /** `property.city || property.address.split(',')[1]?.trim()`. The record has no `city` field, so
      the first operand is always undefined and the address decides. */
  function City(address: string): (r: Option<string>)
    ensures r.None? <==> ',' !in address
    ensures r.Some? ==> ',' !in r.value
  {
    var parts := Split(address, ',');
    SplitPieces(address, ',');
    if |parts| >= 2 then Some(Trim(parts[1])) else None
  }

  /** The city is the second comma-separated segment, trimmed, whether or not a third follows. */
  lemma CityOfSegments(street: string, segment: string, rest: string)
    requires Free(street, ',') && Free(segment, ',')
    ensures City(street + [','] + segment) == Some(Trim(segment))
    ensures City(street + [','] + segment + [','] + rest) == Some(Trim(segment))
  {
    var two := street + [','] + segment;
    SplitFree(segment, ',');
    SplitAfterFree(street, ',', segment);
    assert two[|street|] == ',';
    SplitPieces(two, ',');
    var three := street + [','] + segment + [','] + rest;
    assert three == street + [','] + (segment + [','] + rest);
    SplitAfterFree(segment, ',', rest);
    SplitAfterFree(street, ',', segment + [','] + rest);
    assert three[|street|] == ',';
    SplitPieces(three, ',');
  }

  /** An address `street, city,rest` shows `city`, whatever the tail `rest` holds. */
  lemma CityOfAddress(address: string, street: string, city: string, rest: string)
    requires address == street + ", " + city + "," + rest
    requires Free(street, ',') && Free(city, ',')
    requires city == [] || (!IsSpace(city[0]) && !IsSpace(city[|city| - 1]))
    ensures City(address) == Some(city)
  {
    var tail := [' '] + city;
    assert address == street + [','] + tail + [','] + rest;
    CityOfSegments(street, tail, rest);
    TrimAfterSpace(city);
  }

  /** The city shown for each sample listing. */
  lemma SampleCities()
    ensures City(Listing1.address) == Some("Miami")
    ensures City(Listing2.address) == Some("New York")
    ensures City(Listing3.address) == Some("Portland")
    ensures City(Listing4.address) == Some("Chicago")
    ensures City(Listing5.address) == Some("San Francisco")
    ensures City(Listing6.address) == Some("San Diego")
    ensures City(Listing7.address) == Some("Austin")
    ensures City(Listing8.address) == Some("Aspen")
  {
    SampleCity1();
    SampleCity2();
    SampleCity3();
    SampleCity4();
    SampleCity5();
    SampleCity6();
    SampleCity7();
    SampleCity8();
  }

  lemma SampleCity1()
    ensures City(Listing1.address) == Some("Miami")
  {
    CityOfAddress(Listing1.address, "123 Oceanview Drive", "Miami", " FL 33101");
  }

  lemma SampleCity2()
    ensures City(Listing2.address) == Some("New York")
  {
    CityOfAddress(Listing2.address, "456 Skyline Avenue", "New York", " NY 10001");
  }

  lemma SampleCity3()
    ensures City(Listing3.address) == Some("Portland")
  {
    CityOfAddress(Listing3.address, "789 Maple Street", "Portland", " OR 97201");
  }

  lemma SampleCity4()
    ensures City(Listing4.address) == Some("Chicago")
  {
    CityOfAddress(Listing4.address, "101 Industrial Way", "Chicago", " IL 60607");
  }

  lemma SampleCity5()
    ensures City(Listing5.address) == Some("San Francisco")
  {
    CityOfAddress(Listing5.address, "222 Heritage Lane", "San Francisco", " CA 94109");
  }

  lemma SampleCity6()
    ensures City(Listing6.address) == Some("San Diego")
  {
    CityOfAddress(Listing6.address, "333 Shoreline Drive", "San Diego", " CA 92109");
  }

  lemma SampleCity7()
    ensures City(Listing7.address) == Some("Austin")
  {
    CityOfAddress(Listing7.address, "444 Urban Street", "Austin", " TX 78701");
  }

  lemma SampleCity8()
    ensures City(Listing8.address) == Some("Aspen")
  {
    CityOfAddress(Listing8.address, "555 Pine Trail", "Aspen", " CO 81611");
  }

  /** The line under the title, from the type's name. */
  function TypeLabel(t: PropertyType): (r: string)
    ensures r == "Entire " + (if t == House then "home" else TypeName(t))
  {
    var name := TypeName(t);
    if name == "house" then "Entire home"
    else if name == "apartment" then "Entire apartment"
    else if name == "condo" then "Entire condo"
    else "Entire townhouse"
  }

  /** Different types get different labels. */
  lemma TypeLabelInjective(a: PropertyType, b: PropertyType)
    ensures TypeLabel(a) == TypeLabel(b) <==> a == b
  {
    if TypeLabel(a) == TypeLabel(b) {
      var ra, rb := TypeLabel(a), TypeLabel(b);
      assert ra[7..] == rb[7..];
    }
  }

  /** The badge over the picture: only on featured listings, "Superhost" for rentals. */
  function Badge(p: Property): (r: Option<string>)
    ensures r.Some? <==> p.featured
    ensures r == Some("Superhost") <==> p.featured && p.status == ForRent
    ensures r == Some("Featured") <==> p.featured && p.status == ForSale
  {
    if p.featured then Some(if p.status == ForRent then "Superhost" else "Featured") else None
  }

  /** Whether the "For Sale" badge follows the price. */
  predicate ShowsForSaleBadge(p: Property) {
    p.status == ForSale
  }

  /** `formatPrice(property.price)`, given the locale rendering of the price. */
  function PriceText(p: Property, formatted: string): (r: string)
    ensures |r| >= 1 + |formatted| && r[0] == '$' && r[1..1 + |formatted|] == formatted
    ensures p.status == ForRent <==> |r| > 1 + |formatted|
    ensures p.status == ForRent ==> r[1 + |formatted|..] == " night"
  {
    if p.status == ForRent then "$" + formatted + " night" else "$" + formatted
  }

  /** Every card shows exactly one of the "For Sale" badge and the nightly price. */
  lemma SaleBadgeOrNightly(p: Property, formatted: string)
    ensures ShowsForSaleBadge(p) <==> PriceText(p, formatted) == "$" + formatted
  {
  }
}
