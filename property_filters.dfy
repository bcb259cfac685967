/** The listing filter panel: filter state decoded from and encoded to query parameters, single-key
    updates, the amenity toggle and the reset. */
module PropertyFilters {
  import opened Wrappers
  import opened Sequences
  import opened Numbers

  /** Query parameters in order, as `URLSearchParams` holds them. */
  type Query = seq<(string, string)>

  /** `params.get(key)`: the first value stored under `key`, if any. */
  function Get(q: Query, key: string): (r: Option<string>)
    ensures r.Some? ==> r.value in GetAll(q, key) && GetAll(q, key)[0] == r.value
    ensures r.None? ==> GetAll(q, key) == []
    decreases |q|
  {
    if q == [] then None
    else if q[0].0 == key then Some(q[0].1)
    else Get(q[1..], key)
  }

  /** `params.getAll(key)`: every value stored under `key`, in order. */
  function GetAll(q: Query, key: string): (r: seq<string>)
    ensures |r| <= |q|
    decreases |q|
  {
    if q == [] then []
    else (if q[0].0 == key then [q[0].1] else []) + GetAll(q[1..], key)
  }

  /** A key has values exactly when some pair is stored under it. */
  lemma {:induction false} GetAllEmpty(q: Query, key: string)
    ensures GetAll(q, key) == [] <==> forall i :: 0 <= i < |q| ==> q[i].0 != key
    decreases |q|
  {
    if q != [] {
      GetAllEmpty(q[1..], key);
      assert forall i :: 1 <= i < |q| ==> q[i] == q[1..][i - 1];
    }
  }

  /** Every pair stored under `key` removed. */
  function RemoveKey(q: Query, key: string): (r: Query)
    ensures forall i :: 0 <= i < |r| ==> r[i].0 != key
  {
    Filter(q, (kv: (string, string)) => kv.0 != key)
  }

  /** `params.set(key, value)`: the first pair under `key` takes the new value and later ones are
      dropped; with no pair under `key`, the pair is appended. */
  function SetParam(q: Query, key: string, value: string): (r: Query)
    decreases |q|
  {
    if q == [] then [(key, value)]
    else if q[0].0 == key then [(key, value)] + RemoveKey(q[1..], key)
    else [q[0]] + SetParam(q[1..], key, value)
  }

  /** `params.append(key, value)`. */
  function AppendParam(q: Query, key: string, value: string): (r: Query)
    ensures |r| == |q| + 1 && r[..|q|] == q && r[|q|] == (key, value)
  {
    q + [(key, value)]
  }

  /** The panel's filter state. `propertyType` is the `type` key. */
  datatype Filters = Filters(
    status: string,
    propertyType: string,
    minPrice: real,
    maxPrice: real,
    beds: real,
    baths: real,
    amenities: seq<string>
  )

  /** The price ceiling, used both as the default and as the slider maximum. */
  const PriceCeiling: real := 5000000.0

  /** The state `resetFilters` installs, which is also what an empty query decodes to. */
  const Defaults: Filters := Filters("all", "all", 0.0, PriceCeiling, 0.0, 0.0, [])

  /** `searchParams.get(key) || "all"`: a missing or empty value falls back to "all". */
  function TextParam(q: Query, key: string): (r: string)
    ensures r != ""
    ensures Get(q, key).Some? && Get(q, key).value != "" ==> r == Get(q, key).value
    ensures (Get(q, key).None? || Get(q, key).value == "") ==> r == "all"
  {
    match Get(q, key)
    case Some(v) => if v == "" then "all" else v
    case None => "all"
  }

  /** `Number(searchParams.get(key)) || fallback`: `Number(null)` is 0, and 0 and `NaN` are falsy. */
  function NumberParam(q: Query, key: string, fallback: real): (r: real)
    ensures r == fallback || r != 0.0
    ensures Get(q, key).None? ==> r == fallback
    ensures Get(q, key).Some? && ParseNumber(Get(q, key).value).None? ==> r == fallback
    ensures Get(q, key).Some? && ParseNumber(Get(q, key).value) == Some(0.0) ==> r == fallback
    ensures Get(q, key).Some? && ParseNumber(Get(q, key).value).Some? && ParseNumber(Get(q, key).value).value != 0.0
      ==> r == ParseNumber(Get(q, key).value).value
  {
    match Get(q, key)
    case None => fallback
    case Some(v) =>
      match ParseNumber(v)
      case None => fallback
      case Some(n) => if n == 0.0 then fallback else n
  }

  /** The filter state the panel starts with, read from the page's query parameters. */
  function Decode(q: Query): (f: Filters)
    ensures f.status != "" && f.propertyType != "" && f.maxPrice != 0.0
    ensures f.amenities == GetAll(q, "amenities")
    ensures q == [] ==> f == Defaults
  {
    Filters(
      TextParam(q, "status"),
      TextParam(q, "type"),
      NumberParam(q, "minPrice", 0.0),
      NumberParam(q, "maxPrice", PriceCeiling),
      NumberParam(q, "beds", 0.0),
      NumberParam(q, "baths", 0.0),
      GetAll(q, "amenities"))
  }

  /** One optional scalar parameter. */
  function Part(present: bool, key: string, value: string): Query {
    if present then [(key, value)] else []
  }

  /** The texts `toString` writes for the four numbers. */
  datatype Texts = Texts(minPrice: string, maxPrice: string, beds: string, baths: string)

  function NumberTexts(f: Filters): Texts {
    Texts(Render(f.minPrice), Render(f.maxPrice), Render(f.beds), Render(f.baths))
  }

  /** The scalar parameters `applyFilters` sets, one per key, each left out at its default; the
      numbers are written as the texts `t`. */
  function P1(f: Filters): Query { Part(f.status != "all", "status", f.status) }
  function P2(f: Filters): Query { Part(f.propertyType != "all", "type", f.propertyType) }
  function P3(f: Filters, t: Texts): Query { Part(f.minPrice > 0.0, "minPrice", t.minPrice) }
  function P4(f: Filters, t: Texts): Query { Part(f.maxPrice < PriceCeiling, "maxPrice", t.maxPrice) }
  function P5(f: Filters, t: Texts): Query { Part(f.beds > 0.0, "beds", t.beds) }
  function P6(f: Filters, t: Texts): Query { Part(f.baths > 0.0, "baths", t.baths) }

  function Scalars(f: Filters, t: Texts): Query {
    P1(f) + (P2(f) + (P3(f, t) + (P4(f, t) + (P5(f, t) + P6(f, t)))))
  }

  function ScalarParams(f: Filters): Query {
    Scalars(f, NumberTexts(f))
  }

  /** One `amenities` parameter per amenity, in list order. */
  function AmenityParams(amenities: seq<string>): (r: Query)
    ensures |r| == |amenities|
    ensures forall i :: 0 <= i < |r| ==> r[i] == ("amenities", amenities[i])
  {
    seq(|amenities|, i requires 0 <= i < |amenities| => ("amenities", amenities[i]))
  }

  /** The query `applyFilters` navigates with. */
  function Encode(f: Filters): Query {
    ScalarParams(f) + AmenityParams(f.amenities)
  }

  /** The filter states that survive a trip through the query string unchanged. */
  ghost predicate Encodable(f: Filters) {
    && f.status != "" && f.propertyType != ""
    && f.minPrice >= 0.0
    && f.maxPrice != 0.0 && f.maxPrice <= PriceCeiling
    && f.beds >= 0.0 && f.baths >= 0.0
  }

  /** The numbers can be written out exactly. */
  ghost predicate Writable(f: Filters) {
    HasDecimalForm(f.minPrice) && HasDecimalForm(f.maxPrice) && HasDecimalForm(f.beds) && HasDecimalForm(f.baths)
  }

  // ---------------------------------------------------------------------------------------------
  // Facts about the query operations

  lemma {:induction false} GetAppend(a: Query, b: Query, key: string)
    ensures Get(a + b, key) == if Get(a, key).Some? then Get(a, key) else Get(b, key)
    decreases |a|
  {
    if a == [] {
      assert a + b == b;
    } else {
      assert (a + b)[1..] == a[1..] + b;
      GetAppend(a[1..], b, key);
    }
  }

  lemma {:induction false} GetAllAppend(a: Query, b: Query, key: string)
    ensures GetAll(a + b, key) == GetAll(a, key) + GetAll(b, key)
    decreases |a|
  {
    if a == [] {
      assert a + b == b;
    } else {
      assert (a + b)[1..] == a[1..] + b;
      GetAllAppend(a[1..], b, key);
    }
  }

  /** Setting a key no pair uses appends it. */
  lemma {:induction false} SetParamFresh(q: Query, key: string, value: string)
    requires forall i :: 0 <= i < |q| ==> q[i].0 != key
    ensures SetParam(q, key, value) == q + [(key, value)]
    decreases |q|
  {
    if q != [] {
      SetParamFresh(q[1..], key, value);
      assert [q[0]] + (q[1..] + [(key, value)]) == q + [(key, value)];
    }
  }

  /** After `set`, the key has exactly the new value, and every other key reads as before. */
  lemma {:induction false} SetParamGet(q: Query, key: string, value: string, other: string)
    ensures GetAll(SetParam(q, key, value), key) == [value]
    ensures other != key ==> Get(SetParam(q, key, value), other) == Get(q, other)
    decreases |q|
  {
    if q != [] {
      if q[0].0 == key {
        var rest := RemoveKey(q[1..], key);
        RemoveKeyGet(q[1..], key, other);
        assert ([(key, value)] + rest)[1..] == rest;
      } else {
        SetParamGet(q[1..], key, value, other);
        var r := SetParam(q, key, value);
        assert r[1..] == SetParam(q[1..], key, value);
      }
    }
  }

  /** Removing one key leaves the other keys' first values alone. */
  lemma {:induction false} RemoveKeyGet(q: Query, key: string, other: string)
    ensures GetAll(RemoveKey(q, key), key) == []
    ensures other != key ==> Get(RemoveKey(q, key), other) == Get(q, other)
    decreases |q|
  {
    var keep := (kv: (string, string)) => kv.0 != key;
    if q != [] {
      RemoveKeyGet(q[1..], key, other);
      FilterCons(q[0], q[1..], keep);
      assert [q[0]] + q[1..] == q;
      var rest := RemoveKey(q[1..], key);
      if keep(q[0]) {
        assert RemoveKey(q, key) == [q[0]] + rest;
        assert ([q[0]] + rest)[1..] == rest;
      } else {
        assert RemoveKey(q, key) == rest;
      }
    }
  }

  lemma {:induction false} AmenityParamsGet(amenities: seq<string>, k: string)
    ensures k != "amenities" ==> Get(AmenityParams(amenities), k) == None
    ensures GetAll(AmenityParams(amenities), "amenities") == amenities
    decreases |amenities|
  {
    var q := AmenityParams(amenities);
    if amenities != [] {
      AmenityParamsGet(amenities[1..], k);
      assert q[1..] == AmenityParams(amenities[1..]);
      assert [amenities[0]] + amenities[1..] == amenities;
    }
  }

  // ---------------------------------------------------------------------------------------------
  // The encoding

  /** No pair is stored under `key`. */
  predicate NoKey(q: Query, key: string) {
    forall n :: 0 <= n < |q| ==> q[n].0 != key
  }

  lemma NoKeyAppend(a: Query, b: Query, k: string)
    requires NoKey(a, k) && NoKey(b, k)
    ensures NoKey(a + b, k)
  {
  }

  /** Pairs under other keys in front do not affect a lookup. */
  lemma GetSkip(a: Query, b: Query, k: string)
    requires NoKey(a, k)
    ensures Get(a + b, k) == Get(b, k) && GetAll(a + b, k) == GetAll(b, k)
  {
    GetAllEmpty(a, k);
    GetAppend(a, b, k);
    GetAllAppend(a, b, k);
  }

  /** Pairs under other keys behind do not affect a lookup. */
  lemma GetHere(a: Query, b: Query, k: string)
    requires NoKey(b, k)
    ensures Get(a + b, k) == Get(a, k) && GetAll(a + b, k) == GetAll(a, k)
  {
    GetAllEmpty(b, k);
    GetAppend(a, b, k);
    GetAllAppend(a, b, k);
    assert GetAll(a, k) + [] == GetAll(a, k);
  }

  /** The scalar parameters written with texts `t`, then the amenity parameters. */
  function Layout(f: Filters, t: Texts): Query {
    Scalars(f, t) + AmenityParams(f.amenities)
  }

  lemma LayoutStatus(f: Filters, t: Texts)
    ensures Get(Layout(f, t), "status") == if f.status != "all" then Some(f.status) else None
  {
    var k := "status";
    var r5 := P5(f, t) + P6(f, t);
    var r4 := P4(f, t) + r5;
    var r3 := P3(f, t) + r4;
    var r2 := P2(f) + r3;
    NoKeyAppend(P4(f, t), r5, k);
    NoKeyAppend(P3(f, t), r4, k);
    NoKeyAppend(P2(f), r3, k);
    GetHere(P1(f) + r2, AmenityParams(f.amenities), k);
    GetHere(P1(f), r2, k);
  }

  lemma LayoutType(f: Filters, t: Texts)
    ensures Get(Layout(f, t), "type") == if f.propertyType != "all" then Some(f.propertyType) else None
  {
    var k := "type";
    assert "type"[0] != "beds"[0];
    var r5 := P5(f, t) + P6(f, t);
    var r4 := P4(f, t) + r5;
    var r3 := P3(f, t) + r4;
    var r2 := P2(f) + r3;
    NoKeyAppend(P4(f, t), r5, k);
    NoKeyAppend(P3(f, t), r4, k);
    GetHere(P1(f) + r2, AmenityParams(f.amenities), k);
    GetSkip(P1(f), r2, k);
    GetHere(P2(f), r3, k);
  }

  lemma LayoutMinPrice(f: Filters, t: Texts)
    ensures Get(Layout(f, t), "minPrice") == if f.minPrice > 0.0 then Some(t.minPrice) else None
  {
    var k := "minPrice";
    assert "minPrice"[1] != "maxPrice"[1];
    var r5 := P5(f, t) + P6(f, t);
    var r4 := P4(f, t) + r5;
    var r3 := P3(f, t) + r4;
    var r2 := P2(f) + r3;
    NoKeyAppend(P4(f, t), r5, k);
    GetHere(P1(f) + r2, AmenityParams(f.amenities), k);
    GetSkip(P1(f), r2, k);
    GetSkip(P2(f), r3, k);
    GetHere(P3(f, t), r4, k);
  }

  lemma LayoutMaxPrice(f: Filters, t: Texts)
    ensures Get(Layout(f, t), "maxPrice") == if f.maxPrice < PriceCeiling then Some(t.maxPrice) else None
  {
    var k := "maxPrice";
    assert "minPrice"[1] != "maxPrice"[1];
    var r5 := P5(f, t) + P6(f, t);
    var r4 := P4(f, t) + r5;
    var r3 := P3(f, t) + r4;
    var r2 := P2(f) + r3;
    GetHere(P1(f) + r2, AmenityParams(f.amenities), k);
    GetSkip(P1(f), r2, k);
    GetSkip(P2(f), r3, k);
    GetSkip(P3(f, t), r4, k);
    GetHere(P4(f, t), r5, k);
  }

  lemma LayoutBeds(f: Filters, t: Texts)
    ensures Get(Layout(f, t), "beds") == if f.beds > 0.0 then Some(t.beds) else None
  {
    var k := "beds";
    assert "type"[0] != "beds"[0];
    var r5 := P5(f, t) + P6(f, t);
    var r4 := P4(f, t) + r5;
    var r3 := P3(f, t) + r4;
    var r2 := P2(f) + r3;
    GetHere(P1(f) + r2, AmenityParams(f.amenities), k);
    GetSkip(P1(f), r2, k);
    GetSkip(P2(f), r3, k);
    GetSkip(P3(f, t), r4, k);
    GetSkip(P4(f, t), r5, k);
    GetHere(P5(f, t), P6(f, t), k);
  }

  lemma LayoutBaths(f: Filters, t: Texts)
    ensures Get(Layout(f, t), "baths") == if f.baths > 0.0 then Some(t.baths) else None
  {
    var k := "baths";
    var r5 := P5(f, t) + P6(f, t);
    var r4 := P4(f, t) + r5;
    var r3 := P3(f, t) + r4;
    var r2 := P2(f) + r3;
    GetHere(P1(f) + r2, AmenityParams(f.amenities), k);
    GetSkip(P1(f), r2, k);
    GetSkip(P2(f), r3, k);
    GetSkip(P3(f, t), r4, k);
    GetSkip(P4(f, t), r5, k);
    GetSkip(P5(f, t), P6(f, t), k);
  }

  /** No scalar parameter uses the amenities' key. */
  lemma ScalarsNoAmenities(f: Filters, t: Texts)
    ensures NoKey(Scalars(f, t), "amenities")
  {
    var k := "amenities";
    var r5 := P5(f, t) + P6(f, t);
    var r4 := P4(f, t) + r5;
    var r3 := P3(f, t) + r4;
    var r2 := P2(f) + r3;
    NoKeyAppend(P5(f, t), P6(f, t), k);
    NoKeyAppend(P4(f, t), r5, k);
    NoKeyAppend(P3(f, t), r4, k);
    NoKeyAppend(P2(f), r3, k);
    NoKeyAppend(P1(f), r2, k);
  }

  lemma LayoutAmenities(f: Filters, t: Texts)
    ensures GetAll(Layout(f, t), "amenities") == f.amenities
  {
    var k := "amenities";
    ScalarsNoAmenities(f, t);
    GetSkip(Scalars(f, t), AmenityParams(f.amenities), k);
    AmenityParamsGet(f.amenities, k);
  }

  /** The amenity parameters come last, one per amenity in list order, and no scalar parameter uses
      their key. */
  lemma EncodeAmenitiesLast(f: Filters)
    ensures |Encode(f)| >= |f.amenities|
    ensures var n := |Encode(f)| - |f.amenities|;
      && (forall i :: 0 <= i < n ==> Encode(f)[i].0 != "amenities")
      && (forall i :: 0 <= i < |f.amenities| ==> Encode(f)[n + i] == ("amenities", f.amenities[i]))
  {
    var t := NumberTexts(f);
    ScalarsNoAmenities(f, t);
    assert Encode(f) == Scalars(f, t) + AmenityParams(f.amenities);
  }

  /** What each key of an encoded state reads back as: a scalar is present exactly when it is not at
      its default, and the amenities come back as the list. */
  lemma EncodeReadsBack(f: Filters)
    ensures Get(Encode(f), "status") == if f.status != "all" then Some(f.status) else None
    ensures Get(Encode(f), "type") == if f.propertyType != "all" then Some(f.propertyType) else None
    ensures Get(Encode(f), "minPrice") == if f.minPrice > 0.0 then Some(Render(f.minPrice)) else None
    ensures Get(Encode(f), "maxPrice") == if f.maxPrice < PriceCeiling then Some(Render(f.maxPrice)) else None
    ensures Get(Encode(f), "beds") == if f.beds > 0.0 then Some(Render(f.beds)) else None
    ensures Get(Encode(f), "baths") == if f.baths > 0.0 then Some(Render(f.baths)) else None
    ensures GetAll(Encode(f), "amenities") == f.amenities
  {
    var t := NumberTexts(f);
    assert Encode(f) == Layout(f, t);
    LayoutStatus(f, t);
    LayoutType(f, t);
    LayoutMinPrice(f, t);
    LayoutMaxPrice(f, t);
    LayoutBeds(f, t);
    LayoutBaths(f, t);
    LayoutAmenities(f, t);
  }

  /** An encoded state decodes to itself, except that an empty text falls back to "all" and a number
      the query leaves out (at or below zero, or for the maximum zero or above the ceiling) falls
      back to its default. */
  lemma DecodeEncode(f: Filters)
    requires Writable(f)
    ensures Decode(Encode(f)) == Filters(
      if f.status == "" then "all" else f.status,
      if f.propertyType == "" then "all" else f.propertyType,
      if f.minPrice > 0.0 then f.minPrice else 0.0,
      if f.maxPrice != 0.0 && f.maxPrice < PriceCeiling then f.maxPrice else PriceCeiling,
      if f.beds > 0.0 then f.beds else 0.0,
      if f.baths > 0.0 then f.baths else 0.0,
      f.amenities)
    ensures Encodable(Decode(Encode(f)))
  {
    EncodeReadsBack(f);
    var q := Encode(f);
    ReadNumber(q, "minPrice", f.minPrice > 0.0, f.minPrice, 0.0);
    ReadNumber(q, "maxPrice", f.maxPrice < PriceCeiling, f.maxPrice, PriceCeiling);
    ReadNumber(q, "beds", f.beds > 0.0, f.beds, 0.0);
    ReadNumber(q, "baths", f.baths > 0.0, f.baths, 0.0);
  }

  /** A number parameter written as `Render(x)` when `present` reads back as `x` unless it is 0. */
  lemma ReadNumber(q: Query, key: string, present: bool, x: real, fallback: real)
    requires HasDecimalForm(x)
    requires Get(q, key) == if present then Some(Render(x)) else None
    ensures NumberParam(q, key, fallback) == if present && x != 0.0 then x else fallback
  {
    if present {
      ParseRender(x);
    }
  }

  /** Applying the filters and reading them back gives the same state exactly when the state has no
      empty text, no negative number and a maximum price that is neither zero nor above the ceiling. */
  lemma RoundTrip(f: Filters)
    requires Writable(f)
    ensures Decode(Encode(f)) == f <==> Encodable(f)
  {
    DecodeEncode(f);
  }

  /** The reset state applies as an empty query, and an empty query decodes to it. */
  lemma DefaultsEncodeEmpty()
    ensures Encode(Defaults) == []
    ensures Decode([]) == Defaults
  {
  }

  // ---------------------------------------------------------------------------------------------
  // Changing the state

  /** `handleAmenityToggle`: a listed amenity is removed (every copy of it), any other is appended. */
  function Toggle(amenities: seq<string>, amenity: string): (r: seq<string>)
    ensures amenity in r <==> amenity !in amenities
    ensures forall a :: a != amenity ==> (a in r <==> a in amenities)
  {
    if amenity in amenities then RemoveAll(amenities, amenity) else amenities + [amenity]
  }

  /** The other amenities keep their order. */
  lemma ToggleKeepsOthers(amenities: seq<string>, amenity: string)
    ensures RemoveAll(Toggle(amenities, amenity), amenity) == RemoveAll(amenities, amenity)
  {
    if amenity in amenities {
      RemoveAllIdempotent(amenities, amenity);
    } else {
      RemoveAllAppend(amenities, [amenity], amenity);
      assert RemoveAll([amenity], amenity) == [];
      assert RemoveAll(amenities, amenity) + [] == RemoveAll(amenities, amenity);
    }
  }

  /** Toggling an unlisted amenity twice restores the list. */
  lemma ToggleTwiceAbsent(amenities: seq<string>, amenity: string)
    requires amenity !in amenities
    ensures Toggle(Toggle(amenities, amenity), amenity) == amenities
  {
    RemoveAllAppend(amenities, [amenity], amenity);
    assert RemoveAll([amenity], amenity) == [];
    RemoveAllAbsent(amenities, amenity);
    assert amenities + [] == amenities;
  }

  /** Toggling a listed amenity twice leaves one copy of it, at the end. */
  lemma ToggleTwicePresent(amenities: seq<string>, amenity: string)
    requires amenity in amenities
    ensures Toggle(Toggle(amenities, amenity), amenity) == RemoveAll(amenities, amenity) + [amenity]
  {
  }

  /** The keys `handleFilterChange` is called with. */
  datatype Key = StatusKey | TypeKey | MinPriceKey | MaxPriceKey | BedsKey | BathsKey | AmenitiesKey

  /** A value stored under a key. */
  datatype Value = Text(text: string) | Number(number: real) | List(items: seq<string>)

  /** `handleFilterChange(key, value)`, with the value typed by its key. */
  datatype Change =
    | SetStatus(status: string)
    | SetType(propertyType: string)
    | SetMinPrice(minPrice: real)
    | SetMaxPrice(maxPrice: real)
    | SetBeds(beds: real)
    | SetBaths(baths: real)
    | SetAmenities(amenities: seq<string>)

  function KeyOf(c: Change): Key {
    match c
    case SetStatus(_) => StatusKey
    case SetType(_) => TypeKey
    case SetMinPrice(_) => MinPriceKey
    case SetMaxPrice(_) => MaxPriceKey
    case SetBeds(_) => BedsKey
    case SetBaths(_) => BathsKey
    case SetAmenities(_) => AmenitiesKey
  }

  function ValueOf(c: Change): Value {
    match c
    case SetStatus(s) => Text(s)
    case SetType(s) => Text(s)
    case SetMinPrice(n) => Number(n)
    case SetMaxPrice(n) => Number(n)
    case SetBeds(n) => Number(n)
    case SetBaths(n) => Number(n)
    case SetAmenities(a) => List(a)
  }

  /** The value a state holds under a key. */
  function Field(f: Filters, k: Key): Value {
    match k
    case StatusKey => Text(f.status)
    case TypeKey => Text(f.propertyType)
    case MinPriceKey => Number(f.minPrice)
    case MaxPriceKey => Number(f.maxPrice)
    case BedsKey => Number(f.beds)
    case BathsKey => Number(f.baths)
    case AmenitiesKey => List(f.amenities)
  }

  /** `{ ...filters, [key]: value }`. */
  function Changed(f: Filters, c: Change): Filters {
    match c
    case SetStatus(s) => f.(status := s)
    case SetType(s) => f.(propertyType := s)
    case SetMinPrice(n) => f.(minPrice := n)
    case SetMaxPrice(n) => f.(maxPrice := n)
    case SetBeds(n) => f.(beds := n)
    case SetBaths(n) => f.(baths := n)
    case SetAmenities(a) => f.(amenities := a)
  }

  /** Two states are equal exactly when they agree under every key. */
  lemma FieldsDetermine(f: Filters, g: Filters)
    ensures f == g <==> forall k :: Field(f, k) == Field(g, k)
  {
    if forall k :: Field(f, k) == Field(g, k) {
      assert Field(f, StatusKey) == Field(g, StatusKey);
      assert Field(f, TypeKey) == Field(g, TypeKey);
      assert Field(f, MinPriceKey) == Field(g, MinPriceKey);
      assert Field(f, MaxPriceKey) == Field(g, MaxPriceKey);
      assert Field(f, BedsKey) == Field(g, BedsKey);
      assert Field(f, BathsKey) == Field(g, BathsKey);
      assert Field(f, AmenitiesKey) == Field(g, AmenitiesKey);
    }
  }

  /** A change stores its value under its key and leaves every other key as it was. */
  lemma ChangedField(f: Filters, c: Change, k: Key)
    ensures Field(Changed(f, c), k) == if k == KeyOf(c) then ValueOf(c) else Field(f, k)
  {
  }

  /** Changing a key twice keeps only the later value. */
  lemma ChangedTwice(f: Filters, c: Change, d: Change)
    requires KeyOf(c) == KeyOf(d)
    ensures Changed(Changed(f, c), d) == Changed(f, d)
  {
  }

  /** Changes to different keys commute. */
  lemma ChangesCommute(f: Filters, c: Change, d: Change)
    requires KeyOf(c) != KeyOf(d)
    ensures Changed(Changed(f, c), d) == Changed(Changed(f, d), c)
  {
  }

  // ---------------------------------------------------------------------------------------------
  // The panel

  /** The panel with its state, read from the page's query when it is created. */
  class FilterPanel {
    var filters: Filters

    constructor (query: Query)
      ensures filters == Decode(query)
    {
      filters := Decode(query);
    }

    /** `handleFilterChange`: stores the new state and returns it, as passed to `onFilterChange`. */
    method ChangeFilter(c: Change) returns (notified: Filters)
      modifies this
      ensures filters == Changed(old(filters), c)
      ensures notified == filters
    {
      filters := Changed(filters, c);
      notified := filters;
    }

    /** `handleAmenityToggle`. */
    method ToggleAmenity(amenity: string) returns (notified: Filters)
      modifies this
      ensures filters == old(filters).(amenities := Toggle(old(filters).amenities, amenity))
      ensures notified == filters
    {
      var amenities: seq<string>;
      if amenity in filters.amenities {
        amenities := RemoveAll(filters.amenities, amenity);
      } else {
        amenities := filters.amenities + [amenity];
      }
      notified := ChangeFilter(SetAmenities(amenities));
    }

    /** `resetFilters`: the defaults, which apply as an empty query. */
    method ResetFilters()
      modifies this
      ensures filters == Defaults
    {
      filters := Defaults;
    }

    /** `applyFilters`: the query parameters built from the state, key by key. */
    method ApplyFilters() returns (params: Query)
      ensures params == Encode(filters)
    {
      var f := filters;
      params := SetScalars(f, NumberTexts(f));
      var i := 0;
      while i < |f.amenities|
        invariant 0 <= i <= |f.amenities|
        invariant params == ScalarParams(f) + AmenityParams(f.amenities[..i])
      {
        AmenityParamsSnoc(f.amenities, i);
        params := AppendParam(params, "amenities", f.amenities[i]);
        i := i + 1;
      }
      assert f.amenities[..i] == f.amenities;
    }
  }

  /** `if (present) params.set(key, value)`, on a key the parameters do not use yet. */
  method SetWhen(params: Query, ghost keys: set<string>, present: bool, key: string, value: string)
    returns (r: Query)
    requires KeysIn(params, keys) && key !in keys
    ensures r == params + Part(present, key, value)
    ensures KeysIn(r, keys + {key})
  {
    r := params;
    if present {
      SetParamFresh(r, key, value);
      r := SetParam(r, key, value);
    }
  }

  /** The six conditional `params.set` calls of `applyFilters`, in order, with the numbers written
      as `t`. */
  method SetScalars(f: Filters, t: Texts) returns (params: Query)
    ensures params == Scalars(f, t)
  {
    assert "minPrice"[1] != "maxPrice"[1];
    assert "type"[0] != "beds"[0];
    params := SetWhen([], {}, f.status != "all", "status", f.status);
    params := SetWhen(params, {"status"}, f.propertyType != "all", "type", f.propertyType);
    params := SetWhen(params, {"status", "type"}, f.minPrice > 0.0, "minPrice", t.minPrice);
    params := SetWhen(params, {"status", "type", "minPrice"}, f.maxPrice < PriceCeiling, "maxPrice", t.maxPrice);
    params := SetWhen(params, {"status", "type", "minPrice", "maxPrice"}, f.beds > 0.0, "beds", t.beds);
    params := SetWhen(params, {"status", "type", "minPrice", "maxPrice", "beds"}, f.baths > 0.0, "baths", t.baths);
    ScalarRegroup(P1(f), P2(f), P3(f, t), P4(f, t), P5(f, t), P6(f, t));
  }

  /** Every pair is stored under one of `keys`. */
  predicate KeysIn(q: Query, keys: set<string>) {
    forall n :: 0 <= n < |q| ==> q[n].0 in keys
  }

  lemma ScalarRegroup(p1: Query, p2: Query, p3: Query, p4: Query, p5: Query, p6: Query)
    ensures [] + p1 + p2 + p3 + p4 + p5 + p6 == p1 + (p2 + (p3 + (p4 + (p5 + p6))))
  {
  }

  /** The amenity parameters of one more amenity. */
  lemma AmenityParamsSnoc(amenities: seq<string>, i: nat)
    requires i < |amenities|
    ensures AmenityParams(amenities[..i + 1]) == AmenityParams(amenities[..i]) + [("amenities", amenities[i])]
  {
  }
}
