/** The "list your property" form: field validation, the amenity checkboxes and the image uploads. */
module ListProperty {
  import opened Wrappers
  import opened Sequences
  import opened Numbers
  import opened Properties
  import PropertyFilters

  /** The form's values, as the inputs hold them (numbers are typed in as text). */
  datatype FormValues = FormValues(
    title: string,
    description: string,
    price: string,
    address: string,
    city: string,
    state: string,
    zipCode: string,
    propertyType: string,
    status: string,
    bedrooms: string,
    bathrooms: string,
    squareFeet: string,
    yearBuilt: string,
    amenities: Option<seq<string>>,
    agreeToTerms: bool
  )

  /** The values the form starts with. */
  const DefaultValues: FormValues := FormValues(
    "", "", "", "", "", "", "", "house", "for-sale", "", "", "", "", Some([]), false)

  /** The schema's fields, in schema order. */
  datatype Field =
    | Title | Description | Price | Address | City | State | ZipCode
    | PropertyTypeField | StatusField | Bedrooms | Bathrooms | SquareFeet | YearBuilt
    | Amenities | AgreeToTerms

  const SchemaOrder: seq<Field> := [
    Title, Description, Price, Address, City, State, ZipCode,
    PropertyTypeField, StatusField, Bedrooms, Bathrooms, SquareFeet, YearBuilt,
    Amenities, AgreeToTerms]

  /** `!isNaN(Number(val)) && Number(val) > 0`. */
  predicate Positive(s: string) {
    ParseNumber(s).Some? && ParseNumber(s).value > 0.0
  }

  /** `!isNaN(Number(val)) && Number(val) >= 0`. */
  predicate NonNegative(s: string) {
    ParseNumber(s).Some? && ParseNumber(s).value >= 0.0
  }

  /** `!isNaN(Number(val)) && Number(val) > 1800 && Number(val) <= currentYear`. */
  predicate YearInRange(s: string, currentYear: int) {
    ParseNumber(s).Some? && 1800.0 < ParseNumber(s).value <= currentYear as real
  }

  /** Whether one field passes its rule; `currentYear` is the year of the clock at validation. */
  predicate FieldOk(v: FormValues, field: Field, currentYear: int) {
    match field
    case Title => |v.title| >= 5
    case Description => |v.description| >= 20
    case Price => Positive(v.price)
    case Address => |v.address| >= 5
    case City => |v.city| >= 2
    case State => |v.state| >= 2
    case ZipCode => |v.zipCode| >= 5
    case PropertyTypeField => TypeFromName(v.propertyType).Some?
    case StatusField => StatusFromName(v.status).Some?
    case Bedrooms => NonNegative(v.bedrooms)
    case Bathrooms => NonNegative(v.bathrooms)
    case SquareFeet => Positive(v.squareFeet)
    case YearBuilt => YearInRange(v.yearBuilt, currentYear)
    case Amenities => true
    case AgreeToTerms => v.agreeToTerms
  }

  /** The fields that fail their rule, in schema order. */
  function Errors(v: FormValues, currentYear: int): (r: seq<Field>)
    ensures forall i :: 0 <= i < |r| ==> !FieldOk(v, r[i], currentYear)
  {
    Filter(SchemaOrder, (field: Field) => !FieldOk(v, field, currentYear))
  }

  /** The form submits exactly when no field fails. */
  predicate Submittable(v: FormValues, currentYear: int) {
    Errors(v, currentYear) == []
  }

  /** The position of a field in the schema. */
  function FieldIndex(field: Field): (i: nat)
    ensures i < |SchemaOrder| && SchemaOrder[i] == field
  {
    match field
    case Title => 0
    case Description => 1
    case Price => 2
    case Address => 3
    case City => 4
    case State => 5
    case ZipCode => 6
    case PropertyTypeField => 7
    case StatusField => 8
    case Bedrooms => 9
    case Bathrooms => 10
    case SquareFeet => 11
    case YearBuilt => 12
    case Amenities => 13
    case AgreeToTerms => 14
  }

  /** Selecting schema fields by a test keeps exactly the fields that pass it, in schema order. */
  lemma SchemaSelect(keep: Field -> bool)
    ensures forall field :: field in Filter(SchemaOrder, keep) <==> keep(field)
    ensures IsSubsequence(Filter(SchemaOrder, keep), SchemaOrder)
  {
    FilterMembers(SchemaOrder, keep);
    FilterIsSubsequence(SchemaOrder, keep);
    forall field | keep(field)
      ensures field in Filter(SchemaOrder, keep)
    {
      assert SchemaOrder[FieldIndex(field)] == field;
    }
  }

  /** Ten elements consed onto the empty list are the list of those ten. */
  lemma FlattenTen<T>(a: T, b: T, c: T, d: T, e: T, f: T, g: T, h: T, i: T, j: T)
    ensures [a] + ([b] + ([c] + ([d] + ([e] + ([f] + ([g] + ([h] + ([i] + ([j] + [])))))))))
      == [a, b, c, d, e, f, g, h, i, j]
  {
  }

  /** A field is reported exactly when it fails, each failing field once, in schema order. */
  lemma ErrorsExact(v: FormValues, currentYear: int)
    ensures forall field :: field in Errors(v, currentYear) <==> !FieldOk(v, field, currentYear)
    ensures IsSubsequence(Errors(v, currentYear), SchemaOrder)
    ensures Submittable(v, currentYear) <==> forall field :: FieldOk(v, field, currentYear)
  {
    SchemaSelect((field: Field) => !FieldOk(v, field, currentYear));
  }

  /** The starting values fail every text rule except the room counts, which read an empty input
      as 0, and fail the terms check. */
  lemma DefaultErrors(currentYear: int)
    ensures Errors(DefaultValues, currentYear) ==
      [Title, Description, Price, Address, City, State, ZipCode, SquareFeet, YearBuilt, AgreeToTerms]
  {
    var v := DefaultValues;
    var keep := (field: Field) => !FieldOk(v, field, currentYear);
    BlankTextFields(v, currentYear);
    BlankNumberFields(v, currentYear);
    DefaultChoiceFields(v, currentYear);
    SelectDefaultFailures(keep);
  }

  /** Selecting the schema fields by a test that fails exactly the type, the status, the room
      counts and the amenities. */
  lemma SelectDefaultFailures(keep: Field -> bool)
    requires && keep(Title) && keep(Description) && keep(Price) && keep(Address) && keep(City)
             && keep(State) && keep(ZipCode) && keep(SquareFeet) && keep(YearBuilt) && keep(AgreeToTerms)
    requires && !keep(PropertyTypeField) && !keep(StatusField) && !keep(Bedrooms)
             && !keep(Bathrooms) && !keep(Amenities)
    ensures Filter(SchemaOrder, keep) ==
      [Title, Description, Price, Address, City, State, ZipCode, SquareFeet, YearBuilt, AgreeToTerms]
  {
    var s := SchemaOrder;
    assert s[15..] == [];
    assert Filter(s[14..], keep) == [AgreeToTerms] + Filter(s[15..], keep) by {
      assert FieldIndex(AgreeToTerms) == 14;
      FilterStep(s, 14, keep);
    }
    assert Filter(s[13..], keep) == Filter(s[14..], keep) by {
      assert FieldIndex(Amenities) == 13;
      FilterStep(s, 13, keep);
    }
    assert Filter(s[12..], keep) == [YearBuilt] + Filter(s[13..], keep) by {
      assert FieldIndex(YearBuilt) == 12;
      FilterStep(s, 12, keep);
    }
    assert Filter(s[11..], keep) == [SquareFeet] + Filter(s[12..], keep) by {
      assert FieldIndex(SquareFeet) == 11;
      FilterStep(s, 11, keep);
    }
    assert Filter(s[10..], keep) == Filter(s[11..], keep) by {
      assert FieldIndex(Bathrooms) == 10;
      FilterStep(s, 10, keep);
    }
    assert Filter(s[9..], keep) == Filter(s[10..], keep) by {
      assert FieldIndex(Bedrooms) == 9;
      FilterStep(s, 9, keep);
    }
    assert Filter(s[8..], keep) == Filter(s[9..], keep) by {
      assert FieldIndex(StatusField) == 8;
      FilterStep(s, 8, keep);
    }
    assert Filter(s[7..], keep) == Filter(s[8..], keep) by {
      assert FieldIndex(PropertyTypeField) == 7;
      FilterStep(s, 7, keep);
    }
    assert Filter(s[6..], keep) == [ZipCode] + Filter(s[7..], keep) by {
      assert FieldIndex(ZipCode) == 6;
      FilterStep(s, 6, keep);
    }
    assert Filter(s[5..], keep) == [State] + Filter(s[6..], keep) by {
      assert FieldIndex(State) == 5;
      FilterStep(s, 5, keep);
    }
    assert Filter(s[4..], keep) == [City] + Filter(s[5..], keep) by {
      assert FieldIndex(City) == 4;
      FilterStep(s, 4, keep);
    }
    assert Filter(s[3..], keep) == [Address] + Filter(s[4..], keep) by {
      assert FieldIndex(Address) == 3;
      FilterStep(s, 3, keep);
    }
    assert Filter(s[2..], keep) == [Price] + Filter(s[3..], keep) by {
      assert FieldIndex(Price) == 2;
      FilterStep(s, 2, keep);
    }
    assert Filter(s[1..], keep) == [Description] + Filter(s[2..], keep) by {
      assert FieldIndex(Description) == 1;
      FilterStep(s, 1, keep);
    }
    assert Filter(s[0..], keep) == [Title] + Filter(s[1..], keep) by {
      assert FieldIndex(Title) == 0;
      FilterStep(s, 0, keep);
    }
    assert s[0..] == s;
    FlattenTen(Title, Description, Price, Address, City, State, ZipCode, SquareFeet, YearBuilt, AgreeToTerms);
  }

  /** Empty texts are too short. */
  lemma BlankTextFields(v: FormValues, currentYear: int)
    requires v.title == "" && v.description == "" && v.address == ""
    requires v.city == "" && v.state == "" && v.zipCode == ""
    ensures && !FieldOk(v, Title, currentYear) && !FieldOk(v, Description, currentYear)
            && !FieldOk(v, Address, currentYear) && !FieldOk(v, City, currentYear)
            && !FieldOk(v, State, currentYear) && !FieldOk(v, ZipCode, currentYear)
  {
  }

  /** Empty numbers pass only as room counts. */
  lemma BlankNumberFields(v: FormValues, currentYear: int)
    requires v.price == "" && v.bedrooms == "" && v.bathrooms == "" && v.squareFeet == "" && v.yearBuilt == ""
    ensures && !FieldOk(v, Price, currentYear) && FieldOk(v, Bedrooms, currentYear)
            && FieldOk(v, Bathrooms, currentYear) && !FieldOk(v, SquareFeet, currentYear)
            && !FieldOk(v, YearBuilt, currentYear)
  {
    BlankNumbers(v.price, currentYear);
  }

  /** The starting choices pass, and the terms are not agreed to. */
  lemma DefaultChoiceFields(v: FormValues, currentYear: int)
    requires v.propertyType == "house" && v.status == "for-sale" && !v.agreeToTerms
    ensures && FieldOk(v, PropertyTypeField, currentYear) && FieldOk(v, StatusField, currentYear)
            && FieldOk(v, Amenities, currentYear) && !FieldOk(v, AgreeToTerms, currentYear)
  {
    TypeNameRoundTrip(House);
    StatusNameRoundTrip(ForSale);
  }

  /** A year typed as digits passes exactly when it lies after 1800 and not after the current year. */
  lemma YearDigits(n: nat, currentYear: int)
    ensures YearInRange(NatToDigits(n), currentYear) <==> 1800 < n <= currentYear
  {
    ParseDigits(NatToDigits(n));
  }

  /** A blank price, area or year is rejected; blank room counts are accepted as 0. */
  lemma BlankNumbers(s: string, currentYear: int)
    requires Text.Trim(s) == []
    ensures !Positive(s) && NonNegative(s) && !YearInRange(s, currentYear)
  {
    ParseBlank(s);
  }

  /** A type or status passes exactly when it is one of the listing enums' names. */
  lemma EnumFields(v: FormValues, currentYear: int)
    ensures FieldOk(v, PropertyTypeField, currentYear) <==> exists t :: TypeName(t) == v.propertyType
    ensures FieldOk(v, StatusField, currentYear) <==> exists s :: StatusName(s) == v.status
  {
    if exists t :: TypeName(t) == v.propertyType {
      var t :| TypeName(t) == v.propertyType;
      TypeNameRoundTrip(t);
    }
    if exists s :: StatusName(s) == v.status {
      var s :| StatusName(s) == v.status;
      StatusNameRoundTrip(s);
    }
  }

  // ---------------------------------------------------------------------------------------------
  // Amenity checkboxes

  /** `onCheckedChange(checked)` of one amenity's checkbox: checking appends the amenity, unchecking
      removes every copy of it. A missing list counts as empty. */
  function CheckAmenity(current: Option<seq<string>>, amenity: string, checked: bool): (r: seq<string>)
    ensures checked ==> r == current.GetOr([]) + [amenity]
    ensures !checked ==> amenity !in r
    ensures forall a :: a != amenity ==> (a in r <==> a in current.GetOr([]))
  {
    var values := current.GetOr([]);
    if checked then values + [amenity] else RemoveAll(values, amenity)
  }

  /** Checking an already-checked amenity lists it twice. */
  lemma CheckTwiceDuplicates(amenity: string)
    ensures CheckAmenity(Some(CheckAmenity(None, amenity, true)), amenity, true) == [amenity, amenity]
  {
  }

  /** When the checkbox shows the current state, a click toggles the amenity as the filter panel
      does. */
  lemma CheckboxIsToggle(values: seq<string>, amenity: string)
    ensures CheckAmenity(Some(values), amenity, amenity !in values) == PropertyFilters.Toggle(values, amenity)
  {
  }

  // ---------------------------------------------------------------------------------------------
  // Image uploads

  /** The image count at which the file input is disabled. */
  const MaxImages: nat := 10

  /** `prev.filter((_, i) => i !== index)`. */
  function WithoutIndex<F>(s: seq<F>, index: int): (r: seq<F>)
    ensures |r| == if 0 <= index < |s| then |s| - 1 else |s|
    decreases |s|
  {
    if s == [] then []
    else (if index == 0 then [] else [s[0]]) + WithoutIndex(s[1..], index - 1)
  }

  /** Removing an index in range closes the gap; any other index changes nothing. */
  lemma WithoutIndexSlices<F>(s: seq<F>, index: int)
    ensures 0 <= index < |s| ==> WithoutIndex(s, index) == s[..index] + s[index + 1..]
    ensures !(0 <= index < |s|) ==> WithoutIndex(s, index) == s
  {
    if 0 <= index < |s| {
      WithoutIndexInside(s, index);
    } else {
      WithoutIndexOutside(s, index);
    }
  }

  lemma {:induction false} WithoutIndexOutside<F>(s: seq<F>, index: int)
    requires !(0 <= index < |s|)
    ensures WithoutIndex(s, index) == s
    decreases |s|
  {
    if s != [] {
      WithoutIndexOutside(s[1..], index - 1);
      assert WithoutIndex(s, index) == [s[0]] + s[1..];
      assert [s[0]] + s[1..] == s;
    }
  }

  lemma {:induction false} WithoutIndexInside<F>(s: seq<F>, index: int)
    requires 0 <= index < |s|
    ensures WithoutIndex(s, index) == s[..index] + s[index + 1..]
    decreases |s|
  {
    var t := s[1..];
    if index == 0 {
      WithoutIndexOutside(t, -1);
      assert WithoutIndex(s, 0) == [] + t;
      assert s[..0] + s[1..] == t;
    } else {
      WithoutIndexInside(t, index - 1);
      assert WithoutIndex(s, index) == [s[0]] + (t[..index - 1] + t[index..]);
      assert s[..index] == [s[0]] + t[..index - 1];
      assert s[index + 1..] == t[index..];
    }
  }

  /** `handleImageChange`: every chosen file is appended after the selected images, in order; with
      no file list nothing changes. */
  function Appended<F>(images: seq<F>, files: Option<seq<F>>): (r: seq<F>)
    ensures files.None? ==> r == images
    ensures files.Some? ==> |r| == |images| + |files.value| && r[..|images|] == images && r[|images|..] == files.value
  {
    match files
    case None => images
    case Some(fs) => images + fs
  }

  /** Whether the file inputs accept a pick (`disabled={images.length >= 10}`). */
  predicate Accepts<F>(images: seq<F>) {
    |images| < MaxImages
  }

  /** The cap lives only in the disabled inputs: a pick of `k` files while they are enabled stores
      fewer than `MaxImages + k` images, and they close after the pick exactly when the pick
      reaches `MaxImages` images in all. */
  lemma PickWhileOpen<F>(images: seq<F>, files: seq<F>)
    requires Accepts(images)
    ensures |Appended(images, Some(files))| < MaxImages + |files|
    ensures Accepts(Appended(images, Some(files))) <==> |images| + |files| < MaxImages
  {
  }

  /** The handler itself sets no limit: one pick of eleven files stores eleven images. */
  lemma AppendedHasNoCap<F>(file: F)
    ensures |Appended([], Some(seq(11, _ => file)))| == 11 > MaxImages
  {
  }

  /** The selected images, in selection order. */
  class ImageUploads<F> {
    var images: seq<F>

    constructor ()
      ensures images == []
    {
      images := [];
    }

    /** Whether the file inputs accept a pick now. */
    function Open(): bool
      reads this
    {
      Accepts(images)
    }

    /** `handleImageChange`, given the input's file list (`e.target.files`). */
    method AddImages(files: Option<seq<F>>)
      modifies this
      ensures images == Appended(old(images), files)
    {
      if files.Some? {
        images := images + files.value;
      }
    }

    /** `removeImage(index)`. */
    method RemoveImage(index: int)
      modifies this
      ensures images == WithoutIndex(old(images), index)
      ensures 0 <= index < |old(images)| ==> images == old(images)[..index] + old(images)[index + 1..]
      ensures !(0 <= index < |old(images)|) ==> images == old(images)
    {
      WithoutIndexSlices(images, index);
      images := WithoutIndex(images, index);
    }
  }
}
