/** The three tables (`users`, `preferences`, `travel_packages`), their insert
    shapes, and the insert schema for preferences as the validator the
    server applies to a request body. A nullable column is an `Option`; a
    `notNull` column is a plain value. */
module Schema {
  import opened Base
  import Js

  // ---------------------------------------------------------------------
  // users

  /** A row of `users`: username, password and email are required, name is
      nullable. The `unique` constraints on username and email belong to the
      database; the in-memory store does not enforce them. */
  datatype User = User(
    id: int,
    username: string,
    password: string,
    name: Option<string>,
    email: string)

  /** The insert shape: exactly username, password, name and email. */
  datatype InsertUser = InsertUser(
    username: string,
    password: string,
    name: Option<string>,
    email: string)

  /** The insert fields of a user row. */
  function UserFields(u: User): InsertUser
  {
    InsertUser(u.username, u.password, u.name, u.email)
  }

  /** `{ ...insertUser, id }`: the row the store builds from an insert. */
  function UserWithId(u: InsertUser, id: int): (r: User)
    ensures r.id == id && UserFields(r) == u
  {
    User(id, u.username, u.password, u.name, u.email)
  }

  lemma UserRowRoundTrip(r: User)
    ensures UserWithId(UserFields(r), r.id) == r
  {
  }

  // ---------------------------------------------------------------------
  // preferences

  /** A row of `preferences`: `userId` is required (a reference to
      `users.id`); every other column is nullable. `interests` has no length
      bound at this level. */
  datatype Preference = Preference(
    id: int,
    userId: int,
    destination: Option<string>,
    specificCity: Option<string>,
    departureDate: Option<string>,
    returnDate: Option<string>,
    adults: Option<int>,
    children: Option<int>,
    infants: Option<int>,
    interests: Option<seq<string>>,
    accommodationType: Option<string>,
    starRating: Option<string>,
    transportType: Option<string>,
    departureCity: Option<string>,
    budget: Option<string>)

  /** The insert shape of a preference: the row without `id`. */
  datatype InsertPreference = InsertPreference(
    userId: int,
    destination: Option<string>,
    specificCity: Option<string>,
    departureDate: Option<string>,
    returnDate: Option<string>,
    adults: Option<int>,
    children: Option<int>,
    infants: Option<int>,
    interests: Option<seq<string>>,
    accommodationType: Option<string>,
    starRating: Option<string>,
    transportType: Option<string>,
    departureCity: Option<string>,
    budget: Option<string>)

  /** Column defaults of `preferences` (applied by the database for an
      omitted column). */
  const DefaultAdults: int := 1
  const DefaultChildren: int := 0
  const DefaultInfants: int := 0

  function PreferenceFields(p: Preference): InsertPreference
  {
    InsertPreference(p.userId, p.destination, p.specificCity, p.departureDate,
      p.returnDate, p.adults, p.children, p.infants, p.interests,
      p.accommodationType, p.starRating, p.transportType, p.departureCity, p.budget)
  }

  /** `{ ...insertPreference, id }`. */
  function PreferenceWithId(p: InsertPreference, id: int): (r: Preference)
    ensures r.id == id && PreferenceFields(r) == p
  {
    Preference(id, p.userId, p.destination, p.specificCity, p.departureDate,
      p.returnDate, p.adults, p.children, p.infants, p.interests,
      p.accommodationType, p.starRating, p.transportType, p.departureCity, p.budget)
  }

  lemma PreferenceRowRoundTrip(r: Preference)
    ensures PreferenceWithId(PreferenceFields(r), r.id) == r
  {
  }

  /** `Partial<InsertPreference>`: `None` is a field the patch leaves out. */
  datatype PreferencePatch = PreferencePatch(
    userId: Option<int>,
    destination: Option<Option<string>>,
    specificCity: Option<Option<string>>,
    departureDate: Option<Option<string>>,
    returnDate: Option<Option<string>>,
    adults: Option<Option<int>>,
    children: Option<Option<int>>,
    infants: Option<Option<int>>,
    interests: Option<Option<seq<string>>>,
    accommodationType: Option<Option<string>>,
    starRating: Option<Option<string>>,
    transportType: Option<Option<string>>,
    departureCity: Option<Option<string>>,
    budget: Option<Option<string>>)

  // ---------------------------------------------------------------------
  // travel_packages

  /** A row of `travel_packages`: title and destination are required;
      `isRecommended` is nullable with default `false`. */
  datatype TravelPackage = TravelPackage(
    id: int,
    title: string,
    description: Option<string>,
    destination: string,
    imageUrl: Option<string>,
    rating: Option<string>,
    reviewCount: Option<int>,
    accommodationName: Option<string>,
    accommodationType: Option<string>,
    transportType: Option<string>,
    durationDays: Option<int>,
    durationNights: Option<int>,
    experiences: Option<seq<string>>,
    price: Option<int>,
    isRecommended: Option<bool>,
    categories: Option<seq<string>>)

  /** The insert shape of a travel package: the row without `id`. */
  datatype InsertTravelPackage = InsertTravelPackage(
    title: string,
    description: Option<string>,
    destination: string,
    imageUrl: Option<string>,
    rating: Option<string>,
    reviewCount: Option<int>,
    accommodationName: Option<string>,
    accommodationType: Option<string>,
    transportType: Option<string>,
    durationDays: Option<int>,
    durationNights: Option<int>,
    experiences: Option<seq<string>>,
    price: Option<int>,
    isRecommended: Option<bool>,
    categories: Option<seq<string>>)

  const DefaultIsRecommended: bool := false

  function TravelPackageFields(p: TravelPackage): InsertTravelPackage
  {
    InsertTravelPackage(p.title, p.description, p.destination, p.imageUrl, p.rating,
      p.reviewCount, p.accommodationName, p.accommodationType, p.transportType,
      p.durationDays, p.durationNights, p.experiences, p.price, p.isRecommended, p.categories)
  }

  /** `{ ...insertTravelPackage, id }`. */
  function TravelPackageWithId(p: InsertTravelPackage, id: int): (r: TravelPackage)
    ensures r.id == id && TravelPackageFields(r) == p
  {
    TravelPackage(id, p.title, p.description, p.destination, p.imageUrl, p.rating,
      p.reviewCount, p.accommodationName, p.accommodationType, p.transportType,
      p.durationDays, p.durationNights, p.experiences, p.price, p.isRecommended, p.categories)
  }

  lemma TravelPackageRowRoundTrip(r: TravelPackage)
    ensures TravelPackageWithId(TravelPackageFields(r), r.id) == r
  {
  }

  // ---------------------------------------------------------------------
  // insertPreferenceSchema as a validator of a JSON body

  /** The columns of the preference insert shape, in declaration order. */
  datatype Field =
    | UserId | Destination | SpecificCity | DepartureDate | ReturnDate
    | Adults | Children | Infants | Interests | AccommodationType
    | StarRating | TransportType | DepartureCity | Budget

  /** A request body: a JSON object, column by column. The schema strips
      every key that is not a column, so such keys are not represented. */
  type Body = map<Field, Js.Value>

  /** One validation issue: the offending field, the index inside an array
      field when an element is at fault, and the type that was expected. */
  datatype Issue = Issue(field: Field, element: Option<nat>, expected: string)

  /** The value of `key` in `body`, `undefined` when the key is absent. */
  function Lookup(body: Body, key: Field): Js.Value
  {
    if key in body then body[key] else Js.Undefined
  }

  /** A required integer column (`userId`). */
  function IntRequired(body: Body, key: Field): (r: Result<int, seq<Issue>>)
    ensures r.Success? <==> Lookup(body, key).Num?
    ensures r.Success? ==> r.value == Lookup(body, key).n
    ensures r.Failure? ==> r.error == [Issue(key, None, "number")]
  {
    match Lookup(body, key)
    case Num(n) => Success(n)
    case _ => Failure([Issue(key, None, "number")])
  }

  /** A nullable integer column: absent and `null` both read as `None`. */
  function IntNullable(body: Body, key: Field): (r: Result<Option<int>, seq<Issue>>)
    ensures r.Success? <==> Lookup(body, key).Undefined? || Lookup(body, key).Null? || Lookup(body, key).Num?
    ensures r.Success? && Lookup(body, key).Num? ==> r.value == Some(Lookup(body, key).n)
    ensures r.Failure? ==> r.error == [Issue(key, None, "number")]
  {
    match Lookup(body, key)
    case Undefined => Success(None)
    case Null => Success(None)
    case Num(n) => Success(Some(n))
    case _ => Failure([Issue(key, None, "number")])
  }

  /** A nullable text column. */
  function TextNullable(body: Body, key: Field): (r: Result<Option<string>, seq<Issue>>)
    ensures r.Success? <==> Lookup(body, key).Undefined? || Lookup(body, key).Null? || Lookup(body, key).Str?
    ensures r.Success? && Lookup(body, key).Str? ==> r.value == Some(Lookup(body, key).s)
    ensures r.Failure? ==> r.error == [Issue(key, None, "string")]
  {
    match Lookup(body, key)
    case Undefined => Success(None)
    case Null => Success(None)
    case Str(s) => Success(Some(s))
    case _ => Failure([Issue(key, None, "string")])
  }

  /** The issues of the elements of an array that are not strings, one per
      element, in index order; `offset` is the index of `items[0]`. */
  function ElementIssues(key: Field, items: seq<Js.Value>, offset: nat): (r: seq<Issue>)
    ensures r == [] <==> forall i :: 0 <= i < |items| ==> items[i].Str?
    ensures forall k :: 0 <= k < |r| ==> r[k].field == key && r[k].element.Some?
  {
    if |items| == 0 then []
    else
      (if items[0].Str? then [] else [Issue(key, Some(offset), "string")])
      + ElementIssues(key, items[1..], offset + 1)
  }

  function Texts(items: seq<Js.Value>): (r: seq<string>)
    requires forall i :: 0 <= i < |items| ==> items[i].Str?
    ensures |r| == |items| && forall i :: 0 <= i < |r| ==> r[i] == items[i].s
  {
    if |items| == 0 then [] else [items[0].s] + Texts(items[1..])
  }

  predicate IsTextArray(v: Js.Value)
  {
    v.Arr? && forall i :: 0 <= i < |v.items| ==> v.items[i].Str?
  }

  /** A nullable text-array column: an array whose every element is a string. */
  function TextArrayNullable(body: Body, key: Field): (r: Result<Option<seq<string>>, seq<Issue>>)
    ensures r.Success? <==> Lookup(body, key).Undefined? || Lookup(body, key).Null? || IsTextArray(Lookup(body, key))
    ensures r.Success? && Lookup(body, key).Arr? ==>
              r.value.Some? && |r.value.value| == |Lookup(body, key).items|
    ensures r.Success? && Lookup(body, key).Arr? ==>
              forall i :: 0 <= i < |r.value.value| ==> Lookup(body, key).items[i] == Js.Str(r.value.value[i])
    ensures r.Failure? ==> |r.error| > 0
  {
    match Lookup(body, key)
    case Undefined => Success(None)
    case Null => Success(None)
    case Arr(items) =>
      var issues := ElementIssues(key, items, 0);
      if issues == [] then Success(Some(Texts(items))) else Failure(issues)
    case _ => Failure([Issue(key, None, "array")])
  }

  function IssuesOf<T>(r: Result<T, seq<Issue>>): (issues: seq<Issue>)
    ensures issues == [] <==> r.Success? || r.error == []
  {
    if r.Failure? then r.error else []
  }

  /** Every field of `body` has the type its column demands. */
  predicate WellTyped(body: Body)
  {
    && Lookup(body, UserId).Num?
    && TextNullable(body, Destination).Success?
    && TextNullable(body, SpecificCity).Success?
    && TextNullable(body, DepartureDate).Success?
    && TextNullable(body, ReturnDate).Success?
    && IntNullable(body, Adults).Success?
    && IntNullable(body, Children).Success?
    && IntNullable(body, Infants).Success?
    && TextArrayNullable(body, Interests).Success?
    && TextNullable(body, AccommodationType).Success?
    && TextNullable(body, StarRating).Success?
    && TextNullable(body, TransportType).Success?
    && TextNullable(body, DepartureCity).Success?
    && TextNullable(body, Budget).Success?
  }

  /** Every issue of `body`, in column order. */
  function AllIssues(body: Body): seq<Issue>
  {
    IssuesOf(IntRequired(body, UserId)) + IssuesOf(TextNullable(body, Destination))
    + IssuesOf(TextNullable(body, SpecificCity)) + IssuesOf(TextNullable(body, DepartureDate))
    + IssuesOf(TextNullable(body, ReturnDate)) + IssuesOf(IntNullable(body, Adults))
    + IssuesOf(IntNullable(body, Children)) + IssuesOf(IntNullable(body, Infants))
    + IssuesOf(TextArrayNullable(body, Interests)) + IssuesOf(TextNullable(body, AccommodationType))
    + IssuesOf(TextNullable(body, StarRating)) + IssuesOf(TextNullable(body, TransportType))
    + IssuesOf(TextNullable(body, DepartureCity)) + IssuesOf(TextNullable(body, Budget))
  }

  lemma AllIssuesEmpty(body: Body)
    ensures AllIssues(body) == [] <==> WellTyped(body)
  {
  }

  /** The insert preference a well-typed body spells. */
  function Build(body: Body): InsertPreference
    requires WellTyped(body)
  {
    InsertPreference(Lookup(body, UserId).n,
      TextNullable(body, Destination).value, TextNullable(body, SpecificCity).value,
      TextNullable(body, DepartureDate).value, TextNullable(body, ReturnDate).value,
      IntNullable(body, Adults).value, IntNullable(body, Children).value,
      IntNullable(body, Infants).value, TextArrayNullable(body, Interests).value,
      TextNullable(body, AccommodationType).value, TextNullable(body, StarRating).value,
      TextNullable(body, TransportType).value, TextNullable(body, DepartureCity).value,
      TextNullable(body, Budget).value)
  }

  /** `insertPreferenceSchema.parse(body)`: the insert preference the body
      spells, or every issue found, in column order. */
  function ParseInsertPreference(body: Body): (r: Result<InsertPreference, seq<Issue>>)
    ensures r.Success? <==> WellTyped(body)
    ensures r.Failure? ==> |r.error| > 0
    ensures r.Success? ==> r.value.userId == Lookup(body, UserId).n
  {
    AllIssuesEmpty(body);
    if WellTyped(body) then Success(Build(body)) else Failure(AllIssues(body))
  }

  // ---------------------------------------------------------------------
  // the JSON form of an insert preference

  function TextJson(v: Option<string>): Js.Value
  {
    if v.Some? then Js.Str(v.value) else Js.Null
  }

  function IntJson(v: Option<int>): Js.Value
  {
    if v.Some? then Js.Num(v.value) else Js.Null
  }

  function TextArrayJson(v: Option<seq<string>>): (r: Js.Value)
    ensures v.Some? ==> IsTextArray(r) && |r.items| == |v.value|
    ensures v.Some? ==> forall i :: 0 <= i < |v.value| ==> r.items[i] == Js.Str(v.value[i])
    ensures v.None? ==> r == Js.Null
  {
    if v.Some? then Js.Arr(seq(|v.value|, i requires 0 <= i < |v.value| => Js.Str(v.value[i])))
    else Js.Null
  }

  /** The JSON object sent for an insert preference (`JSON.stringify`); a
      `None` field is written as `null`. */
  function PreferenceJson(p: InsertPreference): (body: Body)
    ensures forall f: Field :: Lookup(body, f) == FieldJson(p, f)
  {
    map f: Field :: FieldJson(p, f)
  }

  /** The JSON value written for column `f` of `p`. */
  function FieldJson(p: InsertPreference, f: Field): Js.Value
  {
    match f
    case UserId => Js.Num(p.userId)
    case Destination => TextJson(p.destination)
    case SpecificCity => TextJson(p.specificCity)
    case DepartureDate => TextJson(p.departureDate)
    case ReturnDate => TextJson(p.returnDate)
    case Adults => IntJson(p.adults)
    case Children => IntJson(p.children)
    case Infants => IntJson(p.infants)
    case Interests => TextArrayJson(p.interests)
    case AccommodationType => TextJson(p.accommodationType)
    case StarRating => TextJson(p.starRating)
    case TransportType => TextJson(p.transportType)
    case DepartureCity => TextJson(p.departureCity)
    case Budget => TextJson(p.budget)
  }

  lemma TextRoundTrip(body: Body, key: Field, v: Option<string>)
    requires Lookup(body, key) == TextJson(v)
    ensures TextNullable(body, key) == Success(v)
  {
  }

  lemma IntRoundTrip(body: Body, key: Field, v: Option<int>)
    requires Lookup(body, key) == IntJson(v)
    ensures IntNullable(body, key) == Success(v)
  {
  }

  lemma TextArrayRoundTrip(body: Body, key: Field, v: Option<seq<string>>)
    requires Lookup(body, key) == TextArrayJson(v)
    ensures TextArrayNullable(body, key) == Success(v)
  {
    if v.Some? {
      var r := TextArrayNullable(body, key);
      assert r.value.value == v.value;
    }
  }

  /** A body whose every field reads as the corresponding field of `p` is
      well typed and builds `p`. */
  lemma BuildFromFields(b: Body, p: InsertPreference)
    requires Lookup(b, UserId) == Js.Num(p.userId)
    requires TextNullable(b, Destination) == Success(p.destination)
    requires TextNullable(b, SpecificCity) == Success(p.specificCity)
    requires TextNullable(b, DepartureDate) == Success(p.departureDate)
    requires TextNullable(b, ReturnDate) == Success(p.returnDate)
    requires IntNullable(b, Adults) == Success(p.adults)
    requires IntNullable(b, Children) == Success(p.children)
    requires IntNullable(b, Infants) == Success(p.infants)
    requires TextArrayNullable(b, Interests) == Success(p.interests)
    requires TextNullable(b, AccommodationType) == Success(p.accommodationType)
    requires TextNullable(b, StarRating) == Success(p.starRating)
    requires TextNullable(b, TransportType) == Success(p.transportType)
    requires TextNullable(b, DepartureCity) == Success(p.departureCity)
    requires TextNullable(b, Budget) == Success(p.budget)
    ensures WellTyped(b) && Build(b) == p
  {
  }

  lemma DatesOfJson(p: InsertPreference)
    ensures TextNullable(PreferenceJson(p), Destination) == Success(p.destination)
    ensures TextNullable(PreferenceJson(p), SpecificCity) == Success(p.specificCity)
    ensures TextNullable(PreferenceJson(p), DepartureDate) == Success(p.departureDate)
    ensures TextNullable(PreferenceJson(p), ReturnDate) == Success(p.returnDate)
  {
    var b := PreferenceJson(p);
    TextRoundTrip(b, Destination, p.destination);
    TextRoundTrip(b, SpecificCity, p.specificCity);
    TextRoundTrip(b, DepartureDate, p.departureDate);
    TextRoundTrip(b, ReturnDate, p.returnDate);
  }

  lemma TravellersOfJson(p: InsertPreference)
    ensures IntNullable(PreferenceJson(p), Adults) == Success(p.adults)
    ensures IntNullable(PreferenceJson(p), Children) == Success(p.children)
    ensures IntNullable(PreferenceJson(p), Infants) == Success(p.infants)
    ensures TextArrayNullable(PreferenceJson(p), Interests) == Success(p.interests)
  {
    var b := PreferenceJson(p);
    IntRoundTrip(b, Adults, p.adults);
    IntRoundTrip(b, Children, p.children);
    IntRoundTrip(b, Infants, p.infants);
    TextArrayRoundTrip(b, Interests, p.interests);
  }

  lemma OptionsOfJson(p: InsertPreference)
    ensures TextNullable(PreferenceJson(p), AccommodationType) == Success(p.accommodationType)
    ensures TextNullable(PreferenceJson(p), StarRating) == Success(p.starRating)
    ensures TextNullable(PreferenceJson(p), TransportType) == Success(p.transportType)
    ensures TextNullable(PreferenceJson(p), DepartureCity) == Success(p.departureCity)
    ensures TextNullable(PreferenceJson(p), Budget) == Success(p.budget)
  {
    var b := PreferenceJson(p);
    TextRoundTrip(b, AccommodationType, p.accommodationType);
    TextRoundTrip(b, StarRating, p.starRating);
    TextRoundTrip(b, TransportType, p.transportType);
    TextRoundTrip(b, DepartureCity, p.departureCity);
    TextRoundTrip(b, Budget, p.budget);
  }

  /** Validation accepts the JSON form of every insert preference and gives
      it back unchanged. */
  lemma ParsePreferenceJson(p: InsertPreference)
    ensures ParseInsertPreference(PreferenceJson(p)) == Success(p)
  {
    DatesOfJson(p);
    TravellersOfJson(p);
    OptionsOfJson(p);
    BuildFromFields(PreferenceJson(p), p);
  }

  /** The insert schema puts no bound on the number of interests: a body
      holding only a user id and any list of strings is valid. */
  lemma AnyInterestCountAccepted(userId: int, interests: seq<string>)
    ensures ParseInsertPreference(map[UserId := Js.Num(userId),
              Interests := TextArrayJson(Some(interests))]).Success?
  {
    var body := map[UserId := Js.Num(userId), Interests := TextArrayJson(Some(interests))];
    TextArrayRoundTrip(body, Interests, Some(interests));
  }
}
