/** The travel-preference form of the client: its validation schema, its
    default values, the interest checkboxes and the mapping of a submitted
    form to the insert shape sent to `POST /api/preferences`. */
module PreferenceForm {
  import opened Base
  import opened Schema
  import Js
  import Routes

  /** The form's values. Every input holds a string; `specificCity` and
      `departureCity` are optional and may be missing. */
  datatype FormValues = FormValues(
    destination: string,
    specificCity: Option<string>,
    departureDate: string,
    returnDate: string,
    adults: string,
    children: string,
    infants: string,
    interests: seq<string>,
    accommodationType: string,
    starRating: string,
    transportType: string,
    departureCity: Option<string>,
    budget: string)

  /** The fields a validation message can be attached to. */
  datatype FormField =
    | DestinationInput | DepartureDateInput | ReturnDateInput
    | AdultsInput | ChildrenInput | InfantsInput | InterestsInput
    | AccommodationTypeInput | StarRatingInput | TransportTypeInput | BudgetInput

  datatype FormIssue = FormIssue(field: FormField, message: string)

  // ---------------------------------------------------------------------
  // formSchema

  /** `z.string().min(1, { message })`. */
  function Required(value: string, field: FormField, message: string): (r: seq<FormIssue>)
    ensures r == [] <==> value != ""
    ensures r != [] ==> r == [FormIssue(field, message)]
  {
    if |value| >= 1 then [] else [FormIssue(field, message)]
  }

  /** `z.array(z.string()).min(1, ...).max(3, ...)`: both checks run, and at
      most one of them fails. */
  function InterestIssues(interests: seq<string>): (r: seq<FormIssue>)
    ensures r == [] <==> 1 <= |interests| <= 3
    ensures |r| <= 1
  {
    (if |interests| < 1 then [FormIssue(InterestsInput, "Seleziona almeno un interesse")] else [])
    + (if |interests| > 3 then [FormIssue(InterestsInput, "Seleziona al massimo 3 interessi")] else [])
  }

  /** What a complete form is, field by field: every required string is
      non-empty and one to three interests are chosen. The optional cities
      play no part. */
  predicate Complete(v: FormValues)
  {
    v.destination != "" && v.departureDate != "" && v.returnDate != "" &&
    v.adults != "" && v.children != "" && v.infants != "" &&
    1 <= |v.interests| <= 3 &&
    v.accommodationType != "" && v.starRating != "" && v.transportType != "" &&
    v.budget != ""
  }

  /** The issues `formSchema` reports, in the order of its keys. The form is
      submitted only when there are none. */
  function Issues(v: FormValues): (r: seq<FormIssue>)
    ensures r == [] <==> Complete(v)
    ensures |r| <= 11
  {
    Required(v.destination, DestinationInput, "Seleziona una destinazione")
    + Required(v.departureDate, DepartureDateInput, "Seleziona una data di partenza")
    + Required(v.returnDate, ReturnDateInput, "Seleziona una data di ritorno")
    + Required(v.adults, AdultsInput, "Seleziona il numero di adulti")
    + Required(v.children, ChildrenInput, "Seleziona il numero di bambini")
    + Required(v.infants, InfantsInput, "Seleziona il numero di neonati")
    + InterestIssues(v.interests)
    + Required(v.accommodationType, AccommodationTypeInput, "Seleziona un tipo di alloggio")
    + Required(v.starRating, StarRatingInput, "Seleziona una categoria di stelle")
    + Required(v.transportType, TransportTypeInput, "Seleziona un tipo di trasporto")
    + Required(v.budget, BudgetInput, "Seleziona un budget")
  }

  /** Whatever the optional cities hold, validation says the same. */
  lemma {:induction false} OptionalCitiesIgnored(v: FormValues, specificCity: Option<string>, departureCity: Option<string>)
    ensures Issues(v.(specificCity := specificCity, departureCity := departureCity)) == Issues(v)
  {
  }

  /** The form's `defaultValues`. */
  const Defaults := FormValues("", Some(""), "", "", "1", "0", "0", [], "", "", "", Some(""), "")

  /** The untouched form is rejected with one message per empty required
      field and the interest minimum; the preset traveller counts pass. */
  lemma DefaultsRejected()
    ensures !Complete(Defaults)
    ensures Issues(Defaults) == [
      FormIssue(DestinationInput, "Seleziona una destinazione"),
      FormIssue(DepartureDateInput, "Seleziona una data di partenza"),
      FormIssue(ReturnDateInput, "Seleziona una data di ritorno"),
      FormIssue(InterestsInput, "Seleziona almeno un interesse"),
      FormIssue(AccommodationTypeInput, "Seleziona un tipo di alloggio"),
      FormIssue(StarRatingInput, "Seleziona una categoria di stelle"),
      FormIssue(TransportTypeInput, "Seleziona un tipo di trasporto"),
      FormIssue(BudgetInput, "Seleziona un budget")]
  {
  }

  // ---------------------------------------------------------------------
  // the interest checkboxes

  /** `field.value?.includes(category.id)`: whether a checkbox is ticked. */
  predicate Checked(interests: seq<string>, id: string)
  {
    id in interests
  }

  /** `onCheckedChange`: ticking appends the id, unticking keeps every other
      id in order. */
  function Toggle(interests: seq<string>, id: string, checked: bool): (r: seq<string>)
    ensures checked ==> r == interests + [id] && Checked(r, id)
    ensures !checked ==> !Checked(r, id)
  {
    if checked then interests + [id]
    else Filter(interests, (value: string) => value != id)
  }

  /** Unticking removes every occurrence of the id and nothing else: every
      other id keeps its number of occurrences. */
  lemma UncheckRemovesOnlyId(interests: seq<string>, id: string, other: string)
    requires other != id
    ensures multiset(Toggle(interests, id, false))[id] == 0
    ensures multiset(Toggle(interests, id, false))[other] == multiset(interests)[other]
  {
    FilterMultiplicity(interests, (value: string) => value != id, id);
    FilterMultiplicity(interests, (value: string) => value != id, other);
  }

  /** Unticking a box that was just ticked restores the list, so long as
      the id was not already listed. */
  lemma CheckThenUncheck(interests: seq<string>, id: string)
    requires !Checked(interests, id)
    ensures Toggle(Toggle(interests, id, true), id, false) == interests
  {
    var keep := (value: string) => value != id;
    FilterAppend(interests, [id], keep);
    FilterKeepsAll(interests, keep);
    assert Filter([id], keep) == [];
  }

  /** Nothing in the checkboxes stops a fourth tick; the schema rejects it. */
  lemma FourthInterestRejected(v: FormValues, id: string)
    requires |v.interests| == 3
    ensures !Complete(v.(interests := Toggle(v.interests, id, true)))
  {
  }

  // ---------------------------------------------------------------------
  // the traveller selects

  const AdultOptions := ["1", "2", "3", "4"]
  const ChildOptions := ["0", "1", "2", "3"]
  const InfantOptions := ["0", "1", "2"]

  /** Each select option is read by `parseInt` as its own number, so the
      counts sent are adults 1 to 4, children 0 to 3 and infants 0 to 2. */
  lemma SelectOptionsParse()
    ensures forall i :: 0 <= i < |AdultOptions| ==> Js.ParseInt(AdultOptions[i]) == Some(i + 1)
    ensures forall i :: 0 <= i < |ChildOptions| ==> Js.ParseInt(ChildOptions[i]) == Some(i)
    ensures forall i :: 0 <= i < |InfantOptions| ==> Js.ParseInt(InfantOptions[i]) == Some(i)
  {
    forall i | 0 <= i < |AdultOptions| ensures Js.ParseInt(AdultOptions[i]) == Some(i + 1) {
      assert AdultOptions[i] == ["0123456789"[i + 1]];
      DigitParses(i + 1);
    }
    forall i | 0 <= i < |ChildOptions| ensures Js.ParseInt(ChildOptions[i]) == Some(i) {
      assert ChildOptions[i] == ["0123456789"[i]];
      DigitParses(i);
    }
    forall i | 0 <= i < |InfantOptions| ensures Js.ParseInt(InfantOptions[i]) == Some(i) {
      assert InfantOptions[i] == ["0123456789"[i]];
      DigitParses(i);
    }
  }

  /** A one-digit option reads as its digit. */
  lemma DigitParses(n: nat)
    requires n < 10
    ensures Js.ParseInt(["0123456789"[n]]) == Some(n)
  {
    assert Js.DecimalString(n) == ["0123456789"[n]];
    Js.ParseIntDecimal(n);
  }

  // ---------------------------------------------------------------------
  // the submission

  /** `mutationFn`'s `preferenceData`: the counts through `parseInt` (NaN is
      sent as `null`), everything else copied, and the placeholder user id
      0 that the server replaces. */
  function ToInsertPreference(v: FormValues): (r: InsertPreference)
    ensures r.userId == 0
    ensures r.adults == Js.ParseInt(v.adults) && r.children == Js.ParseInt(v.children)
      && r.infants == Js.ParseInt(v.infants)
    ensures r.interests == Some(v.interests)
    ensures r.specificCity == v.specificCity && r.departureCity == v.departureCity
    ensures r.destination == Some(v.destination)
    ensures r.departureDate == Some(v.departureDate) && r.returnDate == Some(v.returnDate)
    ensures r.accommodationType == Some(v.accommodationType) && r.starRating == Some(v.starRating)
    ensures r.transportType == Some(v.transportType) && r.budget == Some(v.budget)
  {
    InsertPreference(
      0,
      Some(v.destination),
      v.specificCity,
      Some(v.departureDate),
      Some(v.returnDate),
      Js.ParseInt(v.adults),
      Js.ParseInt(v.children),
      Js.ParseInt(v.infants),
      Some(v.interests),
      Some(v.accommodationType),
      Some(v.starRating),
      Some(v.transportType),
      v.departureCity,
      Some(v.budget))
  }

  /** A form filled through the selects submits the chosen counts. */
  lemma SubmittedCounts(v: FormValues, a: nat, c: nat, i: nat)
    requires a < |AdultOptions| && v.adults == AdultOptions[a]
    requires c < |ChildOptions| && v.children == ChildOptions[c]
    requires i < |InfantOptions| && v.infants == InfantOptions[i]
    ensures ToInsertPreference(v).adults == Some(a + 1)
    ensures ToInsertPreference(v).children == Some(c)
    ensures ToInsertPreference(v).infants == Some(i)
  {
    SelectOptionsParse();
  }

  /** What the form sends is accepted by the server's schema, which stores
      exactly the form's fields under the session's user. */
  lemma SubmissionAccepted(v: FormValues, userId: int)
    ensures ParseInsertPreference(Routes.WithSessionUser(PreferenceJson(ToInsertPreference(v)), userId))
         == Success(ToInsertPreference(v).(userId := userId))
  {
    Routes.JsonPreferenceAccepted(ToInsertPreference(v), userId);
  }
}
