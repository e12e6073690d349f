/** The request handlers of the API server over the in-memory store: the
    travel-package reads, the preference list and creation, and the
    recommendations. A handler's outcome is a status code and a JSON
    payload; the session is the authenticated user's id, if any. */
module Routes {
  import opened Base
  import opened Schema
  import opened Storage
  import opened StableSort
  import opened Ranking
  import Js

  /** The JSON payload a handler sends. */
  datatype Payload =
    | Message(message: string)
    | Invalid(message: string, errors: seq<Issue>)
    | Packages(packages: seq<TravelPackage>)
    | OnePackage(travelPackage: TravelPackage)
    | Preferences(preferences: seq<Preference>)
    | OnePreference(preference: Preference)

  datatype Response = Response(status: int, payload: Payload)

  /** `req.isAuthenticated()` and `req.user.id`: `None` when the request
      carries no logged-in session. */
  type Session = Option<int>

  const NotAuthenticated: Response := Response(401, Message("Non autenticato"))
  const PackageNotFound: Response := Response(404, Message("Pacchetto di viaggio non trovato"))
  const NoPreferenceFound: Response := Response(404, Message("Nessuna preferenza trovata"))
  const InvalidData: string := "Dati non validi"

  // ---------------------------------------------------------------------
  // travel packages

  /** `GET /api/travel-packages`. */
  method GetTravelPackages(storage: MemStorage) returns (res: Response)
    requires storage.Valid()
    ensures res == Response(200, Packages(storage.TravelPackages()))
  {
    var packages := storage.GetTravelPackages();
    res := Response(200, Packages(packages));
  }

  /** `GET /api/travel-packages/category/:category`. */
  method GetTravelPackagesByCategory(storage: MemStorage, category: string) returns (res: Response)
    requires storage.Valid()
    ensures res.status == 200 && res.payload.Packages?
    ensures res.payload.packages == PackagesInCategory(storage.TravelPackages(), category)
  {
    var packages := storage.GetTravelPackagesByCategory(category);
    res := Response(200, Packages(packages));
  }

  /** The answer of `GET /api/travel-packages/:id` over the package table:
      the `:id` segment goes through `parseInt`, and an id that is NaN or
      not in the table is a 404. */
  function PackageResponse(table: map<int, TravelPackage>, idParam: string): (res: Response)
    ensures res.status == 200 <==> Js.ParseInt(idParam).Some? && Js.ParseInt(idParam).value in table
    ensures res.status == 200 ==> res.payload == OnePackage(table[Js.ParseInt(idParam).value])
    ensures res.status != 200 ==> res == PackageNotFound
  {
    match Js.ParseInt(idParam)
    case Some(id) => if id in table then Response(200, OnePackage(table[id])) else PackageNotFound
    case None => PackageNotFound
  }

  /** `GET /api/travel-packages/:id`. */
  method GetTravelPackage(storage: MemStorage, idParam: string) returns (res: Response)
    requires storage.Valid()
    ensures res == PackageResponse(storage.travelPackages, idParam)
    ensures res.status == 200 ==> res.payload.travelPackage in storage.TravelPackages()
  {
    var id := Js.ParseInt(idParam);
    if id.None? {
      return PackageNotFound;
    }
    var travelPackage := storage.GetTravelPackage(id.value);
    if travelPackage.None? {
      return PackageNotFound;
    }
    res := Response(200, OnePackage(travelPackage.value));
  }

  /** Every stored package is served at the decimal spelling of its id. */
  lemma PackageServedAtItsId(table: map<int, TravelPackage>, id: int)
    requires id in table
    ensures PackageResponse(table, Js.ToString(Js.Num(id))) == Response(200, OnePackage(table[id]))
  {
    Js.ParseIntToString(id);
  }

  /** A segment that does not start like a number (after white space) is
      never a package: `parseInt` yields NaN. */
  lemma NonNumericIdNotFound(table: map<int, TravelPackage>, idParam: string)
    requires |idParam| == 0 || (!Js.IsWhiteSpace(idParam[0]) && idParam[0] != '-' && idParam[0] != '+'
                                && !Js.IsDigit(idParam[0], 10))
    ensures PackageResponse(table, idParam) == PackageNotFound
  {
    Js.ParseIntRejects(idParam);
  }

  // ---------------------------------------------------------------------
  // preferences

  /** `GET /api/preferences`. */
  method GetPreferences(storage: MemStorage, session: Session) returns (res: Response)
    requires storage.Valid()
    ensures session.None? ==> res == NotAuthenticated
    ensures session.Some? ==> res == Response(200, Preferences(PreferencesOf(storage.Preferences(), session.value)))
  {
    if session.None? {
      return NotAuthenticated;
    }
    var preferences := storage.GetPreferencesByUserId(session.value);
    res := Response(200, Preferences(preferences));
  }

  /** `{ ...req.body, userId }`: the session's user id replaces any id the
      body carries. */
  function WithSessionUser(body: Body, userId: int): (b: Body)
    ensures Lookup(b, UserId) == Js.Num(userId)
    ensures forall f :: f != UserId ==> Lookup(b, f) == Lookup(body, f)
  {
    body[UserId := Js.Num(userId)]
  }

  /** `POST /api/preferences`: a logged-in user's well-typed body is stored
      under the next preference id with the session's user id; a body that
      fails validation is a 400 with the issues and stores nothing. */
  method PostPreference(storage: MemStorage, session: Session, body: Body) returns (res: Response)
    requires storage.Valid()
    modifies storage
    ensures storage.Valid()
    ensures session.None? ==> res == NotAuthenticated
    ensures session.None? || ParseInsertPreference(WithSessionUser(body, session.value)).Failure? ==>
              storage.preferences == old(storage.preferences)
              && storage.preferenceCurrentId == old(storage.preferenceCurrentId)
    ensures session.Some? && ParseInsertPreference(WithSessionUser(body, session.value)).Failure? ==>
              res == Response(400, Invalid(InvalidData, ParseInsertPreference(WithSessionUser(body, session.value)).error))
    ensures session.Some? && ParseInsertPreference(WithSessionUser(body, session.value)).Success? ==>
              var created := PreferenceWithId(ParseInsertPreference(WithSessionUser(body, session.value)).value,
                                              old(storage.preferenceCurrentId));
              && res == Response(201, OnePreference(created))
              && created.userId == session.value
              && storage.Preferences() == old(storage.Preferences()) + [created]
    ensures storage.users == old(storage.users) && storage.userCurrentId == old(storage.userCurrentId)
    ensures storage.travelPackages == old(storage.travelPackages)
    ensures storage.travelPackageCurrentId == old(storage.travelPackageCurrentId)
  {
    if session.None? {
      return NotAuthenticated;
    }
    var parsed := ParseInsertPreference(WithSessionUser(body, session.value));
    if parsed.Failure? {
      return Response(400, Invalid(InvalidData, parsed.error));
    }
    var preference := storage.CreatePreference(parsed.value);
    res := Response(201, OnePreference(preference));
  }

  /** Whatever user id the body claims, validation sees the session's. */
  lemma SessionUserIdOverridesBody(body: Body, claimed: Js.Value, userId: int)
    ensures ParseInsertPreference(WithSessionUser(body[UserId := claimed], userId))
         == ParseInsertPreference(WithSessionUser(body, userId))
    ensures ParseInsertPreference(WithSessionUser(body, userId)).Success? ==>
              ParseInsertPreference(WithSessionUser(body, userId)).value.userId == userId
  {
    assert WithSessionUser(body[UserId := claimed], userId) == WithSessionUser(body, userId);
  }

  /** The JSON form of any insert preference is accepted, and the stored
      record is exactly that preference owned by the session's user. */
  lemma JsonPreferenceAccepted(p: InsertPreference, userId: int)
    ensures ParseInsertPreference(WithSessionUser(PreferenceJson(p), userId)) == Success(p.(userId := userId))
  {
    var q := p.(userId := userId);
    forall f ensures WithSessionUser(PreferenceJson(p), userId)[f] == PreferenceJson(q)[f] {
    }
    assert WithSessionUser(PreferenceJson(p), userId) == PreferenceJson(q);
    ParsePreferenceJson(q);
  }

  // ---------------------------------------------------------------------
  // recommendations

  /** The answer of `GET /api/recommendations` for the stored preferences
      and catalogue. */
  function RecommendationResponse(prefs: seq<Preference>, catalog: seq<TravelPackage>, session: Session): Response
  {
    match session
    case None => NotAuthenticated
    case Some(userId) =>
      var mine := PreferencesOf(prefs, userId);
      if |mine| == 0 then NoPreferenceFound
      else Response(200, Packages(Recommend(catalog, mine[|mine| - 1].interests)))
  }

  /** `GET /api/recommendations`: the user's latest preference ranks the
      catalogue, sorted in place, and the first three are sent. */
  method GetRecommendations(storage: MemStorage, session: Session) returns (res: Response)
    requires storage.Valid()
    ensures res == RecommendationResponse(storage.Preferences(), storage.TravelPackages(), session)
  {
    if session.None? {
      return NotAuthenticated;
    }
    var preferences := storage.GetPreferencesByUserId(session.value);
    if |preferences| == 0 {
      return NoPreferenceFound;
    }
    var latestPreference := preferences[|preferences| - 1];
    var allPackages := storage.GetTravelPackages();
    var topRecommendations := RecommendPackages(allPackages, latestPreference.interests);
    res := Response(200, Packages(topRecommendations));
    LatestRecommendation(storage.Preferences(), allPackages, session.value);
  }

  lemma LatestRecommendation(prefs: seq<Preference>, catalog: seq<TravelPackage>, userId: int)
    requires |PreferencesOf(prefs, userId)| > 0
    ensures var mine := PreferencesOf(prefs, userId);
      RecommendationResponse(prefs, catalog, Some(userId))
        == Response(200, Packages(Recommend(catalog, mine[|mine| - 1].interests)))
  {
  }

  /** Filtering a table listed in increasing id order keeps the order. */
  lemma {:induction false} PreferencesOfIncreasing(prefs: seq<Preference>, userId: int)
    requires forall i, j :: 0 <= i < j < |prefs| ==> prefs[i].id < prefs[j].id
    ensures var mine := PreferencesOf(prefs, userId);
      forall i, j :: 0 <= i < j < |mine| ==> mine[i].id < mine[j].id
    decreases |prefs|
  {
    if |prefs| > 0 {
      var init, last := prefs[..|prefs| - 1], prefs[|prefs| - 1];
      assert prefs == init + [last];
      PreferencesOfIncreasing(init, userId);
      PreferencesOfAppend(init, last, userId);
      var before := PreferencesOf(init, userId);
      forall k | 0 <= k < |before| ensures before[k].id < last.id {
        var m :| 0 <= m < |init| && init[m] == before[k];
        assert prefs[m] == before[k];
      }
    }
  }

  /** The preference the recommendations use is the user's newest: no other
      preference of the user has a larger id. */
  lemma LatestPreferenceIsNewest(prefs: seq<Preference>, userId: int)
    requires forall i :: 0 <= i < |prefs| ==> prefs[i].id == i + 1
    requires |PreferencesOf(prefs, userId)| > 0
    ensures var mine := PreferencesOf(prefs, userId);
      var latest := mine[|mine| - 1];
      latest.userId == userId &&
      forall i :: 0 <= i < |prefs| && prefs[i].userId == userId ==> prefs[i].id <= latest.id
  {
    PreferencesOfIncreasing(prefs, userId);
    var mine := PreferencesOf(prefs, userId);
    forall i | 0 <= i < |prefs| && prefs[i].userId == userId
      ensures prefs[i].id <= mine[|mine| - 1].id
    {
      var k :| 0 <= k < |mine| && mine[k] == prefs[i];
    }
  }

  /** Without a session nothing is recommended; without a stored preference
      the answer is 404; otherwise the answer is at most three packages of
      the catalogue, most relevant first, each sharing a category with the
      latest preference's interests when it lists some. */
  lemma RecommendationOutcomes(prefs: seq<Preference>, catalog: seq<TravelPackage>, userId: int)
    ensures RecommendationResponse(prefs, catalog, None) == NotAuthenticated
    ensures |PreferencesOf(prefs, userId)| == 0 ==>
              RecommendationResponse(prefs, catalog, Some(userId)) == NoPreferenceFound
    ensures |PreferencesOf(prefs, userId)| > 0 ==>
              var res := RecommendationResponse(prefs, catalog, Some(userId));
              var interests := PreferencesOf(prefs, userId)[|PreferencesOf(prefs, userId)| - 1].interests;
              && res.status == 200 && res.payload.Packages?
              && |res.payload.packages| <= 3
              && Sorted(res.payload.packages, RelevanceKey(interests))
              && (forall i :: 0 <= i < |res.payload.packages| ==> res.payload.packages[i] in catalog)
              && (interests.Some? && |interests.value| > 0 ==>
                    forall i :: 0 <= i < |res.payload.packages| ==> Matches(res.payload.packages[i], interests.value))
  {
    var mine := PreferencesOf(prefs, userId);
    if |mine| > 0 {
      RankedAnswer(catalog, mine[|mine| - 1].interests);
    }
  }

  /** The packages a preference's interests select: at most three catalogue
      packages, most relevant first, each sharing a category when interests
      are listed. */
  lemma RankedAnswer(catalog: seq<TravelPackage>, interests: Option<seq<string>>)
    ensures var r := Recommend(catalog, interests);
      && |r| <= 3
      && Sorted(r, RelevanceKey(interests))
      && (forall i :: 0 <= i < |r| ==> r[i] in catalog)
      && (interests.Some? && |interests.value| > 0 ==>
            forall i :: 0 <= i < |r| ==> Matches(r[i], interests.value))
  {
    if interests.Some? && |interests.value| > 0 {
      RecommendMatches(catalog, interests.value);
    }
  }
}
