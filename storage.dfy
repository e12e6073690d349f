/** `MemStorage`, the in-memory implementation of the storage interface:
    three tables keyed by id, each with its own auto-increment counter, and
    a catalogue of six travel packages seeded at construction. */
module Storage {
  import opened Base
  import opened Schema
  import Js
  import opened Seed

  /** The values of a table whose keys are exactly `1 .. next - 1`, in key
      order. This is the order in which `Array.from(table.values())` yields
      them: ids are inserted in increasing order, never removed, and
      overwriting an existing key keeps its position. */
  function Ordered<T>(m: map<int, T>, next: int): (r: seq<T>)
    requires forall k :: 1 <= k < next ==> k in m
    ensures |r| == if next <= 1 then 0 else next - 1
    ensures forall i :: 0 <= i < |r| ==> r[i] == m[i + 1]
    decreases next
  {
    if next <= 1 then [] else Ordered(m, next - 1) + [m[next - 1]]
  }

  /** Inserting under the next free key appends to the ordered view. */
  lemma OrderedInsert<T>(m: map<int, T>, next: int, x: T)
    requires next >= 1
    requires forall k :: 1 <= k < next ==> k in m
    ensures Ordered(m[next := x], next + 1) == Ordered(m, next) + [x]
  {
    var a, b := Ordered(m[next := x], next + 1), Ordered(m, next) + [x];
    assert |a| == |b|;
    forall i | 0 <= i < |a| ensures a[i] == b[i] {
    }
  }

  /** Overwriting an existing key replaces exactly its position. */
  lemma OrderedOverwrite<T>(m: map<int, T>, next: int, k: int, x: T)
    requires forall j :: 1 <= j < next ==> j in m
    requires 1 <= k < next
    ensures Ordered(m[k := x], next) == Ordered(m, next)[k - 1 := x]
  {
    var a, b := Ordered(m[k := x], next), Ordered(m, next)[k - 1 := x];
    assert |a| == |b|;
    forall i | 0 <= i < |a| ensures a[i] == b[i] {
    }
  }

  // ---------------------------------------------------------------------
  // queries over the ordered tables

  /** `users.find(u => u.username === username)`. */
  function UserByUsername(users: seq<User>, username: string): (r: Option<User>)
    ensures r.None? <==> forall i :: 0 <= i < |users| ==> users[i].username != username
    ensures r.Some? ==> exists i :: (0 <= i < |users| && users[i] == r.value &&
              r.value.username == username &&
              forall j :: 0 <= j < i ==> users[j].username != username)
  {
    var r := FindFirst(users, (u: User) => u.username == username);
    assert r.Some? ==> exists i :: (0 <= i < |users| && users[i] == r.value &&
              r.value.username == username &&
              forall j :: 0 <= j < i ==> users[j].username != username) by {
      if r.Some? {
        var i :| 0 <= i < |users| && users[i] == r.value && users[i].username == username
          && FirstAt(users, (u: User) => u.username == username, i);
        assert forall j :: 0 <= j < i ==> users[j].username != username;
      }
    }
    r
  }

  /** `users.find(u => u.email === email)`. */
  function UserByEmail(users: seq<User>, email: string): (r: Option<User>)
    ensures r.None? <==> forall i :: 0 <= i < |users| ==> users[i].email != email
    ensures r.Some? ==> exists i :: (0 <= i < |users| && users[i] == r.value &&
              r.value.email == email &&
              forall j :: 0 <= j < i ==> users[j].email != email)
  {
    var r := FindFirst(users, (u: User) => u.email == email);
    assert r.Some? ==> exists i :: (0 <= i < |users| && users[i] == r.value &&
              r.value.email == email &&
              forall j :: 0 <= j < i ==> users[j].email != email) by {
      if r.Some? {
        var i :| 0 <= i < |users| && users[i] == r.value && users[i].email == email
          && FirstAt(users, (u: User) => u.email == email, i);
        assert forall j :: 0 <= j < i ==> users[j].email != email;
      }
    }
    r
  }

  /** `preferences.filter(p => p.userId === userId)`. */
  function PreferencesOf(prefs: seq<Preference>, userId: int): (r: seq<Preference>)
    ensures forall i :: 0 <= i < |r| ==> r[i].userId == userId && r[i] in prefs
    ensures forall i :: 0 <= i < |prefs| && prefs[i].userId == userId ==> prefs[i] in r
  {
    Filter(prefs, (p: Preference) => p.userId == userId)
  }

  /** Storage order is kept: a preference added later comes later. */
  lemma PreferencesOfAppend(prefs: seq<Preference>, p: Preference, userId: int)
    ensures PreferencesOf(prefs + [p], userId)
         == PreferencesOf(prefs, userId) + (if p.userId == userId then [p] else [])
  {
    FilterAppend(prefs, [p], (q: Preference) => q.userId == userId);
    assert Filter([p], (q: Preference) => q.userId == userId)
        == (if p.userId == userId then [p] else []) by {
      assert [p][..0] == [];
    }
  }

  /** `pkg.categories && pkg.categories.includes(category)`. */
  predicate InCategory(p: TravelPackage, category: string)
  {
    p.categories.Some? && category in p.categories.value
  }

  /** The packages whose non-null categories contain `category`, in order. */
  function PackagesInCategory(pkgs: seq<TravelPackage>, category: string): (r: seq<TravelPackage>)
    ensures forall i :: 0 <= i < |r| ==> InCategory(r[i], category) && r[i] in pkgs
    ensures forall i :: 0 <= i < |pkgs| && InCategory(pkgs[i], category) ==> pkgs[i] in r
  {
    Filter(pkgs, (p: TravelPackage) => InCategory(p, category))
  }

  /** One field of a spread: the patch's value when it supplies one. */
  function Pick<T>(supplied: Option<T>, current: T): (r: T)
    ensures supplied.None? ==> r == current
    ensures supplied.Some? ==> r == supplied.value
  {
    if supplied.Some? then supplied.value else current
  }

  /** `{ ...preference, ...patch }` for a patch that carries the fields it
      changes: a supplied field replaces the stored one, every other field
      is kept. The id is kept too (a patch has no id field). */
  function MergePreference(p: Preference, patch: PreferencePatch): (r: Preference)
    ensures r.id == p.id
  {
    Preference(
      p.id,
      Pick(patch.userId, p.userId),
      Pick(patch.destination, p.destination),
      Pick(patch.specificCity, p.specificCity),
      Pick(patch.departureDate, p.departureDate),
      Pick(patch.returnDate, p.returnDate),
      Pick(patch.adults, p.adults),
      Pick(patch.children, p.children),
      Pick(patch.infants, p.infants),
      Pick(patch.interests, p.interests),
      Pick(patch.accommodationType, p.accommodationType),
      Pick(patch.starRating, p.starRating),
      Pick(patch.transportType, p.transportType),
      Pick(patch.departureCity, p.departureCity),
      Pick(patch.budget, p.budget))
  }

  /** The empty patch changes nothing. */
  lemma MergeEmptyPatch(p: Preference)
    ensures MergePreference(p, EmptyPatch) == p
  {
  }

  const EmptyPatch: PreferencePatch := PreferencePatch(None, None, None, None, None, None,
    None, None, None, None, None, None, None, None)

  /** Applying the same patch twice changes nothing more. */
  lemma MergeIdempotent(p: Preference, patch: PreferencePatch)
    ensures MergePreference(MergePreference(p, patch), patch) == MergePreference(p, patch)
  {
  }

  /** A patch that supplies every field determines the result completely,
      except for the id. */
  lemma MergeFullPatch(p: Preference, q: Preference)
    ensures MergePreference(p, FullPatch(PreferenceFields(q))) == PreferenceWithId(PreferenceFields(q), p.id)
  {
  }

  function FullPatch(f: InsertPreference): PreferencePatch
  {
    PreferencePatch(Some(f.userId), Some(f.destination), Some(f.specificCity),
      Some(f.departureDate), Some(f.returnDate), Some(f.adults), Some(f.children),
      Some(f.infants), Some(f.interests), Some(f.accommodationType), Some(f.starRating),
      Some(f.transportType), Some(f.departureCity), Some(f.budget))
  }

  /** The message of the error `updatePreference` throws for an unknown id. */
  function NotFoundMessage(id: int): string
  {
    "Preference with id " + Js.ToString(Js.Num(id)) + " not found"
  }

  // ---------------------------------------------------------------------
  // the store

  class MemStorage {
    var users: map<int, User>
    var preferences: map<int, Preference>
    var travelPackages: map<int, TravelPackage>
    var userCurrentId: int
    var preferenceCurrentId: int
    var travelPackageCurrentId: int

    /** Each table is keyed by exactly the ids `1 .. counter - 1` and every
        row carries its own key as its id. */
    ghost predicate Valid()
      reads this
    {
      && 1 <= userCurrentId && 1 <= preferenceCurrentId && 1 <= travelPackageCurrentId
      && (forall k :: k in users <==> 1 <= k < userCurrentId)
      && (forall k :: k in users ==> users[k].id == k)
      && (forall k :: k in preferences <==> 1 <= k < preferenceCurrentId)
      && (forall k :: k in preferences ==> preferences[k].id == k)
      && (forall k :: k in travelPackages <==> 1 <= k < travelPackageCurrentId)
      && (forall k :: k in travelPackages ==> travelPackages[k].id == k)
    }

    /** `Array.from(this.users.values())`. */
    function Users(): (r: seq<User>)
      reads this
      requires Valid()
      ensures |r| == userCurrentId - 1
      ensures forall i :: 0 <= i < |r| ==> r[i].id == i + 1
    {
      Ordered(users, userCurrentId)
    }

    /** `Array.from(this.preferences.values())`. */
    function Preferences(): (r: seq<Preference>)
      reads this
      requires Valid()
      ensures |r| == preferenceCurrentId - 1
      ensures forall i :: 0 <= i < |r| ==> r[i].id == i + 1
    {
      Ordered(preferences, preferenceCurrentId)
    }

    /** `Array.from(this.travelPackages.values())`. */
    function TravelPackages(): (r: seq<TravelPackage>)
      reads this
      requires Valid()
      ensures |r| == travelPackageCurrentId - 1
      ensures forall i :: 0 <= i < |r| ==> r[i].id == i + 1
    {
      Ordered(travelPackages, travelPackageCurrentId)
    }

    /** An empty store whose catalogue then holds the six seed packages with
        ids 1 to 6. */
    constructor ()
      ensures Valid()
      ensures users == map[] && preferences == map[]
      ensures userCurrentId == 1 && preferenceCurrentId == 1
      ensures travelPackageCurrentId == 1 + |SeedPackages()|
      ensures TravelPackages() == Rows(SeedPackages(), 1)
    {
      users := map[];
      preferences := map[];
      travelPackages := map[];
      userCurrentId := 1;
      preferenceCurrentId := 1;
      travelPackageCurrentId := 1;
      new;
      ghost var before := TravelPackages();
      assert before == [];
      SeedTravelPackages();
      AppendEmpty(before, Rows(SeedPackages(), 1));
    }

    /** `packages.forEach(pkg => this.createTravelPackage(pkg))` on the seed list. */
    method SeedTravelPackages()
      requires Valid()
      modifies this
      ensures Valid()
      ensures travelPackageCurrentId == old(travelPackageCurrentId) + |SeedPackages()|
      ensures TravelPackages() == old(TravelPackages()) + Rows(SeedPackages(), old(travelPackageCurrentId))
      ensures users == old(users) && userCurrentId == old(userCurrentId)
      ensures preferences == old(preferences) && preferenceCurrentId == old(preferenceCurrentId)
    {
      var packages := SeedPackages();
      CreateAll(packages);
    }

    /** `packages.forEach(pkg => this.createTravelPackage(pkg))`. */
    method CreateAll(packages: seq<InsertTravelPackage>)
      requires Valid()
      modifies this
      ensures Valid()
      ensures travelPackageCurrentId == old(travelPackageCurrentId) + |packages|
      ensures TravelPackages() == old(TravelPackages()) + Rows(packages, old(travelPackageCurrentId))
      ensures users == old(users) && userCurrentId == old(userCurrentId)
      ensures preferences == old(preferences) && preferenceCurrentId == old(preferenceCurrentId)
    {
      ghost var first := travelPackageCurrentId;
      ghost var before := TravelPackages();
      for i := 0 to |packages|
        invariant Valid()
        invariant travelPackageCurrentId == first + i
        invariant TravelPackages() == before + Rows(packages[..i], first)
        invariant users == old(users) && userCurrentId == old(userCurrentId)
        invariant preferences == old(preferences) && preferenceCurrentId == old(preferenceCurrentId)
      {
        var row := CreateTravelPackage(packages[i]);
        RowsStep(before, packages, i, first, row);
      }
      assert packages[..|packages|] == packages;
    }

    method GetUser(id: int) returns (r: Option<User>)
      requires Valid()
      ensures r.Some? <==> 1 <= id < userCurrentId
      ensures r.Some? ==> r.value == Users()[id - 1] && r.value.id == id
    {
      r := if id in users then Some(users[id]) else None;
    }

    method GetUserByUsername(username: string) returns (r: Option<User>)
      requires Valid()
      ensures r == UserByUsername(Users(), username)
    {
      r := UserByUsername(Users(), username);
    }

    method GetUserByEmail(email: string) returns (r: Option<User>)
      requires Valid()
      ensures r == UserByEmail(Users(), email)
    {
      r := UserByEmail(Users(), email);
    }

    /** Stores `insertUser` under the next id and returns the new row. */
    method CreateUser(insertUser: InsertUser) returns (user: User)
      requires Valid()
      modifies this
      ensures Valid()
      ensures user == UserWithId(insertUser, old(userCurrentId))
      ensures user.id !in old(users) && forall k :: k in old(users) ==> k < user.id
      ensures userCurrentId == old(userCurrentId) + 1
      ensures users == old(users)[user.id := user]
      ensures Users() == old(Users()) + [user]
      ensures preferences == old(preferences) && preferenceCurrentId == old(preferenceCurrentId)
      ensures travelPackages == old(travelPackages) && travelPackageCurrentId == old(travelPackageCurrentId)
    {
      var id := userCurrentId;
      userCurrentId := userCurrentId + 1;
      user := UserWithId(insertUser, id);
      OrderedInsert(users, id, user);
      users := users[id := user];
    }

    method GetPreference(id: int) returns (r: Option<Preference>)
      requires Valid()
      ensures r.Some? <==> 1 <= id < preferenceCurrentId
      ensures r.Some? ==> r.value == Preferences()[id - 1] && r.value.id == id
    {
      r := if id in preferences then Some(preferences[id]) else None;
    }

    method GetPreferencesByUserId(userId: int) returns (r: seq<Preference>)
      requires Valid()
      ensures r == PreferencesOf(Preferences(), userId)
    {
      r := PreferencesOf(Preferences(), userId);
    }

    /** Stores `insertPreference` under the next id and returns the new row. */
    method CreatePreference(insertPreference: InsertPreference) returns (preference: Preference)
      requires Valid()
      modifies this
      ensures Valid()
      ensures preference == PreferenceWithId(insertPreference, old(preferenceCurrentId))
      ensures preference.id !in old(preferences) && forall k :: k in old(preferences) ==> k < preference.id
      ensures preferenceCurrentId == old(preferenceCurrentId) + 1
      ensures preferences == old(preferences)[preference.id := preference]
      ensures Preferences() == old(Preferences()) + [preference]
      ensures users == old(users) && userCurrentId == old(userCurrentId)
      ensures travelPackages == old(travelPackages) && travelPackageCurrentId == old(travelPackageCurrentId)
    {
      var id := preferenceCurrentId;
      preferenceCurrentId := preferenceCurrentId + 1;
      preference := PreferenceWithId(insertPreference, id);
      OrderedInsert(preferences, id, preference);
      preferences := preferences[id := preference];
    }

    /** Merges `patch` into the stored preference `id`; an unknown id is an
        error and leaves the store as it was. */
    method UpdatePreference(id: int, patch: PreferencePatch) returns (r: Result<Preference, string>)
      requires Valid()
      modifies this
      ensures Valid()
      ensures r.Failure? <==> id !in old(preferences)
      ensures r.Failure? ==> r.error == NotFoundMessage(id) && preferences == old(preferences)
      ensures r.Success? ==> r.value == MergePreference(old(preferences)[id], patch)
      ensures r.Success? ==> preferences == old(preferences)[id := r.value]
      ensures r.Success? ==> Preferences() == old(Preferences())[id - 1 := r.value]
      ensures preferenceCurrentId == old(preferenceCurrentId)
      ensures users == old(users) && userCurrentId == old(userCurrentId)
      ensures travelPackages == old(travelPackages) && travelPackageCurrentId == old(travelPackageCurrentId)
    {
      var preference := GetPreference(id);
      if preference.None? {
        return Failure(NotFoundMessage(id));
      }
      var updated := MergePreference(preference.value, patch);
      OrderedOverwrite(preferences, preferenceCurrentId, id, updated);
      preferences := preferences[id := updated];
      r := Success(updated);
    }

    method GetTravelPackage(id: int) returns (r: Option<TravelPackage>)
      requires Valid()
      ensures r.Some? <==> 1 <= id < travelPackageCurrentId
      ensures r.Some? ==> r.value == TravelPackages()[id - 1] && r.value.id == id
    {
      r := if id in travelPackages then Some(travelPackages[id]) else None;
    }

    method GetTravelPackages() returns (r: seq<TravelPackage>)
      requires Valid()
      ensures r == TravelPackages()
    {
      r := TravelPackages();
    }

    method GetTravelPackagesByCategory(category: string) returns (r: seq<TravelPackage>)
      requires Valid()
      ensures r == PackagesInCategory(TravelPackages(), category)
    {
      r := PackagesInCategory(TravelPackages(), category);
    }

    /** Stores `insertTravelPackage` under the next id and returns the new row. */
    method CreateTravelPackage(insertTravelPackage: InsertTravelPackage) returns (travelPackage: TravelPackage)
      requires Valid()
      modifies this
      ensures Valid()
      ensures travelPackage == TravelPackageWithId(insertTravelPackage, old(travelPackageCurrentId))
      ensures travelPackageCurrentId == old(travelPackageCurrentId) + 1
      ensures travelPackages == old(travelPackages)[travelPackage.id := travelPackage]
      ensures TravelPackages() == old(TravelPackages()) + [travelPackage]
      ensures users == old(users) && userCurrentId == old(userCurrentId)
      ensures preferences == old(preferences) && preferenceCurrentId == old(preferenceCurrentId)
    {
      var id := travelPackageCurrentId;
      travelPackageCurrentId := travelPackageCurrentId + 1;
      travelPackage := TravelPackageWithId(insertTravelPackage, id);
      OrderedInsert(travelPackages, id, travelPackage);
      travelPackages := travelPackages[id := travelPackage];
    }
  }

  /** The rows the store creates for `inserts` when its counter starts at
      `first`. */
  function Rows(inserts: seq<InsertTravelPackage>, first: int): (r: seq<TravelPackage>)
    ensures |r| == |inserts|
    ensures forall i :: 0 <= i < |r| ==> r[i] == TravelPackageWithId(inserts[i], first + i)
  {
    seq(|inserts|, i requires 0 <= i < |inserts| => TravelPackageWithId(inserts[i], first + i))
  }

  lemma RowsAppend(inserts: seq<InsertTravelPackage>, x: InsertTravelPackage, first: int)
    ensures Rows(inserts + [x], first) == Rows(inserts, first) + [TravelPackageWithId(x, first + |inserts|)]
  {
    var a, b := Rows(inserts + [x], first), Rows(inserts, first) + [TravelPackageWithId(x, first + |inserts|)];
    assert |a| == |b|;
    forall i | 0 <= i < |a| ensures a[i] == b[i] {
    }
  }

  /** The row created for the `i`-th insert extends the rows created so far. */
  lemma RowsStep(before: seq<TravelPackage>, inserts: seq<InsertTravelPackage>, i: nat, first: int, row: TravelPackage)
    requires i < |inserts|
    requires row == TravelPackageWithId(inserts[i], first + i)
    ensures (before + Rows(inserts[..i], first)) + [row] == before + Rows(inserts[..i + 1], first)
  {
    assert inserts[..i + 1] == inserts[..i] + [inserts[i]];
    RowsAppend(inserts[..i], inserts[i], first);
    AppendAssociates(before, Rows(inserts[..i], first), row);
  }

  /** `(a + b) + [x] == a + (b + [x])`, stated once for any element type. */
  lemma AppendAssociates<T>(a: seq<T>, b: seq<T>, x: T)
    ensures (a + b) + [x] == a + (b + [x])
  {
  }

  /** `[] + b == b`, stated once for any element type. */
  lemma AppendEmpty<T>(a: seq<T>, b: seq<T>)
    requires a == []
    ensures a + b == b
  {
  }
}
