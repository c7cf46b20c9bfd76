/** The Google verify callback: find the record by Google id, else link the Google
    account onto the record with the profile's first email, else create a record. */
module Passport {
  import opened Wrappers
  import opened Users

  /** The parts of a Google profile the callback reads. `emails` and `photos` may be empty,
      in which case reading their first entry throws; `name` may be absent, in which case
      reading its parts throws. */
  datatype GoogleProfile = GoogleProfile(
    id: string, name: Option<GoogleName>, emails: seq<string>, photos: seq<string>)

  datatype GoogleName = GoogleName(givenName: string, familyName: string)

  /** The record created for a new Google user; `password` is the random string the
      callback generates. */
  function NewGoogleUser(id: nat, p: GoogleProfile, password: string): User
    requires p.name.Some? && |p.emails| > 0 && |p.photos| > 0
  {
    User(id, Some(p.id), None, p.name.value.givenName, p.name.value.familyName, p.emails[0], PlaceholderPhone,
      None, None, None, Some(p.photos[0]), password, Verification(true, false, false, false), CitizenRole)
  }

  /** The record after linking: only the Google id and the avatar change. */
  function LinkGoogle(u: User, p: GoogleProfile): User
    requires |p.photos| > 0
  {
    u.(googleId := Some(p.id), avatar := Some(p.photos[0]))
  }

  /** What the callback does to the table and what it hands to `done`. The store calls in
      `fails` throw; a missing first email, name or photo throws where the callback reads it. */
  function GoogleResolve(users: seq<User>, nextId: nat, p: GoogleProfile, password: string, fails: set<StoreCall>): Resolution {
    if FirstLookup in fails then Failed(users, nextId, StoreFailure)
    else match FindOne(users, ByGoogleId(p.id))
      case Some(i) => Resolution(users, nextId, Ok(users[i]))
      case None => GoogleLinkOrCreate(users, nextId, p, password, fails)
  }

  /** The callback past a Google-id lookup that found nothing. */
  function GoogleLinkOrCreate(users: seq<User>, nextId: nat, p: GoogleProfile, password: string, fails: set<StoreCall>): Resolution {
    if |p.emails| == 0 then Failed(users, nextId, MalformedProfile)
    else if SecondLookup in fails then Failed(users, nextId, StoreFailure)
    else match FindOne(users, ByEmail(p.emails[0]))
      case Some(i) =>
        if |p.photos| == 0 then Failed(users, nextId, MalformedProfile)
        else if Write in fails then Failed(users, nextId, StoreFailure)
        else
          var linked := LinkGoogle(users[i], p);
          Resolution(users[i := linked], nextId, Ok(linked))
      case None =>
        if p.name.None? then Failed(users, nextId, MalformedProfile)
        else if |p.photos| == 0 then Failed(users, nextId, MalformedProfile)
        else if Write in fails then Failed(users, nextId, StoreFailure)
        else
          var u := NewGoogleUser(nextId, p, password);
          Resolution(users + [u], nextId + 1, Ok(u))
  }

  /** A record already linked to the Google id is returned and nothing is written. */
  lemma GoogleFastPath(users: seq<User>, nextId: nat, p: GoogleProfile, password: string, fails: set<StoreCall>, i: nat)
    requires FirstLookup !in fails
    requires i < |users| && users[i].googleId == Some(p.id)
    requires forall j :: 0 <= j < i ==> users[j].googleId != Some(p.id)
    ensures GoogleResolve(users, nextId, p, password, fails) == Resolution(users, nextId, Ok(users[i]))
  {
    var k := FindOne(users, ByGoogleId(p.id));
    assert k.Some?;
    assert !(k.value < i) && !(i < k.value);
  }

  /** With no record linked to the Google id and one with the profile's first email, that
      record gains the Google id and avatar and nothing else changes: no record is added,
      no other record is touched and the verification flags stay as they were. */
  lemma GoogleLinkPath(users: seq<User>, nextId: nat, p: GoogleProfile, password: string, fails: set<StoreCall>)
    requires fails == {}
    requires FindOne(users, ByGoogleId(p.id)).None?
    requires |p.emails| > 0 && |p.photos| > 0
    requires FindOne(users, ByEmail(p.emails[0])).Some?
    ensures var r := GoogleResolve(users, nextId, p, password, fails);
      var i := FindOne(users, ByEmail(p.emails[0])).value;
      && |r.users| == |users| && r.nextId == nextId
      && (forall j :: 0 <= j < |users| && j != i ==> r.users[j] == users[j])
      && r.users[i].googleId == Some(p.id) && r.users[i].avatar == Some(p.photos[0])
      && r.users[i] == users[i].(googleId := r.users[i].googleId, avatar := r.users[i].avatar)
      && r.users[i].verification == users[i].verification
      && r.result == Ok(r.users[i])
  {
  }

  /** With no record matching, exactly one record is appended: it carries the profile's
      Google id, first email and photo, the placeholder phone, the citizen role, a verified
      email and no other verified flag. */
  lemma GoogleCreatePath(users: seq<User>, nextId: nat, p: GoogleProfile, password: string, fails: set<StoreCall>)
    requires fails == {}
    requires FindOne(users, ByGoogleId(p.id)).None?
    requires p.name.Some? && |p.emails| > 0 && |p.photos| > 0
    requires FindOne(users, ByEmail(p.emails[0])).None?
    ensures var r := GoogleResolve(users, nextId, p, password, fails);
      && |r.users| == |users| + 1 && r.users[..|users|] == users && r.nextId == nextId + 1
      && var u := r.users[|users|];
      && r.result == Ok(u) && u.id == nextId
      && u == NewGoogleUser(nextId, p, password)
      && u.googleId == Some(p.id) && u.digiLockerId.None? && u.email == p.emails[0] && u.avatar == Some(p.photos[0])
      && u.firstName == p.name.value.givenName && u.lastName == p.name.value.familyName && u.password == password
      && u.aadhaar.None? && u.dateOfBirth.None? && u.gender.None?
      && u.phone == "0000000000" && u.role == "citizen"
      && u.verification == Verification(true, false, false, false)
  {
    var r := GoogleResolve(users, nextId, p, password, fails);
    assert r.users == users + [NewGoogleUser(nextId, p, password)];
  }

  /** A thrown error, from the store or from a profile without email, name or photo,
      reaches `done` as an error with no user, and the table is unchanged. A profile
      without a name can still sign in to a record it finds; only creation reads the name. */
  lemma GoogleErrorsWriteNothing(users: seq<User>, nextId: nat, p: GoogleProfile, password: string, fails: set<StoreCall>)
    ensures var r := GoogleResolve(users, nextId, p, password, fails);
      r.result.Err? ==> r.users == users && r.nextId == nextId
    ensures FindOne(users, ByGoogleId(p.id)).None? && |p.emails| == 0 && FirstLookup !in fails ==>
      GoogleResolve(users, nextId, p, password, fails) == Failed(users, nextId, MalformedProfile)
    ensures (&& FindOne(users, ByGoogleId(p.id)).None? && |p.emails| > 0 && FindOne(users, ByEmail(p.emails[0])).None?
             && FirstLookup !in fails && SecondLookup !in fails && p.name.None?) ==>
      GoogleResolve(users, nextId, p, password, fails) == Failed(users, nextId, MalformedProfile)
  {
  }

  /** Whatever happens, the user handed back carries the profile's Google id. */
  lemma GoogleResultIsLinked(users: seq<User>, nextId: nat, p: GoogleProfile, password: string, fails: set<StoreCall>)
    ensures var r := GoogleResolve(users, nextId, p, password, fails);
      r.result.Ok? ==> r.result.value.googleId == Some(p.id) && r.result.value in r.users
  {
    var r := GoogleResolve(users, nextId, p, password, fails);
    if r.result.Ok? {
      var g := FindOne(users, ByGoogleId(p.id));
      if g.Some? {
        assert r.users[g.value] == r.result.value;
      } else if FindOne(users, ByEmail(p.emails[0])).Some? {
        var i := FindOne(users, ByEmail(p.emails[0])).value;
        assert r.users[i] == r.result.value;
      } else {
        assert r.users[|users|] == r.result.value;
      }
    }
  }

  /** A resolution keeps the table well formed (ordered ids, no Google or DigiLocker id
      on two records), keeps every record at its place and never turns a flag off. */
  lemma GoogleKeepsTable(users: seq<User>, nextId: nat, p: GoogleProfile, password: string, fails: set<StoreCall>)
    requires WellFormed(users, nextId)
    ensures var r := GoogleResolve(users, nextId, p, password, fails);
      WellFormed(r.users, r.nextId) && KeepsRecords(users, r.users)
  {
    if FirstLookup in fails || FindOne(users, ByGoogleId(p.id)).Some? {
      assert GoogleResolve(users, nextId, p, password, fails).users == users;
      assert KeepsRecords(users, users);
    } else {
      GoogleLinkOrCreateKeepsTable(users, nextId, p, password, fails);
    }
  }

  lemma GoogleLinkOrCreateKeepsTable(users: seq<User>, nextId: nat, p: GoogleProfile, password: string, fails: set<StoreCall>)
    requires WellFormed(users, nextId)
    requires FindOne(users, ByGoogleId(p.id)).None?
    ensures var r := GoogleLinkOrCreate(users, nextId, p, password, fails);
      WellFormed(r.users, r.nextId) && KeepsRecords(users, r.users)
  {
    if |p.emails| == 0 || SecondLookup in fails || |p.photos| == 0 || Write in fails
      || (FindOne(users, ByEmail(p.emails[0])).None? && p.name.None?)
    {
      assert GoogleLinkOrCreate(users, nextId, p, password, fails).users == users;
      assert KeepsRecords(users, users);
    } else {
      var e := FindOne(users, ByEmail(p.emails[0]));
      assert forall j :: 0 <= j < |users| ==> !Matches(users[j], ByGoogleId(p.id));
      if e.Some? {
        var i := e.value;
        var v := LinkGoogle(users[i], p);
        ReplaceKeepsTable(users, nextId, i, v);
        assert GoogleLinkOrCreate(users, nextId, p, password, fails).users == users[i := v];
      } else {
        var v := NewGoogleUser(nextId, p, password);
        AppendKeepsTable(users, nextId, v);
        assert GoogleLinkOrCreate(users, nextId, p, password, fails) == Resolution(users + [v], nextId + 1, Ok(v));
      }
    }
  }

  /** Signing in again with the same profile, once the first sign-in succeeded, takes the
      fast path: the same record comes back and nothing is written. */
  lemma GoogleSecondSignIn(users: seq<User>, nextId: nat, p: GoogleProfile, password: string, password2: string, fails: set<StoreCall>)
    requires GoogleResolve(users, nextId, p, password, fails).result.Ok?
    ensures var r := GoogleResolve(users, nextId, p, password, fails);
      GoogleResolve(r.users, r.nextId, p, password2, {}) == Resolution(r.users, r.nextId, r.result)
  {
    var r := GoogleResolve(users, nextId, p, password, fails);
    var g := FindOne(users, ByGoogleId(p.id));
    if g.Some? {
      GoogleFastPath(users, nextId, p, password2, {}, g.value);
    } else {
      assert forall j :: 0 <= j < |users| ==> users[j].googleId != Some(p.id);
      var e := FindOne(users, ByEmail(p.emails[0]));
      if e.Some? {
        GoogleFastPath(r.users, r.nextId, p, password2, {}, e.value);
      } else {
        GoogleFastPath(r.users, r.nextId, p, password2, {}, |users|);
      }
    }
  }
}
