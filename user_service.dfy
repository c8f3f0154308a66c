/**
 * The user service over the user collection, which is modelled as a map from
 * document id to the stored fields and completeness flag. New ids are a
 * parameter. The unique sparse indexes on email and phone skip a user only
 * when the field is absent: an explicit null is a key like any other, so no
 * two users share a contact value, null included.
 */
module UserService {
  import opened Wrappers
  import opened Strings
  import opened UserModel

  datatype StoredUser = StoredUser(fields: UserFields, isProfileComplete: Option<bool>)

  /** The query of findOrCreateUser: by email when the identifier contains '@', by phone otherwise. */
  predicate Matches(u: StoredUser, identifier: string) {
    if '@' in identifier then u.fields.email == Value(identifier) else u.fields.phone == Value(identifier)
  }

  /** The fields of the user findOrCreateUser creates: a placeholder name and the identifier in exactly one contact field. */
  function NewUserData(identifier: string): (u: UserFields)
    ensures u.name == Some("New User")
    ensures '@' in identifier ==> u.email == Value(identifier) && u.phone == NullValue
    ensures '@' !in identifier ==> u.phone == Value(identifier) && u.email == NullValue
    ensures Matches(StoredUser(u, Some(false)), identifier)
  {
    var isEmail := '@' in identifier;
    UserFields(Some("New User"), if isEmail then Value(identifier) else NullValue,
               if isEmail then NullValue else Value(identifier), None, None, None)
  }

  /**
   * The flag a created user is saved with: the hook assigns the identifier
   * itself (name and role are present), which the Boolean cast accepts only for
   * "true", "1" and "yes" (true) and "false", "0" and "no" (false); any other
   * identifier leaves the false given at creation.
   */
  function NewUserFlag(identifier: string): (flag: Option<bool>)
    ensures flag == Some(identifier in TrueStrings)
    ensures '@' in identifier ==> flag == Some(false)
  {
    var u := WithDefaults(NewUserData(identifier));
    assert identifier != "" ==> CompletionValue(u) == Contact(Value(identifier));
    FlagAfter(Some(false), CompletionValue(u))
  }

  /** Two users collide in a unique index: the same email or the same phone, where that field is present (null counts). */
  predicate Collides(a: UserFields, b: UserFields) {
    || (a.email != Unset && a.email == b.email)
    || (a.phone != Unset && a.phone == b.phone)
  }

  const DuplicateKeyError: string := "E11000 duplicate key error"

  /**
   * Creating a second user from an e-mail address collides with any stored user
   * whose phone is null, and a second user from a phone with any whose email is
   * null, whatever their other contact.
   */
  lemma NewUserCollides(existing: UserFields, identifier: string)
    requires identifier != ""
    requires '@' in identifier ==> existing.email != Value(identifier)
    requires '@' !in identifier ==> existing.phone != Value(identifier)
    ensures Collides(existing, WithDefaults(NewUserData(identifier)))
            <==> if '@' in identifier then existing.phone == NullValue else existing.email == NullValue
  {
  }

  /** What `$set` with a profile update writes: the fields it names, the rest kept. */
  datatype ProfileUpdate = ProfileUpdate(
    name: Option<Option<string>>,
    address: Option<Option<string>>,
    dateOfBirth: Option<Option<int>>,
    role: Option<Option<string>>)

  function ApplyUpdate(u: UserFields, p: ProfileUpdate): (r: UserFields)
    ensures r.email == u.email && r.phone == u.phone
    ensures r.name == (if p.name.Some? then p.name.value else u.name)
    ensures r.role == (if p.role.Some? then p.role.value else u.role)
  {
    UserFields(
      if p.name.Some? then p.name.value else u.name,
      u.email, u.phone,
      if p.address.Some? then p.address.value else u.address,
      if p.dateOfBirth.Some? then p.dateOfBirth.value else u.dateOfBirth,
      if p.role.Some? then p.role.value else u.role)
  }

  /**
   * The update validators of the schema, run only on the paths being set: a
   * name that is set must be non-empty and at most 100 characters, an address
   * at most 500, a role one of the known roles.
   */
  predicate UpdateValid(p: ProfileUpdate) {
    && (p.name.Some? ==> p.name.value.Some? && p.name.value.value != "" && |p.name.value.value| <= 100)
    && (p.address.Some? && p.address.value.Some? ==> |p.address.value.value| <= 500)
    && (p.role.Some? && p.role.value.Some? ==> p.role.value.value in RoleNames)
  }

  /** What checkProfileCompletion reports about a stored user. */
  datatype CompletionReport = CompletionReport(isComplete: Option<bool>, completionPercentage: int, missingFields: seq<Field>)

  class UserDirectory {
    var users: map<string, StoredUser>

    /** The unique indexes: no two users share an email or a phone, null included. */
    ghost predicate Valid()
      reads this
    {
      forall a, b :: a in users && b in users && a != b ==> !Collides(users[a].fields, users[b].fields)
    }

    constructor ()
      ensures users == map[] && Valid()
    {
      users := map[];
    }

    /**
     * findOrCreateUser: the user the query finds, unchanged; otherwise a new user
     * saved under `newId`. Its save hook refuses an empty identifier and sets the
     * flag; the insert then fails on a duplicate key when another user holds
     * null in the contact field the new user leaves null.
     */
    method FindOrCreateUser(identifier: string, newId: string) returns (result: Result<(string, StoredUser), string>)
      requires Valid() && newId !in users
      modifies this
      ensures Valid()
      ensures forall id :: id in old(users) && Matches(old(users)[id], identifier) ==>
                result == Ok((id, old(users)[id])) && users == old(users)
      ensures (forall id :: id in old(users) ==> !Matches(old(users)[id], identifier)) ==>
                if identifier == "" then
                  result == Err("Either email or phone must be provided") && users == old(users)
                else
                  var created := StoredUser(WithDefaults(NewUserData(identifier)), NewUserFlag(identifier));
                  if exists id :: id in old(users) && Collides(old(users)[id].fields, created.fields) then
                    result == Err(DuplicateKeyError) && users == old(users)
                  else
                    result == Ok((newId, created)) && users == old(users)[newId := created]
    {
      if id :| id in users && Matches(users[id], identifier) {
        return Ok((id, users[id]));
      }
      var doc := new UserDocument(NewUserData(identifier), Some(false));
      var saved := doc.PreSave();
      if saved.Err? {
        return Err(saved.error);
      }
      var created := StoredUser(doc.fields, doc.isProfileComplete);
      if id :| id in users && Collides(users[id].fields, created.fields) {
        return Err(DuplicateKeyError);
      }
      users := users[newId := created];
      result := Ok((newId, created));
    }

    /**
     * updateUserProfile: sets the given fields of an existing user. The save hook
     * does not run, so the completeness flag is left as it was.
     */
    method UpdateUserProfile(userId: string, update: ProfileUpdate) returns (result: Result<StoredUser, string>)
      requires Valid()
      modifies this
      ensures Valid()
      ensures !UpdateValid(update) ==> result == Err("Validation failed") && users == old(users)
      ensures UpdateValid(update) && userId !in old(users) ==> result == Err("User not found") && users == old(users)
      ensures UpdateValid(update) && userId in old(users) ==>
                var updated := old(users)[userId].(fields := ApplyUpdate(old(users)[userId].fields, update));
                result == Ok(updated) && users == old(users)[userId := updated]
    {
      if !UpdateValid(update) {
        return Err("Validation failed");
      }
      if userId !in users {
        return Err("User not found");
      }
      var updated := users[userId].(fields := ApplyUpdate(users[userId].fields, update));
      users := users[userId := updated];
      result := Ok(updated);
    }

    /** checkProfileCompletion: the stored flag, the score and the missing fields of an existing user. */
    method CheckProfileCompletion(userId: string) returns (result: Result<CompletionReport, string>)
      ensures userId !in users ==> result == Err("User not found")
      ensures userId in users ==>
                && result.Ok?
                && result.value.isComplete == users[userId].isProfileComplete
                && result.value.completionPercentage == 10 * Points(users[userId].fields)
                && (forall f :: f in result.value.missingFields <==> IsMissing(users[userId].fields, f))
                && (forall i, j :: 0 <= i < j < |result.value.missingFields| ==>
                      result.value.missingFields[i].Position() < result.value.missingFields[j].Position())
    {
      if userId !in users {
        return Err("User not found");
      }
      var user := users[userId];
      var percentage := ProfileCompletionPercentage(user.fields);
      var missing := GetMissingFields(user.fields);
      result := Ok(CompletionReport(user.isProfileComplete, percentage, missing));
    }
  }

  /** Asking for the same identifier twice gives the same user and creates it only once. */
  method FindTwice(directory: UserDirectory, identifier: string, newId: string, otherId: string)
    returns (first: Result<(string, StoredUser), string>, second: Result<(string, StoredUser), string>)
    requires directory.Valid() && newId !in directory.users && otherId !in directory.users && newId != otherId
    modifies directory
    ensures first.Ok? ==> second == first && Matches(first.value.1, identifier)
  {
    first := directory.FindOrCreateUser(identifier, newId);
    second := first;
    if first.Ok? {
      assert first.value.0 in directory.users && directory.users[first.value.0] == first.value.1;
      assert Matches(first.value.1, identifier);
      second := directory.FindOrCreateUser(identifier, otherId);
    }
  }
}
