/**
 * The user record: its fields and schema limits, the weighted profile-completion
 * score, the completeness flag and the save hook that insists on a contact.
 * A field counts as present when its JavaScript value is truthy.
 */
module UserModel {
  import opened Wrappers
  import opened Strings

  /**
   * A contact field as stored: never set, set to null, or set to a string. The
   * difference between the first two matters only to the database's indexes.
   */
  datatype Slot = Unset | NullValue | Value(text: string)
  {
    predicate Truthy() { Value? && text != "" }
  }

  /** The profile fields of a user; `dateOfBirth` is a time in milliseconds when set. */
  datatype UserFields = UserFields(
    name: Option<string>,
    email: Slot,
    phone: Slot,
    address: Option<string>,
    dateOfBirth: Option<int>,
    role: Option<string>)

  const RoleNames: seq<string> := ["Reporter", "Developer", "QA"]
  const DefaultRole: string := "Reporter"

  /** A new document's fields: the role falls back to its default when none is given. */
  function WithDefaults(u: UserFields): (r: UserFields)
    ensures r.role.Some?
    ensures u.role.Some? ==> r == u
    ensures u.role.None? ==> r == u.(role := Some(DefaultRole))
  {
    if u.role.None? then u.(role := Some(DefaultRole)) else u
  }

  /** The fields the scores and listings look at, in the order the missing-field listing uses. */
  datatype Field = Name | Email | Phone | Address | DateOfBirth | Role
  {
    function Key(): string {
      match this
      case Name => "name"
      case Email => "email"
      case Phone => "phone"
      case Address => "address"
      case DateOfBirth => "dateOfBirth"
      case Role => "role"
    }

    function Position(): nat {
      match this
      case Name => 0
      case Email => 1
      case Phone => 2
      case Address => 3
      case DateOfBirth => 4
      case Role => 5
    }
  }

  /** `this[field]` is truthy. */
  predicate Present(u: UserFields, f: Field) {
    match f
    case Name => Truthy(u.name)
    case Email => u.email.Truthy()
    case Phone => u.phone.Truthy()
    case Address => Truthy(u.address)
    case DateOfBirth => u.dateOfBirth.Some?
    case Role => Truthy(u.role)
  }

  predicate HasContact(u: UserFields) {
    Present(u, Email) || Present(u, Phone)
  }

  /**
   * The completion points: three each for name and role, two for having an
   * email or a phone, one each for address and date of birth; ten in all.
   */
  function Points(u: UserFields): (p: nat)
    ensures p <= 10
  {
    (if Present(u, Name) then 3 else 0) + (if Present(u, Role) then 3 else 0)
    + (if HasContact(u) then 2 else 0)
    + (if Present(u, Address) then 1 else 0) + (if Present(u, DateOfBirth) then 1 else 0)
  }

  /** How many of `fields` are present. */
  function CountPresent(u: UserFields, fields: seq<Field>): (n: nat)
    ensures n <= |fields|
  {
    if fields == [] then 0
    else CountPresent(u, fields[..|fields| - 1]) + (if Present(u, fields[|fields| - 1]) then 1 else 0)
  }

  /**
   * The virtual profileCompletionPercentage: the points of the core fields, the
   * contact and the optional fields out of ten, as a percentage. The points are
   * whole, so the rounding in the source is exact.
   */
  method ProfileCompletionPercentage(u: UserFields) returns (percentage: int)
    ensures percentage == 10 * Points(u)
    ensures 0 <= percentage <= 100 && percentage % 10 == 0
  {
    var completed := 0;
    var coreFields := [Name, Role];
    for i := 0 to |coreFields|
      invariant completed == 3 * CountPresent(u, coreFields[..i])
    {
      assert coreFields[..i + 1][..i] == coreFields[..i];
      if Present(u, coreFields[i]) {
        completed := completed + 3;
      }
    }
    assert coreFields[..2] == coreFields;
    if HasContact(u) {
      completed := completed + 2;
    }
    ghost var afterContact := completed;
    var optionalFields := [Address, DateOfBirth];
    for i := 0 to |optionalFields|
      invariant completed == afterContact + CountPresent(u, optionalFields[..i])
    {
      assert optionalFields[..i + 1][..i] == optionalFields[..i];
      if Present(u, optionalFields[i]) {
        completed := completed + 1;
      }
    }
    assert optionalFields[..2] == optionalFields;
    CountPair(u, Name, Role);
    CountPair(u, Address, DateOfBirth);
    assert completed == Points(u);
    PercentOfTen(completed);
    percentage := completed * 100 / 10;
  }

  lemma CountPair(u: UserFields, f: Field, g: Field)
    ensures CountPresent(u, [f, g]) == (if Present(u, f) then 1 else 0) + (if Present(u, g) then 1 else 0)
  {
    assert [f, g][..1] == [f];
    assert [f][..0] == [];
  }

  /** Points out of ten as a percentage: a multiple of ten. */
  lemma PercentOfTen(points: int)
    ensures points * 100 / 10 == 10 * points && (10 * points) % 10 == 0
  {
  }

  /** checkProfileCompletion's verdict: name and role present, and an email or a phone. */
  predicate IsComplete(u: UserFields) {
    Present(u, Name) && Present(u, Role) && HasContact(u)
  }

  /**
   * The score and the verdict agree at the ends but not in between: a complete
   * profile scores at least 80, a full score means complete, but 80 can also be
   * reached without any contact.
   */
  lemma ScoreAndCompleteness(u: UserFields)
    ensures IsComplete(u) ==> Points(u) >= 8
    ensures Points(u) == 10 ==> IsComplete(u)
    ensures !IsComplete(u) ==> Points(u) <= 8
  {
  }

  /** A profile with every field but a contact: incomplete, yet scoring 80. */
  lemma EightyWithoutContact()
    ensures var u := UserFields(Some("Ada"), Unset, Unset, Some("1 Main St"), Some(0), Some(DefaultRole));
            !IsComplete(u) && Points(u) == 8
  {
  }

  /** getMissingFields's test: absent, falsy, or a string of white space only. */
  predicate IsMissing(u: UserFields, f: Field) {
    match f
    case Name => !Truthy(u.name) || IsBlank(Js, u.name.value)
    case Email => !u.email.Truthy() || IsBlank(Js, u.email.text)
    case Phone => !u.phone.Truthy() || IsBlank(Js, u.phone.text)
    case Address => !Truthy(u.address) || IsBlank(Js, u.address.value)
    case DateOfBirth => u.dateOfBirth.None?
    case Role => !Truthy(u.role) || IsBlank(Js, u.role.value)
  }

  const ListedFields: seq<Field> := [Name, Email, Phone, Address, DateOfBirth, Role]

  /**
   * getMissingFields: the keys of the missing fields among name, email, phone,
   * address, dateOfBirth and role, in that order.
   */
  method GetMissingFields(u: UserFields) returns (missing: seq<Field>)
    ensures forall f :: f in missing <==> IsMissing(u, f)
    ensures forall i, j :: 0 <= i < j < |missing| ==> missing[i].Position() < missing[j].Position()
  {
    missing := [];
    for k := 0 to |ListedFields|
      invariant forall f :: f in missing <==> f in ListedFields[..k] && IsMissing(u, f)
      invariant forall i, j :: 0 <= i < j < |missing| ==> missing[i].Position() < missing[j].Position()
      invariant forall i :: 0 <= i < |missing| ==> missing[i].Position() < k
    {
      assert ListedFields[k].Position() == k;
      assert ListedFields[..k + 1] == ListedFields[..k] + [ListedFields[k]];
      if IsMissing(u, ListedFields[k]) {
        missing := missing + [ListedFields[k]];
      }
    }
    assert ListedFields[..6] == ListedFields;
    forall f | true
      ensures f in ListedFields
    {
      assert ListedFields[f.Position()] == f;
    }
  }

  /**
   * What checkProfileCompletion's `hasRequiredFields && (this.email || this.phone)`
   * evaluates to: false when name or role is missing, otherwise the value of
   * the e-mail when it is truthy, else whatever the phone holds.
   */
  datatype Completion = Incomplete | Contact(slot: Slot)
  {
    predicate Truthy() { Contact? && slot.Truthy() }
  }

  function CompletionValue(u: UserFields): (c: Completion)
    ensures c.Truthy() <==> IsComplete(u)
    ensures c.Incomplete? <==> !(Present(u, Name) && Present(u, Role))
  {
    if Present(u, Name) && Present(u, Role) then Contact(if u.email.Truthy() then u.email else u.phone)
    else Incomplete
  }

  /** The strings Mongoose's Boolean cast turns into true, and into false. */
  const TrueStrings: seq<string> := ["true", "1", "yes"]
  const FalseStrings: seq<string> := ["false", "0", "no"]

  /**
   * Mongoose's cast of a value assigned to the Boolean path: false stays false,
   * null and undefined are stored as no value (None), the six strings above cast,
   * and any other string is a cast error.
   */
  function BooleanCast(c: Completion): Result<Option<bool>, string> {
    match c
    case Incomplete => Ok(Some(false))
    case Contact(Unset) => Ok(None)
    case Contact(NullValue) => Ok(None)
    case Contact(Value(t)) =>
      if t in TrueStrings then Ok(Some(true))
      else if t in FalseStrings then Ok(Some(false))
      else Err("Cast to Boolean failed for value \"" + t + "\" at path \"isProfileComplete\"")
  }

  /** `isComplete !== this.isProfileComplete`, with a stored None read as null. */
  predicate StrictlyEqual(c: Completion, flag: Option<bool>) {
    match c
    case Incomplete => flag == Some(false)
    case Contact(NullValue) => flag.None?
    case _ => false
  }

  /**
   * The stored flag after checkProfileCompletion: unchanged when the value is
   * strictly equal to it, otherwise the value as cast; a value that fails the
   * cast is not set and the flag keeps what it held.
   */
  function FlagAfter(prior: Option<bool>, c: Completion): Option<bool> {
    if StrictlyEqual(c, prior) then prior
    else match BooleanCast(c)
      case Ok(v) => v
      case Err(_) => prior
  }

  /**
   * What the flag holds after a check, case by case: false without name or
   * role; with them and a contact, true or false only for a contact spelled as
   * one of the castable strings, and otherwise what it held before; with them
   * but no contact, no value unless the phone is an empty string.
   */
  lemma FlagAfterMeaning(u: UserFields, prior: Option<bool>)
    ensures !(Present(u, Name) && Present(u, Role)) ==> FlagAfter(prior, CompletionValue(u)) == Some(false)
    ensures IsComplete(u) ==>
              var text := if u.email.Truthy() then u.email.text else u.phone.text;
              FlagAfter(prior, CompletionValue(u))
              == if text in TrueStrings then Some(true) else if text in FalseStrings then Some(false) else prior
    ensures Present(u, Name) && Present(u, Role) && !HasContact(u) ==>
              FlagAfter(prior, CompletionValue(u)) == if u.phone.Value? then prior else None
  {
    if Present(u, Name) && Present(u, Role) && !HasContact(u) && u.phone.Value? {
      assert u.phone.text == "";
      assert "" !in TrueStrings && "" !in FalseStrings;
    }
  }

  /** A second check changes nothing the first one set. */
  lemma FlagAfterIdempotent(prior: Option<bool>, c: Completion)
    ensures FlagAfter(FlagAfter(prior, c), c) == FlagAfter(prior, c)
  {
  }

  /** A stored user document; the flag is None when the path holds null or undefined. */
  class UserDocument {
    var fields: UserFields
    var isProfileComplete: Option<bool>

    /** `new User(data)`: schema defaults for the role and the completeness flag. */
    constructor (data: UserFields, isProfileComplete: Option<bool>)
      ensures fields == WithDefaults(data)
      ensures this.isProfileComplete == Some(isProfileComplete.GetOr(false))
    {
      fields := WithDefaults(data);
      this.isProfileComplete := Some(isProfileComplete.GetOr(false));
    }

    /**
     * checkProfileCompletion: evaluates the verdict (truthy exactly when the
     * profile is complete), assigns it to the flag when it differs, and returns it.
     */
    method CheckProfileCompletion() returns (isComplete: Completion)
      modifies this
      ensures isComplete == CompletionValue(fields)
      ensures isComplete.Truthy() <==> IsComplete(fields)
      ensures isProfileComplete == FlagAfter(old(isProfileComplete), isComplete) && fields == old(fields)
    {
      var hasRequiredFields := Present(fields, Name) && Present(fields, Role);
      var hasContactInfo := if fields.email.Truthy() then fields.email else fields.phone;
      isComplete := if hasRequiredFields then Contact(hasContactInfo) else Incomplete;
      if !StrictlyEqual(isComplete, isProfileComplete) {
        var cast := BooleanCast(isComplete);
        if cast.Ok? {
          isProfileComplete := cast.value;
        }
      }
    }

    /** The pre-save hook: refuses a user without email and phone, otherwise runs the check. */
    method PreSave() returns (outcome: Result<bool, string>)
      modifies this
      ensures fields == old(fields)
      ensures !HasContact(fields) ==> outcome == Err("Either email or phone must be provided")
                                      && isProfileComplete == old(isProfileComplete)
      ensures HasContact(fields) ==> outcome.Ok? && isProfileComplete == FlagAfter(old(isProfileComplete), CompletionValue(fields))
    {
      if !fields.email.Truthy() && !fields.phone.Truthy() {
        return Err("Either email or phone must be provided");
      }
      var _ := CheckProfileCompletion();
      outcome := Ok(true);
    }
  }

  /** Checking twice gives the same answer, and the second check leaves the flag as the first set it. */
  method CheckTwice(doc: UserDocument) returns (first: Completion, second: Completion)
    modifies doc
    ensures first == second && first.Truthy() == IsComplete(doc.fields)
    ensures doc.isProfileComplete == FlagAfter(old(doc.isProfileComplete), first)
  {
    first := doc.CheckProfileCompletion();
    second := doc.CheckProfileCompletion();
    FlagAfterIdempotent(old(doc.isProfileComplete), first);
  }
}
