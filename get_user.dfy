/**
 * The user lookup service (src/modules/users/getUser.service.ts): its validation rules, and
 * `execute`, which finds the user by e-mail or id, drops the password and normalises what the
 * repository throws.
 */
module GetUser {
  import opened Js
  import opened Strings
  import opened Collaborators
  import opened Operation

  predicate IsHex(c: char) {
    '0' <= c <= '9' || 'a' <= c <= 'f' || 'A' <= c <= 'F'
  }

  /** The positions of the dashes in the 8-4-4-4-12 layout of a UUID. */
  predicate IsDashPosition(i: int) {
    i == 8 || i == 13 || i == 18 || i == 23
  }

  /** A UUID: 36 characters, hexadecimal digits in groups of 8, 4, 4, 4 and 12 separated by dashes. */
  predicate IsUuid(s: string) {
    |s| == 36 && forall i :: 0 <= i < |s| ==> if IsDashPosition(i) then s[i] == '-' else IsHex(s[i])
  }

  /** `userId: z.string().uuid()` */
  predicate UserIdValid(v: Value) {
    v.Str? && IsUuid(v.s)
  }

  /**
   * `email: z.string().min(3).optional()`: absent (undefined) or a string whose JavaScript length,
   * in UTF-16 code units, is at least 3.
   */
  predicate EmailValid(v: Value) {
    v.Undefined? || (v.Str? && Utf16Length(v.s) >= 3)
  }

  /** Two characters outside the Basic Multilingual Plane are four code units: a valid e-mail length. */
  lemma TwoAstralCharactersAreLongEnough()
    ensures EmailValid(Str("\U{1F600}\U{1F600}"))
    ensures !EmailValid(Str("ab"))
  {
    assert Utf16Length("\U{1F600}\U{1F600}") == 2 + Utf16Length("\U{1F600}");
  }

  /** The names of the fields that fail their rule, in schema order. */
  function FailingFields(input: Value): (r: seq<string>)
    ensures r == [] <==> UserIdValid(Prop(input, "userId")) && EmailValid(Prop(input, "email"))
  {
    (if UserIdValid(Prop(input, "userId")) then [] else ["userId"])
    + (if EmailValid(Prop(input, "email")) then [] else ["email"])
  }

  /** The fields separated by ", ". */
  function JoinFields(fields: seq<string>): string
    decreases |fields|
  {
    if fields == [] then "" else if |fields| == 1 then fields[0] else fields[0] + ", " + JoinFields(fields[1..])
  }

  /**
   * `GetUser.validationRules.safeParse(input)`: an object whose `userId` is a UUID and whose
   * `email`, when present, is at least 3 UTF-16 code units long. The parsed data keeps only these
   * two keys (`email` only when present); anything else fails, naming the failing fields.
   */
  function Rules(input: Value): (r: Parse)
    ensures r.Parsed? <==> input.Obj? && UserIdValid(Prop(input, "userId")) && EmailValid(Prop(input, "email"))
    ensures r.Parsed? ==>
      && r.data.Obj? && r.data.fields.Keys <= {"userId", "email"}
      && Prop(r.data, "userId") == Prop(input, "userId") && Prop(r.data, "email") == Prop(input, "email")
  {
    if !input.Obj? then Invalid(Arr([Str("userId")]), "Expected object")
    else
      var failing := FailingFields(input);
      if failing != [] then Invalid(Arr(seq(|failing|, i requires 0 <= i < |failing| => Str(failing[i]))), JoinFields(failing))
      else
        var email := Prop(input, "email");
        var kept := map["userId" := Prop(input, "userId")];
        Parsed(Obj(if email.Undefined? then kept else kept["email" := email]))
  }

  /** Valid input always names a user: the parsed `userId` is a non-empty string. */
  lemma ParsedUserIdIsTruthy(input: Value)
    requires Rules(input).Parsed?
    ensures Truthy(Prop(Rules(input).data, "userId"))
  {
  }

  /** The lookup key: the e-mail when it is truthy, the user id otherwise. */
  function LookupKey(params: Value): Value {
    var email := Prop(params, "email");
    if Truthy(email) then email else Prop(params, "userId")
  }

  /**
   * What `execute` receives for valid input looks the user up by the given e-mail, and otherwise by
   * the UUID, whatever user `run` merged in.
   */
  lemma LookupKeyOfValidInput(input: Value, user: Value)
    requires Rules(input).Parsed?
    ensures var key := LookupKey(Merge(Rules(input).data, user));
      && (Prop(input, "email").Str? ==> key == Prop(input, "email"))
      && (Prop(input, "email").Undefined? ==> key == Prop(input, "userId") && key.Str? && IsUuid(key.s))
  {
    var data := Rules(input).data;
    var merged := Merge(data, user);
    assert Prop(merged, "email") == Prop(data, "email");
    assert Prop(merged, "userId") == Prop(data, "userId");
  }

  const Password := "password"

  /** `_.omit(user, ['password'])`: an object without the `password` key; a non-object gives `{}`. */
  function OmitPassword(user: Value): (r: Value)
    ensures r.Obj? && Password !in r.fields
    ensures user.Obj? ==> forall k :: k in user.fields && k != Password ==> k in r.fields && r.fields[k] == user.fields[k]
    ensures user.Obj? ==> r.fields.Keys == user.fields.Keys - {Password}
    ensures !user.Obj? ==> r.fields == map[]
  {
    if user.Obj? then Obj(user.fields - {Password}) else Obj(map[])
  }

  const Unexpected := "An unexpected error occurred"

  /** The catch clause of `execute`: every thrown value becomes a plain Error. */
  function Normalize(error: Thrown): (r: Thrown)
    ensures r.Error? && r.name == "Error" && r.status == 0
    ensures error.Text? ==> r.message == error.text
    ensures IsErrorInstance(error) ==> r.message == MessageOf(error).value
    ensures !error.Text? && !IsErrorInstance(error) ==> r.message == Unexpected
  {
    if error.Text? then NewError(error.text)
    else if IsErrorInstance(error) then NewError(MessageOf(error).value)
    else NewError(Unexpected)
  }

  /** `GetUser.execute(validatedUserData)` over the users repository. */
  function Execute(users: Users, params: Value): Completion<Value> {
    match FindById(users, LookupKey(params))
    case Normal(user) => Normal(OmitPassword(user))
    case Throw(e) => Throw(Normalize(e))
  }

  /**
   * For valid input, `execute` answers exactly when the repository finds the record under the
   * e-mail (or, without one, the UUID): with every field of that record but the password; and
   * when the repository throws, with a plain Error of status 0 that keeps a thrown string.
   */
  lemma ExecuteOnValidInput(users: Users, input: Value, user: Value)
    requires Rules(input).Parsed?
    ensures var email := Prop(input, "email");
      var found := FindById(users, if email.Str? then email else Prop(input, "userId"));
      var r := Execute(users, Merge(Rules(input).data, user));
      && (r.Normal? <==> found.Normal?)
      && (r.Normal? && found.value.Obj? ==>
            r.value.Obj? && r.value.fields.Keys == found.value.fields.Keys - {Password}
            && forall k :: k in r.value.fields ==> r.value.fields[k] == found.value.fields[k])
      && (r.Throw? ==> r.thrown.Error? && r.thrown.name == "Error" && r.thrown.status == 0)
      && (r.Throw? && found.thrown.Text? ==> r.thrown.message == found.thrown.text)
  {
    LookupKeyOfValidInput(input, user);
  }

  /**
   * GetUser's `validate`: never the missing-rules string; no error exactly for an object with a
   * UUID `userId` and an absent `email` or one of at least 3 code units, whose two values the data
   * carries; and
   * otherwise a schema error with no data, naming the failing fields of an object.
   */
  lemma ValidateGetUser(users: Users, input: Value)
    ensures var v := Validate(Decl(users), input);
      && !v.error.Message?
      && (v.error.NoError? <==> input.Obj? && UserIdValid(Prop(input, "userId")) && EmailValid(Prop(input, "email")))
      && (v.error.NoError? ==> Prop(v.data, "userId") == Prop(input, "userId") && Prop(v.data, "email") == Prop(input, "email"))
      && (v.error.Schema? ==> v.data == Undefined)
      && (v.error.Schema? && input.Obj? ==> v.error.message == JoinFields(FailingFields(input)))
  {
  }

  /** Whatever the repository holds, a returned record never carries a password. */
  lemma NoPasswordReturned(users: Users, params: Value)
    requires Execute(users, params).Normal?
    ensures Execute(users, params).value.Obj? && Password !in Execute(users, params).value.fields
  {
  }

  /** Errors thrown by `execute` keep only their message: a repository error's status is dropped. */
  lemma ThrownStatusIsDropped(users: Users, params: Value)
    requires Execute(users, params).Throw?
    ensures StatusOf(Execute(users, params).thrown) == 0
    ensures var e := FindById(users, LookupKey(params)).thrown;
      IsErrorInstance(e) ==> Execute(users, params).thrown == Error("Error", MessageOf(e).value, 0)
  {
  }

  /**
   * The GetUser operation: no rate limits, no transaction, the rules above, and the instance's own
   * properties in declaration order: the memory store and users repository from the base class,
   * then its own users repository.
   */
  function Decl(users: Users): (d: OpDecl)
    ensures d.validationRules == Some(Rules) && d.rateLimiters == [] && !d.useTransaction
    ensures forall p :: d.execute(p) == Execute(users, p)
  {
    OpDecl([], false, Some(Rules), p => Execute(users, p), [
      Property("_memoryStorage", MemoryStorage),
      Property("_usersRepo", Repository("users")),
      Property("_usersRepository", Repository("users"))])
  }

  /** Both injected users repositories are rebound when a transaction is shared. */
  lemma BothRepositoriesRebound(users: Users)
    ensures Repositories(Decl(users).props) == [Property("_usersRepo", Repository("users")), Property("_usersRepository", Repository("users"))]
  {
    var props := Decl(users).props;
    assert props[..2][..1] == props[..1];
    assert props[..1][..0] == [];
    assert props[..|props| - 1] == props[..2];
  }

  /**
   * A valid request always goes through the user cache; when the user is cached, the repository
   * is consulted only by `execute`, with the e-mail or the id.
   */
  lemma {:induction false} RunWithCachedUser(users: Users, params: Value, store: map<Value, Value>)
    requires Rules(params).Parsed?
    requires Truthy(Lookup(store, Prop(params, "userId")))
    ensures var o := RunSpec(Decl(users), params, store, users);
      var merged := Merge(Rules(params).data, Lookup(store, Prop(params, "userId")));
      && o.events == [StoreGet(Prop(params, "userId")), Collaborators.Execute(merged)]
      && o.store == store
      && o.result == Execute(users, merged)
      && LookupKey(merged) == (if Truthy(Prop(params, "email")) then Prop(params, "email") else Prop(params, "userId"))
  {
    var d := Decl(users);
    var data := Rules(params).data;
    assert Validate(d, params) == ValidationResult(data, NoError);
    ParsedUserIdIsTruthy(params);
    var merged := Merge(data, Lookup(store, Prop(params, "userId")));
    assert Prop(merged, "email") == Prop(data, "email");
    assert Prop(merged, "userId") == Prop(data, "userId");
  }
}
