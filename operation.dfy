/**
 * The operation lifecycle (src/common/operation.ts): the repositories an operation holds,
 * validation against its rules, and `run`, which validates, resolves the acting user through the
 * memory store and the users repository, and hands the validated data to `execute`.
 */
module Operation {
  import opened Js
  import opened Strings
  import opened Collaborators

  /** What an injected property of an operation holds. */
  datatype Dependency = Repository(table: string) | MemoryStorage | OtherDependency

  /** An own property of an operation instance, in the order the instance defines them. */
  datatype Property = Property(name: string, dependency: Dependency)

  /** What the validation schema's `safeParse` yields: the parsed data, or a schema error. */
  datatype Parse = Parsed(data: Value) | Invalid(formatted: Value, message: string)

  /** The `error` part of `validate`'s answer. */
  datatype ValidationError = NoError | Message(text: string) | Schema(formatted: Value, message: string)

  /** `validate`'s answer `{ data, error }`. */
  datatype ValidationResult = ValidationResult(data: Value, error: ValidationError)

  /**
   * An operation class: its static `rateLimiters`, `useTransaction` and `validationRules`, its
   * `execute` (the outcome for given parameters) and the own properties of an instance.
   */
  datatype OpDecl = OpDecl(
    rateLimiters: seq<Policy>,
    useTransaction: bool,
    validationRules: Option<Value -> Parse>,
    execute: Value -> Completion<Value>,
    props: seq<Property>)

  const MissingRules := "\"validationRules\" property are missing in the service definition"
  const InvalidUser := "JWT_TOKEN_HAS_INVALID_USER"

  /** A property held by `getRepositories`: an instance of a repository. */
  predicate IsRepository(p: Property) {
    p.dependency.Repository?
  }

  /** The repository properties of `props`, in order. */
  function Repositories(props: seq<Property>): (r: seq<Property>)
    ensures |r| <= |props|
    ensures forall p :: p in r <==> p in props && IsRepository(p)
    decreases |props|
  {
    if props == [] then []
    else
      var rest := Repositories(props[..|props| - 1]);
      assert props == props[..|props| - 1] + [props[|props| - 1]];
      if IsRepository(props[|props| - 1]) then rest + [props[|props| - 1]] else rest
  }

  /** `xs` occurs in `ys` in order, possibly with other elements between. */
  predicate Subsequence(xs: seq<Property>, ys: seq<Property>)
    decreases |ys|
  {
    if xs == [] then true
    else if ys == [] then false
    else if xs[|xs| - 1] == ys[|ys| - 1] then Subsequence(xs[..|xs| - 1], ys[..|ys| - 1])
    else Subsequence(xs, ys[..|ys| - 1])
  }

  /** The repositories keep the order of the properties. */
  lemma {:induction false} RepositoriesInOrder(props: seq<Property>)
    ensures Subsequence(Repositories(props), props)
    decreases |props|
  {
    if props != [] {
      var init, last := props[..|props| - 1], props[|props| - 1];
      RepositoriesInOrder(init);
      var r := Repositories(props);
      if IsRepository(last) {
        assert r[..|r| - 1] == Repositories(init);
      }
    }
  }

  /** Each repository instance is held as often as the properties hold it; nothing else is held. */
  lemma {:induction false} RepositoriesCount(props: seq<Property>, p: Property)
    ensures multiset(Repositories(props))[p] == if IsRepository(p) then multiset(props)[p] else 0
    decreases |props|
  {
    if props != [] {
      var init, last := props[..|props| - 1], props[|props| - 1];
      assert props == init + [last];
      RepositoriesCount(init, p);
    }
  }

  /** `getRepositories()`: collects, in property order, the properties that are repositories. */
  method GetRepositories(props: seq<Property>) returns (repositories: seq<Property>)
    ensures repositories == Repositories(props)
  {
    repositories := [];
    var i := 0;
    while i < |props|
      invariant 0 <= i <= |props|
      invariant repositories == Repositories(props[..i])
    {
      assert props[..i + 1][..i] == props[..i];
      if IsRepository(props[i]) {
        repositories := repositories + [props[i]];
      }
      i := i + 1;
    }
    assert props[..i] == props;
  }

  /** `validate(params)`: the schema's verdict, or the missing-rules message when the class declares none. */
  function Validate(decl: OpDecl, params: Value): ValidationResult {
    match decl.validationRules
    case None => ValidationResult(Null, Message(MissingRules))
    case Some(rules) =>
      match rules(params)
      case Parsed(d) => ValidationResult(d, NoError)
      case Invalid(f, m) => ValidationResult(Undefined, Schema(f, m))
  }

  /**
   * The own enumerable properties object spread copies out of a value: an object's fields, an
   * array's elements and a string's characters under their decimal indices, and nothing from
   * `undefined`, `null`, a boolean or a number.
   */
  function Spread(v: Value): (m: map<string, Value>)
    ensures v.Obj? ==> m == v.fields
    ensures !v.Obj? ==> "user" !in m
  {
    match v
    case Obj(fields) => fields
    case Arr(items) => Indexed(items)
    case Str(s) => Indexed(seq(|s|, i requires 0 <= i < |s| => Str([s[i]])))
    case _ => map[]
  }

  /** The entries of an array-like value, keyed by their decimal indices. */
  function Indexed(items: seq<Value>): (m: map<string, Value>)
    ensures m.Keys == (set i | 0 <= i < |items| :: IntToString(i))
    ensures forall i :: 0 <= i < |items| ==> IntToString(i) in m && m[IntToString(i)] == items[i]
    ensures "user" !in m
  {
    IndexKeysDistinct();
    IndexKeysAreNotUser();
    map i | 0 <= i < |items| :: IntToString(i) := items[i]
  }

  /** No decimal index is the key `user`. */
  lemma IndexKeysAreNotUser()
    ensures forall i :: 0 <= i ==> IntToString(i) != "user"
  {
    forall i | 0 <= i ensures IntToString(i) != "user" {
      IndexKeyStartsWithDigit(i);
    }
  }

  /** `{ ...validated, user }`: what `validated` spreads, with `user` set last. */
  function Merge(validated: Value, user: Value): (r: Value)
    ensures r.Obj? && "user" in r.fields && r.fields["user"] == user
    ensures validated.Obj? ==> forall k :: k in validated.fields && k != "user" ==> k in r.fields && r.fields[k] == validated.fields[k]
    ensures validated.Obj? ==> r.fields.Keys == validated.fields.Keys + {"user"}
  {
    Obj(Spread(validated)["user" := user])
  }

  /**
   * Spreading a value that is not an object: an array contributes its elements and a string its
   * characters, each under its decimal index; any other value contributes nothing.
   */
  lemma MergeSpreadsIndices(validated: Value, user: Value)
    ensures var r := Merge(validated, user);
      validated.Arr? ==>
        && r.fields.Keys == (set i | 0 <= i < |validated.items| :: IntToString(i)) + {"user"}
        && forall i :: 0 <= i < |validated.items| ==> r.fields[IntToString(i)] == validated.items[i]
    ensures var r := Merge(validated, user);
      validated.Str? ==>
        && r.fields.Keys == (set i | 0 <= i < |validated.s| :: IntToString(i)) + {"user"}
        && forall i :: 0 <= i < |validated.s| ==> r.fields[IntToString(i)] == Str([validated.s[i]])
    ensures !(validated.Obj? || validated.Arr? || validated.Str?) ==> Merge(validated, user).fields.Keys == {"user"}
  {
    IndexKeysAreNotUser();
  }

  /** What `run` leaves behind: the memory store, the calls it made, and its outcome. */
  datatype RunOutcome = RunOutcome(store: map<Value, Value>, events: seq<Event>, result: Completion<Value>)

  /** `execute({ ...validated, user })`, as the last call of `run`. */
  function Delegate(decl: OpDecl, store: map<Value, Value>, events: seq<Event>, validated: Value, user: Value): RunOutcome {
    var params := Merge(validated, user);
    RunOutcome(store, events + [Execute(params)], decl.execute(params))
  }

  /**
   * `run(params)`: a missing-rules message is thrown as an Error and a schema error as it is;
   * otherwise a truthy `userId` is looked up in the memory store and, on a miss, in the users
   * repository, whose find is written back to the store; no user found throws.
   */
  function RunSpec(decl: OpDecl, params: Value, store: map<Value, Value>, users: Users): RunOutcome {
    var v := Validate(decl, params);
    match v.error
    case Message(m) => RunOutcome(store, [], Throw(NewError(m)))
    case Schema(f, m) => RunOutcome(store, [], Throw(ZodError(f, m)))
    case NoError =>
      var userId := Prop(v.data, "userId");
      if !Truthy(userId) then Delegate(decl, store, [], v.data, Null)
      else
        var cached := Lookup(store, userId);
        if Truthy(cached) then Delegate(decl, store, [StoreGet(userId)], v.data, cached)
        else
          match FindById(users, userId)
          case Throw(e) => RunOutcome(store, [StoreGet(userId), RepoFind(userId)], Throw(e))
          case Normal(found) =>
            if Truthy(found) then
              Delegate(decl, store[userId := found], [StoreGet(userId), RepoFind(userId), StoreSet(userId, found)], v.data, found)
            else RunOutcome(store, [StoreGet(userId), RepoFind(userId)], Throw(NewError(InvalidUser)))
  }

  /** `run` on the memory store of the runtime; every collaborator call is logged. */
  method Run(rt: Runtime, decl: OpDecl, users: Users, params: Value) returns (r: Completion<Value>)
    modifies rt
    ensures var o := RunSpec(decl, params, old(rt.store), users);
      && r == o.result
      && rt.Snapshot() == old(rt.Snapshot()).(store := o.store)
      && rt.log == old(rt.log) + o.events
  {
    var v := Validate(decl, params);
    if v.error.Message? {
      return Throw(NewError(v.error.text));
    } else if v.error.Schema? {
      return Throw(ZodError(v.error.formatted, v.error.message));
    }
    var userId := Prop(v.data, "userId");
    var user := Null;
    if Truthy(userId) {
      user := rt.GetValue(userId);
      if !Truthy(user) {
        var found := rt.FindUser(users, userId);
        if found.Throw? {
          return Throw(found.thrown);
        }
        user := found.value;
        if Truthy(user) {
          rt.SetValue(userId, user);
        } else {
          return Throw(NewError(InvalidUser));
        }
      }
    }
    r := rt.CallExecute(decl.execute, Merge(v.data, user));
  }

  /** The outcome calls `execute` at most once, and then as its last call. */
  predicate ExecutesLastOnly(events: seq<Event>) {
    forall i :: 0 <= i < |events| && events[i].Execute? ==> i == |events| - 1
  }

  /** `run` never touches the limiters or transactions, calls `execute` at most once and last, and writes only the acting user to the store. */
  lemma RunFootprint(decl: OpDecl, params: Value, store: map<Value, Value>, users: Users)
    ensures var o := RunSpec(decl, params, store, users);
      && ExecutesLastOnly(o.events)
      && (o.result.Normal? ==> |o.events| > 0 && o.events[|o.events| - 1].Execute?)
      && (forall e :: e in o.events ==> e.StoreGet? || e.StoreSet? || e.RepoFind? || e.Execute?)
      && (forall k :: k in store && k != Prop(Validate(decl, params).data, "userId") ==> k in o.store && o.store[k] == store[k])
      && (o.store.Keys <= store.Keys + {Prop(Validate(decl, params).data, "userId")})
  {
  }

  /** Without validation rules, `run` throws an Error carrying the missing-rules message and makes no call. */
  lemma MissingRulesThrow(decl: OpDecl, params: Value, store: map<Value, Value>, users: Users)
    requires decl.validationRules.None?
    ensures RunSpec(decl, params, store, users) == RunOutcome(store, [], Throw(Error("Error", MissingRules, 0)))
  {
  }

  /** A schema error is thrown unchanged and nothing is called. */
  lemma SchemaErrorRethrown(decl: OpDecl, params: Value, store: map<Value, Value>, users: Users)
    requires decl.validationRules.Some? && decl.validationRules.value(params).Invalid?
    ensures var p := decl.validationRules.value(params);
      RunSpec(decl, params, store, users) == RunOutcome(store, [], Throw(ZodError(p.formatted, p.message)))
  {
  }

  /** Without a user id, neither the store nor the repository is consulted and `execute` gets `user = null`. */
  lemma NoUserIdGoesStraightToExecute(decl: OpDecl, params: Value, store: map<Value, Value>, users: Users)
    requires decl.validationRules.Some? && decl.validationRules.value(params).Parsed?
    requires !Truthy(Prop(decl.validationRules.value(params).data, "userId"))
    ensures var d := decl.validationRules.value(params).data;
      RunSpec(decl, params, store, users) == RunOutcome(store, [Execute(Merge(d, Null))], decl.execute(Merge(d, Null)))
  {
  }

  /** A cached user is used as it is: the repository is not consulted and nothing is written. */
  lemma CacheHit(decl: OpDecl, params: Value, store: map<Value, Value>, users: Users)
    requires decl.validationRules.Some? && decl.validationRules.value(params).Parsed?
    requires var id := Prop(decl.validationRules.value(params).data, "userId");
      Truthy(id) && Truthy(Lookup(store, id))
    ensures var d := decl.validationRules.value(params).data;
      var id := Prop(d, "userId");
      var user := Lookup(store, id);
      RunSpec(decl, params, store, users) == RunOutcome(store, [StoreGet(id), Execute(Merge(d, user))], decl.execute(Merge(d, user)))
  {
  }

  /** On a miss, a user the repository finds is written back before `execute` receives it. */
  lemma CacheMissWriteBack(decl: OpDecl, params: Value, store: map<Value, Value>, users: Users)
    requires decl.validationRules.Some? && decl.validationRules.value(params).Parsed?
    requires var id := Prop(decl.validationRules.value(params).data, "userId");
      && Truthy(id) && !Truthy(Lookup(store, id))
      && FindById(users, id).Normal? && Truthy(FindById(users, id).value)
    ensures var d := decl.validationRules.value(params).data;
      var id := Prop(d, "userId");
      var user := FindById(users, id).value;
      var o := RunSpec(decl, params, store, users);
      && o.events == [StoreGet(id), RepoFind(id), StoreSet(id, user), Execute(Merge(d, user))]
      && o.store == store[id := user] && Truthy(Lookup(o.store, id))
      && o.result == decl.execute(Merge(d, user))
  {
  }

  /** When neither the store nor the repository knows the user, `run` throws and never calls `execute`. */
  lemma UnknownUserThrows(decl: OpDecl, params: Value, store: map<Value, Value>, users: Users)
    requires decl.validationRules.Some? && decl.validationRules.value(params).Parsed?
    requires var id := Prop(decl.validationRules.value(params).data, "userId");
      Truthy(id) && !Truthy(Lookup(store, id)) && FindById(users, id).Normal? && !Truthy(FindById(users, id).value)
    ensures var id := Prop(decl.validationRules.value(params).data, "userId");
      RunSpec(decl, params, store, users) == RunOutcome(store, [StoreGet(id), RepoFind(id)], Throw(NewError(InvalidUser)))
  {
  }

  /** `execute` is called exactly when validation passes and a user, if one is named, is found. */
  lemma ExecuteCalledIff(decl: OpDecl, params: Value, store: map<Value, Value>, users: Users)
    ensures var o := RunSpec(decl, params, store, users);
      var v := Validate(decl, params);
      var id := Prop(v.data, "userId");
      (exists i :: 0 <= i < |o.events| && o.events[i].Execute?) <==>
        && v.error.NoError?
        && (Truthy(id) ==> Truthy(Lookup(store, id)) || (FindById(users, id).Normal? && Truthy(FindById(users, id).value)))
  {
    var o := RunSpec(decl, params, store, users);
    if o.events != [] && o.events[|o.events| - 1].Execute? {
      assert exists i :: 0 <= i < |o.events| && o.events[i].Execute?;
    }
  }
}
