/**
 * The request pipeline built by `createController` (src/common/createController.ts): the
 * revocation check, the rate-limit gate and consumption, the transaction (owned or inherited), the
 * rebinding of repositories, parameter extraction, `run`, commit, and the single catch clause that
 * rolls an owned transaction back and translates the caught value into a reply.
 */
module Controller {
  import opened Js
  import opened Strings
  import opened Utils
  import opened Collaborators
  import opened RateLimiting
  import opened Operation

  /** The parts of an HTTP request the pipeline reads: the Authorization header, the client's address and the body. */
  datatype Request = Request(authorization: Option<string>, ip: Ip, body: Value)

  /**
   * What `createController(serviceConstructor, paramsCb, resCb, parentTransaction)` closes over;
   * the response callback is the default handler.
   */
  datatype Controller = Controller(op: OpDecl, paramsCb: Request -> Completion<Value>, parent: Option<nat>)

  // ---------------------------------------------------------------------------------------------
  // Replies

  /** `{ error: <text> }` */
  function ErrorResult(text: string): Value {
    Obj(map["error" := Str(text)])
  }

  const RevokedReply := Reply(ErrorResult("JWT_ALREADY_EXPIRED"), BAD_REQUEST, [], None)

  /** The 429 reply with `Retry-After: <secs>sec`. */
  function TooManyRequests(secs: string): Reply {
    Reply(ErrorResult("TOO_MANY_REQUESTS"), TOO_MANY_REQUESTS, [Header("Retry-After", secs + "sec")], None)
  }

  function SuccessReply(result: Value): Reply {
    Reply(result, OK, [], None)
  }

  /** `s || fallback` on a string. */
  function OrText(s: string, fallback: string): string {
    if s != "" then s else fallback
  }

  /** `{ error: ex.toString(), message: ex.message }`; an undefined message is not part of the JSON body. */
  function ErrorBody(ex: Thrown): (r: Value)
    ensures r.Obj? && "error" in r.fields && r.fields["error"] == Str(ToStringOf(ex))
    ensures "message" in r.fields <==> MessageOf(ex).Some?
    ensures MessageOf(ex).Some? ==> r.fields["message"] == Str(MessageOf(ex).value)
    ensures r.fields.Keys <= {"error", "message"}
  {
    var base := map["error" := Str(ToStringOf(ex))];
    Obj(if MessageOf(ex).Some? then base["message" := Str(MessageOf(ex).value)] else base)
  }

  /**
   * The catch clause's translation of a caught value: a schema error becomes 400 with the
   * formatted issues; a non-Error carrying a truthy `msBeforeNext` becomes 429; anything else
   * carries its own `status`, or the status `getStatusForError` assigns.
   */
  function Translate(ex: Thrown): (r: Reply)
    ensures ex.ZodError? ==> r.code == BAD_REQUEST && r.result == ex.formatted && r.message == Some(ex.message)
    ensures r.code in {BAD_REQUEST, TOO_MANY_REQUESTS, INTERNAL_SERVER_ERROR} || r.code == StatusOf(ex)
    ensures r.message.Some? <==> ex.ZodError?
  {
    if ex.ZodError? then Reply(ex.formatted, BAD_REQUEST, [], Some(ex.message))
    else if !IsErrorInstance(ex) && MsBeforeNextOf(ex) != 0 then
      TooManyRequests(OrText(IntToString(RoundMs(MsBeforeNextOf(ex))), "1"))
    else
      Reply(ErrorBody(ex), if StatusOf(ex) != 0 then StatusOf(ex) else GetStatusForError(ex), [], None)
  }

  /** What calling the missing `formatValidationError` throws. */
  const NotAFunction := "formatValidationError is not a function"

  /**
   * The catch clause's translation as the source text stands: `formatValidationError` is imported
   * from `utils.ts`, which neither defines nor exports it, so the schema-error branch throws a
   * TypeError instead of replying. Every other branch replies as `Translate` does.
   */
  function TranslateAsWritten(ex: Thrown): (r: Completion<Reply>)
    ensures ex.ZodError? <==> r.Throw?
    ensures r.Throw? ==> r.thrown == Error("TypeError", NotAFunction, 0)
    ensures r.Normal? ==> r.value == Translate(ex)
  {
    if ex.ZodError? then Throw(Error("TypeError", NotAFunction, 0)) else Normal(Translate(ex))
  }

  /**
   * As written, a schema error gets no reply at all; with a working formatter (`Translate`) it
   * gets 400 with the formatted issues and its message.
   */
  lemma SchemaErrorUnansweredAsWritten(formatted: Value, message: string)
    ensures TranslateAsWritten(ZodError(formatted, message)).Throw?
    ensures Translate(ZodError(formatted, message)) == Reply(formatted, BAD_REQUEST, [], Some(message))
  {
  }

  /** A schema error gives 400 with the formatted issues, and the error's message alongside. */
  lemma TranslateSchemaError(formatted: Value, message: string)
    ensures Translate(ZodError(formatted, message)) == Reply(formatted, BAD_REQUEST, [], Some(message))
  {
  }

  /**
   * A rate-limit rejection gives 429 with `Retry-After` the rounded seconds: the `'1'` fallback is
   * never taken, so there is no minimum and a rejection with less than 500 ms to wait says "0sec".
   */
  lemma TranslateRejection(ex: Thrown)
    requires !IsErrorInstance(ex) && MsBeforeNextOf(ex) != 0
    ensures Translate(ex) == TooManyRequests(IntToString(RoundMs(MsBeforeNextOf(ex))))
    ensures 0 < MsBeforeNextOf(ex) < 500 ==> Translate(ex).headers == [Header("Retry-After", "0sec")]
  {
    var ms := MsBeforeNextOf(ex);
    if 0 < ms < 500 {
      assert RoundMs(ms) == 0;
      assert Digits(0) == [DigitChar(0)] == "0";
      assert IntToString(0) + "sec" == "0sec";
    }
  }

  /**
   * Every other value keeps its string form and message in the body; its own non-zero `status` is
   * the code, otherwise 400 for a validation error and 500 for the rest.
   */
  lemma TranslateOtherErrors(ex: Thrown)
    requires !ex.ZodError? && (IsErrorInstance(ex) || MsBeforeNextOf(ex) == 0)
    ensures Translate(ex).result == ErrorBody(ex) && Translate(ex).headers == []
    ensures StatusOf(ex) != 0 ==> Translate(ex).code == StatusOf(ex)
    ensures StatusOf(ex) == 0 ==> (Translate(ex).code == BAD_REQUEST <==> exists i :: OccursAt(Lower(ToStringOf(ex)), ValidationErrorMarker, i))
    ensures StatusOf(ex) == 0 ==> Translate(ex).code in {BAD_REQUEST, INTERNAL_SERVER_ERROR}
  {
  }

  /** Every caught value gets a reply whose code is 400, 429, 500 or the value's own status. */
  lemma TranslateCodes(ex: Thrown)
    ensures Translate(ex).code in {BAD_REQUEST, TOO_MANY_REQUESTS, INTERNAL_SERVER_ERROR} || Translate(ex).code == StatusOf(ex)
    ensures Translate(ex).headers != [] <==> !ex.ZodError? && !IsErrorInstance(ex) && MsBeforeNextOf(ex) != 0
    ensures Translate(ex).headers != [] ==> Translate(ex).code == TOO_MANY_REQUESTS && |Translate(ex).headers| == 1 && Translate(ex).headers[0].name == "Retry-After"
  {
  }

  // ---------------------------------------------------------------------------------------------
  // Revocation check

  /** What reading `split` of undefined throws. */
  const UndefinedSplit := "Cannot read properties of undefined (reading 'split')"

  /** What the revocation check does with the Authorization header. */
  datatype Revocation = Skip | Crash(error: Thrown) | Key(sign: Value)

  /**
   * The key looked up for a present, non-empty header: the third `.`-segment of the text after
   * the first space (undefined when the token has fewer segments). A header without a space
   * leaves the token undefined, and reading its `split` throws.
   */
  function RevocationKey(authorization: Option<string>): (r: Revocation)
    ensures r.Skip? <==> authorization.None? || authorization.value == ""
    ensures r.Crash? <==> authorization.Some? && authorization.value != "" && ' ' !in authorization.value
    ensures r.Crash? ==> r.error == Error("TypeError", UndefinedSplit, 0)
    ensures r.Key? && r.sign.Str? ==> '.' !in r.sign.s
  {
    if authorization.None? || authorization.value == "" then Skip
    else
      SplitSeparated(authorization.value, ' ');
      match Piece(authorization.value, ' ', 1)
      case None => Crash(Error("TypeError", UndefinedSplit, 0))
      case Some(jwt) =>
        SplitPiecesAreFree(jwt, '.');
        match Piece(jwt, '.', 2)
        case None => Key(Undefined)
        case Some(sign) => Key(Str(sign))
  }

  /** For a `Bearer <header>.<payload>.<signature>` header the key is the signature. */
  lemma {:induction false} RevocationKeyOfBearer(scheme: string, header: string, payload: string, signature: string)
    requires ' ' !in scheme && ' ' !in header && ' ' !in payload && ' ' !in signature
    requires '.' !in header && '.' !in payload && '.' !in signature
    ensures RevocationKey(Some(scheme + " " + header + "." + payload + "." + signature)) == Key(Str(signature))
  {
    var token := header + "." + payload + "." + signature;
    FreeOfThree(header, payload, signature, ' ');
    SplitAtFirst(scheme, token, ' ');
    SplitFree(token, ' ');
    assert scheme + " " + header + "." + payload + "." + signature == scheme + [' '] + token;
    assert Piece(scheme + [' '] + token, ' ', 1) == Some(token);
    ThirdPiece(header, payload, signature);
  }

  /** `a.b.c` holds a character that none of `a`, `b` and `c` holds, when it is not the dot. */
  lemma FreeOfThree(a: string, b: string, c: string, x: char)
    requires x != '.' && x !in a && x !in b && x !in c
    ensures x !in a + "." + b + "." + c
  {
    var t := a + "." + b + "." + c;
    forall i | 0 <= i < |t| ensures t[i] != x {
      if i < |a| {
        assert t[i] == a[i];
      } else if i == |a| {
      } else if i < |a| + 1 + |b| {
        assert t[i] == b[i - |a| - 1];
      } else if i == |a| + 1 + |b| {
      } else {
        assert t[i] == c[i - |a| - 2 - |b|];
      }
    }
  }

  /** The third `.`-piece of `a.b.c` is `c`. */
  lemma ThirdPiece(a: string, b: string, c: string)
    requires '.' !in a && '.' !in b && '.' !in c
    ensures Piece(a + "." + b + "." + c, '.', 2) == Some(c)
  {
    SplitAtFirst(b, c, '.');
    SplitFree(c, '.');
    assert Split(b + "." + c, '.') == [b, c] by {
      assert b + "." + c == b + ['.'] + c;
    }
    SplitAtFirst(a, b + "." + c, '.');
    assert a + "." + b + "." + c == a + ['.'] + (b + "." + c);
  }

  /** The pieces of `a + [sep] + b` are `a` followed by the pieces of `b`, when `a` holds no separator. */
  lemma {:induction false} SplitAtFirst(a: string, b: string, sep: char)
    requires sep !in a
    ensures Split(a + [sep] + b, sep) == [a] + Split(b, sep)
    decreases |a|
  {
    if a == [] {
      assert a + [sep] + b == [sep] + b;
      assert ([sep] + b)[1..] == b;
    } else {
      assert (a + [sep] + b)[1..] == a[1..] + [sep] + b;
      SplitAtFirst(a[1..], b, sep);
      assert [a[0]] + a[1..] == a;
    }
  }

  /** A string holds the separator exactly when it splits into at least two pieces. */
  lemma {:induction false} SplitSeparated(s: string, sep: char)
    ensures sep in s <==> |Split(s, sep)| >= 2
    decreases |s|
  {
    if sep !in s {
      SplitFree(s, sep);
    } else if s[0] != sep {
      assert sep in s[1..];
      SplitSeparated(s[1..], sep);
    }
  }

  /** A string without the separator is its own only piece. */
  lemma {:induction false} SplitFree(s: string, sep: char)
    requires sep !in s
    ensures Split(s, sep) == [s]
    decreases |s|
  {
    if s != [] {
      SplitFree(s[1..], sep);
      assert [s[0]] + s[1..] == s;
    }
  }

  /** A header without a space throws a TypeError before any collaborator is called. */
  lemma HeaderWithoutSpaceCrashes(authorization: string)
    requires authorization != "" && ' ' !in authorization
    ensures RevocationKey(Some(authorization)) == Crash(Error("TypeError", UndefinedSplit, 0))
    ensures ToStringOf(RevocationKey(Some(authorization)).error) == "TypeError: " + UndefinedSplit
  {
    SplitFree(authorization, ' ');
    assert Piece(authorization, ' ', 1) == None;
  }

  // ---------------------------------------------------------------------------------------------
  // The pipeline as a function of the process state and the collaborators' answers

  /** Where the steps before the transaction leave the request: stopped with a result, or passed on. */
  datatype Prelude =
    | Stop(state: State, events: seq<Event>, result: Completion<Reply>)
    | Proceed(state: State, events: seq<Event>)

  function PrependPrelude(events: seq<Event>, p: Prelude): Prelude {
    match p
    case Stop(s, ev, r) => Stop(s, events + ev, r)
    case Proceed(s, ev) => Proceed(s, events + ev)
  }

  /** The process state after the registry has resolved the operation's policies. */
  function Resolved(c: Controller, s: State): State {
    var r := Resolve(s.registry, s.limiters, c.op.rateLimiters);
    s.(registry := r.registry, limiters := r.limiters)
  }

  /** The limiters chosen for the operation's policies. */
  function Chosen(c: Controller, s: State): seq<nat> {
    Resolve(s.registry, s.limiters, c.op.rateLimiters).ids
  }

  /** `retrySecs` for this request. */
  function Retry(c: Controller, env: Env, s: State): int {
    RetrySecs(c.op.rateLimiters, States(env, Resolved(c, s).limiters, Chosen(c, s)))
  }

  /** `Promise.all` over `consume` for the chosen limiters: a rejection is thrown on. */
  function Consumption(env: Env, ip: Ip, s: State, ids: seq<nat>): Prelude {
    var consumes := Consumes(ids, ip);
    match FirstRejection(env, s.limiters, ids)
    case Some(e) => Stop(s, consumes, Throw(e))
    case None => Proceed(s, consumes)
  }

  /**
   * `processRateLimiters`, then the 429 gate, then the consumption: a blocked client gets 429
   * before anything is consumed.
   */
  function RateLimit(c: Controller, env: Env, req: Request, s: State): Prelude {
    var retry := Retry(c, env, s);
    var gets := Gets(Chosen(c, s), req.ip);
    if retry > 0 then Stop(Resolved(c, s), gets, Normal(TooManyRequests(IntToString(retry))))
    else PrependPrelude(gets, Consumption(env, req.ip, Resolved(c, s), Chosen(c, s)))
  }

  /** The revocation check, then the rate limits. */
  function PreludeSpec(c: Controller, env: Env, req: Request, s: State): Prelude {
    match RevocationKey(req.authorization)
    case Crash(e) => Stop(s, [], Throw(e))
    case Key(k) =>
      if Truthy(Lookup(s.store, k)) then Stop(s, [StoreGet(k)], Normal(RevokedReply))
      else PrependPrelude([StoreGet(k)], RateLimit(c, env, req, s))
    case Skip => RateLimit(c, env, req, s)
  }

  /** Where the `try` block leaves the request: the state, the calls made, its completion, and the `transaction` variable. */
  datatype Attempt = Attempt(state: State, events: seq<Event>, result: Completion<Reply>, transaction: Option<nat>)

  function PrependAttempt(events: seq<Event>, a: Attempt): Attempt {
    a.(events := events + a.events)
  }

  /** `repositories.forEach((repo) => repo.setDbAccess(transaction))` */
  function Rebind(repositories: seq<Property>, tx: nat): (r: seq<Event>)
    ensures |r| == |repositories|
  {
    seq(|repositories|, i requires 0 <= i < |repositories| => SetDbAccess(repositories[i].name, tx))
  }

  /** What `paramsCb` and then `run` complete with, on the memory store `store`. */
  function BodyResult(c: Controller, env: Env, req: Request, store: map<Value, Value>): Completion<Value> {
    match c.paramsCb(req)
    case Throw(e) => Throw(e)
    case Normal(params) => RunSpec(c.op, params, store, env.users).result
  }

  /** After `run` returned `result`: an owned transaction is committed, and the reply is a success. */
  function Finish(c: Controller, env: Env, s: State, tx: Option<nat>, result: Value): Attempt {
    if c.parent.None? && tx.Some? then
      Attempt(s, [Commit(tx.value)], if env.commitError.Some? then Throw(env.commitError.value) else Normal(SuccessReply(result)), tx)
    else Attempt(s, [], Normal(SuccessReply(result)), tx)
  }

  /** After `run` completed as `o` says. */
  function AfterRun(c: Controller, env: Env, s: State, tx: Option<nat>, o: RunOutcome): Attempt {
    match o.result
    case Throw(e) => Attempt(s.(store := o.store), o.events, Throw(e), tx)
    case Normal(result) => PrependAttempt(o.events, Finish(c, env, s.(store := o.store), tx, result))
  }

  /** `paramsCb(req)`, then `run(params)`, then the commit. */
  function Extract(c: Controller, env: Env, req: Request, s: State, tx: Option<nat>): Attempt {
    match c.paramsCb(req)
    case Throw(e) => Attempt(s, [], Throw(e), tx)
    case Normal(params) => AfterRun(c, env, s, tx, RunSpec(c.op, params, s.store, env.users))
  }

  /** The rebinding of the repositories when there is a transaction. */
  function Binding(c: Controller, tx: Option<nat>): seq<Event> {
    if tx.Some? then Rebind(Repositories(c.op.props), tx.value) else []
  }

  /** From the rebinding of the repositories (when there is a transaction) to the commit, with `transaction` set to `tx`. */
  function Body(c: Controller, env: Env, req: Request, s: State, tx: Option<nat>): Attempt {
    PrependAttempt(Binding(c, tx), Extract(c, env, req, s, tx))
  }

  lemma BodyParts(c: Controller, env: Env, req: Request, s: State, tx: Option<nat>)
    ensures var a, e := Body(c, env, req, s, tx), Extract(c, env, req, s, tx);
      a.result == e.result && a.state == e.state && a.transaction == e.transaction && a.events == Binding(c, tx) + e.events
  {
  }

  /** Opens a transaction when there is no parent and the operation asks for one; reuses the parent otherwise. */
  function Transaction(c: Controller, env: Env, req: Request, s: State): Attempt {
    if c.parent.None? && c.op.useTransaction then
      match env.beginError
      case Some(e) => Attempt(s, [], Throw(e), None)
      case None =>
        var tx := s.txOpened;
        PrependAttempt([TxBegin(tx)], Body(c, env, req, s.(txOpened := tx + 1), Some(tx)))
    else Body(c, env, req, s, c.parent)
  }

  /** The `try` block once the steps before the transaction have stopped it or passed it on. */
  function Continue(c: Controller, env: Env, req: Request, p: Prelude): Attempt {
    match p
    case Stop(s1, ev, r) => Attempt(s1, ev, r, None)
    case Proceed(s1, ev) => PrependAttempt(ev, Transaction(c, env, req, s1))
  }

  /** Concatenation of call logs is associative. */
  lemma AppendAssoc(x: seq<Event>, y: seq<Event>, z: seq<Event>)
    ensures x + (y + z) == (x + y) + z
  {
  }

  lemma PrependTwice(x: seq<Event>, y: seq<Event>, a: Attempt)
    ensures PrependAttempt(x + y, a) == PrependAttempt(x, PrependAttempt(y, a))
  {
    assert x + (y + a.events) == (x + y) + a.events;
  }

  lemma ContinuePrepend(c: Controller, env: Env, req: Request, events: seq<Event>, p: Prelude)
    ensures Continue(c, env, req, PrependPrelude(events, p)) == PrependAttempt(events, Continue(c, env, req, p))
  {
    if p.Proceed? {
      PrependTwice(events, p.events, Transaction(c, env, req, p.state));
    }
  }

  /** The `try` block. */
  function TrySpec(c: Controller, env: Env, req: Request, s: State): Attempt {
    Continue(c, env, req, PreludeSpec(c, env, req, s))
  }

  /** The catch clause's rollback: only an owned transaction is rolled back. */
  function Closing(c: Controller, a: Attempt): seq<Event> {
    if a.result.Throw? && c.parent.None? && a.transaction.Some? then [Rollback(a.transaction.value)] else []
  }

  /** What one request leaves behind: the process state, the calls made, and the reply handed to the response handler. */
  datatype Outcome = Outcome(state: State, events: seq<Event>, reply: Reply)

  /** The whole controller: the `try` block, then the catch clause when it throws. */
  function Pipeline(c: Controller, env: Env, req: Request, s: State): Outcome
  {
    var a := TrySpec(c, env, req, s);
    match a.result
    case Normal(reply) => Outcome(a.state, a.events, reply)
    case Throw(e) => Outcome(a.state, a.events + Closing(c, a), Translate(e))
  }

  // ---------------------------------------------------------------------------------------------
  // Properties of the pipeline

  /** The memory store read of the revocation check, when the header names a key. */
  function Pre(req: Request): seq<Event> {
    match RevocationKey(req.authorization)
    case Key(k) => [StoreGet(k)]
    case _ => []
  }

  /** The revocation check lets the request through. */
  predicate Admitted(req: Request, s: State) {
    match RevocationKey(req.authorization)
    case Crash(_) => false
    case Key(k) => !Truthy(Lookup(s.store, k))
    case Skip => true
  }

  /** The request passes the revocation check, the rate-limit gate and the consumption. */
  predicate Reaches(c: Controller, env: Env, req: Request, s: State) {
    && Admitted(req, s)
    && Retry(c, env, s) <= 0
    && FirstRejection(env, Resolved(c, s).limiters, Chosen(c, s)).None?
  }

  /** The operation owns its transaction. */
  predicate Owned(c: Controller) {
    c.parent.None? && c.op.useTransaction
  }

  /** The calls `paramsCb` and `run` make. */
  function RunEvents(c: Controller, env: Env, req: Request, store: map<Value, Value>): seq<Event> {
    match c.paramsCb(req)
    case Throw(_) => []
    case Normal(params) => RunSpec(c.op, params, store, env.users).events
  }

  /** A call into the memory store, the users repository, `execute` or `setDbAccess`. */
  predicate IsDataEvent(e: Event) {
    e.StoreGet? || e.StoreSet? || e.RepoFind? || e.Execute? || e.SetDbAccess?
  }

  /** Calls into the memory store, the users repository, `execute` and `setDbAccess` only. */
  ghost predicate DataOnly(events: seq<Event>) {
    forall e :: e in events ==> IsDataEvent(e)
  }

  /** The revocation read and limiter calls for the client only. */
  ghost predicate GateOnly(events: seq<Event>, ip: Ip) {
    forall e :: e in events ==> e.StoreGet? || ((e.LimiterGet? || e.LimiterConsume?) && e.ip == ip)
  }

  lemma GateEvents(req: Request, ids: seq<nat>)
    ensures GateOnly(Pre(req) + Gets(ids, req.ip), req.ip)
    ensures GateOnly(Pre(req) + Gets(ids, req.ip) + Consumes(ids, req.ip), req.ip)
  {
    LimiterCallsAreForTheClient(ids, req.ip);
  }

  lemma RunEventsAreData(c: Controller, env: Env, req: Request, store: map<Value, Value>)
    ensures DataOnly(RunEvents(c, env, req, store))
  {
    if c.paramsCb(req).Normal? {
      RunFootprint(c.op, c.paramsCb(req).value, store, env.users);
    }
  }

  /** Rebinding calls `setDbAccess` for every repository, with the transaction, and nothing else. */
  lemma RebindMeaning(repositories: seq<Property>, tx: nat)
    ensures DataOnly(Rebind(repositories, tx))
    ensures forall e :: e in Rebind(repositories, tx) ==> e.SetDbAccess? && e.tx == tx
    ensures forall i :: 0 <= i < |repositories| ==> SetDbAccess(repositories[i].name, tx) in Rebind(repositories, tx)
  {
    var r := Rebind(repositories, tx);
    forall e | e in r ensures e.SetDbAccess? && e.tx == tx {
      var i :| 0 <= i < |r| && r[i] == e;
    }
    forall i | 0 <= i < |repositories| ensures SetDbAccess(repositories[i].name, tx) in r {
      assert r[i] == SetDbAccess(repositories[i].name, tx);
    }
  }

  /** An admitted request reads the revocation key, if any, and goes on to the rate limits. */
  lemma AdmittedTry(c: Controller, env: Env, req: Request, s: State)
    requires Admitted(req, s)
    ensures TrySpec(c, env, req, s) == PrependAttempt(Pre(req), Continue(c, env, req, RateLimit(c, env, req, s)))
  {
    var a := Continue(c, env, req, RateLimit(c, env, req, s));
    if RevocationKey(req.authorization).Key? {
      ContinuePrepend(c, env, req, Pre(req), RateLimit(c, env, req, s));
    } else {
      assert [] + a.events == a.events;
    }
  }

  /** A request that gets through the gate queries, then consumes, every chosen limiter, and reaches the transaction. */
  lemma ReachedTry(c: Controller, env: Env, req: Request, s: State)
    requires Reaches(c, env, req, s)
    ensures var ids := Chosen(c, s);
      TrySpec(c, env, req, s) == PrependAttempt(Pre(req) + Gets(ids, req.ip) + Consumes(ids, req.ip), Transaction(c, env, req, Resolved(c, s)))
  {
    AdmittedTry(c, env, req, s);
    var ids := Chosen(c, s);
    var gets, consumes := Gets(ids, req.ip), Consumes(ids, req.ip);
    var t := Transaction(c, env, req, Resolved(c, s));
    assert RateLimit(c, env, req, s) == Proceed(Resolved(c, s), gets + consumes);
    PrependTwice(gets, consumes, t);
    PrependTwice(Pre(req), gets + consumes, t);
    assert Pre(req) + (gets + consumes) == Pre(req) + gets + consumes;
  }

  /** From the rebinding to the commit: the calls in order, and how the block completes. */
  lemma BodyShape(c: Controller, env: Env, req: Request, s: State, tx: Option<nat>)
    ensures var a := Body(c, env, req, s, tx);
      var b := BodyResult(c, env, req, s.store);
      var commits := b.Normal? && c.parent.None? && tx.Some?;
      && a.transaction == tx && a.state.txOpened == s.txOpened
      && a.events == (if tx.Some? then Rebind(Repositories(c.op.props), tx.value) else []) + RunEvents(c, env, req, s.store)
        + (if commits then [Commit(tx.value)] else [])
      && a.result == (if b.Throw? then Throw(b.thrown) else if commits && env.commitError.Some? then Throw(env.commitError.value) else Normal(SuccessReply(b.value)))
  {
    var bind := if tx.Some? then Rebind(Repositories(c.op.props), tx.value) else [];
    var e := Extract(c, env, req, s, tx);
    match c.paramsCb(req)
    case Throw(_) =>
      assert bind + [] + [] == bind;
    case Normal(params) =>
      var o := RunSpec(c.op, params, s.store, env.users);
      if o.result.Normal? {
        var f := Finish(c, env, s.(store := o.store), tx, o.result.value);
        assert bind + (o.events + f.events) == bind + o.events + f.events;
      } else {
        assert bind + o.events + [] == bind + o.events;
      }
  }

  /** When opening an owned transaction throws, nothing runs and nothing is rolled back. */
  lemma BeginFailure(c: Controller, env: Env, req: Request, s: State)
    requires Reaches(c, env, req, s) && Owned(c) && env.beginError.Some?
    ensures var ids := Chosen(c, s);
      Pipeline(c, env, req, s) == Outcome(Resolved(c, s), Pre(req) + Gets(ids, req.ip) + Consumes(ids, req.ip), Translate(env.beginError.value))
  {
    ReachedTry(c, env, req, s);
  }

  /** The transaction stage when opening succeeds or is not needed: the calls in order, and how it completes. */
  lemma TransactionShape(c: Controller, env: Env, req: Request, s: State)
    requires !(Owned(c) && env.beginError.Some?)
    ensures var a := Transaction(c, env, req, s);
      var t := s.txOpened;
      var b := BodyResult(c, env, req, s.store);
      var tx := if Owned(c) then Some(t) else c.parent;
      var commits := Owned(c) && b.Normal?;
      && a.transaction == tx
      && a.state.txOpened == (if Owned(c) then t + 1 else t)
      && a.events == (if Owned(c) then [TxBegin(t)] else []) + (if tx.Some? then Rebind(Repositories(c.op.props), tx.value) else [])
        + RunEvents(c, env, req, s.store) + (if commits then [Commit(t)] else [])
      && a.result == (if b.Throw? then Throw(b.thrown) else if commits && env.commitError.Some? then Throw(env.commitError.value) else Normal(SuccessReply(b.value)))
  {
    var rebind := if Owned(c) then Rebind(Repositories(c.op.props), s.txOpened)
      else if c.parent.Some? then Rebind(Repositories(c.op.props), c.parent.value) else [];
    var run := RunEvents(c, env, req, s.store);
    if Owned(c) {
      OwnedTransactionShape(c, env, req, s);
    } else {
      UnownedTransactionShape(c, env, req, s);
      assert [] + rebind + run + [] == rebind + run;
    }
  }

  lemma UnownedTransactionShape(c: Controller, env: Env, req: Request, s: State)
    requires !Owned(c)
    ensures var a := Transaction(c, env, req, s);
      var b := BodyResult(c, env, req, s.store);
      && a.transaction == c.parent
      && a.state.txOpened == s.txOpened
      && a.events == (if c.parent.Some? then Rebind(Repositories(c.op.props), c.parent.value) else []) + RunEvents(c, env, req, s.store)
      && a.result == (if b.Throw? then Throw(b.thrown) else Normal(SuccessReply(b.value)))
  {
    BodyShape(c, env, req, s, c.parent);
  }

  lemma OwnedTransactionShape(c: Controller, env: Env, req: Request, s: State)
    requires Owned(c) && env.beginError.None?
    ensures var a := Transaction(c, env, req, s);
      var t := s.txOpened;
      var b := BodyResult(c, env, req, s.store);
      && a.transaction == Some(t)
      && a.state.txOpened == t + 1
      && a.events == [TxBegin(t)] + Rebind(Repositories(c.op.props), t) + RunEvents(c, env, req, s.store) + (if b.Normal? then [Commit(t)] else [])
      && a.result == (if b.Throw? then Throw(b.thrown) else if env.commitError.Some? then Throw(env.commitError.value) else Normal(SuccessReply(b.value)))
  {
    var t := s.txOpened;
    var s2 := s.(txOpened := t + 1);
    var body := Body(c, env, req, s2, Some(t));
    assert Transaction(c, env, req, s) == PrependAttempt([TxBegin(t)], body);
    BodyShape(c, env, req, s2, Some(t));
    var bind, run := Rebind(Repositories(c.op.props), t), RunEvents(c, env, req, s.store);
    var commit := if BodyResult(c, env, req, s.store).Normal? then [Commit(t)] else [];
    AppendAssoc([TxBegin(t)], bind + run, commit);
    AppendAssoc([TxBegin(t)], bind, run);
  }

  /**
   * The calls a request that gets through the gate makes, in order: the revocation read, the
   * limiter queries and consumptions, the opening of an owned transaction, the rebinding of the
   * repositories to the transaction in use, the calls of `paramsCb` and `run`, the commit after a
   * normal completion, and the rollback of an owned transaction after a throw, including a throwing
   * commit. The reply is the result, or the translation of what was thrown.
   */
  lemma ReachedPipeline(c: Controller, env: Env, req: Request, s: State)
    requires Reaches(c, env, req, s) && !(Owned(c) && env.beginError.Some?)
    ensures var o := Pipeline(c, env, req, s);
      var a := Transaction(c, env, req, Resolved(c, s));
      && o.reply == (if a.result.Throw? then Translate(a.result.thrown) else a.result.value)
      && o.state == a.state
  {
    ReachedTry(c, env, req, s);
  }

  /** The calls of a request that gets through the gate: the gate's, the transaction stage's, and the rollback of an owned transaction after a throw. */
  lemma ReachedEvents(c: Controller, env: Env, req: Request, s: State)
    requires Reaches(c, env, req, s) && !(Owned(c) && env.beginError.Some?)
    ensures var a := Transaction(c, env, req, Resolved(c, s));
      var ids := Chosen(c, s);
      Pipeline(c, env, req, s).events == Pre(req) + Gets(ids, req.ip) + Consumes(ids, req.ip)
        + (a.events + if Owned(c) && a.result.Throw? then [Rollback(s.txOpened)] else [])
  {
    ReachedTry(c, env, req, s);
    TransactionShape(c, env, req, Resolved(c, s));
    var ids := Chosen(c, s);
    var a := Transaction(c, env, req, Resolved(c, s));
    var head := Pre(req) + Gets(ids, req.ip) + Consumes(ids, req.ip);
    var rollback := if Owned(c) && a.result.Throw? then [Rollback(s.txOpened)] else [];
    assert head + a.events + rollback == head + (a.events + rollback);
  }

  /** The transaction stage calls only data collaborators, and opens and commits only an owned transaction, the next one. */
  lemma TransactionFootprint(c: Controller, env: Env, req: Request, s: State)
    ensures forall e :: e in Transaction(c, env, req, s).events ==>
      IsDataEvent(e) || ((e.TxBegin? || e.Commit?) && Owned(c) && e.tx == s.txOpened)
    ensures Transaction(c, env, req, s).transaction.Some? && c.parent.None? ==> Owned(c) && Transaction(c, env, req, s).transaction.value == s.txOpened
  {
    if !(Owned(c) && env.beginError.Some?) {
      TransactionShape(c, env, req, s);
      var tx := if Owned(c) then Some(s.txOpened) else c.parent;
      if tx.Some? {
        RebindMeaning(Repositories(c.op.props), tx.value);
      }
      RunEventsAreData(c, env, req, s.store);
    }
  }

  /** A blocked request: 429 after the limiter queries, before any consumption. */
  lemma BlockedAtGate(c: Controller, env: Env, req: Request, s: State)
    requires Admitted(req, s) && Retry(c, env, s) > 0
    ensures var ids := Chosen(c, s);
      Pipeline(c, env, req, s) == Outcome(Resolved(c, s), Pre(req) + Gets(ids, req.ip), TooManyRequests(IntToString(Retry(c, env, s))))
  {
    AdmittedTry(c, env, req, s);
  }

  /** A consumption that rejects: the rejection of the first chosen limiter that rejects, translated. */
  lemma RejectedAtGate(c: Controller, env: Env, req: Request, s: State)
    requires Admitted(req, s) && Retry(c, env, s) <= 0
    requires FirstRejection(env, Resolved(c, s).limiters, Chosen(c, s)).Some?
    ensures var ids := Chosen(c, s);
      Pipeline(c, env, req, s) == Outcome(Resolved(c, s), Pre(req) + Gets(ids, req.ip) + Consumes(ids, req.ip),
        Translate(FirstRejection(env, Resolved(c, s).limiters, ids).value))
  {
    AdmittedTry(c, env, req, s);
    var ids := Chosen(c, s);
    assert Pre(req) + (Gets(ids, req.ip) + Consumes(ids, req.ip)) == Pre(req) + Gets(ids, req.ip) + Consumes(ids, req.ip);
  }

  /** With no (or an empty) Authorization header the store is not read: the first calls are the limiter queries, one per policy. */
  lemma NoAuthorizationGoesToRateLimits(c: Controller, env: Env, req: Request, s: State)
    requires req.authorization.None? || req.authorization == Some("")
    ensures Pre(req) == [] && TrySpec(c, env, req, s) == Continue(c, env, req, RateLimit(c, env, req, s))
    ensures var gets := Gets(Chosen(c, s), req.ip);
      |gets| == |c.op.rateLimiters| && gets <= Pipeline(c, env, req, s).events
  {
    AdmittedTry(c, env, req, s);
    AdmittedStartsWithQueries(c, env, req, s);
    assert Pre(req) == [];
    assert [] + Gets(Chosen(c, s), req.ip) == Gets(Chosen(c, s), req.ip);
  }

  /** An admitted request first reads its revocation key, if any, and then queries every chosen limiter. */
  lemma AdmittedStartsWithQueries(c: Controller, env: Env, req: Request, s: State)
    requires Admitted(req, s)
    ensures Pre(req) + Gets(Chosen(c, s), req.ip) <= Pipeline(c, env, req, s).events
  {
    var head := Pre(req) + Gets(Chosen(c, s), req.ip);
    var consumes := Consumes(Chosen(c, s), req.ip);
    if Retry(c, env, s) > 0 {
      BlockedAtGate(c, env, req, s);
    } else if !Reaches(c, env, req, s) {
      RejectedAtGate(c, env, req, s);
      PrefixOf(head, consumes);
    } else if Owned(c) && env.beginError.Some? {
      BeginFailure(c, env, req, s);
      PrefixOf(head, consumes);
    } else {
      ReachedEvents(c, env, req, s);
      var a := Transaction(c, env, req, Resolved(c, s));
      var rollback := if Owned(c) && a.result.Throw? then [Rollback(s.txOpened)] else [];
      PrefixOfThree(head, consumes, a.events + rollback);
    }
  }

  lemma PrefixOf(x: seq<Event>, y: seq<Event>)
    ensures x <= x + y
  {
    assert (x + y)[..|x|] == x;
  }

  lemma PrefixOfThree(x: seq<Event>, y: seq<Event>, z: seq<Event>)
    ensures x <= x + y + z
  {
    assert x + y + z == x + (y + z);
    PrefixOf(x, y + z);
  }

  /** A revoked token gets 400 `JWT_ALREADY_EXPIRED` after one store read: no limiter, transaction or operation is touched. */
  lemma RevokedTokenRejected(c: Controller, env: Env, req: Request, s: State)
    requires RevocationKey(req.authorization).Key? && Truthy(Lookup(s.store, RevocationKey(req.authorization).sign))
    ensures Pipeline(c, env, req, s) == Outcome(s, [StoreGet(RevocationKey(req.authorization).sign)], RevokedReply)
    ensures RevokedReply.code == BAD_REQUEST && RevokedReply.result == Obj(map["error" := Str("JWT_ALREADY_EXPIRED")])
  {
  }

  /**
   * A blocked client gets 429 with `Retry-After: <retrySecs>sec`; only the limiters are queried,
   * nothing is consumed and no transaction is opened.
   */
  lemma BlockedClientRefused(c: Controller, env: Env, req: Request, s: State)
    requires Admitted(req, s) && Retry(c, env, s) > 0
    ensures var o := Pipeline(c, env, req, s);
      var retry := Retry(c, env, s);
      && o == Outcome(Resolved(c, s), Pre(req) + Gets(Chosen(c, s), req.ip), TooManyRequests(IntToString(retry)))
      && o.reply.code == TOO_MANY_REQUESTS && o.reply.result == ErrorResult("TOO_MANY_REQUESTS")
      && o.reply.headers == [Header("Retry-After", IntToString(retry) + "sec")]
      && (forall e :: e in o.events ==> !e.LimiterConsume? && !IsTransactionEvent(e))
  {
    BlockedAtGate(c, env, req, s);
    GateEvents(req, Chosen(c, s));
  }

  /** Counting the limiter calls in the gate's calls followed by calls of other kinds. */
  lemma GateCounts(req: Request, ids: seq<nat>, consumed: bool, rest: seq<Event>, id: nat)
    requires forall e :: e in rest ==> !e.LimiterGet? && !e.LimiterConsume?
    ensures var events := Pre(req) + Gets(ids, req.ip) + (if consumed then Consumes(ids, req.ip) else []) + rest;
      && multiset(events)[LimiterGet(id, req.ip)] == multiset(ids)[id]
      && multiset(events)[LimiterConsume(id, req.ip)] == (if consumed then multiset(ids)[id] else 0)
  {
    var get, consume := LimiterGet(id, req.ip), LimiterConsume(id, req.ip);
    GetsCount(ids, req.ip, id);
    ConsumesCount(ids, req.ip, id);
    LimiterCallsAreForTheClient(ids, req.ip);
    assert get !in Pre(req) && consume !in Pre(req);
    assert consume !in Gets(ids, req.ip);
    assert get !in Consumes(ids, req.ip);
    assert get !in rest && consume !in rest;
  }

  /**
   * Every chosen limiter is queried once per policy naming it; when the client is not blocked it is
   * also consumed once per policy naming it, and otherwise not at all.
   */
  lemma LimiterCallCounts(c: Controller, env: Env, req: Request, s: State, id: nat)
    requires Admitted(req, s)
    ensures var events := Pipeline(c, env, req, s).events;
      var ids := Chosen(c, s);
      && multiset(events)[LimiterGet(id, req.ip)] == multiset(ids)[id]
      && multiset(events)[LimiterConsume(id, req.ip)] == if Retry(c, env, s) > 0 then 0 else multiset(ids)[id]
  {
    if Retry(c, env, s) > 0 {
      BlockedAtGate(c, env, req, s);
      GateCounts(req, Chosen(c, s), false, [], id);
      assert Pre(req) + Gets(Chosen(c, s), req.ip) + [] + [] == Pre(req) + Gets(Chosen(c, s), req.ip);
    } else if !Reaches(c, env, req, s) {
      RejectedCounts(c, env, req, s, id);
    } else if Owned(c) && env.beginError.Some? {
      BeginFailureCounts(c, env, req, s, id);
    } else {
      ReachedCounts(c, env, req, s, id);
    }
  }

  lemma RejectedCounts(c: Controller, env: Env, req: Request, s: State, id: nat)
    requires Admitted(req, s) && Retry(c, env, s) <= 0 && !Reaches(c, env, req, s)
    ensures var events := Pipeline(c, env, req, s).events;
      && multiset(events)[LimiterGet(id, req.ip)] == multiset(Chosen(c, s))[id]
      && multiset(events)[LimiterConsume(id, req.ip)] == multiset(Chosen(c, s))[id]
  {
    var ids := Chosen(c, s);
    RejectedAtGate(c, env, req, s);
    GateCounts(req, ids, true, [], id);
    assert Pre(req) + Gets(ids, req.ip) + Consumes(ids, req.ip) + [] == Pre(req) + Gets(ids, req.ip) + Consumes(ids, req.ip);
  }

  lemma BeginFailureCounts(c: Controller, env: Env, req: Request, s: State, id: nat)
    requires Reaches(c, env, req, s) && Owned(c) && env.beginError.Some?
    ensures var events := Pipeline(c, env, req, s).events;
      && multiset(events)[LimiterGet(id, req.ip)] == multiset(Chosen(c, s))[id]
      && multiset(events)[LimiterConsume(id, req.ip)] == multiset(Chosen(c, s))[id]
  {
    var ids := Chosen(c, s);
    BeginFailure(c, env, req, s);
    GateCounts(req, ids, true, [], id);
    assert Pre(req) + Gets(ids, req.ip) + Consumes(ids, req.ip) + [] == Pre(req) + Gets(ids, req.ip) + Consumes(ids, req.ip);
  }

  lemma NoLimiterCallsAfterGate(c: Controller, env: Env, req: Request, s: State, rollback: seq<Event>)
    requires forall e :: e in rollback ==> e.Rollback?
    ensures forall e :: e in Transaction(c, env, req, s).events + rollback ==> !e.LimiterGet? && !e.LimiterConsume?
  {
    TransactionFootprint(c, env, req, s);
  }

  lemma ReachedCounts(c: Controller, env: Env, req: Request, s: State, id: nat)
    requires Reaches(c, env, req, s) && !(Owned(c) && env.beginError.Some?)
    ensures var events := Pipeline(c, env, req, s).events;
      && multiset(events)[LimiterGet(id, req.ip)] == multiset(Chosen(c, s))[id]
      && multiset(events)[LimiterConsume(id, req.ip)] == multiset(Chosen(c, s))[id]
  {
    var ids := Chosen(c, s);
    ReachedEvents(c, env, req, s);
    var a := Transaction(c, env, req, Resolved(c, s));
    var rollback := if Owned(c) && a.result.Throw? then [Rollback(s.txOpened)] else [];
    var rest := a.events + rollback;
    NoLimiterCallsAfterGate(c, env, req, Resolved(c, s), rollback);
    GateCounts(req, ids, true, rest, id);
  }

  /** A request stopped by the revocation check makes no call beyond the store read. */
  lemma NotAdmittedEvents(c: Controller, env: Env, req: Request, s: State)
    requires !Admitted(req, s)
    ensures Pipeline(c, env, req, s).events == Pre(req)
  {
  }

  /**
   * A transaction is opened, committed or rolled back only when the operation owns it, and it is
   * the one this request opened; in particular a parent transaction is never committed or rolled back.
   */
  lemma TransactionEventsOnlyWhenOwned(c: Controller, env: Env, req: Request, s: State)
    ensures forall e :: e in Pipeline(c, env, req, s).events && IsTransactionEvent(e) ==> Owned(c) && e.tx == s.txOpened
    ensures !Owned(c) ==> forall e :: e in Pipeline(c, env, req, s).events ==> !IsTransactionEvent(e)
  {
    TransactionEventsAreOwned(c, env, req, s);
  }

  lemma TransactionEventsAreOwned(c: Controller, env: Env, req: Request, s: State)
    ensures forall e :: e in Pipeline(c, env, req, s).events && IsTransactionEvent(e) ==> Owned(c) && e.tx == s.txOpened
  {
    if Admitted(req, s) {
      GateEvents(req, Chosen(c, s));
      if Retry(c, env, s) > 0 {
        BlockedAtGate(c, env, req, s);
      } else if !Reaches(c, env, req, s) {
        RejectedAtGate(c, env, req, s);
      } else if Owned(c) && env.beginError.Some? {
        BeginFailure(c, env, req, s);
      } else {
        ReachedFootprint(c, env, req, s);
      }
    } else {
      NotAdmittedEvents(c, env, req, s);
    }
  }

  lemma ReachedFootprint(c: Controller, env: Env, req: Request, s: State)
    requires Reaches(c, env, req, s) && !(Owned(c) && env.beginError.Some?)
    ensures forall e :: e in Pipeline(c, env, req, s).events && IsTransactionEvent(e) ==> Owned(c) && e.tx == s.txOpened
  {
    var ids := Chosen(c, s);
    ReachedEvents(c, env, req, s);
    var a := Transaction(c, env, req, Resolved(c, s));
    var rollback := if Owned(c) && a.result.Throw? then [Rollback(s.txOpened)] else [];
    GateEvents(req, ids);
    TailFootprint(c, env, req, Resolved(c, s), rollback);
  }

  lemma TailFootprint(c: Controller, env: Env, req: Request, s: State, rollback: seq<Event>)
    requires forall e :: e in rollback ==> e == Rollback(s.txOpened) && Owned(c)
    ensures forall e :: e in Transaction(c, env, req, s).events + rollback && IsTransactionEvent(e) ==> Owned(c) && e.tx == s.txOpened
  {
    TransactionFootprint(c, env, req, s);
  }

  /** Counting the transaction calls when only the owned transaction's are not data calls. */
  lemma LifecycleCounts(gate: seq<Event>, ip: Ip, t: nat, bind: seq<Event>, run: seq<Event>, commits: bool, rollsBack: bool)
    requires GateOnly(gate, ip) && DataOnly(bind) && DataOnly(run)
    ensures var events := gate + ([TxBegin(t)] + bind + run + (if commits then [Commit(t)] else []) + (if rollsBack then [Rollback(t)] else []));
      && multiset(events)[TxBegin(t)] == 1
      && multiset(events)[Commit(t)] == (if commits then 1 else 0)
      && multiset(events)[Rollback(t)] == (if rollsBack then 1 else 0)
  {
    assert TxBegin(t) !in gate && Commit(t) !in gate && Rollback(t) !in gate;
    assert TxBegin(t) !in bind && Commit(t) !in bind && Rollback(t) !in bind;
    assert TxBegin(t) !in run && Commit(t) !in run && Rollback(t) !in run;
  }

  /**
   * An owned transaction is opened once and closed as the outcome demands: committed once when
   * the block completes normally, rolled back once when it throws, and both when the commit itself
   * throws. The reply is the result, or the translation of what was thrown.
   */
  lemma OwnedTransactionClosedOnce(c: Controller, env: Env, req: Request, s: State)
    requires Reaches(c, env, req, s) && Owned(c) && env.beginError.None?
    ensures var o := Pipeline(c, env, req, s);
      var t := s.txOpened;
      var b := BodyResult(c, env, req, s.store);
      && multiset(o.events)[TxBegin(t)] == 1
      && multiset(o.events)[Commit(t)] == (if b.Normal? then 1 else 0)
      && multiset(o.events)[Rollback(t)] == (if b.Throw? || env.commitError.Some? then 1 else 0)
      && o.state.txOpened == t + 1
      && o.reply == (if b.Throw? then Translate(b.thrown) else if env.commitError.Some? then Translate(env.commitError.value) else SuccessReply(b.value))
  {
    var t := s.txOpened;
    var ids := Chosen(c, s);
    var b := BodyResult(c, env, req, s.store);
    ReachedPipeline(c, env, req, s);
    ReachedEvents(c, env, req, s);
    OwnedTransactionShape(c, env, req, Resolved(c, s));
    GateEvents(req, ids);
    RebindMeaning(Repositories(c.op.props), t);
    RunEventsAreData(c, env, req, s.store);
    LifecycleCounts(Pre(req) + Gets(ids, req.ip) + Consumes(ids, req.ip), req.ip, t, Rebind(Repositories(c.op.props), t),
      RunEvents(c, env, req, s.store), b.Normal?, b.Throw? || env.commitError.Some?);
  }

  /** Without an owned transaction nothing is committed: the reply is the result, or the translation of what was thrown. */
  lemma UnownedReply(c: Controller, env: Env, req: Request, s: State)
    requires Reaches(c, env, req, s) && !Owned(c)
    ensures var b := BodyResult(c, env, req, s.store);
      Pipeline(c, env, req, s).reply == (if b.Throw? then Translate(b.thrown) else SuccessReply(b.value))
  {
    ReachedPipeline(c, env, req, s);
    UnownedTransactionShape(c, env, req, Resolved(c, s));
  }

  /** A parent transaction is rebound to every repository of the operation. */
  lemma ParentRebound(c: Controller, env: Env, req: Request, s: State)
    requires Reaches(c, env, req, s) && c.parent.Some?
    ensures var repositories := Repositories(c.op.props);
      forall i :: 0 <= i < |repositories| ==> SetDbAccess(repositories[i].name, c.parent.value) in Pipeline(c, env, req, s).events
  {
    ReachedEvents(c, env, req, s);
    UnownedTransactionShape(c, env, req, Resolved(c, s));
    RebindMeaning(Repositories(c.op.props), c.parent.value);
  }

  /** Without any transaction no repository is rebound. */
  lemma NoTransactionNoRebinding(c: Controller, env: Env, req: Request, s: State)
    requires c.parent.None? && !c.op.useTransaction
    ensures forall e :: e in Pipeline(c, env, req, s).events ==> !e.SetDbAccess?
  {
    if Admitted(req, s) {
      GateEvents(req, Chosen(c, s));
      if Retry(c, env, s) > 0 {
        BlockedAtGate(c, env, req, s);
      } else if !Reaches(c, env, req, s) {
        RejectedAtGate(c, env, req, s);
      } else {
        ReachedEvents(c, env, req, s);
        UnownedTransactionShape(c, env, req, Resolved(c, s));
        RunHasNoRebinding(c, env, req, s.store);
      }
    } else {
      NotAdmittedEvents(c, env, req, s);
    }
  }

  lemma RunHasNoRebinding(c: Controller, env: Env, req: Request, store: map<Value, Value>)
    ensures forall e :: e in RunEvents(c, env, req, store) ==> !e.SetDbAccess?
  {
    if c.paramsCb(req).Normal? {
      RunFootprint(c.op, c.paramsCb(req).value, store, env.users);
    }
  }

  /**
   * No Authorization header, no policies, no transaction and valid parameters without a user id:
   * `execute` is the only call, and its value is returned with 200.
   */
  lemma DirectExecutionScenario(c: Controller, env: Env, req: Request, s: State, params: Value)
    requires req.authorization.None?
    requires c.op.rateLimiters == [] && !c.op.useTransaction && c.parent.None?
    requires c.paramsCb(req) == Normal(params)
    requires c.op.validationRules.Some? && c.op.validationRules.value(params).Parsed?
    requires !Truthy(Prop(c.op.validationRules.value(params).data, "userId"))
    requires c.op.execute(Merge(c.op.validationRules.value(params).data, Null)).Normal?
    ensures var call := Merge(c.op.validationRules.value(params).data, Null);
      && Pipeline(c, env, req, s) == Outcome(s, [Execute(call)], SuccessReply(c.op.execute(call).value))
      && SuccessReply(c.op.execute(call).value).code == OK
  {
    var call := Merge(c.op.validationRules.value(params).data, Null);
    assert Resolved(c, s) == s;
    assert Chosen(c, s) == [];
    assert Retry(c, env, s) == 0;
    ReachedEvents(c, env, req, s);
    ReachedPipeline(c, env, req, s);
    UnownedTransactionShape(c, env, req, s);
    NoUserIdGoesStraightToExecute(c.op, params, s.store, env.users);
    assert RunEvents(c, env, req, s.store) == [Execute(call)];
    assert Pipeline(c, env, req, s).events == [] + [] + [] + ([] + [Execute(call)] + []);
  }

  /**
   * A policy of 5 points per 60 seconds and a client that has consumed 6 with at most a minute to
   * wait: 429 with `Retry-After` between 1 and 60 seconds, and nothing consumed.
   */
  lemma TooManyRequestsScenario(c: Controller, env: Env, req: Request, s: State, prefix: string, blockDuration: int, ms: int)
    requires RegistryValid(s.registry, s.limiters) && Admitted(req, s)
    requires c.op.rateLimiters == [Policy(prefix, 5, 60, blockDuration)]
    requires CounterOf(env, prefix) == Some(LimiterRes(6, ms)) && 0 <= ms <= 60000
    ensures var o := Pipeline(c, env, req, s);
      var secs := Retry(c, env, s);
      && 1 <= secs <= 60
      && o.reply == TooManyRequests(IntToString(secs))
      && o.reply.code == TOO_MANY_REQUESTS && o.reply.result == ErrorResult("TOO_MANY_REQUESTS")
      && (forall e :: e in o.events ==> !e.LimiterConsume?)
  {
    var policies := c.op.rateLimiters;
    ResolveSound(s.registry, s.limiters, policies);
    var r := Resolve(s.registry, s.limiters, policies);
    var states := States(env, r.limiters, r.ids);
    assert r.limiters[r.ids[0]].keyPrefix == prefix;
    assert states == [Some(LimiterRes(6, ms))];
    RetrySecsMeaning(policies, states, 0);
    assert Retry(c, env, s) == OrOne(RoundMs(ms));
    BlockedClientRefused(c, env, req, s);
  }

  /**
   * An operation with its own transaction whose `execute` throws a domain error with status 409:
   * the transaction is rolled back and not committed, and the reply carries 409 and the message.
   */
  lemma DomainErrorScenario(c: Controller, env: Env, req: Request, s: State, params: Value, name: string, message: string)
    requires Reaches(c, env, req, s) && Owned(c) && env.beginError.None?
    requires c.paramsCb(req) == Normal(params)
    requires c.op.validationRules.Some? && c.op.validationRules.value(params).Parsed?
    requires !Truthy(Prop(c.op.validationRules.value(params).data, "userId"))
    requires c.op.execute(Merge(c.op.validationRules.value(params).data, Null)) == Throw(Error(name, message, 409))
    ensures var o := Pipeline(c, env, req, s);
      && multiset(o.events)[Rollback(s.txOpened)] == 1 && multiset(o.events)[Commit(s.txOpened)] == 0
      && o.reply.code == 409
      && o.reply.result.Obj? && "message" in o.reply.result.fields && o.reply.result.fields["message"] == Str(message)
  {
    NoUserIdGoesStraightToExecute(c.op, params, s.store, env.users);
    assert BodyResult(c, env, req, s.store) == Throw(Error(name, message, 409));
    OwnedTransactionClosedOnce(c, env, req, s);
    TranslateOtherErrors(Error(name, message, 409));
  }

  /**
   * Valid parameters naming a user found neither in the memory store nor in the users repository:
   * `execute` is never called, and the reply translates the invalid-user error.
   */
  lemma UnknownUserScenario(c: Controller, env: Env, req: Request, s: State, params: Value)
    requires Reaches(c, env, req, s) && !(Owned(c) && env.beginError.Some?)
    requires c.paramsCb(req) == Normal(params)
    requires c.op.validationRules.Some? && c.op.validationRules.value(params).Parsed?
    requires var id := Prop(c.op.validationRules.value(params).data, "userId");
      Truthy(id) && !Truthy(Lookup(s.store, id)) && FindById(env.users, id).Normal? && !Truthy(FindById(env.users, id).value)
    ensures forall e :: e in Pipeline(c, env, req, s).events ==> !e.Execute?
    ensures Pipeline(c, env, req, s).reply == Translate(Error("Error", InvalidUser, 0))
  {
    var id := Prop(c.op.validationRules.value(params).data, "userId");
    UnknownUserThrows(c.op, params, s.store, env.users);
    assert BodyResult(c, env, req, s.store) == Throw(Error("Error", InvalidUser, 0));
    assert RunEvents(c, env, req, s.store) == [StoreGet(id), RepoFind(id)];
    if Owned(c) {
      OwnedTransactionClosedOnce(c, env, req, s);
    } else {
      UnownedReply(c, env, req, s);
    }
    NoExecuteWithoutRun(c, env, req, s);
  }

  /** When `paramsCb` and `run` do not call `execute`, nothing does. */
  lemma NoExecuteWithoutRun(c: Controller, env: Env, req: Request, s: State)
    requires Reaches(c, env, req, s) && !(Owned(c) && env.beginError.Some?)
    requires forall e :: e in RunEvents(c, env, req, s.store) ==> !e.Execute?
    ensures forall e :: e in Pipeline(c, env, req, s).events ==> !e.Execute?
  {
    ReachedEvents(c, env, req, s);
    GateEvents(req, Chosen(c, s));
    var a := Transaction(c, env, req, Resolved(c, s));
    var rollback := if Owned(c) && a.result.Throw? then [Rollback(s.txOpened)] else [];
    TailHasNoExecute(c, env, req, Resolved(c, s), rollback);
  }

  lemma TailHasNoExecute(c: Controller, env: Env, req: Request, s: State, rollback: seq<Event>)
    requires !(Owned(c) && env.beginError.Some?)
    requires forall e :: e in RunEvents(c, env, req, s.store) ==> !e.Execute?
    requires forall e :: e in rollback ==> e.Rollback?
    ensures forall e :: e in Transaction(c, env, req, s).events + rollback ==> !e.Execute?
  {
    TransactionShape(c, env, req, s);
    var tx := if Owned(c) then Some(s.txOpened) else c.parent;
    if tx.Some? {
      RebindMeaning(Repositories(c.op.props), tx.value);
    }
  }

  // ---------------------------------------------------------------------------------------------
  // The pipeline on the runtime

  /** The `try` block on the runtime: returns its completion and the value of `transaction`. */
  method TryBody(rt: Runtime, env: Env, c: Controller, req: Request) returns (result: Completion<Reply>, transaction: Option<nat>)
    requires rt.Valid()
    modifies rt
    ensures rt.Valid()
    ensures var a := TrySpec(c, env, req, old(rt.Snapshot()));
      && result == a.result && transaction == a.transaction
      && rt.Snapshot() == a.state && rt.log == old(rt.log) + a.events
  {
    var revocation := RevocationKey(req.authorization);
    if revocation.Crash? {
      return Throw(revocation.error), None;
    }
    if revocation.Key? {
      var tokenExpired := rt.GetValue(revocation.sign);
      if Truthy(tokenExpired) {
        return Normal(RevokedReply), None;
      }
      ghost var p := RateLimit(c, env, req, rt.Snapshot());
      ContinuePrepend(c, env, req, [StoreGet(revocation.sign)], p);
        result, transaction := Gate(rt, env, c, req);
      AppendAssoc(old(rt.log), [StoreGet(revocation.sign)], Continue(c, env, req, p).events);
    } else {
      result, transaction := Gate(rt, env, c, req);
    }
  }

  /** The `try` block from the rate limits on. */
  method Gate(rt: Runtime, env: Env, c: Controller, req: Request) returns (result: Completion<Reply>, transaction: Option<nat>)
    requires rt.Valid()
    modifies rt
    ensures rt.Valid()
    ensures var a := Continue(c, env, req, RateLimit(c, env, req, old(rt.Snapshot())));
      && result == a.result && transaction == a.transaction
      && rt.Snapshot() == a.state && rt.log == old(rt.log) + a.events
  {
    ghost var s0 := rt.Snapshot();
    var retrySecs, currentRateLimiters := ProcessRateLimiters(rt, env, req.ip, c.op.rateLimiters);
    if retrySecs > 0 {
      return Normal(TooManyRequests(IntToString(retrySecs))), None;
    }
    ghost var p := Consumption(env, req.ip, rt.Snapshot(), currentRateLimiters);
    ContinuePrepend(c, env, req, Gets(currentRateLimiters, req.ip), p);
    result, transaction := Consume(rt, env, c, req, currentRateLimiters);
    AppendAssoc(old(rt.log), Gets(currentRateLimiters, req.ip), Continue(c, env, req, p).events);
  }

  /** `Promise.all(currentRateLimiters.map((tr) => tr.consume(ipAddr)))` and the rest of the `try` block. */
  method Consume(rt: Runtime, env: Env, c: Controller, req: Request, current: seq<nat>) returns (result: Completion<Reply>, transaction: Option<nat>)
    requires rt.Valid() && IdsIn(current, rt.limiters)
    modifies rt
    ensures rt.Valid()
    ensures var a := Continue(c, env, req, Consumption(env, req.ip, old(rt.Snapshot()), current));
      && result == a.result && transaction == a.transaction
      && rt.Snapshot() == a.state && rt.log == old(rt.log) + a.events
  {
    ghost var s0 := rt.Snapshot();
    ghost var consumes := Consumes(current, req.ip);
    var rejection := ConsumeAll(rt, env, req.ip, current);
    if rejection.Some? {
      assert Consumption(env, req.ip, s0, current) == Stop(s0, consumes, Throw(rejection.value));
      return Throw(rejection.value), None;
    }
    assert Consumption(env, req.ip, s0, current) == Proceed(s0, consumes);
    ghost var t := Transaction(c, env, req, s0);
    assert Continue(c, env, req, Proceed(s0, consumes)) == PrependAttempt(consumes, t);
    result, transaction := Unit(rt, env, c, req);
    AppendAssoc(old(rt.log), consumes, t.events);
  }

  /** The `try` block from the transaction on: opens a transaction, or reuses the parent. */
  method Unit(rt: Runtime, env: Env, c: Controller, req: Request) returns (result: Completion<Reply>, transaction: Option<nat>)
    requires rt.Valid()
    modifies rt
    ensures rt.Valid()
    ensures var a := Transaction(c, env, req, old(rt.Snapshot()));
      && result == a.result && transaction == a.transaction
      && rt.Snapshot() == a.state && rt.log == old(rt.log) + a.events
  {
    if c.parent.None? && c.op.useTransaction {
      var began := rt.BeginTransaction(env);
      if began.Throw? {
        return Throw(began.thrown), None;
      }
      transaction := Some(began.value);
      ghost var b := Body(c, env, req, rt.Snapshot(), transaction);
      result := RunBody(rt, env, c, req, transaction);
      AppendAssoc(old(rt.log), [TxBegin(began.value)], b.events);
    } else {
      transaction := c.parent;
      result := RunBody(rt, env, c, req, transaction);
    }
  }

  /** Rebinds every repository of the operation to the transaction `tx`. */
  method RebindRepositories(rt: Runtime, props: seq<Property>, tx: nat)
    modifies rt
    ensures rt.Snapshot() == old(rt.Snapshot()) && rt.log == old(rt.log) + Rebind(Repositories(props), tx)
  {
    var repositories := GetRepositories(props);
    var i := 0;
    while i < |repositories|
      invariant 0 <= i <= |repositories|
      invariant rt.Snapshot() == old(rt.Snapshot())
      invariant rt.log == old(rt.log) + Rebind(repositories[..i], tx)
    {
      assert Rebind(repositories[..i + 1], tx) == Rebind(repositories[..i], tx) + [SetDbAccess(repositories[i].name, tx)];
      rt.GrantDbAccess(repositories[i].name, tx);
      i := i + 1;
    }
    assert repositories[..i] == repositories;
  }

  /** Rebinds the repositories when there is a transaction, then extracts the parameters, runs the operation and commits. */
  method RunBody(rt: Runtime, env: Env, c: Controller, req: Request, transaction: Option<nat>) returns (result: Completion<Reply>)
    requires rt.Valid()
    modifies rt
    ensures rt.Valid()
    ensures var a := Body(c, env, req, old(rt.Snapshot()), transaction);
      && result == a.result && rt.Snapshot() == a.state && rt.log == old(rt.log) + a.events
  {
    ghost var s0 := rt.Snapshot();
    BodyParts(c, env, req, s0, transaction);
    ghost var bind := Binding(c, transaction);
    if transaction.Some? {
      RebindRepositories(rt, c.op.props, transaction.value);
    }
    assert rt.Snapshot() == s0 && rt.log == old(rt.log) + bind;
    ghost var e := Extract(c, env, req, s0, transaction);
    result := ExtractAndRun(rt, env, c, req, transaction);
    AppendAssoc(old(rt.log), bind, e.events);
  }

  /** `paramsCb(req)`, `service.run(params)` and the commit of an owned transaction. */
  method ExtractAndRun(rt: Runtime, env: Env, c: Controller, req: Request, transaction: Option<nat>) returns (result: Completion<Reply>)
    requires rt.Valid()
    modifies rt
    ensures rt.Valid()
    ensures var a := Extract(c, env, req, old(rt.Snapshot()), transaction);
      && result == a.result && rt.Snapshot() == a.state && rt.log == old(rt.log) + a.events
  {
    var params := c.paramsCb(req);
    if params.Throw? {
      return Throw(params.thrown);
    }
    ghost var o := RunSpec(c.op, params.value, rt.store, env.users);
    var run := Run(rt, c.op, env.users, params.value);
    if run.Throw? {
      return Throw(run.thrown);
    }
    ghost var f := Finish(c, env, rt.Snapshot(), transaction, run.value);
    if c.parent.None? && transaction.Some? {
      var failure := rt.CommitTx(env, transaction.value);
      if failure.Some? {
        return Throw(failure.value);
      }
    }
    result := Normal(SuccessReply(run.value));
  }

  /**
   * The controller handling one request: the `try` block, then on a throw the rollback of an owned
   * transaction and the translation, and finally the default response handler.
   */
  method HandleRequest(rt: Runtime, res: Response, env: Env, c: Controller, req: Request) returns (reply: Reply)
    requires rt.Valid()
    modifies rt, res
    ensures rt.Valid()
    ensures var o := Pipeline(c, env, req, old(rt.Snapshot()));
      && reply == o.reply && rt.Snapshot() == o.state && rt.log == old(rt.log) + o.events
    ensures res.headers == SetHeaders(old(res.headers), reply.headers)
    ensures res.status == reply.code && res.body == Some(ResultBody(reply.result))
  {
    var result, transaction := TryBody(rt, env, c, req);
    if result.Throw? {
      if c.parent.None? && transaction.Some? {
        rt.RollbackTx(transaction.value);
      }
      reply := Translate(result.thrown);
    } else {
      reply := result.value;
    }
    DefaultResponseHandler(res, reply);
  }
}
