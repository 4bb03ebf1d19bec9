/**
 * The collaborators the pipeline calls: the memory store (revocations and cached users), the
 * dependency container used as the rate-limiter registry, the rate limiters, the database's
 * transactions and the users repository. Each call is recorded in a log of events, so that order
 * and "exactly once" can be stated about it.
 */
module Collaborators {
  import opened Js

  /** The client's network identity, as extracted from the request. */
  type Ip = string

  /** A declared rate-limit policy: at most `points` per `duration` seconds in the namespace `keyPrefix`. */
  datatype Policy = Policy(keyPrefix: string, points: int, duration: int, blockDuration: int)

  /** What a limiter's `get(ip)` reports for a client that has a record. */
  datatype LimiterRes = LimiterRes(consumedPoints: int, msBeforeNext: int)

  /** One call into a collaborator. Limiters and transactions are named by number. */
  datatype Event =
    | StoreGet(key: Value)
    | StoreSet(key: Value, value: Value)
    | LimiterGet(limiter: nat, ip: Ip)
    | LimiterConsume(limiter: nat, ip: Ip)
    | TxBegin(tx: nat)
    | SetDbAccess(repository: string, tx: nat)
    | RepoFind(key: Value)
    | Execute(params: Value)
    | Commit(tx: nat)
    | Rollback(tx: nat)

  /** Opening, committing or rolling back a transaction. */
  predicate IsTransactionEvent(e: Event) {
    e.TxBegin? || e.Commit? || e.Rollback?
  }

  /** The users repository: what `findById(key)` returns or throws; a missing key finds nothing. */
  type Users = map<Value, Completion<Value>>

  /**
   * How the external services answer during one request: the distributed counters per key prefix
   * (for this client), the value a limiter's `consume` rejects with, whether opening or committing
   * a transaction throws, and the users repository.
   */
  datatype Env = Env(
    counters: map<string, LimiterRes>,
    rejections: map<string, Thrown>,
    beginError: Option<Thrown>,
    commitError: Option<Thrown>,
    users: Users)

  /** `memoryStorage.getValue(key)`: null for a key that holds nothing. */
  function Lookup(store: map<Value, Value>, key: Value): Value {
    if key in store then store[key] else Null
  }

  /** `usersRepo.findById(key)` */
  function FindById(users: Users, key: Value): Completion<Value> {
    if key in users then users[key] else Normal(Undefined)
  }

  /** `limiter.get(ip)` for the limiter of `keyPrefix`: None is null (no record). */
  function CounterOf(env: Env, keyPrefix: string): Option<LimiterRes> {
    if keyPrefix in env.counters then Some(env.counters[keyPrefix]) else None
  }

  /** The value `limiter.consume(ip)` rejects with, if it rejects. */
  function RejectionOf(env: Env, keyPrefix: string): Option<Thrown> {
    if keyPrefix in env.rejections then Some(env.rejections[keyPrefix]) else None
  }

  /**
   * The process state the pipeline changes: the memory store, the registry binding key prefixes
   * to limiters, the limiters created so far (with the policy each was created from), and the
   * number of transactions opened so far.
   */
  datatype State = State(store: map<Value, Value>, registry: map<string, nat>, limiters: seq<Policy>, txOpened: nat)

  /** The registry and the limiter table agree: each bound prefix names its own limiter, and each limiter is bound. */
  predicate RegistryValid(registry: map<string, nat>, limiters: seq<Policy>) {
    && (forall k :: k in registry ==> registry[k] < |limiters| && limiters[registry[k]].keyPrefix == k)
    && (forall i :: 0 <= i < |limiters| ==> limiters[i].keyPrefix in registry && registry[limiters[i].keyPrefix] == i)
  }

  /** At most one limiter exists per key prefix. */
  lemma OneLimiterPerPrefix(registry: map<string, nat>, limiters: seq<Policy>, i: nat, j: nat)
    requires RegistryValid(registry, limiters)
    requires i < |limiters| && j < |limiters| && limiters[i].keyPrefix == limiters[j].keyPrefix
    ensures i == j
  {
  }

  class Runtime {
    var store: map<Value, Value>
    var registry: map<string, nat>
    var limiters: seq<Policy>
    var txOpened: nat
    var log: seq<Event>

    ghost predicate Valid()
      reads this`registry, this`limiters
    {
      RegistryValid(registry, limiters)
    }

    function Snapshot(): State
      reads this
    {
      State(store, registry, limiters, txOpened)
    }

    constructor (store: map<Value, Value>)
      ensures Valid() && Snapshot() == State(store, map[], [], 0) && log == []
    {
      this.store := store;
      registry, limiters, txOpened, log := map[], [], 0, [];
    }

    /** `memoryStorage.getValue(key)` */
    method GetValue(key: Value) returns (v: Value)
      modifies this
      ensures v == Lookup(store, key)
      ensures Snapshot() == old(Snapshot()) && log == old(log) + [StoreGet(key)]
    {
      v := Lookup(store, key);
      log := log + [StoreGet(key)];
    }

    /** `memoryStorage.setValue(key, value)` */
    method SetValue(key: Value, value: Value)
      modifies this
      ensures Snapshot() == old(Snapshot()).(store := old(store)[key := value])
      ensures log == old(log) + [StoreSet(key, value)]
    {
      store := store[key := value];
      log := log + [StoreSet(key, value)];
    }

    /** `usersRepo.findById(key)` */
    method FindUser(users: Users, key: Value) returns (r: Completion<Value>)
      modifies this
      ensures r == FindById(users, key)
      ensures Snapshot() == old(Snapshot()) && log == old(log) + [RepoFind(key)]
    {
      r := FindById(users, key);
      log := log + [RepoFind(key)];
    }

    /** `container.bind(policy.keyPrefix).toConstantValue(new RateLimiterRedis(policy))` */
    method Bind(policy: Policy) returns (id: nat)
      requires Valid() && policy.keyPrefix !in registry
      modifies this
      ensures Valid()
      ensures id == |old(limiters)| && limiters == old(limiters) + [policy]
      ensures registry == old(registry)[policy.keyPrefix := id]
      ensures store == old(store) && txOpened == old(txOpened) && log == old(log)
    {
      id := |limiters|;
      limiters := limiters + [policy];
      registry := registry[policy.keyPrefix := id];
    }

    /** `limiter.get(ip)` */
    method GetState(env: Env, id: nat, ip: Ip) returns (r: Option<LimiterRes>)
      requires id < |limiters|
      modifies this
      ensures r == CounterOf(env, old(limiters)[id].keyPrefix)
      ensures Snapshot() == old(Snapshot()) && log == old(log) + [LimiterGet(id, ip)]
    {
      r := CounterOf(env, limiters[id].keyPrefix);
      log := log + [LimiterGet(id, ip)];
    }

    /** `limiter.consume(ip)`: returns what it rejects with, if it rejects. */
    method Consume(env: Env, id: nat, ip: Ip) returns (rejection: Option<Thrown>)
      requires id < |limiters|
      modifies this
      ensures rejection == RejectionOf(env, old(limiters)[id].keyPrefix)
      ensures Snapshot() == old(Snapshot()) && log == old(log) + [LimiterConsume(id, ip)]
    {
      rejection := RejectionOf(env, limiters[id].keyPrefix);
      log := log + [LimiterConsume(id, ip)];
    }

    /** `db.transaction()`: a fresh transaction, numbered by how many were opened before. */
    method BeginTransaction(env: Env) returns (r: Completion<nat>)
      modifies this
      ensures env.beginError.Some? ==> r == Throw(env.beginError.value) && Snapshot() == old(Snapshot()) && log == old(log)
      ensures env.beginError.None? ==>
        && r == Normal(old(txOpened))
        && Snapshot() == old(Snapshot()).(txOpened := old(txOpened) + 1)
        && log == old(log) + [TxBegin(old(txOpened))]
    {
      if env.beginError.Some? {
        r := Throw(env.beginError.value);
      } else {
        r := Normal(txOpened);
        log := log + [TxBegin(txOpened)];
        txOpened := txOpened + 1;
      }
    }

    /** `repository.setDbAccess(transaction)` */
    method GrantDbAccess(repository: string, tx: nat)
      modifies this
      ensures Snapshot() == old(Snapshot()) && log == old(log) + [SetDbAccess(repository, tx)]
    {
      log := log + [SetDbAccess(repository, tx)];
    }

    /** `transaction.commit()`: returns what it throws, if it throws. */
    method CommitTx(env: Env, tx: nat) returns (failure: Option<Thrown>)
      modifies this
      ensures failure == env.commitError
      ensures Snapshot() == old(Snapshot()) && log == old(log) + [Commit(tx)]
    {
      failure := env.commitError;
      log := log + [Commit(tx)];
    }

    /** `transaction.rollback()` */
    method RollbackTx(tx: nat)
      modifies this
      ensures Snapshot() == old(Snapshot()) && log == old(log) + [Rollback(tx)]
    {
      log := log + [Rollback(tx)];
    }

    /** `execute(params)` is called; its outcome is the operation's own function of the params. */
    method CallExecute(execute: Value -> Completion<Value>, params: Value) returns (r: Completion<Value>)
      modifies this
      ensures r == execute(params)
      ensures Snapshot() == old(Snapshot()) && log == old(log) + [Execute(params)]
    {
      r := execute(params);
      log := log + [Execute(params)];
    }
  }
}
