/** `fnCtrlWrapper`: one request through the dispatcher. An optional token
    gate, then inside a `try`: acquisition of up to three store connections,
    controller resolution, an optional transaction, the `tmsBeforeEach` hook
    and the method call; a `catch` that turns an exception into a
    `ResultFault` (and itself throws when the exception cannot be converted
    to text), and a `finally` that ends the relational connection.

    Every collaborator the handler calls is an oracle in `World`: the
    token service accepts or rejects, and the store clients, transaction
    begin and controller members either return a value or throw. The
    handler yields the response body and the trace of events it caused.

    The handler is written stage by stage, as the source is; `ExpectedTrace`
    and `ExpectedBody` describe its result again in closed form, and
    `HandleIsExpected` proves the two agree. */
module Dispatch {
  import opened Base
  import Faults
  import Prefix
  import Resolver

  /** The identity `Token.fetch` yields; `id` becomes the transaction's user. */
  datatype Client = Client(id: string)

  /** An arbitrary value returned by a controller method, identified by its
      serialised form. */
  datatype Value = Value(repr: string)

  /** An external call: it returns a value or throws. */
  datatype Call<+T> = Returns(value: T) | Throws(err: Faults.Thrown)

  /** What `tmsBeforeEach` returns: an instance of `ResultFault` with its
      message, or anything else. */
  datatype HookResult = HookFault(message: string) | HookPass

  /** What `Token.fetch` resolves to: `[false, reason]` or `[true, client]`. */
  datatype FetchResult = FetchRejected(reason: string) | FetchAccepted(client: Client)

  /** Process-wide settings read once from `config/app.js`: the raw
      `router.plugins.prefix` and whether `tmsTransaction === true`. */
  datatype Config = Config(prefixSetting: Option<string>, tmsTransaction: bool)

  /** The parts of a request the handler reads: its path and its
      `access_token` query parameter. */
  datatype Request = Request(path: string, accessToken: Option<string>)

  /** Everything outside the handler: the deployment resolution reads, the
      names of the files in the working directory's `config/` folder,
      whether token support is on, and the outcome of each external call
      the handler may make. */
  datatype World = World(
    deployment: Resolver.Deployment,
    configFiles: set<string>,
    tokenSupported: bool,
    fetch: FetchResult,
    newDbContext: Call<()>,
    mongoClient: Call<()>,
    mongoose: Call<()>,
    requireTransaction: Call<set<string>>,
    begin: Call<()>,
    hook: Call<HookResult>,
    invoke: Call<Value>)

  /** The response body: a general fault, a rejected-token fault, or the
      method's return value as it is. */
  datatype Body =
    | ResultFault(message: string)
    | AccessTokenFault(reason: string)
    | Payload(value: Value)
      /** No body is set: the `catch` block itself threw `err` and the
          handler's promise rejects with it. */
    | Rejected(err: Faults.Thrown)

  /** What the handler does to the world, in the order it can happen.
      Resource events mark a resource that was created; `HookCalled` and
      `MethodCalled` mark a call that was made, whatever it then did. */
  datatype Event =
    | TokenFetched
    | DbCreated
    | MongoConnected
    | MongooseConnected
    | Resolved(ctrlPath: string, methodName: string)
    | TransactionBegun
    | HookCalled
    | MethodCalled
    | NextCalled
    | DbEnded

  /** Position of each event in the handler's fixed stage order. */
  function Rank(e: Event): nat
  {
    match e
    case TokenFetched => 0
    case DbCreated => 1
    case MongoConnected => 2
    case MongooseConnected => 3
    case Resolved(_, _) => 4
    case TransactionBegun => 5
    case HookCalled => 6
    case MethodCalled => 7
    case NextCalled => 8
    case DbEnded => 9
  }

  /** Each event belongs to a later stage than the one before it. */
  predicate Ordered(t: seq<Event>)
  {
    |t| <= 1 || (Rank(t[0]) < Rank(t[1]) && Ordered(t[1..]))
  }

  /** `a` ends before `b` starts: the last event of `a` belongs to an
      earlier stage than the first of `b`. */
  predicate Precedes(a: seq<Event>, b: seq<Event>)
  {
    |a| == 0 || |b| == 0 || Rank(a[|a| - 1]) < Rank(b[0])
  }

  /** Two ordered traces, the first ending before the second starts, form
      an ordered trace. */
  lemma {:induction false} OrderedConcat(a: seq<Event>, b: seq<Event>)
    requires Ordered(a) && Ordered(b) && Precedes(a, b)
    ensures Ordered(a + b)
  {
    if |a| > 1 {
      assert a[1..][|a| - 2] == a[|a| - 1];
      OrderedConcat(a[1..], b);
      assert (a + b)[1..] == a[1..] + b;
    } else if |a| == 1 {
      assert (a + b)[1..] == b;
    } else {
      assert a + b == b;
    }
  }

  /** In an ordered trace no event ranks below the first. */
  lemma {:induction false} RankAtLeastFirst(t: seq<Event>, k: nat)
    requires Ordered(t) && k < |t|
    ensures Rank(t[0]) <= Rank(t[k])
  {
    if k > 0 {
      RankAtLeastFirst(t[1..], k - 1);
    }
  }

  /** In an ordered trace no event ranks above the last. */
  lemma {:induction false} RankAtMostLast(t: seq<Event>, k: nat)
    requires Ordered(t) && k < |t|
    ensures Rank(t[k]) <= Rank(t[|t| - 1])
  {
    if k < |t| - 1 {
      RankAtMostLast(t[1..], if k == 0 then 0 else k - 1);
    }
  }

  /** An event ranking outside the span of an ordered trace is not in it. */
  lemma OrderedExcludes(t: seq<Event>, e: Event)
    requires Ordered(t) && |t| > 0 && (Rank(e) < Rank(t[0]) || Rank(t[|t| - 1]) < Rank(e))
    ensures e !in t
  {
    if e in t {
      var k :| 0 <= k < |t| && t[k] == e;
      RankAtLeastFirst(t, k);
      RankAtMostLast(t, k);
    }
  }

  /** How the `try` block ended: normally with a body set, or by a throw. */
  datatype Exit = Finished(body: Body) | Raised(err: Faults.Thrown)

  /** The handler's state inside the `try`: the events so far, whether the
      `dbContext` variable holds a connection, and the exit once reached. */
  datatype State = State(trace: seq<Event>, dbContext: bool, exit: Option<Exit>)

  /** The handler's result: the body the client receives and the trace. */
  datatype Response = Response(body: Body, trace: seq<Event>)

  function Emit(s: State, e: Event): State
  {
    s.(trace := s.trace + [e])
  }

  /** `[e]` when `c` holds, nothing otherwise. */
  function When(c: bool, e: Event): seq<Event>
  {
    if c then [e] else []
  }

  function Raise(s: State, err: Faults.Thrown): State
  {
    s.(exit := Some(Raised(err)))
  }

  /** `fs.existsSync(process.cwd() + '/config/' + name)`. */
  predicate ConfigPresent(w: World, name: string)
  {
    name in w.configFiles
  }

  /** The relational connection gets created: `config/db.js` exists and
      `new DbContext()` returns. */
  predicate DbOpened(w: World)
  {
    ConfigPresent(w, "db.js") && w.newDbContext.Returns?
  }

  /** The MongoDB client gets connected: the relational stage did not
      throw, `config/mongodb.js` exists and `MongoContext.mongoClient()`
      returns. */
  predicate MongoOpened(w: World)
  {
    (ConfigPresent(w, "db.js") ==> w.newDbContext.Returns?) && ConfigPresent(w, "mongodb.js") && w.mongoClient.Returns?
  }

  /** The mongoose connection gets made: neither earlier stage threw,
      `config/mongoose.js` exists and `MongooseContext.mongoose()`
      returns. */
  predicate MongooseOpened(w: World)
  {
    && (ConfigPresent(w, "db.js") ==> w.newDbContext.Returns?)
    && (ConfigPresent(w, "mongodb.js") ==> w.mongoClient.Returns?)
    && ConfigPresent(w, "mongoose.js") && w.mongoose.Returns?
  }

  /** No configured store's acquisition throws. */
  predicate Provisioned(w: World)
  {
    && (ConfigPresent(w, "db.js") ==> w.newDbContext.Returns?)
    && (ConfigPresent(w, "mongodb.js") ==> w.mongoClient.Returns?)
    && (ConfigPresent(w, "mongoose.js") ==> w.mongoose.Returns?)
  }

  /** The exception of the first configured acquisition that throws, in the
      order relational store, MongoDB, mongoose; none when all succeed. */
  function ProvisionFault(w: World): (f: Option<Faults.Thrown>)
    ensures f.None? <==> Provisioned(w)
  {
    if ConfigPresent(w, "db.js") && w.newDbContext.Throws? then Some(w.newDbContext.err)
    else if ConfigPresent(w, "mongodb.js") && w.mongoClient.Throws? then Some(w.mongoClient.err)
    else if ConfigPresent(w, "mongoose.js") && w.mongoose.Throws? then Some(w.mongoose.err)
    else None
  }

  /** The connections made, in acquisition order. */
  function StoreEvents(w: World): (t: seq<Event>)
    ensures DbCreated in t <==> DbOpened(w)
  {
    When(DbOpened(w), DbCreated) + When(MongoOpened(w), MongoConnected) + When(MongooseOpened(w), MongooseConnected)
  }

  /** Events of the three store stages, each recorded or not, come in
      stage order. */
  lemma StoreStagesOrdered(a: bool, b: bool, c: bool)
    ensures var t := When(a, DbCreated) + When(b, MongoConnected) + When(c, MongooseConnected);
      Ordered(t) && (|t| > 0 ==> Rank(DbCreated) <= Rank(t[0]) && Rank(t[|t| - 1]) <= Rank(MongooseConnected))
  {
    var db, mongo, mongoose := When(a, DbCreated), When(b, MongoConnected), When(c, MongooseConnected);
    OrderedConcat(db, mongo);
    OrderedConcat(db + mongo, mongoose);
  }

  /** The connections are made in stage order. */
  lemma StoreEventsOrdered(w: World)
    ensures var r := StoreEvents(w);
      Ordered(r) && (|r| > 0 ==> Rank(DbCreated) <= Rank(r[0]) && Rank(r[|r| - 1]) <= Rank(MongooseConnected))
  {
    StoreStagesOrdered(DbOpened(w), MongoOpened(w), MongooseOpened(w));
  }

  /** `new DbContext()` when `config/db.js` exists; a throw ends the `try`
      block with no connection held. */
  function OpenDb(w: World): (s: State)
    ensures s.dbContext <==> DbOpened(w)
    ensures s.trace == When(DbOpened(w), DbCreated)
    ensures s.exit.Some? <==> ConfigPresent(w, "db.js") && w.newDbContext.Throws?
    ensures s.exit.Some? ==> s.exit == Some(Raised(w.newDbContext.err))
  {
    var s0 := State([], false, None);
    if !ConfigPresent(w, "db.js") then s0
    else match w.newDbContext
      case Throws(err) => Raise(s0, err)
      case Returns(_) => State([DbCreated], true, None)
  }

  /** Acquisition of one document-store client when its configuration file
      exists. */
  function Connect(s: State, configured: bool, call: Call<()>, e: Event): (r: State)
    requires s.exit.None?
    ensures r.dbContext == s.dbContext
    ensures r.exit.Some? <==> configured && call.Throws?
    ensures r.exit.Some? ==> r.exit == Some(Raised(call.err))
    ensures r.trace == s.trace + When(configured && call.Returns?, e)
  {
    if !configured then s
    else match call
      case Throws(err) => Raise(s, err)
      case Returns(_) => Emit(s, e)
  }

  /** The three store acquisitions, in source order; the first throw ends
      the stage. */
  function Provision(w: World): (s: State)
    ensures s.dbContext <==> DbOpened(w)
    ensures s.exit.None? <==> Provisioned(w)
    ensures s.exit.Some? ==> s.exit == Some(Raised(ProvisionFault(w).value))
    ensures s.trace == StoreEvents(w)
  {
    var s1 := OpenDb(w);
    if s1.exit.Some? then s1
    else
      var s2 := Connect(s1, ConfigPresent(w, "mongodb.js"), w.mongoClient, MongoConnected);
      if s2.exit.Some? then s2
      else Connect(s2, ConfigPresent(w, "mongoose.js"), w.mongoose, MongooseConnected)
  }

  /** The transaction stage asks the controller at all: there is a
      connection, `tmsTransaction` is on and `tmsRequireTransaction` is a
      function. */
  predicate TransactionConsidered(cfg: Config, t: Resolver.Target, dbContext: bool)
  {
    dbContext && cfg.tmsTransaction && Resolver.KindOf(t.ctrl, "tmsRequireTransaction") == Resolver.Function
  }

  /** The controller's `tmsRequireTransaction()` marks the method. */
  predicate TransactionMarked(cfg: Config, w: World, t: Resolver.Target, dbContext: bool)
  {
    TransactionConsidered(cfg, t, dbContext) && w.requireTransaction.Returns? && t.methodName in w.requireTransaction.value
  }

  /** A transaction is begun: the method is marked, there is a client whose
      `id` can be read, and `begin()` returns. */
  predicate TransactionOpens(cfg: Config, w: World, client: Option<Client>, t: Resolver.Target, dbContext: bool)
  {
    TransactionMarked(cfg, w, t, dbContext) && client.Some? && w.begin.Returns?
  }

  /** The transaction stage throws nothing. */
  predicate TransactionPasses(cfg: Config, w: World, client: Option<Client>, t: Resolver.Target, dbContext: bool)
  {
    || !TransactionConsidered(cfg, t, dbContext)
    || (w.requireTransaction.Returns? && t.methodName !in w.requireTransaction.value)
    || TransactionOpens(cfg, w, client, t, dbContext)
  }

  /** The transaction stage: only with a connection, `tmsTransaction` on, a
      `tmsRequireTransaction` function on the controller, and the method
      among those it marks. `tmsClient.id` is read without a check, so with
      no client it throws. The transaction is never ended. */
  function BeginTransaction(cfg: Config, w: World, client: Option<Client>, t: Resolver.Target, s: State): (r: State)
    requires s.exit.None?
    ensures r.dbContext == s.dbContext
    ensures r.trace == s.trace + When(TransactionOpens(cfg, w, client, t, s.dbContext), TransactionBegun)
    ensures r.exit.None? <==> TransactionPasses(cfg, w, client, t, s.dbContext)
    ensures TransactionConsidered(cfg, t, s.dbContext) && w.requireTransaction.Throws? ==>
      r.exit == Some(Raised(w.requireTransaction.err))
    ensures TransactionMarked(cfg, w, t, s.dbContext) && client.None? ==>
      r.exit == Some(Raised(Faults.ReadOfUndefined("id")))
    ensures TransactionMarked(cfg, w, t, s.dbContext) && client.Some? && w.begin.Throws? ==>
      r.exit == Some(Raised(w.begin.err))
  {
    if !(s.dbContext && cfg.tmsTransaction && Resolver.KindOf(t.ctrl, "tmsRequireTransaction") == Resolver.Function) then s
    else match w.requireTransaction
      case Throws(err) => Raise(s, err)
      case Returns(marked) =>
        if t.methodName !in marked then s
        else if client.None? then Raise(s, Faults.ReadOfUndefined("id"))
        else match w.begin
          case Throws(err) => Raise(s, err)
          case Returns(_) => Emit(s, TransactionBegun)
  }

  /** The controller's `tmsBeforeEach` is a function. */
  predicate HookPresent(t: Resolver.Target)
  {
    Resolver.KindOf(t.ctrl, "tmsBeforeEach") == Resolver.Function
  }

  /** The `tmsBeforeEach` stage: called only when it is a function; a
      `ResultFault` it returns becomes the body and ends the `try`. */
  function BeforeEach(w: World, t: Resolver.Target, s: State): (r: State)
    requires s.exit.None?
    ensures r.dbContext == s.dbContext
    ensures r.trace == s.trace + When(HookPresent(t), HookCalled)
    ensures r.exit.None? <==> !HookPresent(t) || w.hook == Returns(HookPass)
    ensures HookPresent(t) && w.hook.Returns? && w.hook.value.HookFault? ==>
      r.exit == Some(Finished(ResultFault(w.hook.value.message)))
    ensures HookPresent(t) && w.hook.Throws? ==> r.exit == Some(Raised(w.hook.err))
  {
    if Resolver.KindOf(t.ctrl, "tmsBeforeEach") != Resolver.Function then s
    else
      var s1 := Emit(s, HookCalled);
      match w.hook
      case Throws(err) => Raise(s1, err)
      case Returns(HookFault(m)) => s1.(exit := Some(Finished(ResultFault(m))))
      case Returns(HookPass) => s1
  }

  /** The controller member named by the method is a function. */
  predicate Callable(t: Resolver.Target)
  {
    Resolver.KindOf(t.ctrl, t.methodName) == Resolver.Function
  }

  /** `oCtrl[method](request)`: throws a `TypeError` for a member that is
      not a function; otherwise its value becomes the body and `next()` runs. */
  function Invoke(w: World, t: Resolver.Target, s: State): (r: State)
    requires s.exit.None?
    ensures r.dbContext == s.dbContext
    ensures r.exit.Some?
    ensures r.trace == s.trace + When(Callable(t), MethodCalled) + When(Callable(t) && w.invoke.Returns?, NextCalled)
    ensures r.exit.value.Finished? <==> Callable(t) && w.invoke.Returns?
    ensures r.exit.value.Finished? ==> r.exit.value.body == Payload(w.invoke.value)
    ensures !Callable(t) ==> r.exit.value == Raised(Faults.NotAFunction("oCtrl[method]"))
    ensures Callable(t) && w.invoke.Throws? ==> r.exit.value == Raised(w.invoke.err)
  {
    if Resolver.KindOf(t.ctrl, t.methodName) != Resolver.Function then Raise(s, Faults.NotAFunction("oCtrl[method]"))
    else
      var s1 := Emit(s, MethodCalled);
      match w.invoke
      case Throws(err) => Raise(s1, err)
      case Returns(v) => Emit(s1, NextCalled).(exit := Some(Finished(Payload(v))))
  }

  /** The method is reached: the transaction stage and the hook let the
      request through. */
  predicate CallReached(cfg: Config, w: World, client: Option<Client>, t: Resolver.Target, dbContext: bool)
  {
    TransactionPasses(cfg, w, client, t, dbContext) && (!HookPresent(t) || w.hook == Returns(HookPass))
  }

  /** The events after `Resolved`, stage by stage: each is recorded exactly
      when every stage before it let the request through and its own
      condition holds. */
  function TargetEvents(cfg: Config, w: World, client: Option<Client>, t: Resolver.Target, dbContext: bool): seq<Event>
  {
    var reached := CallReached(cfg, w, client, t, dbContext) && Callable(t);
    When(TransactionOpens(cfg, w, client, t, dbContext), TransactionBegun)
      + When(TransactionPasses(cfg, w, client, t, dbContext) && HookPresent(t), HookCalled)
      + When(reached, MethodCalled)
      + When(reached && w.invoke.Returns?, NextCalled)
  }

  /** Events of the four stages after resolution, each recorded or not,
      come in stage order. */
  lemma LaterStagesOrdered(a: bool, b: bool, c: bool, d: bool)
    ensures var t := When(a, TransactionBegun) + When(b, HookCalled) + When(c, MethodCalled) + When(d, NextCalled);
      Ordered(t) && (|t| > 0 ==> Rank(TransactionBegun) <= Rank(t[0]) && Rank(t[|t| - 1]) <= Rank(NextCalled))
  {
    var tx, hook, call, next := When(a, TransactionBegun), When(b, HookCalled), When(c, MethodCalled), When(d, NextCalled);
    OrderedConcat(tx, hook);
    OrderedConcat(tx + hook, call);
    OrderedConcat(tx + hook + call, next);
  }

  /** The later stages' events come in stage order. */
  lemma TargetEventsOrdered(cfg: Config, w: World, client: Option<Client>, t: Resolver.Target, dbContext: bool)
    ensures var r := TargetEvents(cfg, w, client, t, dbContext);
      Ordered(r) && (|r| > 0 ==> Rank(TransactionBegun) <= Rank(r[0]) && Rank(r[|r| - 1]) <= Rank(NextCalled))
  {
    var reached := CallReached(cfg, w, client, t, dbContext) && Callable(t);
    LaterStagesOrdered(TransactionOpens(cfg, w, client, t, dbContext),
      TransactionPasses(cfg, w, client, t, dbContext) && HookPresent(t), reached, reached && w.invoke.Returns?);
  }

  /** How the `try` block ends once the target is resolved, as a decision
      list over the checks in the order the handler meets them. */
  function TargetExit(cfg: Config, w: World, client: Option<Client>, t: Resolver.Target, dbContext: bool): Exit
  {
    if TransactionConsidered(cfg, t, dbContext) && w.requireTransaction.Throws? then Raised(w.requireTransaction.err)
    else if TransactionMarked(cfg, w, t, dbContext) && client.None? then Raised(Faults.ReadOfUndefined("id"))
    else if TransactionMarked(cfg, w, t, dbContext) && w.begin.Throws? then Raised(w.begin.err)
    else if HookPresent(t) && w.hook.Throws? then Raised(w.hook.err)
    else if HookPresent(t) && w.hook.value.HookFault? then Finished(ResultFault(w.hook.value.message))
    else if !Callable(t) then Raised(Faults.NotAFunction("oCtrl[method]"))
    else if w.invoke.Throws? then Raised(w.invoke.err)
    else Finished(Payload(w.invoke.value))
  }

  /** `findCtrlAndMethod` applied to the request with the configured prefix. */
  function Resolution(cfg: Config, req: Request, w: World): Result<Resolver.Target, Resolver.ResolveError>
  {
    Resolver.Resolve(w.deployment, Prefix.Normalise(cfg.prefixSetting), req.path)
  }

  /** The `try` block, from store acquisition to the method call. */
  function TryBlock(cfg: Config, req: Request, w: World, client: Option<Client>): (s: State)
    ensures s.exit.Some?
    ensures s.dbContext <==> DbOpened(w)
  {
    var s1 := Provision(w);
    if s1.exit.Some? then s1
    else match Resolution(cfg, req, w)
      case Err(e) => Raise(s1, Resolver.ThrownBy(e))
      case Ok(t) => RunTarget(cfg, w, client, t, s1)
  }

  /** The stages after a successful resolution: transaction, hook, call. */
  function RunTarget(cfg: Config, w: World, client: Option<Client>, t: Resolver.Target, s1: State): (s: State)
    requires s1.exit.None?
    ensures s.exit.Some?
    ensures s.dbContext == s1.dbContext
  {
    var s2 := Emit(s1, Resolved(t.ctrlPath, t.methodName));
    var s3 := BeginTransaction(cfg, w, client, t, s2);
    if s3.exit.Some? then s3
    else
      var s4 := BeforeEach(w, t, s3);
      if s4.exit.Some? then s4
      else Invoke(w, t, s4)
  }

  /** The stages after resolution record exactly the events of
      `TargetEvents`. */
  lemma RunTargetTrace(cfg: Config, w: World, client: Option<Client>, t: Resolver.Target, s1: State)
    requires s1.exit.None?
    ensures RunTarget(cfg, w, client, t, s1).trace ==
      s1.trace + [Resolved(t.ctrlPath, t.methodName)] + TargetEvents(cfg, w, client, t, s1.dbContext)
  {
    if !TransactionPasses(cfg, w, client, t, s1.dbContext) {
      TransactionFailsTrace(cfg, w, client, t, s1);
    } else if !CallReached(cfg, w, client, t, s1.dbContext) {
      HookStopsTrace(cfg, w, client, t, s1);
    } else {
      CallTrace(cfg, w, client, t, s1);
    }
  }

  /** The events when the transaction stage throws. */
  lemma TransactionFailsTrace(cfg: Config, w: World, client: Option<Client>, t: Resolver.Target, s1: State)
    requires s1.exit.None? && !TransactionPasses(cfg, w, client, t, s1.dbContext)
    ensures RunTarget(cfg, w, client, t, s1).trace ==
      s1.trace + [Resolved(t.ctrlPath, t.methodName)] + TargetEvents(cfg, w, client, t, s1.dbContext)
  {
    var s2 := Emit(s1, Resolved(t.ctrlPath, t.methodName));
    var s3 := BeginTransaction(cfg, w, client, t, s2);
    var tx := When(TransactionOpens(cfg, w, client, t, s1.dbContext), TransactionBegun);
    assert RunTarget(cfg, w, client, t, s1) == s3;
    assert TargetEvents(cfg, w, client, t, s1.dbContext) == tx + [] + [] + [];
  }

  /** The events when the hook ends the `try` block. */
  lemma HookStopsTrace(cfg: Config, w: World, client: Option<Client>, t: Resolver.Target, s1: State)
    requires s1.exit.None?
    requires TransactionPasses(cfg, w, client, t, s1.dbContext) && !CallReached(cfg, w, client, t, s1.dbContext)
    ensures RunTarget(cfg, w, client, t, s1).trace ==
      s1.trace + [Resolved(t.ctrlPath, t.methodName)] + TargetEvents(cfg, w, client, t, s1.dbContext)
  {
    var s2 := Emit(s1, Resolved(t.ctrlPath, t.methodName));
    var s3 := BeginTransaction(cfg, w, client, t, s2);
    var s4 := BeforeEach(w, t, s3);
    var tx := When(TransactionOpens(cfg, w, client, t, s1.dbContext), TransactionBegun);
    var hook := When(HookPresent(t), HookCalled);
    assert RunTarget(cfg, w, client, t, s1) == s4;
    assert TargetEvents(cfg, w, client, t, s1.dbContext) == tx + hook + [] + [];
  }

  /** The events when the method is reached. */
  lemma CallTrace(cfg: Config, w: World, client: Option<Client>, t: Resolver.Target, s1: State)
    requires s1.exit.None? && CallReached(cfg, w, client, t, s1.dbContext)
    ensures RunTarget(cfg, w, client, t, s1).trace ==
      s1.trace + [Resolved(t.ctrlPath, t.methodName)] + TargetEvents(cfg, w, client, t, s1.dbContext)
  {
    var s2 := Emit(s1, Resolved(t.ctrlPath, t.methodName));
    var s3 := BeginTransaction(cfg, w, client, t, s2);
    var s4 := BeforeEach(w, t, s3);
    var s5 := Invoke(w, t, s4);
    var tx := When(TransactionOpens(cfg, w, client, t, s1.dbContext), TransactionBegun);
    var hook := When(HookPresent(t), HookCalled);
    var call, next := When(Callable(t), MethodCalled), When(Callable(t) && w.invoke.Returns?, NextCalled);
    assert RunTarget(cfg, w, client, t, s1) == s5;
    assert TargetEvents(cfg, w, client, t, s1.dbContext) == tx + hook + call + next;
    AppendAssoc(s2.trace, tx, hook, call, next);
  }

  /** The stages after resolution end as `TargetExit` says. */
  lemma RunTargetExit(cfg: Config, w: World, client: Option<Client>, t: Resolver.Target, s1: State)
    requires s1.exit.None?
    ensures RunTarget(cfg, w, client, t, s1).exit == Some(TargetExit(cfg, w, client, t, s1.dbContext))
  {
    var s2 := Emit(s1, Resolved(t.ctrlPath, t.methodName));
    var s3 := BeginTransaction(cfg, w, client, t, s2);
    if s3.exit.None? {
      var s4 := BeforeEach(w, t, s3);
      if s4.exit.None? {
        var s5 := Invoke(w, t, s4);
      }
    }
  }

  /** The events of the `try` block for a given resolution result: the
      store connections made, then, when all configured stores are
      connected and the target resolves, the resolution and the events of
      the later stages. */
  function TryEvents(cfg: Config, w: World, client: Option<Client>,
                     res: Result<Resolver.Target, Resolver.ResolveError>): seq<Event>
  {
    if Provisioned(w) && res.Ok? then
      StoreEvents(w) + [Resolved(res.value.ctrlPath, res.value.methodName)] + TargetEvents(cfg, w, client, res.value, DbOpened(w))
    else StoreEvents(w)
  }

  /** The store events, the resolution and the later stages' events, each
      part in stage order, form a trace in stage order. */
  lemma AroundResolution(stores: seq<Event>, resolved: Event, later: seq<Event>)
    requires Rank(resolved) == Rank(Resolved("", ""))
    requires Ordered(stores)
    requires |stores| > 0 ==> Rank(DbCreated) <= Rank(stores[0]) && Rank(stores[|stores| - 1]) <= Rank(MongooseConnected)
    requires Ordered(later)
    requires |later| > 0 ==> Rank(TransactionBegun) <= Rank(later[0]) && Rank(later[|later| - 1]) <= Rank(NextCalled)
    ensures var r := stores + [resolved] + later;
      Ordered(r) && Rank(TokenFetched) < Rank(r[0]) && Rank(r[|r| - 1]) < Rank(DbEnded)
  {
    OrderedConcat(stores, [resolved]);
    OrderedConcat(stores + [resolved], later);
    var r := stores + [resolved] + later;
    assert r[0] == if |stores| > 0 then stores[0] else resolved;
    assert r[|r| - 1] == if |later| > 0 then later[|later| - 1] else resolved;
  }

  /** The `try` block's events come in stage order, after the token and
      before the end of the connection. */
  lemma TryEventsOrdered(cfg: Config, w: World, client: Option<Client>, res: Result<Resolver.Target, Resolver.ResolveError>)
    ensures var r := TryEvents(cfg, w, client, res);
      Ordered(r) && (|r| > 0 ==> Rank(TokenFetched) < Rank(r[0]) && Rank(r[|r| - 1]) < Rank(DbEnded))
  {
    if Provisioned(w) && res.Ok? {
      ResolvedEventsOrdered(cfg, w, client, res.value);
    } else {
      StoreEventsOrdered(w);
    }
  }

  /** The `try` block's events when the target resolves come in stage
      order. */
  lemma ResolvedEventsOrdered(cfg: Config, w: World, client: Option<Client>, t: Resolver.Target)
    ensures var r := StoreEvents(w) + [Resolved(t.ctrlPath, t.methodName)] + TargetEvents(cfg, w, client, t, DbOpened(w));
      Ordered(r) && Rank(TokenFetched) < Rank(r[0]) && Rank(r[|r| - 1]) < Rank(DbEnded)
  {
    StoreEventsOrdered(w);
    TargetEventsOrdered(cfg, w, client, t, DbOpened(w));
    AroundResolution(StoreEvents(w), Resolved(t.ctrlPath, t.methodName), TargetEvents(cfg, w, client, t, DbOpened(w)));
  }

  /** How the `try` block ends for a given resolution result: the first
      store acquisition that throws, else the resolution error, else the
      outcome of the later stages. */
  function TryExit(cfg: Config, w: World, client: Option<Client>, res: Result<Resolver.Target, Resolver.ResolveError>): Exit
  {
    if ProvisionFault(w).Some? then Raised(ProvisionFault(w).value)
    else match res
      case Err(e) => Raised(Resolver.ThrownBy(e))
      case Ok(t) => TargetExit(cfg, w, client, t, DbOpened(w))
  }

  /** The `try` block records exactly `TryEvents` and ends as `TryExit`
      says. */
  lemma TryBlockOutcome(cfg: Config, req: Request, w: World, client: Option<Client>)
    ensures TryBlock(cfg, req, w, client).trace == TryEvents(cfg, w, client, Resolution(cfg, req, w))
    ensures TryBlock(cfg, req, w, client).exit == Some(TryExit(cfg, w, client, Resolution(cfg, req, w)))
  {
    var s1 := Provision(w);
    if s1.exit.None? && Resolution(cfg, req, w).Ok? {
      var t := Resolution(cfg, req, w).value;
      RunTargetTrace(cfg, w, client, t, s1);
      RunTargetExit(cfg, w, client, t, s1);
    }
  }

  /** The `catch` block: a thrown string is the message as it is; anything
      else is converted with `toString()`, which itself throws for
      `undefined`, `null` and values whose `toString` is missing or fails,
      so that no body is set. */
  function Catch(x: Exit): (b: Body)
    ensures x.Finished? ==> b == x.body
    ensures x.Raised? && Faults.Convertible(x.err) ==> b == ResultFault(Faults.FaultMessage(x.err))
    ensures x.Raised? && !Faults.Convertible(x.err) ==> b == Rejected(Faults.ToStringFailure(x.err))
  {
    match x
    case Finished(body) => body
    case Raised(err) =>
      if Faults.Convertible(err) then ResultFault(Faults.FaultMessage(err))
      else Rejected(Faults.ToStringFailure(err))
  }

  /** The `finally` block: end the relational connection if there is one
      and clear the variable. */
  function Finally(s: State): (r: State)
    ensures r.exit == s.exit && !r.dbContext
    ensures r.trace == s.trace + When(s.dbContext, DbEnded)
  {
    if s.dbContext then Emit(s, DbEnded).(dbContext := false) else s
  }

  /** `!access_token`: absent or empty. */
  predicate HasToken(req: Request)
  {
    req.accessToken.Some? && req.accessToken.value != ""
  }

  /** The request gets past the token gate. */
  predicate Admitted(req: Request, w: World)
  {
    !w.tokenSupported || (HasToken(req) && w.fetch.FetchAccepted?)
  }

  /** `tmsClient` after the token gate: the fetched client, or `undefined`
      when token support is off. */
  function ClientOf(w: World): Option<Client>
  {
    if w.tokenSupported && w.fetch.FetchAccepted? then Some(w.fetch.client) else None
  }

  /** `fnCtrlWrapper`. The token gate sits outside the `try`: its two
      rejections set the body and return before anything else happens. */
  function Handle(cfg: Config, req: Request, w: World): (r: Response)
    ensures w.tokenSupported && !HasToken(req) ==>
      r == Response(ResultFault(Faults.MissingTokenMessage), [])
    ensures w.tokenSupported && HasToken(req) && w.fetch.FetchRejected? ==>
      r == Response(AccessTokenFault(w.fetch.reason), [TokenFetched])
  {
    if w.tokenSupported && !HasToken(req) then
      Response(ResultFault(Faults.MissingTokenMessage), [])
    else if w.tokenSupported && w.fetch.FetchRejected? then
      Response(AccessTokenFault(w.fetch.reason), [TokenFetched])
    else
      var s := Finally(TryBlock(cfg, req, w, ClientOf(w)));
      Response(Catch(s.exit.value), When(w.tokenSupported, TokenFetched) + s.trace)
  }

  /** The handler's events as one closed definition over the world and
      the result of resolution, with no intermediate states: nothing when
      the token is missing, only the fetch when it is rejected, and
      otherwise the fetch when token support is on, the events of the `try`
      block and the connection's end exactly when it was created. */
  function ExpectedTrace(cfg: Config, req: Request, w: World, res: Result<Resolver.Target, Resolver.ResolveError>): seq<Event>
  {
    if w.tokenSupported && !HasToken(req) then []
    else if w.tokenSupported && w.fetch.FetchRejected? then [TokenFetched]
    else When(w.tokenSupported, TokenFetched) + TryEvents(cfg, w, ClientOf(w), res) + When(DbOpened(w), DbEnded)
  }

  /** The handler's body as one closed definition: the token gate's two
      rejections, and otherwise what the `catch` block makes of the way the
      `try` block ended. */
  function ExpectedBody(cfg: Config, req: Request, w: World, res: Result<Resolver.Target, Resolver.ResolveError>): Body
  {
    if w.tokenSupported && !HasToken(req) then ResultFault(Faults.MissingTokenMessage)
    else if w.tokenSupported && w.fetch.FetchRejected? then AccessTokenFault(w.fetch.reason)
    else Catch(TryExit(cfg, w, ClientOf(w), res))
  }

  /** The staged handler gives exactly the closed definitions' events and
      body. */
  lemma HandleIsExpected(cfg: Config, req: Request, w: World)
    ensures Handle(cfg, req, w).trace == ExpectedTrace(cfg, req, w, Resolution(cfg, req, w))
    ensures Handle(cfg, req, w).body == ExpectedBody(cfg, req, w, Resolution(cfg, req, w))
  {
    if Admitted(req, w) {
      AdmittedTrace(cfg, req, w);
      AdmittedBody(cfg, req, w);
    }
  }

  /** The events of an admitted request, from the `try` block's. */
  lemma AdmittedTrace(cfg: Config, req: Request, w: World)
    requires Admitted(req, w)
    ensures Handle(cfg, req, w).trace ==
      When(w.tokenSupported, TokenFetched) + TryEvents(cfg, w, ClientOf(w), Resolution(cfg, req, w)) + When(DbOpened(w), DbEnded)
  {
    TryBlockOutcome(cfg, req, w, ClientOf(w));
  }

  /** The body of an admitted request, from the `try` block's end. */
  lemma AdmittedBody(cfg: Config, req: Request, w: World)
    requires Admitted(req, w)
    ensures Handle(cfg, req, w).body == Catch(TryExit(cfg, w, ClientOf(w), Resolution(cfg, req, w)))
  {
    TryBlockOutcome(cfg, req, w, ClientOf(w));
  }
}
