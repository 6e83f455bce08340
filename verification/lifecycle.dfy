/** What one pass of the dispatcher guarantees about the resources it
    touches and the order it touches them in, over every combination of
    configuration, request and collaborator behaviour. */
module Lifecycle {
  import opened Base
  import Faults
  import Resolver
  import opened Dispatch

  /** In an ordered trace every event occurs at most once. */
  lemma {:induction false} OrderedAtMostOnce(t: seq<Event>, e: Event)
    requires Ordered(t)
    ensures Count(e, t) <= 1
  {
    if |t| > 0 {
      var rest := t[1..];
      OrderedAtMostOnce(rest, e);
      if t[0] == e && |rest| > 0 {
        assert e !in rest by {
          forall k | 0 <= k < |rest| ensures rest[k] != e {
            RankAtLeastFirst(rest, k);
            assert Rank(t[0]) < Rank(t[1]);
          }
        }
        CountPositive(e, rest);
      }
    }
  }

  /** The closed events follow the handler's stage order. */
  lemma ExpectedOrdered(cfg: Config, req: Request, w: World, res: Result<Resolver.Target, Resolver.ResolveError>)
    ensures Ordered(ExpectedTrace(cfg, req, w, res))
  {
    if Admitted(req, w) {
      var gate, tried, tail :=
        When(w.tokenSupported, TokenFetched), TryEvents(cfg, w, ClientOf(w), res), When(DbOpened(w), DbEnded);
      TryEventsOrdered(cfg, w, ClientOf(w), res);
      OrderedConcat(gate, tried);
      var front := gate + tried;
      assert |front| > 0 ==> front[|front| - 1] == if |tried| > 0 then tried[|tried| - 1] else gate[0];
      OrderedConcat(front, tail);
    }
  }

  /** The handler acts in its stage order: token, stores, resolution,
      transaction, hook, method, `next()`, end of the connection, each at
      most once. */
  lemma HandleOrdered(cfg: Config, req: Request, w: World)
    ensures Ordered(Handle(cfg, req, w).trace)
  {
    HandleIsExpected(cfg, req, w);
    ExpectedOrdered(cfg, req, w, Resolution(cfg, req, w));
  }

  /** In the closed events the token service is asked exactly when token
      support is on and the request carries a non-empty `access_token`. */
  lemma ExpectedTokenFetched(cfg: Config, req: Request, w: World, res: Result<Resolver.Target, Resolver.ResolveError>)
    ensures TokenFetched in ExpectedTrace(cfg, req, w, res) <==> w.tokenSupported && HasToken(req)
  {
    if Admitted(req, w) {
      var gate, tried, tail :=
        When(w.tokenSupported, TokenFetched), TryEvents(cfg, w, ClientOf(w), res), When(DbOpened(w), DbEnded);
      TryEventsOrdered(cfg, w, ClientOf(w), res);
      if |tried| > 0 {
        OrderedExcludes(tried, TokenFetched);
      }
      assert TokenFetched !in tail;
    }
  }

  /** The token service is asked exactly when token support is on and the
      request carries a non-empty `access_token`. */
  lemma TokenFetchedIff(cfg: Config, req: Request, w: World)
    ensures TokenFetched in Handle(cfg, req, w).trace <==> w.tokenSupported && HasToken(req)
  {
    HandleIsExpected(cfg, req, w);
    ExpectedTokenFetched(cfg, req, w, Resolution(cfg, req, w));
  }

  /** In the closed events the connection is ended exactly when it was
      created. */
  lemma ExpectedReleasedIffCreated(cfg: Config, req: Request, w: World, res: Result<Resolver.Target, Resolver.ResolveError>)
    ensures DbEnded in ExpectedTrace(cfg, req, w, res) <==> Admitted(req, w) && DbOpened(w)
    ensures DbCreated in ExpectedTrace(cfg, req, w, res) <==> Admitted(req, w) && DbOpened(w)
  {
    if Admitted(req, w) {
      var tried := TryEvents(cfg, w, ClientOf(w), res);
      TryEventsOrdered(cfg, w, ClientOf(w), res);
      if |tried| > 0 {
        OrderedExcludes(tried, DbEnded);
      }
      TriedCreatesIff(cfg, w, ClientOf(w), res);
    }
  }

  /** The `try` block's events hold the creation of the connection exactly
      when it was created. */
  lemma TriedCreatesIff(cfg: Config, w: World, client: Option<Client>, res: Result<Resolver.Target, Resolver.ResolveError>)
    ensures DbCreated in TryEvents(cfg, w, client, res) <==> DbOpened(w)
  {
    if Provisioned(w) && res.Ok? {
      var later := TargetEvents(cfg, w, client, res.value, DbOpened(w));
      TargetEventsOrdered(cfg, w, client, res.value, DbOpened(w));
      if |later| > 0 {
        OrderedExcludes(later, DbCreated);
      }
    }
  }

  /** The relational connection is ended exactly when it was created: the
      token gate let the request through, `config/db.js` exists and
      `new DbContext()` returned. */
  lemma ReleasedIffCreated(cfg: Config, req: Request, w: World)
    ensures DbEnded in Handle(cfg, req, w).trace <==> Admitted(req, w) && DbOpened(w)
    ensures DbCreated in Handle(cfg, req, w).trace <==> Admitted(req, w) && DbOpened(w)
  {
    HandleIsExpected(cfg, req, w);
    ExpectedReleasedIffCreated(cfg, req, w, Resolution(cfg, req, w));
  }

  /** `dbContext.end()` runs exactly once when the connection was created
      and never otherwise, and it is the handler's last act: it follows the
      creation and every other event. */
  lemma ReleasedExactlyOnce(cfg: Config, req: Request, w: World)
    ensures var t := Handle(cfg, req, w).trace;
      Count(DbEnded, t) == Count(DbCreated, t) <= 1
    ensures var t := Handle(cfg, req, w).trace;
      DbEnded in t ==> t[|t| - 1] == DbEnded && DbCreated in t[..|t| - 1]
  {
    var t := Handle(cfg, req, w).trace;
    ReleasedIffCreated(cfg, req, w);
    if DbEnded in t {
      var p := TryBlockTrace(cfg, req, w);
      assert t == p + [DbEnded] && DbCreated in p;
      assert t[..|t| - 1] == p;
    }
    HandleOrdered(cfg, req, w);
    CountsOfOrderedTrace(t);
  }

  /** The handler's trace up to the `finally` block, for a request the token
      gate admits whose connection was created. */
  lemma TryBlockTrace(cfg: Config, req: Request, w: World) returns (p: seq<Event>)
    requires Admitted(req, w) && DbOpened(w)
    ensures Handle(cfg, req, w).trace == p + [DbEnded] && DbCreated in p
  {
    HandleIsExpected(cfg, req, w);
    p := ExpectedReleaseLast(cfg, req, w, Resolution(cfg, req, w));
  }

  /** In the closed events of a request whose connection was created, the
      end comes last and the creation before it. */
  lemma ExpectedReleaseLast(cfg: Config, req: Request, w: World, res: Result<Resolver.Target, Resolver.ResolveError>)
    returns (p: seq<Event>)
    requires Admitted(req, w) && DbOpened(w)
    ensures ExpectedTrace(cfg, req, w, res) == p + [DbEnded] && DbCreated in p
  {
    var stores := StoreEvents(w);
    assert DbCreated in stores;
    var tried := TryEvents(cfg, w, ClientOf(w), res);
    assert tried[..|stores|] == stores;
    p := When(w.tokenSupported, TokenFetched) + tried;
    assert DbCreated in tried;
  }

  /** In a trace where ending and creating the connection occur together,
      each occurs as often as the other, and at most once. */
  lemma CountsOfOrderedTrace(t: seq<Event>)
    requires Ordered(t) && (DbEnded in t <==> DbCreated in t)
    ensures Count(DbEnded, t) == Count(DbCreated, t) <= 1
  {
    OrderedAtMostOnce(t, DbEnded);
    OrderedAtMostOnce(t, DbCreated);
    CountPositive(DbEnded, t);
    CountPositive(DbCreated, t);
  }

  /** An event of the stages after resolution is in the closed response
      exactly when the request got past the token gate, the stores and
      resolution, and the later stages recorded it. */
  lemma ExpectedLaterEvent(cfg: Config, req: Request, w: World, res: Result<Resolver.Target, Resolver.ResolveError>, e: Event)
    requires Rank(Resolved("", "")) < Rank(e) < Rank(DbEnded)
    ensures e in ExpectedTrace(cfg, req, w, res) <==>
      Admitted(req, w) && Provisioned(w) && res.Ok? && e in TargetEvents(cfg, w, ClientOf(w), res.value, DbOpened(w))
  {
    if Admitted(req, w) {
      assert e !in StoreEvents(w);
      if Provisioned(w) && res.Ok? {
        assert e != Resolved(res.value.ctrlPath, res.value.methodName);
      }
      var gate, tail := When(w.tokenSupported, TokenFetched), When(DbOpened(w), DbEnded);
      assert e !in gate && e !in tail;
    }
  }

  /** Which of the later stages' events are recorded, each by its own
      condition. */
  lemma TargetEventsMembers(cfg: Config, w: World, client: Option<Client>, t: Resolver.Target, dbContext: bool)
    ensures TransactionBegun in TargetEvents(cfg, w, client, t, dbContext) <==> TransactionOpens(cfg, w, client, t, dbContext)
    ensures HookCalled in TargetEvents(cfg, w, client, t, dbContext) <==>
      TransactionPasses(cfg, w, client, t, dbContext) && HookPresent(t)
    ensures MethodCalled in TargetEvents(cfg, w, client, t, dbContext) <==>
      CallReached(cfg, w, client, t, dbContext) && Callable(t)
    ensures NextCalled in TargetEvents(cfg, w, client, t, dbContext) <==>
      CallReached(cfg, w, client, t, dbContext) && Callable(t) && w.invoke.Returns?
  {
  }

  /** The closed events hold a transaction exactly when the request gets
      past the token gate and the stores, the target resolves and the
      transaction stage opens one. */
  lemma ExpectedTransactionBegun(cfg: Config, req: Request, w: World, res: Result<Resolver.Target, Resolver.ResolveError>)
    ensures TransactionBegun in ExpectedTrace(cfg, req, w, res) <==>
      Admitted(req, w) && Provisioned(w) && res.Ok? && TransactionOpens(cfg, w, ClientOf(w), res.value, DbOpened(w))
  {
    ExpectedLaterEvent(cfg, req, w, res, TransactionBegun);
    if res.Ok? {
      TargetEventsMembers(cfg, w, ClientOf(w), res.value, DbOpened(w));
    }
  }

  /** A `ResultFault` returned by `tmsBeforeEach` becomes the body and the
      method is never called. */
  lemma ExpectedHookShortCircuits(cfg: Config, req: Request, w: World, t: Resolver.Target, m: string)
    requires Admitted(req, w) && Provisioned(w)
    requires TransactionPasses(cfg, w, ClientOf(w), t, DbOpened(w))
    requires HookPresent(t) && w.hook == Returns(HookFault(m))
    ensures ExpectedBody(cfg, req, w, Ok(t)) == ResultFault(m)
    ensures var r := ExpectedTrace(cfg, req, w, Ok(t));
      HookCalled in r && MethodCalled !in r && NextCalled !in r
  {
    ExpectedLaterEvent(cfg, req, w, Ok(t), HookCalled);
    ExpectedLaterEvent(cfg, req, w, Ok(t), MethodCalled);
    ExpectedLaterEvent(cfg, req, w, Ok(t), NextCalled);
    TargetEventsMembers(cfg, w, ClientOf(w), t, DbOpened(w));
  }

  /** With no client, a method that must run in a transaction fails on
      reading `tmsClient.id`; neither the hook nor the method is called and
      the connection is still ended. */
  lemma ExpectedTransactionWithoutClient(cfg: Config, req: Request, w: World, t: Resolver.Target)
    requires !w.tokenSupported && Provisioned(w) && TransactionMarked(cfg, w, t, DbOpened(w))
    ensures ExpectedBody(cfg, req, w, Ok(t)) == ResultFault("TypeError: " + Faults.ReadOfUndefined("id").message)
    ensures var r := ExpectedTrace(cfg, req, w, Ok(t));
      HookCalled !in r && MethodCalled !in r && DbEnded in r
  {
    ExpectedLaterEvent(cfg, req, w, Ok(t), HookCalled);
    ExpectedLaterEvent(cfg, req, w, Ok(t), MethodCalled);
    TargetEventsMembers(cfg, w, ClientOf(w), t, DbOpened(w));
    assert TargetExit(cfg, w, ClientOf(w), t, DbOpened(w)) == Raised(Faults.ReadOfUndefined("id"));
    Faults.TypeErrorText(Faults.ReadOfUndefined("id"));
  }

  /** The decision list of the later stages yields the method's value
      exactly when the call is reached, the member is a function and the
      call returns, and it yields nothing else that is a value. */
  lemma TargetExitPayload(cfg: Config, w: World, client: Option<Client>, t: Resolver.Target, dbContext: bool)
    ensures var x := TargetExit(cfg, w, client, t, dbContext);
      x.Finished? && x.body.Payload? <==> CallReached(cfg, w, client, t, dbContext) && Callable(t) && w.invoke.Returns?
    ensures var x := TargetExit(cfg, w, client, t, dbContext);
      x.Finished? && x.body.Payload? ==> x.body == Payload(w.invoke.value)
  {
  }

  /** The closed response carries a value exactly when `next()` was called,
      and then it is the method's value. */
  lemma ExpectedSucceedsIffNext(cfg: Config, req: Request, w: World, res: Result<Resolver.Target, Resolver.ResolveError>)
    ensures ExpectedBody(cfg, req, w, res).Payload? <==> NextCalled in ExpectedTrace(cfg, req, w, res)
    ensures NextCalled in ExpectedTrace(cfg, req, w, res) ==>
      && w.invoke.Returns? && ExpectedBody(cfg, req, w, res) == Payload(w.invoke.value)
      && MethodCalled in ExpectedTrace(cfg, req, w, res)
  {
    ExpectedLaterEvent(cfg, req, w, res, NextCalled);
    ExpectedLaterEvent(cfg, req, w, res, MethodCalled);
    if Admitted(req, w) && Provisioned(w) && res.Ok? {
      TargetEventsMembers(cfg, w, ClientOf(w), res.value, DbOpened(w));
      TargetExitPayload(cfg, w, ClientOf(w), res.value, DbOpened(w));
    }
  }

  /** A member that is defined but not a function fails at the call: the
      body is the `TypeError` text and the method is never called. */
  lemma ExpectedMemberNotAFunction(cfg: Config, req: Request, w: World, t: Resolver.Target)
    requires Admitted(req, w) && Provisioned(w) && CallReached(cfg, w, ClientOf(w), t, DbOpened(w))
    requires Resolver.KindOf(t.ctrl, t.methodName) == Resolver.Other
    ensures ExpectedBody(cfg, req, w, Ok(t)) == ResultFault("TypeError: " + Faults.NotAFunction("oCtrl[method]").message)
    ensures var r := ExpectedTrace(cfg, req, w, Ok(t));
      MethodCalled !in r && NextCalled !in r
  {
    ExpectedLaterEvent(cfg, req, w, Ok(t), MethodCalled);
    ExpectedLaterEvent(cfg, req, w, Ok(t), NextCalled);
    TargetEventsMembers(cfg, w, ClientOf(w), t, DbOpened(w));
    assert TargetExit(cfg, w, ClientOf(w), t, DbOpened(w)) == Raised(Faults.NotAFunction("oCtrl[method]"));
    Faults.TypeErrorText(Faults.NotAFunction("oCtrl[method]"));
  }

  /** A store acquisition that throws after the relational connection was
      created: the body carries the exception's text (or, for an exception
      `toString()` cannot convert, no body is set and the handler rejects),
      nothing after the stores runs, and the connection is still ended. */
  lemma ExpectedStoreFailure(cfg: Config, req: Request, w: World, res: Result<Resolver.Target, Resolver.ResolveError>)
    requires Admitted(req, w) && DbOpened(w) && !Provisioned(w)
    ensures Faults.Convertible(ProvisionFault(w).value) ==>
      ExpectedBody(cfg, req, w, res) == ResultFault(Faults.FaultMessage(ProvisionFault(w).value))
    ensures !Faults.Convertible(ProvisionFault(w).value) ==>
      ExpectedBody(cfg, req, w, res) == Rejected(Faults.ToStringFailure(ProvisionFault(w).value))
    ensures var r := ExpectedTrace(cfg, req, w, res);
      DbEnded in r && HookCalled !in r && MethodCalled !in r
  {
    ExpectedLaterEvent(cfg, req, w, res, HookCalled);
    ExpectedLaterEvent(cfg, req, w, res, MethodCalled);
  }

  /** A resolution error is caught like any other exception: the body is
      the text of the error it throws, and neither the hook nor the method
      runs. */
  lemma ExpectedResolutionFailure(cfg: Config, req: Request, w: World, e: Resolver.ResolveError)
    requires Admitted(req, w) && Provisioned(w)
    ensures ExpectedBody(cfg, req, w, Err(e)) == ResultFault(Faults.FaultMessage(Resolver.ThrownBy(e)))
    ensures var r := ExpectedTrace(cfg, req, w, Err(e));
      HookCalled !in r && MethodCalled !in r && (DbEnded in r <==> DbOpened(w))
  {
    ExpectedLaterEvent(cfg, req, w, Err(e), HookCalled);
    ExpectedLaterEvent(cfg, req, w, Err(e), MethodCalled);
  }

  /** No body is set exactly when the request got past the token gate and
      the `try` block threw a value that `toString()` cannot convert: every
      other way out of the `try` leaves a body. The handler then rejects
      with what the conversion threw, a `TypeError` for `undefined` and
      `null`. */
  lemma ExpectedRejectedIff(cfg: Config, req: Request, w: World, res: Result<Resolver.Target, Resolver.ResolveError>)
    ensures ExpectedBody(cfg, req, w, res).Rejected? <==>
      && Admitted(req, w) && TryExit(cfg, w, ClientOf(w), res).Raised?
      && !Faults.Convertible(TryExit(cfg, w, ClientOf(w), res).err)
    ensures ExpectedBody(cfg, req, w, res).Rejected? ==>
      ExpectedBody(cfg, req, w, res).err == Faults.ToStringFailure(TryExit(cfg, w, ClientOf(w), res).err)
    ensures ExpectedBody(cfg, req, w, res).Rejected? && TryExit(cfg, w, ClientOf(w), res).err.ThrownNullish? ==>
      ExpectedBody(cfg, req, w, res).err.ThrownError? && ExpectedBody(cfg, req, w, res).err.name == "TypeError"
  {
  }

  /** A method that rejects with `undefined` or `null` (a bare
      `Promise.reject()`, `throw null`) makes the `catch` block throw in
      turn: no body is set, the handler rejects with the `TypeError` of
      `toString` read from the nullish value, `next()` is not called, and
      the connection is still ended. */
  lemma ExpectedNullishEscapes(cfg: Config, req: Request, w: World, t: Resolver.Target, isNull: bool)
    requires Admitted(req, w) && Provisioned(w) && CallReached(cfg, w, ClientOf(w), t, DbOpened(w)) && Callable(t)
    requires w.invoke == Throws(Faults.ThrownNullish(isNull))
    ensures ExpectedBody(cfg, req, w, Ok(t)) ==
      Rejected(if isNull then Faults.ReadOfNull("toString") else Faults.ReadOfUndefined("toString"))
    ensures var r := ExpectedTrace(cfg, req, w, Ok(t));
      MethodCalled in r && NextCalled !in r && (DbEnded in r <==> DbOpened(w))
  {
    ExpectedLaterEvent(cfg, req, w, Ok(t), MethodCalled);
    ExpectedLaterEvent(cfg, req, w, Ok(t), NextCalled);
    NullishCall(cfg, w, ClientOf(w), t, DbOpened(w), isNull);
    ExpectedReleasedIffCreated(cfg, req, w, Ok(t));
  }

  /** A reached, callable method that throws a nullish value: it is called,
      `next()` is not, and the `try` block ends with that value. */
  lemma NullishCall(cfg: Config, w: World, client: Option<Client>, t: Resolver.Target, dbContext: bool, isNull: bool)
    requires CallReached(cfg, w, client, t, dbContext) && Callable(t)
    requires w.invoke == Throws(Faults.ThrownNullish(isNull))
    ensures TargetExit(cfg, w, client, t, dbContext) == Raised(Faults.ThrownNullish(isNull))
    ensures MethodCalled in TargetEvents(cfg, w, client, t, dbContext)
    ensures NextCalled !in TargetEvents(cfg, w, client, t, dbContext)
  {
    TargetEventsMembers(cfg, w, client, t, dbContext);
  }

  /** A transaction is begun exactly when the request is admitted, every
      configured store is connected, the target resolves and the
      transaction stage opens one: the connection exists, `tmsTransaction`
      is on, `tmsRequireTransaction` is a function that marks the method, a
      client is present and `begin()` returns. */
  lemma TransactionBegunIff(cfg: Config, req: Request, w: World)
    ensures TransactionBegun in Handle(cfg, req, w).trace <==>
      && Admitted(req, w) && Provisioned(w) && Resolution(cfg, req, w).Ok?
      && TransactionOpens(cfg, w, ClientOf(w), Resolution(cfg, req, w).value, DbOpened(w))
  {
    HandleIsExpected(cfg, req, w);
    ExpectedTransactionBegun(cfg, req, w, Resolution(cfg, req, w));
  }

  /** Every transaction is begun on an existing connection, with
      `tmsTransaction` on and the method marked by the controller. */
  lemma TransactionNeedsMarking(cfg: Config, req: Request, w: World)
    ensures TransactionBegun in Handle(cfg, req, w).trace ==>
      && ConfigPresent(w, "db.js") && w.newDbContext.Returns? && cfg.tmsTransaction
      && Resolution(cfg, req, w).Ok?
      && Resolver.KindOf(Resolution(cfg, req, w).value.ctrl, "tmsRequireTransaction") == Resolver.Function
      && w.requireTransaction.Returns? && Resolution(cfg, req, w).value.methodName in w.requireTransaction.value
  {
    TransactionBegunIff(cfg, req, w);
  }

  /** With token support off there is no client, so a method that must run
      in a transaction fails on reading `tmsClient.id`: the body is the
      resulting `TypeError`, neither the hook nor the method is called, and
      the connection is still ended. */
  lemma TransactionWithoutClient(cfg: Config, req: Request, w: World, t: Resolver.Target)
    requires !w.tokenSupported && Provisioned(w) && TransactionMarked(cfg, w, t, DbOpened(w))
    ensures Resolution(cfg, req, w) == Ok(t) ==> var r := Handle(cfg, req, w);
      && r.body == ResultFault("TypeError: " + Faults.ReadOfUndefined("id").message)
      && HookCalled !in r.trace && MethodCalled !in r.trace && DbEnded in r.trace
  {
    if Resolution(cfg, req, w) == Ok(t) {
      HandleIsExpected(cfg, req, w);
      ExpectedTransactionWithoutClient(cfg, req, w, t);
    }
  }

  /** A `ResultFault` returned by `tmsBeforeEach` becomes the body and the
      method is never called. */
  lemma HookShortCircuits(cfg: Config, req: Request, w: World, t: Resolver.Target, m: string)
    requires Admitted(req, w) && Provisioned(w)
    requires TransactionPasses(cfg, w, ClientOf(w), t, DbOpened(w))
    requires HookPresent(t) && w.hook == Returns(HookFault(m))
    ensures Resolution(cfg, req, w) == Ok(t) ==> var r := Handle(cfg, req, w);
      && r.body == ResultFault(m)
      && HookCalled in r.trace && MethodCalled !in r.trace && NextCalled !in r.trace
  {
    if Resolution(cfg, req, w) == Ok(t) {
      HandleIsExpected(cfg, req, w);
      ExpectedHookShortCircuits(cfg, req, w, t, m);
    }
  }

  /** The response carries the method's value exactly when `next()` was
      called, and then it is the value the method returned. */
  lemma SucceedsIffNext(cfg: Config, req: Request, w: World)
    ensures var r := Handle(cfg, req, w);
      r.body.Payload? <==> NextCalled in r.trace
    ensures var r := Handle(cfg, req, w);
      NextCalled in r.trace ==> w.invoke.Returns? && r.body == Payload(w.invoke.value) && MethodCalled in r.trace
  {
    HandleIsExpected(cfg, req, w);
    ExpectedSucceedsIffNext(cfg, req, w, Resolution(cfg, req, w));
  }

  /** A member that is defined but not a function passes resolution and
      fails only at the call: the body is the `TypeError` text and the
      method is never called. */
  lemma MemberNotAFunction(cfg: Config, req: Request, w: World, t: Resolver.Target)
    requires Admitted(req, w) && Provisioned(w)
    requires CallReached(cfg, w, ClientOf(w), t, DbOpened(w))
    requires Resolver.KindOf(t.ctrl, t.methodName) == Resolver.Other
    ensures Resolution(cfg, req, w) == Ok(t) ==> var r := Handle(cfg, req, w);
      && r.body == ResultFault("TypeError: " + Faults.NotAFunction("oCtrl[method]").message)
      && MethodCalled !in r.trace && NextCalled !in r.trace
  {
    if Resolution(cfg, req, w) == Ok(t) {
      HandleIsExpected(cfg, req, w);
      ExpectedMemberNotAFunction(cfg, req, w, t);
    }
  }

  /** A store acquisition that throws after the relational connection was
      created ends the `try` block before resolution; the body carries the
      exception's text (none is set for one `toString()` cannot convert) and the
      connection is still ended. */
  lemma StoreFailureReleases(cfg: Config, req: Request, w: World)
    requires Admitted(req, w) && DbOpened(w) && !Provisioned(w)
    ensures Faults.Convertible(ProvisionFault(w).value) ==>
      Handle(cfg, req, w).body == ResultFault(Faults.FaultMessage(ProvisionFault(w).value))
    ensures !Faults.Convertible(ProvisionFault(w).value) ==>
      Handle(cfg, req, w).body == Rejected(Faults.ToStringFailure(ProvisionFault(w).value))
    ensures var r := Handle(cfg, req, w);
      DbEnded in r.trace && HookCalled !in r.trace && MethodCalled !in r.trace
  {
    HandleIsExpected(cfg, req, w);
    ExpectedStoreFailure(cfg, req, w, Resolution(cfg, req, w));
  }

  /** A resolution error is caught like any other exception: the body is
      the text of the error resolution throws (`Resolver.ThrownText`), and
      neither the hook nor the method runs. */
  lemma ResolutionFailureCaught(cfg: Config, req: Request, w: World, e: Resolver.ResolveError)
    requires Admitted(req, w) && Provisioned(w)
    ensures Resolution(cfg, req, w) == Err(e) ==>
      Handle(cfg, req, w).body == ResultFault(Faults.FaultMessage(Resolver.ThrownBy(e)))
    ensures Resolution(cfg, req, w) == Err(e) ==> var r := Handle(cfg, req, w).trace;
      HookCalled !in r && MethodCalled !in r && (DbEnded in r <==> DbOpened(w))
  {
    if Resolution(cfg, req, w) == Err(e) {
      HandleIsExpected(cfg, req, w);
      ExpectedResolutionFailure(cfg, req, w, e);
    }
  }

  /** The handler leaves no body exactly when the request got past the
      token gate and the `try` block threw a value that `toString()` cannot
      convert; it rejects with what the conversion threw, a `TypeError` for
      `undefined` and `null`. */
  lemma RejectedIffUnconvertible(cfg: Config, req: Request, w: World)
    ensures Handle(cfg, req, w).body.Rejected? <==>
      && Admitted(req, w) && TryExit(cfg, w, ClientOf(w), Resolution(cfg, req, w)).Raised?
      && !Faults.Convertible(TryExit(cfg, w, ClientOf(w), Resolution(cfg, req, w)).err)
    ensures Handle(cfg, req, w).body.Rejected? ==>
      Handle(cfg, req, w).body.err == Faults.ToStringFailure(TryExit(cfg, w, ClientOf(w), Resolution(cfg, req, w)).err)
    ensures Handle(cfg, req, w).body.Rejected? && TryExit(cfg, w, ClientOf(w), Resolution(cfg, req, w)).err.ThrownNullish? ==>
      Handle(cfg, req, w).body.err.ThrownError? && Handle(cfg, req, w).body.err.name == "TypeError"
  {
    HandleIsExpected(cfg, req, w);
    ExpectedRejectedIff(cfg, req, w, Resolution(cfg, req, w));
  }

  /** A method that rejects with `undefined` or `null` leaves no body: the
      handler rejects with the `TypeError` of `toString` read from the
      nullish value, after the `finally` block has still ended the
      connection. */
  lemma NullishThrowEscapes(cfg: Config, req: Request, w: World, t: Resolver.Target, isNull: bool)
    requires Admitted(req, w) && Provisioned(w) && CallReached(cfg, w, ClientOf(w), t, DbOpened(w)) && Callable(t)
    requires w.invoke == Throws(Faults.ThrownNullish(isNull))
    ensures Resolution(cfg, req, w) == Ok(t) ==> var r := Handle(cfg, req, w);
      && r.body == Rejected(if isNull then Faults.ReadOfNull("toString") else Faults.ReadOfUndefined("toString"))
      && MethodCalled in r.trace && NextCalled !in r.trace && (DbEnded in r.trace <==> DbOpened(w))
  {
    if Resolution(cfg, req, w) == Ok(t) {
      HandleIsExpected(cfg, req, w);
      ExpectedNullishEscapes(cfg, req, w, t, isNull);
    }
  }
}
