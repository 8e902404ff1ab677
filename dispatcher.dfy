/**
 * The dispatcher object and the middleware chain it builds per update. Both live in
 * one module because each refers to the other: the chain calls back into the
 * dispatcher, and `dispatch(update)` creates the chain.
 */
module Dispatcher {
  import opened Wrappers
  import opened Telegram
  import opened MethodHandlers
  import opened Ranking
  import opened Routing
  import opened Chain

  class TelegramUpdateDispatcher {
    const services: Services
    const userService: UserId -> UserLookup
    const middlewares: seq<Middleware>
    var handlers: Registry

    /** Registers the scanned candidates (skipping invalid ones), then sorts the MessageHandler list. */
    constructor (candidates: seq<Candidate>, services: Services, userService: UserId -> UserLookup,
                 middlewares: seq<Middleware>)
      ensures this.services == services && this.userService == userService && this.middlewares == middlewares
      ensures handlers == SortRegistry(RegisterAll(map[], candidates, services.localeService.Some?))
    {
      this.services := services;
      this.userService := userService;
      this.middlewares := middlewares;
      handlers := map[];
      new;
      InitHandlers(candidates);
      SortHandlers();
    }

    /** The registration loop of `initHandlers`, over candidates already found. */
    method InitHandlers(candidates: seq<Candidate>)
      modifies this
      ensures handlers == RegisterAll(old(handlers), candidates, services.localeService.Some?)
    {
      for i := 0 to |candidates|
        invariant handlers == RegisterAll(old(handlers), candidates[..i], services.localeService.Some?)
      {
        Register(candidates[i]);
        assert candidates[..i + 1][..i] == candidates[..i];
      }
      assert candidates[..|candidates|] == candidates;
    }

    /** Builds the handler and appends it under its annotation type; a rejected one is logged and skipped. */
    method Register(c: Candidate)
      modifies this
      ensures handlers == AddHandler(old(handlers), c, services.localeService.Some?)
    {
      var built := Construct(c.id, c.params, c.annotation, services.localeService.Some?);
      if built.Success? {
        var kind := c.annotation.kind;
        handlers := handlers[kind := Lookup(handlers, kind) + [built.value]];
      }
    }

    /** `sortHandlers`: puts back the MessageHandler list sorted by descending score. */
    method SortHandlers()
      modifies this
      ensures handlers == SortRegistry(old(handlers))
    {
      var messageHandlers := Lookup(handlers, MessageHandler);
      var sorted := SortByScore(messageHandlers);
      handlers := handlers[MessageHandler := sorted];
    }

    /**
     * `dispatch(update, user)`: classifies the update and invokes the first matching
     * handler of that type whose method returns; a throwing handler is logged and the
     * scan continues. The result lists every invocation made.
     */
    method DispatchWithUser(update: Update, user: Option<User>) returns (out: DispatchOutcome)
      ensures out == DispatchSpec(handlers, update, user, services)
    {
      var category := Classify(update);
      if category.NullCallbackMessage? {
        return Crashed;
      }
      if category.Unrouted? {
        return Completed([]);
      }
      var candidates := Lookup(handlers, category.kind);
      var invoked: seq<Invocation> := [];
      for i := 0 to |candidates|
        invariant Scan(candidates, update, user, services) == invoked + Scan(candidates[i..], update, user, services)
      {
        var handler := candidates[i];
        ScanFrom(candidates, i, update, user, services);
        if Matches(handler, update, user, services) {
          var args := InvokeArgs(handler, update, user);
          invoked := invoked + [Invocation(handler.id, args)];
          if services.callback(handler.id, args) == Returned {
            return Completed(invoked);
          }
        }
      }
      return Completed(invoked);
    }

    /**
     * `dispatch(update)`: resolves the sender's user (none on a missing id, an unknown
     * id or a failed lookup) and walks a fresh middleware chain.
     */
    method Dispatch(update: Update) returns (out: ChainOutcome)
      ensures out == RunChain(middlewares, 0, update, ResolveUser(update, userService), handlers, services).outcome
    {
      var user: Option<User> := None;
      var userId := ExtractUserId(update);
      if userId.Some? {
        var found := userService(userId.value);
        if found.Found? {
          user := Some(found.user);
        }
      }
      var chain := new DefaultMiddlewareChain(middlewares, this);
      out := chain.Next(update, user);
    }
  }

  class DefaultMiddlewareChain {
    const middlewares: seq<Middleware>
    const handlerInvoker: TelegramUpdateDispatcher
    var index: nat

    ghost predicate Valid()
      reads this
    {
      index <= |middlewares|
    }

    constructor (middlewares: seq<Middleware>, handlerInvoker: TelegramUpdateDispatcher)
      ensures Valid() && index == 0
      ensures this.middlewares == middlewares && this.handlerInvoker == handlerInvoker
    {
      this.middlewares := middlewares;
      this.handlerInvoker := handlerInvoker;
      index := 0;
    }

    /**
     * `next`: below the end of the list, advances the cursor by one and hands the update
     * and user to the middleware it passed; at the end, calls the dispatcher with them. The cursor moves
     * once per middleware run and never past the end.
     */
    method Next(update: Update, user: Option<User>) returns (outcome: ChainOutcome)
      requires Valid()
      modifies this
      ensures Valid()
      ensures var run := RunChain(middlewares, old(index), update, user, handlerInvoker.handlers, handlerInvoker.services);
        outcome == run.outcome && index == old(index) + |run.steps|
      decreases |middlewares| - index
    {
      if index < |middlewares| {
        var middleware := middlewares[index];
        index := index + 1;
        var action := middleware(update, user);
        match action
        case Forward(nextUpdate, nextUser) =>
          outcome := Next(nextUpdate, nextUser);
        case Drop =>
          outcome := Dropped;
        case Raise =>
          outcome := Raised;
      } else {
        var result := handlerInvoker.DispatchWithUser(update, user);
        outcome := Dispatched(update, user, result);
      }
    }
  }
}
