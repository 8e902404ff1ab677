/**
 * What one walk of a `DefaultMiddlewareChain` does, as a function of the cursor it
 * starts from: each middleware either forwards (possibly with another user), drops
 * the update, or throws; past the last one the dispatcher runs.
 */
module Chain {
  import opened Wrappers
  import opened Telegram
  import opened MethodHandlers
  import opened Routing

  /**
   * What a middleware's `process` does with the chain: call `next` with some update and
   * user (not necessarily the ones it received), return without calling it, or throw.
   */
  datatype MiddlewareAction = Forward(update: Update, user: Option<User>) | Drop | Raise

  /** A middleware's behaviour on the update and user it is handed. */
  type Middleware = (Update, Option<User>) -> MiddlewareAction

  /** One middleware run: its position in the list, the update and user it received and what it did. */
  datatype Step = Step(position: nat, update: Update, user: Option<User>, action: MiddlewareAction)

  /** How a walk of the chain ends. `Raised` propagates a middleware's exception to the caller. */
  datatype ChainOutcome = Dispatched(update: Update, user: Option<User>, result: DispatchOutcome) | Dropped | Raised

  datatype ChainRun = ChainRun(outcome: ChainOutcome, steps: seq<Step>)

  /** `next(update, user)` with the cursor at `i`, followed through every `next` the middlewares make. */
  function RunChain(mws: seq<Middleware>, i: nat, update: Update, user: Option<User>, r: Registry, s: Services): ChainRun
    requires i <= |mws|
    decreases |mws| - i
  {
    if i < |mws| then
      var action := mws[i](update, user);
      var step := Step(i, update, user, action);
      match action
      case Forward(nextUpdate, nextUser) =>
        var rest := RunChain(mws, i + 1, nextUpdate, nextUser, r, s);
        ChainRun(rest.outcome, [step] + rest.steps)
      case Drop => ChainRun(Dropped, [step])
      case Raise => ChainRun(Raised, [step])
    else
      ChainRun(Dispatched(update, user, DispatchSpec(r, update, user, s)), [])
  }

  /**
   * Middlewares run in list order from the cursor, each at most once: step k runs
   * middleware i + k, never past the end of the list; the first receives the caller's
   * update and user and each later one the update and user its predecessor forwarded.
   */
  lemma {:induction false} ChainRunsInOrder(mws: seq<Middleware>, i: nat, update: Update, user: Option<User>, r: Registry, s: Services)
    requires i <= |mws|
    ensures var steps := RunChain(mws, i, update, user, r, s).steps;
      && i + |steps| <= |mws|
      && (forall k :: 0 <= k < |steps| ==>
            steps[k].position == i + k && steps[k].action == mws[i + k](steps[k].update, steps[k].user))
      && (|steps| > 0 ==> steps[0].update == update && steps[0].user == user)
      && (forall k :: 0 < k < |steps| ==> steps[k - 1].action == Forward(steps[k].update, steps[k].user))
    decreases |mws| - i
  {
    if i < |mws| {
      var action := mws[i](update, user);
      if action.Forward? {
        ChainRunsInOrder(mws, i + 1, action.update, action.user, r, s);
      }
    }
  }

  /**
   * The dispatcher is reached exactly when the cursor is at the end of the list and
   * the last middleware (if any) forwarded; it receives the update and user of that
   * last `next` call. Otherwise the last middleware that ran dropped the update or threw.
   */
  lemma {:induction false} ChainOutcomeFollowsLastStep(mws: seq<Middleware>, i: nat, update: Update, user: Option<User>, r: Registry, s: Services)
    requires i <= |mws|
    ensures var run := RunChain(mws, i, update, user, r, s);
      var n := |run.steps|;
      && (run.outcome.Dispatched? <==> i + n == |mws| && (n == 0 || run.steps[n - 1].action.Forward?))
      && (run.outcome.Dispatched? ==>
            && run.outcome.update == (if n == 0 then update else run.steps[n - 1].action.update)
            && run.outcome.user == (if n == 0 then user else run.steps[n - 1].action.user)
            && run.outcome.result == DispatchSpec(r, run.outcome.update, run.outcome.user, s))
      && (run.outcome.Dropped? <==> n > 0 && run.steps[n - 1].action == Drop)
      && (run.outcome.Raised? <==> n > 0 && run.steps[n - 1].action == Raise)
    decreases |mws| - i
  {
    if i < |mws| {
      var action := mws[i](update, user);
      if action.Forward? {
        ChainOutcomeFollowsLastStep(mws, i + 1, action.update, action.user, r, s);
        ChainRunsInOrder(mws, i + 1, action.update, action.user, r, s);
      }
    }
  }

  /** With no middleware the first `next` dispatches at once, with the given update and user. */
  lemma EmptyChainDispatchesAtOnce(update: Update, user: Option<User>, r: Registry, s: Services)
    ensures RunChain([], 0, update, user, r, s) == ChainRun(Dispatched(update, user, DispatchSpec(r, update, user, s)), [])
  {
  }
}
