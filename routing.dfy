/**
 * The pure parts of `TelegramUpdateDispatcher`: the handler registry it builds, the
 * classification of an update into a handler type, the first-match scan over that
 * type's handlers, and the lookup of the sender.
 */
module Routing {
  import opened Wrappers
  import opened Telegram
  import opened MethodHandlers
  import opened Ranking

  // ---------------------------------------------------------------------------
  // The registry: handler type -> handlers in the order they are tried

  type Registry = map<HandlerKind, seq<MethodHandler>>

  /** `handlers.getOrDefault(kind, new ArrayList<>())`. */
  function Lookup(r: Registry, kind: HandlerKind): seq<MethodHandler> {
    if kind in r then r[kind] else []
  }

  /** A handler method found by scanning, with the annotation it carries. */
  datatype Candidate = Candidate(id: nat, params: seq<ParamType>, annotation: Annotation)

  /** Registers one candidate: a valid one is appended under its type, an invalid one is skipped. */
  function AddHandler(r: Registry, c: Candidate, localeAvailable: bool): Registry {
    match Construct(c.id, c.params, c.annotation, localeAvailable)
    case Success(h) => r[h.annotation.kind := Lookup(r, h.annotation.kind) + [h]]
    case Failure(_) => r
  }

  /** Registers the candidates one after another. */
  function RegisterAll(r: Registry, cs: seq<Candidate>, localeAvailable: bool): Registry
    decreases |cs|
  {
    if cs == [] then r
    else AddHandler(RegisterAll(r, cs[..|cs| - 1], localeAvailable), cs[|cs| - 1], localeAvailable)
  }

  /** The candidates of type `kind` that pass validation, as handlers, in candidate order. */
  function Accepted(cs: seq<Candidate>, kind: HandlerKind, localeAvailable: bool): seq<MethodHandler> {
    if cs == [] then []
    else
      var head := Construct(cs[0].id, cs[0].params, cs[0].annotation, localeAvailable);
      (if head.Success? && cs[0].annotation.kind == kind then [head.value] else [])
      + Accepted(cs[1..], kind, localeAvailable)
  }

  lemma {:induction false} AcceptedAppend(cs: seq<Candidate>, c: Candidate, kind: HandlerKind, localeAvailable: bool)
    ensures Accepted(cs + [c], kind, localeAvailable) ==
      var h := Construct(c.id, c.params, c.annotation, localeAvailable);
      Accepted(cs, kind, localeAvailable) + (if h.Success? && c.annotation.kind == kind then [h.value] else [])
  {
    if cs != [] {
      assert (cs + [c])[1..] == cs[1..] + [c];
      AcceptedAppend(cs[1..], c, kind, localeAvailable);
    } else {
      assert [c][1..] == [];
    }
  }

  /** Registering one candidate appends it to its own type's list, if it is valid, and to no other list. */
  lemma LookupAddHandler(r: Registry, c: Candidate, kind: HandlerKind, localeAvailable: bool)
    ensures Lookup(AddHandler(r, c, localeAvailable), kind) ==
      var h := Construct(c.id, c.params, c.annotation, localeAvailable);
      Lookup(r, kind) + (if h.Success? && c.annotation.kind == kind then [h.value] else [])
  {
    var h := Construct(c.id, c.params, c.annotation, localeAvailable);
    if h.Success? {
      assert h.value.annotation.kind == c.annotation.kind;
    }
  }

  /**
   * After registration each type's list is its old list followed by the valid candidates
   * of that type, in scan order; invalid candidates are skipped without disturbing the rest.
   */
  lemma {:induction false} RegisterAllAppendsAccepted(r: Registry, cs: seq<Candidate>, kind: HandlerKind, localeAvailable: bool)
    ensures Lookup(RegisterAll(r, cs, localeAvailable), kind) == Lookup(r, kind) + Accepted(cs, kind, localeAvailable)
    decreases |cs|
  {
    if cs != [] {
      var init, last := cs[..|cs| - 1], cs[|cs| - 1];
      RegisterAllAppendsAccepted(r, init, kind, localeAvailable);
      LookupAddHandler(RegisterAll(r, init, localeAvailable), last, kind, localeAvailable);
      AcceptedAppend(init, last, kind, localeAvailable);
      assert init + [last] == cs;
    }
  }

  /** `sortHandlers`: only the MessageHandler list is replaced, by its stable sort (an empty list when absent). */
  function SortRegistry(r: Registry): (r': Registry)
    ensures MessageHandler in r'
    ensures forall k :: k != MessageHandler ==> Lookup(r', k) == Lookup(r, k)
    ensures NonIncreasing(Lookup(r', MessageHandler))
    ensures multiset(Lookup(r', MessageHandler)) == multiset(Lookup(r, MessageHandler))
    ensures forall s :: WithScore(Lookup(r', MessageHandler), s) == WithScore(Lookup(r, MessageHandler), s)
  {
    SortByScoreIsStableSort(Lookup(r, MessageHandler));
    r[MessageHandler := SortByScore(Lookup(r, MessageHandler))]
  }

  // ---------------------------------------------------------------------------
  // Classification

  datatype Classification =
    | Routed(kind: HandlerKind)
    | Unrouted              // no handler type: nothing is called
    | NullCallbackMessage   // a callback query without a message: `getCallbackQuery().getMessage().isUserMessage()` dereferences null

  predicate IsUserMessage(u: Update) {
    u.message.Some? && u.message.value.isUserMessage
  }

  /** The handler type an update is routed to, tried in the order of `dispatch(update, user)`. */
  function Classify(u: Update): Classification {
    if IsUserMessage(u) then
      var m := u.message.value;
      if m.isCommand then Routed(CommandHandler)
      else if m.hasPhoto then Routed(PhotoHandler)
      else if m.document.Some? then Routed(DocumentHandler)
      else if m.hasVoice then Routed(VoiceHandler)
      else if m.hasAudio then Routed(AudioHandler)
      else if m.hasSuccessfulPayment then Routed(SuccessfulPaymentHandler)
      else Routed(MessageHandler)
    else if u.callbackQuery.Some? && u.callbackQuery.value.message.None? then NullCallbackMessage
    else if u.callbackQuery.Some? && u.callbackQuery.value.message.value.isUserMessage then Routed(CallbackQueryHandler)
    else if u.inlineQuery.Some? then Routed(InlineQueryHandler)
    else if u.preCheckoutQuery.Some? then Routed(PreCheckoutQueryHandler)
    else Unrouted
  }

  /** Whether the update qualifies for a handler type, each condition taken on its own. */
  predicate Applies(u: Update, kind: HandlerKind) {
    match kind
    case CommandHandler => IsUserMessage(u) && u.message.value.isCommand
    case PhotoHandler => IsUserMessage(u) && u.message.value.hasPhoto
    case DocumentHandler => IsUserMessage(u) && u.message.value.document.Some?
    case VoiceHandler => IsUserMessage(u) && u.message.value.hasVoice
    case AudioHandler => IsUserMessage(u) && u.message.value.hasAudio
    case SuccessfulPaymentHandler => IsUserMessage(u) && u.message.value.hasSuccessfulPayment
    case MessageHandler => IsUserMessage(u)
    case CallbackQueryHandler =>
      && u.callbackQuery.Some? && u.callbackQuery.value.message.Some?
      && u.callbackQuery.value.message.value.isUserMessage
    case InlineQueryHandler => u.inlineQuery.Some?
    case PreCheckoutQueryHandler => u.preCheckoutQuery.Some?
    case BusinessMessageHandler | BusinessCallbackQueryHandler => false
  }

  /** Precedence of the handler types in classification, lower first. */
  function Rank(kind: HandlerKind): nat {
    match kind
    case CommandHandler => 0
    case PhotoHandler => 1
    case DocumentHandler => 2
    case VoiceHandler => 3
    case AudioHandler => 4
    case SuccessfulPaymentHandler => 5
    case MessageHandler => 6
    case CallbackQueryHandler => 7
    case InlineQueryHandler => 8
    case PreCheckoutQueryHandler => 9
    case BusinessMessageHandler | BusinessCallbackQueryHandler => 10
  }

  predicate CallbackWithoutMessage(u: Update) {
    !IsUserMessage(u) && u.callbackQuery.Some? && u.callbackQuery.value.message.None?
  }

  /**
   * Classification picks, among the types that apply, the one of highest precedence
   * (command, photo, document, voice, audio, successful payment, plain message, then
   * callback query, inline query, pre-checkout query); it routes nowhere when none
   * applies, and fails only on a non-user update whose callback query has no message.
   */
  lemma ClassifyPicksFirstApplicable(u: Update)
    ensures Classify(u).NullCallbackMessage? <==> CallbackWithoutMessage(u)
    ensures Classify(u).Routed? ==>
      && Applies(u, Classify(u).kind)
      && forall k :: Rank(k) < Rank(Classify(u).kind) ==> !Applies(u, k)
    ensures Classify(u).Unrouted? <==> !CallbackWithoutMessage(u) && forall k :: !Applies(u, k)
  {
  }

  // ---------------------------------------------------------------------------
  // The first-match scan

  /** A call of a handler's method. */
  datatype Invocation = Invocation(handler: nat, args: CallArgs)

  function InvocationOf(h: MethodHandler, update: Update, user: Option<User>): Invocation {
    Invocation(h.id, InvokeArgs(h, update, user))
  }

  /** A handler fires when it matches and its method returns without throwing. */
  predicate Fires(h: MethodHandler, update: Update, user: Option<User>, s: Services) {
    && Matches(h, update, user, s)
    && s.callback(h.id, InvokeArgs(h, update, user)) == Returned
  }

  /**
   * The loop of `dispatch(update, user)`: handlers are tried in order; a matching one is
   * invoked; the scan ends after the first invocation that returns; a throwing one is
   * logged and the scan goes on. The result lists the invocations made.
   */
  function Scan(hs: seq<MethodHandler>, update: Update, user: Option<User>, s: Services): seq<Invocation> {
    if hs == [] then []
    else if Matches(hs[0], update, user, s) then
      var call := InvocationOf(hs[0], update, user);
      if s.callback(call.handler, call.args) == Returned then [call]
      else [call] + Scan(hs[1..], update, user, s)
    else Scan(hs[1..], update, user, s)
  }

  /** One step of the scan from position `i`: handler `i` is tried, then the scan goes on from `i + 1` unless it returned. */
  lemma ScanFrom(hs: seq<MethodHandler>, i: nat, update: Update, user: Option<User>, s: Services)
    requires i < |hs|
    ensures Scan(hs[i..], update, user, s) ==
      var call := InvocationOf(hs[i], update, user);
      if !Matches(hs[i], update, user, s) then Scan(hs[i + 1..], update, user, s)
      else if s.callback(call.handler, call.args) == Returned then [call]
      else [call] + Scan(hs[i + 1..], update, user, s)
  {
    assert hs[i..][0] == hs[i] && hs[i..][1..] == hs[i + 1..];
  }

  /** Every matching handler of `hs`, invoked in order (the scan with no early exit). */
  function Attempts(hs: seq<MethodHandler>, update: Update, user: Option<User>, s: Services): seq<Invocation> {
    if hs == [] then []
    else
      (if Matches(hs[0], update, user, s) then [InvocationOf(hs[0], update, user)] else [])
      + Attempts(hs[1..], update, user, s)
  }

  /**
   * The scan stops right after the first handler that fires: it invokes exactly the
   * matching handlers up to and including that one, and examines none after it.
   */
  lemma {:induction false} ScanStopsAtFirstFiring(hs: seq<MethodHandler>, i: nat, update: Update, user: Option<User>, s: Services)
    requires i < |hs| && Fires(hs[i], update, user, s)
    requires forall j :: 0 <= j < i ==> !Fires(hs[j], update, user, s)
    ensures Scan(hs, update, user, s) == Attempts(hs[..i + 1], update, user, s)
  {
    if i == 0 {
      assert hs[..1][1..] == [];
    } else {
      ScanStopsAtFirstFiring(hs[1..], i - 1, update, user, s);
      assert hs[..i + 1][1..] == hs[1..][..i];
    }
  }

  /** When no handler fires, every matching handler is invoked once, in order. */
  lemma {:induction false} ScanWithoutFiringTriesAll(hs: seq<MethodHandler>, update: Update, user: Option<User>, s: Services)
    requires forall j :: 0 <= j < |hs| ==> !Fires(hs[j], update, user, s)
    ensures Scan(hs, update, user, s) == Attempts(hs, update, user, s)
  {
    if hs != [] {
      ScanWithoutFiringTriesAll(hs[1..], update, user, s);
    }
  }

  /** With no matching handler nothing is invoked. */
  lemma {:induction false} ScanWithoutMatchInvokesNothing(hs: seq<MethodHandler>, update: Update, user: Option<User>, s: Services)
    requires forall j :: 0 <= j < |hs| ==> !Matches(hs[j], update, user, s)
    ensures Scan(hs, update, user, s) == []
  {
    if hs != [] {
      ScanWithoutMatchInvokesNothing(hs[1..], update, user, s);
    }
  }

  /** Every invocation but the last threw: at most one handler completes per update. */
  lemma {:induction false} ScanCompletesAtMostOnce(hs: seq<MethodHandler>, update: Update, user: Option<User>, s: Services)
    ensures forall k :: 0 <= k < |Scan(hs, update, user, s)| - 1 ==>
      var call := Scan(hs, update, user, s)[k];
      s.callback(call.handler, call.args) == Threw
  {
    if hs != [] {
      ScanCompletesAtMostOnce(hs[1..], update, user, s);
    }
  }

  // ---------------------------------------------------------------------------
  // dispatch(update, user)

  /** How `dispatch(update, user)` ends: with the invocations it made, or with a null dereference that escapes. */
  datatype DispatchOutcome = Completed(invoked: seq<Invocation>) | Crashed

  function DispatchSpec(r: Registry, update: Update, user: Option<User>, s: Services): DispatchOutcome {
    match Classify(update)
    case NullCallbackMessage => Crashed
    case Unrouted => Completed([])
    case Routed(kind) => Completed(Scan(Lookup(r, kind), update, user, s))
  }

  // ---------------------------------------------------------------------------
  // The sender

  /** The candidate senders in the order `extractUserId` consults them. */
  function Senders(u: Update): (ids: seq<Option<UserId>>)
    ensures |ids| == 4
  {
    [ if u.message.Some? then u.message.value.from else None
    , if u.callbackQuery.Some? then u.callbackQuery.value.from else None
    , if u.inlineQuery.Some? then u.inlineQuery.value.from else None
    , if u.preCheckoutQuery.Some? then u.preCheckoutQuery.value.from else None ]
  }

  /** `extractUserId`: the first non-null sender among message, callback, inline and pre-checkout query. */
  function ExtractUserId(u: Update): (r: Option<UserId>)
    ensures r.None? <==> forall i :: 0 <= i < 4 ==> Senders(u)[i].None?
    ensures r.Some? ==> exists i :: 0 <= i < 4 && Senders(u)[i] == r && forall j :: 0 <= j < i ==> Senders(u)[j].None?
  {
    var ids := Senders(u);
    assert ids[0] == (if u.message.Some? then u.message.value.from else None);
    assert ids[1] == (if u.callbackQuery.Some? then u.callbackQuery.value.from else None);
    assert ids[2] == (if u.inlineQuery.Some? then u.inlineQuery.value.from else None);
    assert ids[3] == (if u.preCheckoutQuery.Some? then u.preCheckoutQuery.value.from else None);
    if u.message.Some? && u.message.value.from.Some? then u.message.value.from
    else if u.callbackQuery.Some? && u.callbackQuery.value.from.Some? then u.callbackQuery.value.from
    else if u.inlineQuery.Some? && u.inlineQuery.value.from.Some? then u.inlineQuery.value.from
    else if u.preCheckoutQuery.Some? && u.preCheckoutQuery.value.from.Some? then u.preCheckoutQuery.value.from
    else None
  }

  /** What `findByTelegramId` does: return a user, return null, or throw. */
  datatype UserLookup = Found(user: User) | NotFound | LookupFailed

  /** The user `dispatch(update)` resolves: none without a sender id, none when the lookup finds nobody or fails. */
  function ResolveUser(u: Update, userService: UserId -> UserLookup): (r: Option<User>)
    ensures r.Some? <==> ExtractUserId(u).Some? && userService(ExtractUserId(u).value).Found?
    ensures r.Some? ==> r.value == userService(ExtractUserId(u).value).user
  {
    match ExtractUserId(u)
    case None => None
    case Some(id) => if userService(id).Found? then Some(userService(id).user) else None
  }

  /** The user service is consulted only for a sender id: without one, no service can change the outcome. */
  lemma ResolveUserNeedsSender(u: Update, service1: UserId -> UserLookup, service2: UserId -> UserLookup)
    requires ExtractUserId(u).None?
    ensures ResolveUser(u, service1) == ResolveUser(u, service2) == None
  {
  }
}
