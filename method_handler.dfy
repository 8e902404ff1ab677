/**
 * One registered handler: the annotation that declares its match criteria, the
 * shape of the bound method, and the decision `matches(update, user)`.
 */
module MethodHandlers {
  import opened Wrappers
  import opened Telegram

  /** The handler annotation types. */
  datatype HandlerKind =
    | MessageHandler | CommandHandler | CallbackQueryHandler | InlineQueryHandler
    | BusinessMessageHandler | BusinessCallbackQueryHandler | DocumentHandler
    | PhotoHandler | VoiceHandler | AudioHandler | SuccessfulPaymentHandler | PreCheckoutQueryHandler

  /**
   * An annotation instance. An attribute is `None` when its annotation type does not
   * declare it (looking it up reflectively then fails); otherwise it holds the value,
   * the declared default when the user wrote none.
   */
  datatype Annotation = Annotation(
    kind: HandlerKind,
    value: Option<string>,
    regex: Option<string>,
    localizedValueKey: Option<string>,
    startsWith: Option<bool>,
    accessByUnknownUsers: Option<bool>,
    requiredStates: Option<seq<string>>)

  datatype StringAttribute = Value | Regex | LocalizedValueKey
  datatype BooleanAttribute = StartsWith | AccessByUnknownUsers

  /** The reflective lookup of a string attribute: None when the annotation type does not declare it. */
  function DeclaredString(a: Annotation, field: StringAttribute): Option<string> {
    match field
    case Value => a.value
    case Regex => a.regex
    case LocalizedValueKey => a.localizedValueKey
  }

  /** The reflective lookup of a boolean attribute: None when the annotation type does not declare it. */
  function DeclaredBoolean(a: Annotation, field: BooleanAttribute): Option<bool> {
    match field
    case StartsWith => a.startsWith
    case AccessByUnknownUsers => a.accessByUnknownUsers
  }

  /** `getStringValue`: the declared value, and "" for an attribute the type does not declare. */
  function StringValue(a: Annotation, field: StringAttribute): (r: string)
    ensures DeclaredString(a, field).Some? ==> r == DeclaredString(a, field).value
    ensures DeclaredString(a, field).None? ==> r == ""
    ensures r != "" ==> DeclaredString(a, field) == Some(r)
  {
    DeclaredString(a, field).GetOr("")
  }

  /** `getBooleanValue`: true only for an attribute that is declared and set; undeclared reads as false. */
  function BooleanValue(a: Annotation, field: BooleanAttribute): (r: bool)
    ensures r <==> DeclaredBoolean(a, field) == Some(true)
  {
    DeclaredBoolean(a, field).GetOr(false)
  }

  /**
   * The attributes each annotation type declares: all six for most types, no `value`
   * and no `localizedValueKey` for InlineQueryHandler, no `localizedValueKey` for the
   * two business types.
   */
  predicate WellShaped(a: Annotation) {
    && (a.value.Some? <==> a.kind != InlineQueryHandler)
    && (a.localizedValueKey.Some? <==>
          a.kind !in {InlineQueryHandler, BusinessMessageHandler, BusinessCallbackQueryHandler})
    && a.regex.Some? && a.startsWith.Some? && a.accessByUnknownUsers.Some? && a.requiredStates.Some?
  }

  /** Parameter types of a handler method, as far as validation distinguishes them. */
  datatype ParamType = UpdateParam | BotUserParam | OtherParam

  datatype RegistrationError = InvalidSignature | MissingLocaleService

  /** A validated handler; `id` names the bound method (and the object it is called on). */
  datatype MethodHandler = MethodHandler(id: nat, params: seq<ParamType>, annotation: Annotation)

  /** `(Update)` or `(Update, U)` with U a subtype of AbstractBotUser. */
  predicate ValidSignature(params: seq<ParamType>) {
    || (|params| == 1 && params[0] == UpdateParam)
    || (|params| == 2 && params[0] == UpdateParam && params[1] == BotUserParam)
  }

  /**
   * The constructor: the signature is validated first, then a localized key demands
   * a locale service.
   */
  function Construct(id: nat, params: seq<ParamType>, annotation: Annotation, localeAvailable: bool)
    : (r: Result<MethodHandler, RegistrationError>)
    ensures r.Success? <==>
      ValidSignature(params) && (StringValue(annotation, LocalizedValueKey) == "" || localeAvailable)
    ensures r.Success? ==> r.value == MethodHandler(id, params, annotation)
    ensures !ValidSignature(params) ==> r == Failure(InvalidSignature)
    ensures r == Failure(MissingLocaleService) <==>
      ValidSignature(params) && StringValue(annotation, LocalizedValueKey) != "" && !localeAvailable
  {
    if !ValidSignature(params) then Failure(InvalidSignature)
    else if StringValue(annotation, LocalizedValueKey) != "" && !localeAvailable then Failure(MissingLocaleService)
    else Success(MethodHandler(id, params, annotation))
  }

  /** The arguments a handler method is called with. */
  datatype CallArgs = UpdateOnly(update: Update) | UpdateAndUser(update: Update, user: Option<User>)

  /** What a handler callback does when invoked: return normally or throw. */
  datatype CallOutcome = Returned | Threw

  /**
   * The collaborators whose code is not modelled, as functions:
   * `fullMatch(regex, text)` is `Pattern.matches` (None when the pattern is malformed),
   * `localeService` is the optional LocaleService and its `getText(langCode, key)` (None for null),
   * `callback(id, args)` is what invoking handler `id` with `args` does.
   */
  datatype Services = Services(
    fullMatch: (string, string) -> Option<bool>,
    localeService: Option<(string, string) -> Option<string>>,
    callback: (nat, CallArgs) -> CallOutcome)

  /** `invoke`: the user is passed only to two-parameter methods. */
  function InvokeArgs(h: MethodHandler, update: Update, user: Option<User>): CallArgs {
    if |h.params| == 2 then UpdateAndUser(update, user) else UpdateOnly(update)
  }

  /** The pre-checkout and successful-payment handlers accept on presence alone. */
  predicate PaymentShortCircuit(kind: HandlerKind, update: Update) {
    || (kind == PreCheckoutQueryHandler && update.preCheckoutQuery.Some?)
    || (kind == SuccessfulPaymentHandler && update.message.Some? && update.message.value.hasSuccessfulPayment)
  }

  /** A photo, voice, audio or document handler whose content is in the update's message. */
  predicate MediaPresent(kind: HandlerKind, update: Update) {
    && update.message.Some?
    && match kind
       case PhotoHandler => update.message.value.hasPhoto
       case VoiceHandler => update.message.value.hasVoice
       case AudioHandler => update.message.value.hasAudio
       case DocumentHandler => update.message.value.document.Some?
       case _ => false
  }

  /**
   * `extractTextFromUpdate`: the text each handler type matches against, None for null.
   * Message and command handlers read the message text, callback handlers the callback
   * data, inline handlers the query, the business types an empty string and document
   * handlers the file name; the other types have no text.
   */
  function ExtractText(kind: HandlerKind, update: Update): (r: Option<string>)
    ensures kind in {MessageHandler, CommandHandler} ==>
      r == (if update.message.Some? then update.message.value.text else None)
    ensures kind == CallbackQueryHandler ==>
      r == (if update.callbackQuery.Some? then update.callbackQuery.value.data else None)
    ensures kind == InlineQueryHandler ==>
      r == (if update.inlineQuery.Some? then update.inlineQuery.value.query else None)
    ensures kind in {BusinessMessageHandler, BusinessCallbackQueryHandler} ==> r == Some("")
    ensures kind in {PhotoHandler, VoiceHandler, AudioHandler, SuccessfulPaymentHandler, PreCheckoutQueryHandler}
      ==> r.None?
    ensures kind == DocumentHandler ==>
      r == (if MediaPresent(kind, update) then update.message.value.document.value.fileName else None)
  {
    match kind
    case MessageHandler | CommandHandler =>
      if update.message.Some? && update.message.value.text.Some? then update.message.value.text else None
    case CallbackQueryHandler =>
      if update.callbackQuery.Some? then update.callbackQuery.value.data else None
    case InlineQueryHandler =>
      if update.inlineQuery.Some? then update.inlineQuery.value.query else None
    case BusinessMessageHandler | BusinessCallbackQueryHandler => Some("")
    case DocumentHandler =>
      if update.message.Some? && update.message.value.document.Some?
      then update.message.value.document.value.fileName
      else None
    case _ => None
  }

  /** `checkAccess`: a known user, or a handler that declares `accessByUnknownUsers` and sets it. */
  function CheckAccess(a: Annotation, user: Option<User>): (r: bool)
    ensures r <==> user.Some? || a.accessByUnknownUsers == Some(true)
    ensures user.None? && a.accessByUnknownUsers.None? ==> !r
  {
    user.Some? || BooleanValue(a, AccessByUnknownUsers)
  }

  /** The stream `anyMatch(id -> id.equals(stateId))` over the required states. */
  function AnyMatch(states: seq<string>, stateId: Option<string>): (r: bool)
    ensures r <==> exists i :: 0 <= i < |states| && Some(states[i]) == stateId
  {
    if states == [] then false
    else Some(states[0]) == stateId || AnyMatch(states[1..], stateId)
  }

  /**
   * `checkStates`: an unknown user and an empty state list pass; otherwise the user's
   * state must be non-null and its id one of the required states.
   */
  function CheckStates(a: Annotation, user: Option<User>): (r: bool)
    requires a.requiredStates.Some?
    ensures r <==>
      || user.None?
      || a.requiredStates.value == []
      || (&& user.value.state.Some?
          && user.value.state.value.id.Some?
          && user.value.state.value.id.value in a.requiredStates.value)
  {
    if user.None? then true
    else if |a.requiredStates.value| == 0 then true
    else if user.value.state.None? then false
    else AnyMatch(a.requiredStates.value, user.value.state.value.id)
  }

  /** How evaluating `matches` ends: with an answer, or with an exception (caught as "no match"). */
  datatype Evaluation = Answered(matched: bool) | Failed

  /** The text predicates, tried in precedence order once both gates have passed. */
  function TextRule(a: Annotation, text: Option<string>, user: Option<User>, s: Services): Evaluation
    requires a.requiredStates.Some?
  {
    var regex := StringValue(a, Regex);
    var key := StringValue(a, LocalizedValueKey);
    var value := StringValue(a, Value);
    if regex != "" && text.Some? then
      match s.fullMatch(regex, text.value)
      case Some(m) => Answered(m)
      case None => Failed
    else if key != "" && text.Some? then
      if s.localeService.None? || user.None? then Failed
      else Answered(Some(text.value) == s.localeService.value(user.value.langCode, key))
    else if value == "" && a.kind == MessageHandler && |a.requiredStates.value| != 0 then Answered(true)
    else if text.None? then Answered(false)
    else if BooleanValue(a, StartsWith) then Answered(value <= text.value)
    else Answered(text.value == value)
  }

  /** The body of `matches` inside its try block. */
  function Evaluate(h: MethodHandler, update: Update, user: Option<User>, s: Services): Evaluation {
    var a := h.annotation;
    if PaymentShortCircuit(a.kind, update) then Answered(true)
    else if a.requiredStates.None? then Failed
    else if MediaPresent(a.kind, update) then Answered(CheckAccess(a, user) && CheckStates(a, user))
    else if !CheckAccess(a, user) || !CheckStates(a, user) then Answered(false)
    else TextRule(a, ExtractText(a.kind, update), user, s)
  }

  /** `matches`: an exception counts as no match. */
  predicate Matches(h: MethodHandler, update: Update, user: Option<User>, s: Services) {
    Evaluate(h, update, user, s) == Answered(true)
  }

  /** Both gates, as the media and text paths apply them. */
  predicate GatesPass(a: Annotation, user: Option<User>)
    requires a.requiredStates.Some?
  {
    CheckAccess(a, user) && CheckStates(a, user)
  }

  // ---------------------------------------------------------------------------
  // Properties of `matches`

  /** Payment handlers accept on presence, before any gate: even an unknown user, even without requiredStates. */
  lemma PaymentHandlersMatchOnPresence(h: MethodHandler, update: Update, user: Option<User>, s: Services)
    requires || (h.annotation.kind == PreCheckoutQueryHandler && update.preCheckoutQuery.Some?)
             || (&& h.annotation.kind == SuccessfulPaymentHandler
                 && update.message.Some? && update.message.value.hasSuccessfulPayment)
    ensures Matches(h, update, user, s)
  {
  }

  /** The access gate: without a user and without `accessByUnknownUsers`, nothing but a payment short-circuit matches. */
  lemma UnknownUserIsRejected(h: MethodHandler, update: Update, s: Services)
    requires !PaymentShortCircuit(h.annotation.kind, update)
    requires !BooleanValue(h.annotation, AccessByUnknownUsers)
    ensures !Matches(h, update, None, s)
  {
  }

  /** A handler type that does not declare `requiredStates` never matches past the payment short-circuits. */
  lemma UndeclaredStatesNeverMatch(h: MethodHandler, update: Update, user: Option<User>, s: Services)
    requires !PaymentShortCircuit(h.annotation.kind, update)
    requires h.annotation.requiredStates.None?
    ensures Evaluate(h, update, user, s) == Failed && !Matches(h, update, user, s)
  {
  }

  /** Media handlers with their content present match exactly when both gates pass; no text or file name is examined. */
  lemma MediaMatchesIffGatesPass(h: MethodHandler, update: Update, user: Option<User>, s: Services)
    requires MediaPresent(h.annotation.kind, update)
    requires h.annotation.requiredStates.Some?
    ensures Matches(h, update, user, s) <==> GatesPass(h.annotation, user)
  {
  }

  /** The text path only ever matches when both gates pass. */
  lemma TextPathNeedsBothGates(h: MethodHandler, update: Update, user: Option<User>, s: Services)
    requires !PaymentShortCircuit(h.annotation.kind, update)
    requires h.annotation.requiredStates.Some?
    requires Matches(h, update, user, s)
    ensures GatesPass(h.annotation, user)
  {
  }

  /** Rule 1: a non-empty regex and a present text decide by full match, whatever the other attributes say. */
  lemma RegexRuleDecides(h: MethodHandler, update: Update, user: Option<User>, s: Services)
    requires !PaymentShortCircuit(h.annotation.kind, update) && !MediaPresent(h.annotation.kind, update)
    requires h.annotation.requiredStates.Some? && GatesPass(h.annotation, user)
    requires StringValue(h.annotation, Regex) != "" && ExtractText(h.annotation.kind, update).Some?
    ensures Matches(h, update, user, s) <==>
      s.fullMatch(StringValue(h.annotation, Regex), ExtractText(h.annotation.kind, update).value) == Some(true)
  {
  }

  /** Rule 2: otherwise a non-empty localized key compares the text with the user's localized string. */
  lemma LocalizedRuleDecides(h: MethodHandler, update: Update, user: Option<User>, s: Services)
    requires !PaymentShortCircuit(h.annotation.kind, update) && !MediaPresent(h.annotation.kind, update)
    requires h.annotation.requiredStates.Some? && GatesPass(h.annotation, user)
    requires StringValue(h.annotation, Regex) == ""
    requires StringValue(h.annotation, LocalizedValueKey) != "" && ExtractText(h.annotation.kind, update).Some?
    ensures Matches(h, update, user, s) <==>
      && s.localeService.Some? && user.Some?
      && s.localeService.value(user.value.langCode, StringValue(h.annotation, LocalizedValueKey))
         == ExtractText(h.annotation.kind, update)
  {
  }

  /** A localized key with an unknown user throws inside `matches`, which answers no match. */
  lemma LocalizedKeyWithoutUserFails(h: MethodHandler, update: Update, s: Services)
    requires !PaymentShortCircuit(h.annotation.kind, update) && !MediaPresent(h.annotation.kind, update)
    requires h.annotation.requiredStates.Some? && BooleanValue(h.annotation, AccessByUnknownUsers)
    requires StringValue(h.annotation, Regex) == ""
    requires StringValue(h.annotation, LocalizedValueKey) != "" && ExtractText(h.annotation.kind, update).Some?
    ensures Evaluate(h, update, None, s) == Failed && !Matches(h, update, None, s)
  {
  }

  /**
   * Rule 3: a MessageHandler with no value and some required state is a catch-all once
   * the gates pass, absent text included, unless a regex or localized rule applied.
   */
  lemma StateCatchAllMatches(h: MethodHandler, update: Update, user: Option<User>, s: Services)
    requires h.annotation.kind == MessageHandler && !MediaPresent(h.annotation.kind, update)
    requires h.annotation.requiredStates.Some? && h.annotation.requiredStates.value != []
    requires GatesPass(h.annotation, user)
    requires StringValue(h.annotation, Value) == ""
    requires || ExtractText(h.annotation.kind, update).None?
             || (StringValue(h.annotation, Regex) == "" && StringValue(h.annotation, LocalizedValueKey) == "")
    ensures Matches(h, update, user, s)
  {
  }

  /**
   * An unknown user skips the state gate: a state-gated catch-all open to unknown
   * users matches any message from an unknown sender.
   */
  lemma UnknownUserSkipsStateGate(h: MethodHandler, update: Update, s: Services)
    requires h.annotation.kind == MessageHandler && !MediaPresent(h.annotation.kind, update)
    requires h.annotation.requiredStates.Some? && h.annotation.requiredStates.value != []
    requires BooleanValue(h.annotation, AccessByUnknownUsers)
    requires StringValue(h.annotation, Value) == ""
    requires StringValue(h.annotation, Regex) == "" && StringValue(h.annotation, LocalizedValueKey) == ""
    ensures Matches(h, update, None, s)
  {
  }

  /**
   * Rule 4: when no earlier rule applies, absent text never matches; otherwise the value
   * is a prefix test under `startsWith` and an equality test without it.
   */
  lemma LiteralRuleDecides(h: MethodHandler, update: Update, user: Option<User>, s: Services)
    requires !PaymentShortCircuit(h.annotation.kind, update) && !MediaPresent(h.annotation.kind, update)
    requires h.annotation.requiredStates.Some? && GatesPass(h.annotation, user)
    requires || ExtractText(h.annotation.kind, update).None?
             || (StringValue(h.annotation, Regex) == "" && StringValue(h.annotation, LocalizedValueKey) == "")
    requires !(&& StringValue(h.annotation, Value) == "" && h.annotation.kind == MessageHandler
               && h.annotation.requiredStates.value != [])
    ensures Matches(h, update, user, s) <==>
      var text := ExtractText(h.annotation.kind, update);
      var value := StringValue(h.annotation, Value);
      && text.Some?
      && if BooleanValue(h.annotation, StartsWith) then value <= text.value else text.value == value
  {
  }

  /**
   * An inline-query handler declares no `value`, so the literal rule compares with "":
   * without a regex it matches a present query only when `startsWith` is set or the query is empty.
   */
  lemma InlineHandlerLiteralRule(h: MethodHandler, update: Update, user: Option<User>, s: Services)
    requires h.annotation.kind == InlineQueryHandler && WellShaped(h.annotation)
    requires GatesPass(h.annotation, user)
    requires StringValue(h.annotation, Regex) == ""
    requires update.inlineQuery.Some? && update.inlineQuery.value.query.Some?
    ensures Matches(h, update, user, s) <==>
      BooleanValue(h.annotation, StartsWith) || update.inlineQuery.value.query.value == ""
  {
  }

  /**
   * The file-name branch of `extractTextFromUpdate` is never used by `matches`: a
   * document handler reaches the text rules only when the message has no document,
   * so it always sees absent text there, and the file name never decides a match.
   */
  lemma DocumentFileNameNeverRead(h: MethodHandler, update: Update, user: Option<User>, s: Services)
    requires h.annotation.kind == DocumentHandler && h.annotation.requiredStates.Some?
    ensures Evaluate(h, update, user, s) ==
      if MediaPresent(DocumentHandler, update) then Answered(GatesPass(h.annotation, user))
      else if !GatesPass(h.annotation, user) then Answered(false)
      else TextRule(h.annotation, None, user, s)
  {
  }

  /** Without a document, a document handler never matches: it only ever sees absent text. */
  lemma DocumentHandlerNeedsDocument(h: MethodHandler, update: Update, user: Option<User>, s: Services)
    requires h.annotation.kind == DocumentHandler && !MediaPresent(DocumentHandler, update)
    ensures !Matches(h, update, user, s)
  {
  }

  /** A validated handler is invoked with exactly the arguments its signature declares. */
  lemma InvokeFollowsSignature(h: MethodHandler, update: Update, user: Option<User>)
    requires ValidSignature(h.params)
    ensures h.params == [UpdateParam] ==> InvokeArgs(h, update, user) == UpdateOnly(update)
    ensures h.params == [UpdateParam, BotUserParam] ==> InvokeArgs(h, update, user) == UpdateAndUser(update, user)
  {
  }
}
