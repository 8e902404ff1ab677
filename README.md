# Telegram update dispatcher: routing core in Dafny

This project models the routing engine of a Telegram bot framework. The engine has three parts:

- **`MethodHandler`** checks whether one annotated handler method accepts an update. It decides in this order:
  1. the payment short-circuits, which accept on presence alone;
  2. the reflective lookup of `requiredStates`: an annotation type that does not declare it gives no match;
  3. media presence: a photo, voice, audio or document handler whose content is present is decided by the access gate (known user, or `accessByUnknownUsers`) and the state gate (`requiredStates`) alone;
  4. otherwise the text is extracted, and the access and state gates are applied;
  5. the text predicates, in precedence order: regex, localized key, the state-gated catch-all, then literal value or prefix.

  Construction validates the method signature and the locale service.
- **`TelegramUpdateDispatcher`** registers the handlers under their annotation type. It ranks the plain-message handlers by a specificity score, using a stable sort. It classifies each update into one handler type and scans that type's handlers. It invokes the first handler that matches; a handler that throws is logged and the scan goes on. It also resolves the sender's user.
- **`DefaultMiddlewareChain`** keeps a cursor over the middleware list. Each `next` either hands the update to the next middleware or, at the end of the list, calls the dispatcher.

Layout:

| File | Module | Contents |
|---|---|---|
| `wrappers.dfy` | `Wrappers` | Option and Result |
| `telegram.dfy` | `Telegram` | the reduced `Update` and the bot user |
| `method_handler.dfy` | `MethodHandlers` | annotations, construction, `matches`, `invoke`'s argument choice |
| `ranking.dfy` | `Ranking` | the score and the stable sort |
| `routing.dfy` | `Routing` | the registry, classification, the first-match scan and sender resolution |
| `middleware_chain.dfy` | `Chain` | what one walk of the chain does |
| `dispatcher.dfy` | `Dispatcher` | the two classes, with the registry map and the cursor as mutable fields |

The two classes share a module because each refers to the other.

The regex engine, `LocaleService.getText`, the handler method bodies, the user service and the middleware bodies are code this model cannot see. Each one is a function value passed in:
- `Services` holds the regex engine, the locale service and the handler callbacks.
- The dispatcher's `userService` field holds the user lookup.
- The `Middleware` type describes a middleware's behaviour.

An exception is modelled as an explicit outcome:
- `Evaluation.Failed` is caught inside `matches` and read as no match.
- `CallOutcome.Threw` is a handler exception, caught by the scan.
- `ChainOutcome.Raised` is a middleware exception, which propagates.
- `DispatchOutcome.Crashed` is a null dereference in classification, which propagates.

Two behaviours of the code that a reader might not expect are kept as the code has them:
- A callback query without a message, in an update that is not a user message, makes classification dereference null (`TelegramUpdateDispatcher.java:199`). That exception escapes `dispatch(update, user)` and `dispatch(update)`, although every other failure past the middleware is caught. The model keeps the crash (`Routing.ClassifyPicksFirstApplicable`, `DispatchOutcome.Crashed`).
- Only the `MessageHandler` list is re-sorted by specificity. `CommandHandler` lists, although they match on text the same way, keep registration order (`TelegramUpdateDispatcher.java:98, 139`).

## Model

| member | source | states |
|---|---|---|
| `MethodHandlers.Construct` | src/main/java/org/itburger/telegramupdatesdispatcher/MethodHandler.java:21-42 | Construction succeeds iff the parameters are `(Update)` or `(Update, AbstractBotUser subtype)` and, when `localizedValueKey` is non-empty, a locale service exists. A bad signature is reported before a missing locale service, and a valid signature with a non-empty key and no locale service reports exactly the missing locale service. A successful result is exactly the handler built from the inputs. |
| `MethodHandlers.StringValue` | src/main/java/org/itburger/telegramupdatesdispatcher/MethodHandler.java:170-177 | An attribute the annotation type declares reads as its value; an undeclared one reads as "". A non-empty result is always the declared value. |
| `MethodHandlers.BooleanValue` | src/main/java/org/itburger/telegramupdatesdispatcher/MethodHandler.java:179-186 | The result is true iff the annotation type declares the attribute and it is set to true; an undeclared attribute reads as false. |
| `MethodHandlers.ExtractText` | src/main/java/org/itburger/telegramupdatesdispatcher/MethodHandler.java:118-139 | Message and command handlers read the message text, callback handlers the callback data, inline handlers the query, both business types "", and document handlers the file name, which is present only when the document is. Photo, voice, audio, payment and pre-checkout handlers have no text. Each is null when the part it reads is null. |
| `MethodHandlers.CheckAccess` | src/main/java/org/itburger/telegramupdatesdispatcher/MethodHandler.java:141-144 | Access is granted iff the user is known or the annotation declares `accessByUnknownUsers` as true; an annotation type without that attribute admits only known users. |
| `MethodHandlers.AnyMatch` | src/main/java/org/itburger/telegramupdatesdispatcher/MethodHandler.java:162-163 | The stream `anyMatch` is true iff some required state equals the (non-null) state id. |
| `MethodHandlers.CheckStates` | src/main/java/org/itburger/telegramupdatesdispatcher/MethodHandler.java:146-164 | The state gate passes iff one of these holds: the user is absent; `requiredStates` is empty; or the user's state and its id are non-null and the id is among `requiredStates`. |
| `MethodHandlers.PaymentHandlersMatchOnPresence` | src/main/java/org/itburger/telegramupdatesdispatcher/MethodHandler.java:47-49 | A pre-checkout handler matches any update with a pre-checkout query. A successful-payment handler matches any message with a successful payment. Both hold for every user, unknown included, before any gate. |
| `MethodHandlers.UnknownUserIsRejected` | src/main/java/org/itburger/telegramupdatesdispatcher/MethodHandler.java:55-90 | Past the payment short-circuits, a handler without `accessByUnknownUsers` never matches for an absent user, on the media and the text path alike. |
| `MethodHandlers.UndeclaredStatesNeverMatch` | src/main/java/org/itburger/telegramupdatesdispatcher/MethodHandler.java:51-53 | If the annotation type does not declare `requiredStates`, the reflective lookup throws. `matches` then answers false for everything except the payment short-circuits. |
| `MethodHandlers.MediaMatchesIffGatesPass` | src/main/java/org/itburger/telegramupdatesdispatcher/MethodHandler.java:55-85 | A photo, voice, audio or document handler whose content is present matches iff both gates pass. No text or file name is examined. |
| `MethodHandlers.TextPathNeedsBothGates` | src/main/java/org/itburger/telegramupdatesdispatcher/MethodHandler.java:87-90 | Past the payment short-circuits, any match implies that both the access and the state gate passed. |
| `MethodHandlers.RegexRuleDecides` | src/main/java/org/itburger/telegramupdatesdispatcher/MethodHandler.java:92-96 | Once the access and state gates pass (past the payment and media branches), with a non-empty regex and present text, the result is the full-string match, whatever value, `startsWith` or localized key say. |
| `MethodHandlers.LocalizedRuleDecides` | src/main/java/org/itburger/telegramupdatesdispatcher/MethodHandler.java:98-102 | Once the access and state gates pass (past the payment and media branches), with no regex, a non-empty localized key and present text, the handler matches iff all of these hold: a locale service exists, a user exists, and the localized string for the user's language equals the text. |
| `MethodHandlers.LocalizedKeyWithoutUserFails` | src/main/java/org/itburger/telegramupdatesdispatcher/MethodHandler.java:98-115 | A localized key evaluated for an absent user throws inside `matches`, which answers no match. |
| `MethodHandlers.StateCatchAllMatches` | src/main/java/org/itburger/telegramupdatesdispatcher/MethodHandler.java:104-108 | A MessageHandler with empty value and non-empty `requiredStates` matches once the gates pass, whatever the text, absent text included, provided no regex or localized rule applied. |
| `MethodHandlers.UnknownUserSkipsStateGate` | src/main/java/org/itburger/telegramupdatesdispatcher/MethodHandler.java:146-149 | An unknown user skips the state check. A state-gated catch-all open to unknown users therefore matches any message from an unknown sender. |
| `MethodHandlers.LiteralRuleDecides` | src/main/java/org/itburger/telegramupdatesdispatcher/MethodHandler.java:104-111 | When no earlier rule applies, absent text gives false. Otherwise the result is a prefix test under `startsWith` and exact equality without it. |
| `MethodHandlers.InlineHandlerLiteralRule` | src/main/java/org/itburger/telegramupdatesdispatcher/annotations/InlineQueryHandler.java:10-14 | An inline-query handler declares no `value`, which reads as "". Once the access and state gates pass, without a regex, it matches a present query iff `startsWith` is set or the query is empty. |
| `MethodHandlers.DocumentFileNameNeverRead` | src/main/java/org/itburger/telegramupdatesdispatcher/MethodHandler.java:55-90 | A document handler is decided by the gates alone when the message has a document, and otherwise reaches the text rules with absent text. So the file-name branch of `extractTextFromUpdate` (lines 133-136) never decides a match. |
| `MethodHandlers.DocumentHandlerNeedsDocument` | src/main/java/org/itburger/telegramupdatesdispatcher/MethodHandler.java:55-111 | Without a document in the message, a document handler never matches. |
| `MethodHandlers.InvokeFollowsSignature` | src/main/java/org/itburger/telegramupdatesdispatcher/MethodHandler.java:188-194 | A validated `(Update)` method is called with the update only. An `(Update, User)` method is called with the update and the user. |
| `Ranking.Score` | src/main/java/org/itburger/telegramupdatesdispatcher/TelegramUpdateDispatcher.java:101-135 | The score lies in 0..15. |
| `Ranking.ScoreRanksBySpecificity` | src/main/java/org/itburger/telegramupdatesdispatcher/TelegramUpdateDispatcher.java:101-134 | One handler scores above another iff its populated-field flags (regex, localized key, value, states) are lexicographically greater. Equal scores mean the same fields are populated. So a regex outranks everything without one, then a localized key, then a value, then states. |
| `Ranking.SortByScoreIsStableSort` | src/main/java/org/itburger/telegramupdatesdispatcher/TelegramUpdateDispatcher.java:98-136 | The sorted list is a permutation of the original (same multiset). It is in non-increasing score order. For every score, the handlers with that score keep their original relative order (stability). |
| `Routing.RegisterAllAppendsAccepted` | src/main/java/org/itburger/telegramupdatesdispatcher/TelegramUpdateDispatcher.java:161-171 | After registration, each type's list is its previous list followed by the valid candidates of that type, in scan order. Candidates that fail validation are skipped. |
| `Routing.SortRegistry` | src/main/java/org/itburger/telegramupdatesdispatcher/TelegramUpdateDispatcher.java:97-140 | Only the MessageHandler list is replaced (and is present afterwards, possibly empty). Every other type's list is unchanged. The new list is a stable, non-increasing, permuted version of the old one. |
| `Routing.ClassifyPicksFirstApplicable` | src/main/java/org/itburger/telegramupdatesdispatcher/TelegramUpdateDispatcher.java:180-205 | An update is routed to the applicable handler type of highest precedence, in this order: command, photo, document, voice, audio, successful payment, plain message, callback query (from a user message only), inline query, pre-checkout query. It is unrouted iff none applies and classification does not crash. Classification crashes iff a non-user-message update has a callback query without a message. |
| `Routing.ScanStopsAtFirstFiring` | src/main/java/org/itburger/telegramupdatesdispatcher/TelegramUpdateDispatcher.java:207-216 | If handler i is the first that matches and whose invocation returns normally, the scan invokes exactly the matching handlers up to and including i, in order. Nothing after i is examined. |
| `Routing.ScanWithoutFiringTriesAll` | src/main/java/org/itburger/telegramupdatesdispatcher/TelegramUpdateDispatcher.java:207-216 | If no handler both matches and returns, every matching handler is invoked once, in list order, and the errors are swallowed. |
| `Routing.ScanWithoutMatchInvokesNothing` | src/main/java/org/itburger/telegramupdatesdispatcher/TelegramUpdateDispatcher.java:207-216 | With zero matching handlers, nothing is invoked and dispatch completes normally. |
| `Routing.ScanCompletesAtMostOnce` | src/main/java/org/itburger/telegramupdatesdispatcher/TelegramUpdateDispatcher.java:207-216 | Every invocation but the last threw, so at most one handler completes per update. |
| `Routing.ExtractUserId` | src/main/java/org/itburger/telegramupdatesdispatcher/TelegramUpdateDispatcher.java:248-258 | The result is the first non-null sender id among message, callback query, inline query and pre-checkout query. It is null iff all four are null. |
| `Routing.ResolveUser` | src/main/java/org/itburger/telegramupdatesdispatcher/TelegramUpdateDispatcher.java:219-226 | A user is resolved iff a sender id exists and the user service finds it. A null answer or a failed lookup leaves the user absent. |
| `Routing.ResolveUserNeedsSender` | src/main/java/org/itburger/telegramupdatesdispatcher/TelegramUpdateDispatcher.java:222-223 | Without a sender id the user service is not consulted: every service gives the same absent user. |
| `Chain.ChainRunsInOrder` | src/main/java/org/itburger/telegramupdatesdispatcher/models/DefaultMiddlewareChain.java:29-38 | From cursor i, step k runs middleware i + k and never passes the end of the list, so middlewares run in list order, each at most once. The first middleware receives the caller's update and user; each later one receives the update and user its predecessor forwarded. |
| `Chain.ChainOutcomeFollowsLastStep` | src/main/java/org/itburger/telegramupdatesdispatcher/models/DefaultMiddlewareChain.java:29-38 | The dispatcher is reached iff the cursor ends at the list size and the last middleware forwarded. The dispatcher gets the update and user of that final `next` call. Otherwise the last middleware dropped the update (the dispatcher is never reached) or threw (the exception propagates). |
| `Chain.EmptyChainDispatchesAtOnce` | src/main/java/org/itburger/telegramupdatesdispatcher/models/DefaultMiddlewareChain.java:31-36 | With an empty middleware list, the first `next` dispatches immediately with the given update and user. |
| `Dispatcher.TelegramUpdateDispatcher.constructor` | src/main/java/org/itburger/telegramupdatesdispatcher/TelegramUpdateDispatcher.java:64-79 | The handler map is the registration of the candidates, with invalid ones skipped, followed by the MessageHandler sort. |
| `Dispatcher.TelegramUpdateDispatcher.InitHandlers` | src/main/java/org/itburger/telegramupdatesdispatcher/TelegramUpdateDispatcher.java:142-178 | The loop registers the candidates one by one. The map afterwards is `RegisterAll` of the old map. |
| `Dispatcher.TelegramUpdateDispatcher.Register` | src/main/java/org/itburger/telegramupdatesdispatcher/TelegramUpdateDispatcher.java:163-170 | A valid handler is appended to its type's list (created if absent). An invalid one leaves the map unchanged. |
| `Dispatcher.TelegramUpdateDispatcher.SortHandlers` | src/main/java/org/itburger/telegramupdatesdispatcher/TelegramUpdateDispatcher.java:97-140 | The new map is `SortRegistry` of the old one. |
| `Dispatcher.TelegramUpdateDispatcher.DispatchWithUser` | src/main/java/org/itburger/telegramupdatesdispatcher/TelegramUpdateDispatcher.java:180-217 | The loop's invocations equal the first-match scan of the classified type's list. It completes with no invocation for an unrouted update and crashes only where classification crashes. |
| `Dispatcher.TelegramUpdateDispatcher.Dispatch` | src/main/java/org/itburger/telegramupdatesdispatcher/TelegramUpdateDispatcher.java:219-231 | The user is resolved first, then a fresh chain starting at cursor 0 runs. The outcome is that walk of the chain. |
| `Dispatcher.DefaultMiddlewareChain.constructor` | src/main/java/org/itburger/telegramupdatesdispatcher/models/DefaultMiddlewareChain.java:18-26 | The cursor starts at 0 and the chain keeps the given list and dispatcher. |
| `Dispatcher.DefaultMiddlewareChain.Next` | src/main/java/org/itburger/telegramupdatesdispatcher/models/DefaultMiddlewareChain.java:28-38 | The cursor stays within `0..size`. A call advances it by exactly the number of middlewares that ran, so by one per middleware, and the outcome is the walk of the chain from the old cursor. |

## Left out

- Classpath scanning, Spring bean lookup and reflective instantiation in `initHandlers` are not modelled. The dispatcher instead takes the list of candidate (method, annotation) pairs the scan would find. Failing to instantiate a handler class is also left out.
- Reflective annotation access is replaced by a record. An attribute the annotation type does not declare is `None`. The annotation types under `ru.neformat` are not part of this model; they are assumed to have the shape of `MessageHandler.java:11-16`.
- `Pattern.matches` and `LocaleService.getText` are function parameters. Regex semantics are not modelled.
- Handler method bodies and `Method.invoke` are an abstract outcome per call, returns or throws. Only the choice of arguments is modelled.
- Middleware bodies are an abstract choice: forward some update and user (possibly different from the ones received), drop, or throw. A middleware that calls `next` more than once, or does work after `next` returns, is not modelled.
- Logging and `printStackTrace` are left out because they have no effect on routing. The exception class and the interface files hold no logic and are left out too.
- Of the four dispatcher constructors, one is modelled. The others differ only by a null locale service or an empty middleware list, and both are expressible through its parameters.
- The Telegram object graph is reduced to optional parts, flags and ids. `isCommand` and `isUserMessage` are taken as given flags, not computed from entities and chat type.
- Concurrency is not modelled. This includes sharing one chain between threads, which the code avoids by creating a chain per dispatch.
- `Routing.Scan`: every handler of the scan is tested against the same user and update value. In the code both are mutable objects shared by the whole scan. A handler that calls `setState` on the user, or edits the update (its message text, say), and then throws changes what `matches` sees for the handlers after it. The model does not capture that aliasing, nor any other change a handler makes to the user or the update.
- The getters of `AbstractBotUser` and `UserState` are treated as total and non-throwing, and the language code as non-null. A user implementation whose getters throw or return a null language code is not modelled.
