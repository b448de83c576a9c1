# Interaction widget: launch parameters, bootstrap chain, event filter and payment handoff

This project models the core of the Genesys Cloud interaction widget in
`widget_app/js/interactionapp.js`. The widget is a page that the Genesys Cloud
client loads in an iframe next to a conversation. It has five parts:

- **Launch-parameter resolver.** `parseAppParameters` splits the launch string
  on `&` and on `=`, and keeps the last `pcEnvironment`, `pcLangTag` and
  `pcConversationId`. A `state` pair, which comes back from the implicit-grant
  redirect, is decoded twice with `decodeURIComponent` and resolved again. Its
  result replaces everything read before it. A malformed escape throws a
  URIError. The launch string is `location.search` without its `?`, or else
  `location.hash` without its `#`.
- **Bootstrap chain.** `initializeApplication` is one promise chain: implicit
  grant login, `getUsersMe`, channel creation, then WebSocket plus message
  handler plus subscription to `v2.users.<id>.conversations`, then
  `getConversation`, then credential extraction, binding the payment button,
  `bootstrapped()` and a toast. The chain ends in one `catch`.
- **Socket message filter.** `onSocketMessage` shows an event's body only when
  it carries the subscribed topic and the tracked conversation id.
- **Credential extraction and payment handoff.** The session id and tokens of
  the first participant whose purpose is `customer` are kept. `takePayment`
  posts them as two hidden fields to the secure link
  `https://useast1.pcipal.cloud/session/208/view/<id>/framed/`.
- **Host lifecycle listeners.** The focus and blur listeners show toasts. The
  stop listener removes them, closes the socket with code 1000, waits 500 ms,
  then reports `stopped()` and shows a toast.

## Modules

- `Js` (`js.dfy`): the JavaScript values the widget inspects (`null`,
  `undefined`, strings), plus Option and Result.
- `Text` (`text.dfy`): `split` with a one-character separator, and its inverse
  `join`.
- `Uri` (`uri.dfy`): `decodeURIComponent`, covering `%XX` escapes and UTF-8
  sequences of one to four bytes, with the URIError cases. Also an encoder for
  ASCII text, used to state the round trip.
- `Params` (`params.dfy`): the resolver as a specification function
  (`Resolve`, recursive through `state`). `ParseAppParameters` is the source's
  loop, proved equal to `Resolve`. Also the choice of the launch string.
- `Conversation` (`conversation.dfy`): participants, the first-customer search
  and the credential extraction.
- `Events` (`events.dfy`): the message filter and its effect over a stream of
  frames.
- `Payment` (`payment.dfy`): the secure link and the form `takePayment`
  submits.
- `Lifecycle` (`lifecycle.dfy`): the module globals as a `State` value, plus
  what each host signal, platform reply, socket frame and click does to it.
  Everything the widget does outside its globals is an ordered list of
  `Effect`s: platform calls, socket operations, acknowledgements, toasts, the
  logged failure and the submitted form. The bootstrap is given twice:
  - `Bootstrap` is the summary, field by field;
  - `FromLogin` … `FromConversation` follow the promise callbacks one by one;
  - `ChainIsBootstrap` proves the two agree.
- `App` (`app.dfy`): the widget as it runs.
  - `InteractionApp` is a class whose fields are the module globals. Its
    methods are the listeners, the promise callbacks, the socket handler and
    `takePayment`, and each one is proved against the `Lifecycle` function of
    its old state.
  - `FormElement` is the form that `takePayment` builds one field at a time.
  - `LoadPage` is the script's top level.

## Behaviour of note

- A URIError from a malformed `state` value is not caught. It stops the script
  before any listener is registered (`LoadPage`).
- A stop that arrives before the socket exists throws a TypeError at
  `socket.close`, so the host never receives `stopped()`
  (`StopWithoutSocketNeverAcknowledges`).
- A repeated stop closes the socket again and acknowledges again, so stop is
  not idempotent (`RepeatedStopAcknowledgesAgain`).
- Replies that arrive after a stop are not ignored: the bootstrap chain still
  updates the globals.

## Model

| member | source | states |
|---|---|---|
| Text.Split | widget_app/js/interactionapp.js:277-281 | `split` returns at least one piece. Joining the pieces with the separator gives back the input, no piece contains the separator, and the pieces' lengths plus the separators add up to the input length. |
| Text.SinglePiece | widget_app/js/interactionapp.js:281-285 | A string splits into a single piece exactly when it does not contain the separator. |
| Text.SplitJoin | widget_app/js/interactionapp.js:277-281 | Splitting a join of separator-free pieces gives back exactly those pieces. |
| Text.SplitAppend | widget_app/js/interactionapp.js:277-281 | Splitting `a + c + b` on `c` gives the pieces of `a` followed by the pieces of `b`. |
| Uri.Decode | widget_app/js/interactionapp.js:293-295 | Decoding never lengthens the text. The URIError cases are in its body, and `DecodePlain` and `DecodeEncode` state what it does. |
| Uri.DecodePlain | widget_app/js/interactionapp.js:293-295 | Text without `%` decodes to itself. |
| Uri.DecodeEncode | widget_app/js/interactionapp.js:293-295 | Decoding undoes percent-encoding for every ASCII string. |
| Uri.EncodedHasNoSeparator | widget_app/js/interactionapp.js:277-281 | An encoded value contains neither `&` nor `=`, so it survives both splits of the resolver as one value. |
| Params.PairValue | widget_app/js/interactionapp.js:281-288 | `currParam[1]` is never `null`. It is `undefined` exactly when the pair has no `=`; otherwise it is text shorter than the pair and free of `=`. |
| Params.PairValueBetween | widget_app/js/interactionapp.js:281-288 | For `k=v=rest` with `k` and `v` free of `=`, the key is `k` and the value is `v`: the value is cut at the second `=`. |
| Params.BareKey | widget_app/js/interactionapp.js:277-288 | A query string that is a recognised key alone, without `=`, sets that key's parameter to `undefined` and leaves the other two `null`. |
| Params.ParseAppParameters | widget_app/js/interactionapp.js:266-301 | The loop over the `&`-pieces, with the nested call for `state`, returns exactly `Resolve(queryString)`. That value is the parameters, or URIError when a `state` value fails to decode. |
| Params.StateWithoutValue | widget_app/js/interactionapp.js:289-295 | A `state` key without `=` decodes the text "undefined", which resolves to the initial all-`null` parameters. |
| Params.ResolveAppend | widget_app/js/interactionapp.js:277-297 | Appending one more pair applies that pair to the result so far; an error so far stays the error. |
| Params.LastOccurrenceWins | widget_app/js/interactionapp.js:279-288 | After any prefix, any pair with a recognised key sets that key's parameter to the pair's value (`undefined` without `=`, else the text up to the next `=`) and leaves the other two as they were; an earlier error is kept. |
| Params.UnknownKeyIgnored | widget_app/js/interactionapp.js:281-297 | A pair whose key is neither recognised nor `state` changes nothing. |
| Params.StateReplacesEarlierKeys | widget_app/js/interactionapp.js:289-296 | A `state` pair carrying `p` discards every parameter set before it. The result is that of resolving `p`. |
| Params.StateRoundTrip | widget_app/js/interactionapp.js:289-296 | Resolving `state=` plus `p` encoded twice gives the same result as resolving `p`. |
| Params.KeysAfterStateOverride | widget_app/js/interactionapp.js:279-297 | Any pair with a recognised key after a `state` pair overwrites, with the pair's value, the parameter the `state` pair carried. |
| Params.ResolveWithoutState | widget_app/js/interactionapp.js:269-300 | Without a `state` pair, each parameter is the value of the last pair naming it, or `null` when none does. The empty string yields all three `null`. |
| Params.FirstLoadParameters | widget_app/js/interactionapp.js:269-288 | `pcConversationId=<id>&pcEnvironment=<env>` resolves to that environment and conversation id, with the language tag `null`. |
| Params.FirstLoad | widget_app/js/interactionapp.js:35-36 | With a query string, the launch string is the query string without its `?`. |
| Params.FragmentLaunch | widget_app/js/interactionapp.js:37-38 | Without a query string, the launch string is the fragment without its `#`. |
| Params.ResumeAfterRedirect | widget_app/js/interactionapp.js:34-40 | After the redirect (no query string, the fragment ending in the `state` pair), the parameters of the original query string are recovered, whatever error-free pairs precede it. |
| Conversation.FirstCustomer | widget_app/js/interactionapp.js:189-193 | `find` gives the position of the first participant whose purpose is `customer`. None comes before it, and there is none at all when it finds nothing. |
| Conversation.Extract | widget_app/js/interactionapp.js:189-206 | The credentials become those of the first customer participant (`undefined` for a missing attribute). They stay as they were when there is no customer. |
| Conversation.SessionIdPresentIff | widget_app/js/interactionapp.js:189-206 | Starting from `null`, the session id is present exactly when a first customer exists and carries `PCIPalSessionID`. It stays `null` exactly when there is no customer. |
| Events.OnSocketMessage | widget_app/js/interactionapp.js:135-145 | The display changes to the event body exactly when the frame parses, its topic is the subscribed topic, it has a body and the body's id is the tracked conversation. Otherwise it stays. |
| Events.LastMatch | widget_app/js/interactionapp.js:135-145 | The body of a matching frame after which no frame matches, so the last matching frame's body; none when no frame matches. |
| Events.ReplayShowsLastMatch | widget_app/js/interactionapp.js:135-145 | After any stream of frames, the display shows the last matching frame's body, or what it showed before when none matched. |
| Payment.SecureLinkNamesSession | widget_app/js/interactionapp.js:232 | The secure link yields back exactly the session id it was built from. |
| Payment.PaymentForm | widget_app/js/interactionapp.js:227-261 | A form exists exactly when the session id is neither `null` nor `undefined`. It is a POST to that session's secure link, and its hidden fields are `X-BEARER-TOKEN` and then `X-REFRESH-TOKEN`, with the values an input stores for the tokens. |
| Payment.ActionIgnoresTokens | widget_app/js/interactionapp.js:232-250 | The tokens travel only in the body: the form's action depends on the session id alone. |
| Lifecycle.ChainIsBootstrap | widget_app/js/interactionapp.js:147-225 | Running the callbacks one after another from the login call ends in the globals `Bootstrap` describes. Each global changes only once its stage has resolved. |
| Lifecycle.BootstrapInOrder | widget_app/js/interactionapp.js:147-225 | The bootstrap's effects run strictly in chain order, with no stage repeated, and end with at most one logged failure. |
| Lifecycle.BootstrappedIffCompleted | widget_app/js/interactionapp.js:147-225 | `bootstrapped()` is sent exactly when all five replies resolved. A failure is logged exactly when a stage was rejected after all earlier stages resolved. |
| Lifecycle.StagesRunOnlyAfterEarlierResolve | widget_app/js/interactionapp.js:154-224 | The bootstrap calls `users/me`, creates the channel, installs the message handler and fetches the conversation each exactly when every earlier stage resolved; a rejection skips every later stage, and a pending login runs none. |
| Lifecycle.HandlerBeforeSubscription | widget_app/js/interactionapp.js:170-181 | Every subscription comes right after the socket was opened on the channel and the message handler installed, and it is for the user's own topic. |
| Lifecycle.StopClosesBeforeAcknowledging | widget_app/js/interactionapp.js:104-128 | With a socket, stop removes the focus and blur listeners, closes the socket with code 1000, waits 500 ms and only then reports `stopped()` and shows the final toast. |
| Lifecycle.StopWithoutSocketNeverAcknowledges | widget_app/js/interactionapp.js:104-111 | Without a socket, only the listeners are removed, and `stopped()` is never sent. |
| Lifecycle.RepeatedStopAcknowledgesAgain | widget_app/js/interactionapp.js:104-128 | A second stop repeats the close and the acknowledgement. |
| Lifecycle.StepAfterStop | widget_app/js/interactionapp.js:74-128 | Once the listeners are removed, no signal registers them again. A signal only appends effects, and never a focus or blur toast. |
| Lifecycle.NoListenerToastsAfterStop | widget_app/js/interactionapp.js:74-110 | After stop, no sequence of signals produces a focus or blur toast, and earlier effects are never rewritten. |
| Lifecycle.CredentialsOnlyFromBootstrap | widget_app/js/interactionapp.js:195-199 | Socket frames, listeners and clicks never change the payment credentials; only a bootstrap does. |
| Lifecycle.FramesReplay | widget_app/js/interactionapp.js:135-145 | A stream of socket frames drives the display exactly as the filter replayed over the frames, against the subscribed topic. |
| Lifecycle.PaymentAfterBootstrap | widget_app/js/interactionapp.js:189-255 | After a completed bootstrap whose first customer has a session id, a click submits one POST form to that session's link, carrying that customer's tokens. |
| Lifecycle.NoCustomerNoPayment | widget_app/js/interactionapp.js:189-262 | From page load, a completed bootstrap without a customer leaves the credentials `null`, and a click then does nothing. |
| App.FormElement.AppendChild | widget_app/js/interactionapp.js:244-251 | Appends the field after the ones already present. |
| App.InteractionApp.constructor | widget_app/js/interactionapp.js:20-99 | The globals at load: no user, no socket, empty topic, `null` credentials, focus and blur listeners registered. |
| App.InteractionApp.InitializeApplication | widget_app/js/interactionapp.js:147-225 | The new globals are `Bootstrap` of the old ones for the platform's replies. |
| App.InteractionApp.AwaitLogin | widget_app/js/interactionapp.js:154-160 | The new globals are `FromLogin` of the old ones: a rejection logs the failure, a resolution calls `getUsersMe`. |
| App.InteractionApp.AwaitUser | widget_app/js/interactionapp.js:162-169 | The new globals are `FromUser` of the old ones: `me` is set and a channel requested. |
| App.InteractionApp.AwaitChannel | widget_app/js/interactionapp.js:170-181 | The new globals are `FromChannel` of the old ones. |
| App.InteractionApp.AwaitSubscription | widget_app/js/interactionapp.js:182-184 | The new globals are `FromSubscription` of the old ones: the conversation is requested. |
| App.InteractionApp.AwaitConversation | widget_app/js/interactionapp.js:185-223 | The new globals are `FromConversation` of the old ones. |
| App.InteractionApp.OnChannelCreated | widget_app/js/interactionapp.js:170-181 | Opens the socket on the channel, installs the handler, sets the topic from `me` and subscribes to it. |
| App.InteractionApp.OnConversationDetails | widget_app/js/interactionapp.js:185-218 | Shows the conversation, takes `Extract` of the participants, binds the payment button and acknowledges. |
| App.InteractionApp.OnAppFocus | widget_app/js/interactionapp.js:74-83 | A focus toast while the listener is registered. |
| App.InteractionApp.OnAppBlur | widget_app/js/interactionapp.js:89-98 | A blur toast while the listener is registered. |
| App.InteractionApp.OnStop | widget_app/js/interactionapp.js:104-128 | The new globals are `Stop` of the old ones. |
| App.InteractionApp.OnSocketMessage | widget_app/js/interactionapp.js:135-145 | The new display is `OnSocketMessage` of the old display against the current topic and the tracked conversation. Nothing else changes. |
| App.InteractionApp.TakePayment | widget_app/js/interactionapp.js:227-262 | Builds the form field by field and submits exactly `PaymentForm` of the current credentials; nothing when the session id is absent. |
| App.InteractionApp.OnPaymentClick | widget_app/js/interactionapp.js:208 | `takePayment` runs only once the bootstrap has bound the button. |
| App.LoadPage | widget_app/js/interactionapp.js:34-62 | The script fails exactly when resolving the launch string throws. Otherwise the widget starts from the load state with the resolved parameters, and it bootstraps at once when the page has a fragment. |

## Left out

- Console logging, the username and parameter writes to the page, and
  `JSON.stringify` of what is displayed: the displayed text is given with each
  conversation and event.
- The platform SDK and Client App SDK (`setEnvironment`, the API calls, the
  toasts' title and id): each API call is an `Effect`, and its outcome is a
  given `Reply` (resolved, rejected, or pending when the login redirect
  navigates away).
- Interleaving: a bootstrap's replies are handled as one step. Socket frames
  and host signals that arrive between two stages of the chain are not
  modelled between those stages.
- The 500 ms timer is an effect (`Wait`) in the stop sequence, not a clock.
- Uri.Encode: encodes ASCII text only. It is used to state the `state` round
  trip, which is therefore proved for ASCII parameter strings.
- Uri.Decode: its contract states only the length bound; what it computes is stated by `DecodePlain` and `DecodeEncode`. It works on code points, not on JavaScript's UTF-16 code units.
  Characters outside the Basic Multilingual Plane count as one character.
- `JSON.parse` of a socket frame: a frame is either a parsed message or
  `Malformed`, and the thrown SyntaxError is modelled as "display unchanged".
- A TypeError from a participant without `attributes`, from a conversation
  without `participants`, or from a matching topic whose message has no
  `eventBody`: the first two are left out, and the last leaves the display
  unchanged.
- `wizard/config/config.js` is not part of this model.
