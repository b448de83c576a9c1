/** The widget's session state (the module globals of the source) and what
    each host signal, platform reply and user action does to it: the bootstrap
    chain, the focus, blur and stop listeners, the socket handler and the
    payment button. */
module Lifecycle {
  import opened Js
  import opened Params
  import opened Conversation
  import opened Events
  import opened Payment

  const ClientId := "4e16b9b5-7630-4828-a5e5-73aef722f6e1"
  const RedirectUri := "https://pci-pal.github.io/genesys-cloud-premium/widget_app/interactionapp.html"

  /** The authenticated user (`me`). */
  datatype User = User(id: string, username: string)

  /** A notifications channel. */
  datatype Channel = Channel(id: string, connectUri: string)

  /** The WebSocket opened on a channel. */
  datatype Socket = Socket(uri: string)

  /** How a platform call's promise settles: resolved with a value, rejected,
      or never (the login redirect navigates away). */
  datatype Reply<T> = Resolved(value: T) | Rejected | Pending

  /** The replies the platform gives to the five calls of the bootstrap chain. */
  datatype Replies = Replies(
    login: Reply<()>,
    usersMe: Reply<User>,
    channel: Reply<Channel>,
    subscription: Reply<()>,
    conversation: Reply<Details>)

  datatype ToastKind = Info | Success | Failure

  /** What the widget does outside its own state, in order: platform calls,
      socket operations, host notifications and toasts, log of a failure
      caught by the bootstrap chain, and the form it submits. */
  datatype Effect =
    | LoginImplicitGrant(clientId: string, redirectUri: string, state: string)
    | GetUsersMe
    | CreateChannel
    | OpenSocket(uri: string)
    | InstallMessageHandler
    | Subscribe(channelId: string, topic: string)
    | GetConversation(conversationId: Value)
    | Bootstrapped
    | Toast(message: string, kind: ToastKind)
    | LogFailure
    | RemoveFocusListener
    | RemoveBlurListener
    | CloseSocket(code: int, reason: string)
    | Wait(milliseconds: nat)
    | Stopped
    | SubmitForm(form: Form)

  /** The module globals and the parts of the page the widget writes. */
  datatype State = State(
    me: Option<User>,
    topicName: string,
    socket: Option<Socket>,
    credentials: Credentials,
    displayed: string,
    paymentEnabled: bool,
    focusListening: bool,
    blurListening: bool,
    effects: seq<Effect>)

  /** The state once the script has run: focus and blur listeners registered,
      nothing else yet. */
  const Loaded := State(None, "", None, NoCredentials, "", false, true, true, [])

  const StopDelay := 500
  const NormalClosure := 1000

  predicate LoggedIn(r: Replies) { r.login.Resolved? }
  predicate HasUser(r: Replies) { LoggedIn(r) && r.usersMe.Resolved? }
  predicate HasChannel(r: Replies) { HasUser(r) && r.channel.Resolved? }
  predicate Subscribed(r: Replies) { HasChannel(r) && r.subscription.Resolved? }
  predicate Completed(r: Replies) { Subscribed(r) && r.conversation.Resolved? }

  /** What follows a reply that is not a resolution: the single `catch` logs a
      rejection; a promise that never settles is followed by nothing. */
  function Halt<T>(r: Reply<T>): seq<Effect>
  {
    if r.Rejected? then [LogFailure] else []
  }

  /** The effects of `initializeApplication` given the platform's replies:
      the login call, then what follows each stage in turn. */
  function BootstrapEffects(launch: string, conversationId: Value, r: Replies): seq<Effect>
  {
    [LoginImplicitGrant(ClientId, RedirectUri, launch)] + AfterLogin(conversationId, r)
  }

  function AfterLogin(conversationId: Value, r: Replies): seq<Effect>
  {
    if !LoggedIn(r) then Halt(r.login) else [GetUsersMe] + AfterUsersMe(conversationId, r)
  }

  function AfterUsersMe(conversationId: Value, r: Replies): seq<Effect>
  {
    if !HasUser(r) then Halt(r.usersMe) else [CreateChannel] + AfterChannel(conversationId, r)
  }

  /** With the channel: open the socket, install the handler, subscribe. */
  function AfterChannel(conversationId: Value, r: Replies): seq<Effect>
  {
    if !HasChannel(r) then Halt(r.channel)
    else
      [OpenSocket(r.channel.value.connectUri), InstallMessageHandler,
       Subscribe(r.channel.value.id, TopicFor(r.usersMe.value.id))] +
      AfterSubscription(conversationId, r)
  }

  function AfterSubscription(conversationId: Value, r: Replies): seq<Effect>
  {
    if !Subscribed(r) then Halt(r.subscription) else [GetConversation(conversationId)] + AfterConversation(r)
  }

  /** With the conversation: acknowledge the bootstrap and show a toast. */
  function AfterConversation(r: Replies): seq<Effect>
  {
    if !Completed(r) then Halt(r.conversation) else [Bootstrapped, Toast("Bootstrap Complete (500ms delay)", Success)]
  }

  /** The globals once the chain has stopped with the effects `es`: the user
      once `getUsersMe` resolved, the socket and the topic once the channel
      was created, the conversation, the credentials and the payment button
      only when every stage resolved. */
  function Outcome(s: State, r: Replies, es: seq<Effect>): State
  {
    s.(
      me := if HasUser(r) then Some(r.usersMe.value) else s.me,
      socket := if HasChannel(r) then Some(Socket(r.channel.value.connectUri)) else s.socket,
      topicName := if HasChannel(r) then TopicFor(r.usersMe.value.id) else s.topicName,
      displayed := if Completed(r) then r.conversation.value.text else s.displayed,
      credentials := if Completed(r) then Extract(r.conversation.value.participants, s.credentials) else s.credentials,
      paymentEnabled := s.paymentEnabled || Completed(r),
      effects := s.effects + es)
  }

  /** `initializeApplication`: each stage runs only once the previous one has
      resolved, and updates the globals it assigns. */
  function Bootstrap(s: State, params: AppParams, launch: string, r: Replies): State
  {
    Outcome(s, r, BootstrapEffects(launch, params.pcConversationId, r))
  }

  // The same chain callback by callback: each stage takes the globals as the
  // previous callback left them and looks only at its own reply.

  function Halted<T>(s: State, reply: Reply<T>): State
  {
    s.(effects := s.effects + Halt(reply))
  }

  /** Once `loginImplicitGrant` has been called. */
  function FromLogin(s: State, params: AppParams, r: Replies): State
  {
    if !r.login.Resolved? then Halted(s, r.login)
    else FromUser(s.(effects := s.effects + [GetUsersMe]), params, r)
  }

  /** Once `getUsersMe` has been called. */
  function FromUser(s: State, params: AppParams, r: Replies): State
  {
    if !r.usersMe.Resolved? then Halted(s, r.usersMe)
    else FromChannel(s.(me := Some(r.usersMe.value), effects := s.effects + [CreateChannel]), params, r)
  }

  /** The channel callback's update: socket, handler, topic, subscription. */
  function ChannelCreated(s: State, channel: Channel): State
    requires s.me.Some?
  {
    s.(socket := Some(Socket(channel.connectUri)),
       topicName := TopicFor(s.me.value.id),
       effects := s.effects + [OpenSocket(channel.connectUri), InstallMessageHandler,
                               Subscribe(channel.id, TopicFor(s.me.value.id))])
  }

  /** Once the channel has been requested. */
  function FromChannel(s: State, params: AppParams, r: Replies): State
    requires s.me.Some?
  {
    if !r.channel.Resolved? then Halted(s, r.channel)
    else FromSubscription(ChannelCreated(s, r.channel.value), params, r)
  }

  /** Once the subscription has been requested. */
  function FromSubscription(s: State, params: AppParams, r: Replies): State
  {
    if !r.subscription.Resolved? then Halted(s, r.subscription)
    else FromConversation(s.(effects := s.effects + [GetConversation(params.pcConversationId)]), r)
  }

  /** The conversation callback's update: show the details, take the first
      customer's credentials, bind the payment button, acknowledge. */
  function ConversationLoaded(s: State, data: Details): State
  {
    s.(displayed := data.text,
       credentials := Extract(data.participants, s.credentials),
       paymentEnabled := true,
       effects := s.effects + [Bootstrapped, Toast("Bootstrap Complete (500ms delay)", Success)])
  }

  /** Once the conversation details have been requested. */
  function FromConversation(s: State, r: Replies): State
  {
    if !r.conversation.Resolved? then Halted(s, r.conversation)
    else ConversationLoaded(s, r.conversation.value)
  }

  lemma FromConversationOutcome(s: State, r: Replies)
    requires Subscribed(r)
    requires s.me == Some(r.usersMe.value) && s.socket == Some(Socket(r.channel.value.connectUri))
    requires s.topicName == TopicFor(r.usersMe.value.id)
    ensures FromConversation(s, r) == Outcome(s, r, AfterConversation(r))
  {
  }

  lemma FromSubscriptionOutcome(s: State, params: AppParams, r: Replies)
    requires HasChannel(r)
    requires s.me == Some(r.usersMe.value) && s.socket == Some(Socket(r.channel.value.connectUri))
    requires s.topicName == TopicFor(r.usersMe.value.id)
    ensures FromSubscription(s, params, r) == Outcome(s, r, AfterSubscription(params.pcConversationId, r))
  {
    if Subscribed(r) {
      var next := s.(effects := s.effects + [GetConversation(params.pcConversationId)]);
      assert FromSubscription(s, params, r) == Outcome(next, r, AfterConversation(r)) by {
        FromConversationOutcome(next, r);
      }
      assert next.effects + AfterConversation(r) == s.effects + AfterSubscription(params.pcConversationId, r);
    }
  }

  lemma FromChannelOutcome(s: State, params: AppParams, r: Replies)
    requires HasUser(r) && s.me == Some(r.usersMe.value)
    ensures FromChannel(s, params, r) == Outcome(s, r, AfterChannel(params.pcConversationId, r))
  {
    if HasChannel(r) {
      var next := ChannelCreated(s, r.channel.value);
      var rest := AfterSubscription(params.pcConversationId, r);
      assert FromChannel(s, params, r) == Outcome(next, r, rest) by {
        FromSubscriptionOutcome(next, params, r);
      }
      assert next.effects + rest == s.effects + AfterChannel(params.pcConversationId, r);
    }
  }

  lemma FromUserOutcome(s: State, params: AppParams, r: Replies)
    requires LoggedIn(r)
    ensures FromUser(s, params, r) == Outcome(s, r, AfterUsersMe(params.pcConversationId, r))
  {
    if HasUser(r) {
      var next := s.(me := Some(r.usersMe.value), effects := s.effects + [CreateChannel]);
      var rest := AfterChannel(params.pcConversationId, r);
      assert FromUser(s, params, r) == Outcome(next, r, rest) by {
        FromChannelOutcome(next, params, r);
      }
      assert AfterUsersMe(params.pcConversationId, r) == [CreateChannel] + rest;
      assert next.effects + rest == s.effects + ([CreateChannel] + rest);
    }
  }

  lemma FromLoginOutcome(s: State, params: AppParams, r: Replies)
    ensures FromLogin(s, params, r) == Outcome(s, r, AfterLogin(params.pcConversationId, r))
  {
    if LoggedIn(r) {
      var next := s.(effects := s.effects + [GetUsersMe]);
      var rest := AfterUsersMe(params.pcConversationId, r);
      assert FromLogin(s, params, r) == Outcome(next, r, rest) by {
        FromUserOutcome(next, params, r);
      }
      assert AfterLogin(params.pcConversationId, r) == [GetUsersMe] + rest;
      OutcomeAppends(s, r, [GetUsersMe], rest);
    }
  }

  /** The callback-by-callback chain, started by the login call, ends in the
      globals `Bootstrap` describes. */
  lemma ChainIsBootstrap(s: State, params: AppParams, launch: string, r: Replies)
    ensures FromLogin(s.(effects := s.effects + [LoginImplicitGrant(ClientId, RedirectUri, launch)]), params, r) ==
      Bootstrap(s, params, launch, r)
  {
    var login := LoginImplicitGrant(ClientId, RedirectUri, launch);
    var next := s.(effects := s.effects + [login]);
    var rest := AfterLogin(params.pcConversationId, r);
    FromLoginOutcome(next, params, r);
    assert BootstrapEffects(launch, params.pcConversationId, r) == [login] + rest;
    OutcomeAppends(s, r, [login], rest);
  }

  /** Effects recorded before a stage are the start of the chain's effects. */
  lemma OutcomeAppends(s: State, r: Replies, before: seq<Effect>, rest: seq<Effect>)
    ensures Outcome(s.(effects := s.effects + before), r, rest) == Outcome(s, r, before + rest)
  {
    assert s.effects + before + rest == s.effects + (before + rest);
  }

  /** The focus listener: a toast while it is registered. */
  function Focus(s: State): State
  {
    if s.focusListening then s.(effects := s.effects + [Toast("App Focused", Info)]) else s
  }

  /** The blur listener: a toast while it is registered. */
  function Blur(s: State): State
  {
    if s.blurListening then s.(effects := s.effects + [Toast("App Blurred", Info)]) else s
  }

  /** The stop listener's effects. Without a socket `socket.close` throws a
      TypeError, and neither the delay nor the acknowledgement follows. */
  function StopEffects(socket: Option<Socket>): seq<Effect>
  {
    [RemoveFocusListener, RemoveBlurListener] +
    if socket.Some? then
      [CloseSocket(NormalClosure, "Application Closing"), Wait(StopDelay), Stopped,
       Toast("App Stopped (500ms delay)", Failure)]
    else []
  }

  /** The stop listener. */
  function Stop(s: State): State
  {
    s.(focusListening := false, blurListening := false, effects := s.effects + StopEffects(s.socket))
  }

  /** The socket's message handler. */
  function Receive(s: State, params: AppParams, f: Frame): State
  {
    s.(displayed := OnSocketMessage(s.displayed, f, s.topicName, params.pcConversationId))
  }

  /** `takePayment`. */
  function TakePayment(s: State): State
  {
    match PaymentForm(s.credentials)
    case None => s
    case Some(form) => s.(effects := s.effects + [SubmitForm(form)])
  }

  /** A click on the payment button: `takePayment` once bootstrap has bound it. */
  function Click(s: State): State
  {
    if s.paymentEnabled then TakePayment(s) else s
  }

  /** What can happen to the widget after load. */
  datatype Signal =
    | HostBootstrap(replies: Replies)
    | HostFocus
    | HostBlur
    | HostStop
    | SocketFrame(frame: Frame)
    | PaymentClick

  function Step(s: State, params: AppParams, launch: string, signal: Signal): State
  {
    match signal
    case HostBootstrap(r) => Bootstrap(s, params, launch, r)
    case HostFocus => Focus(s)
    case HostBlur => Blur(s)
    case HostStop => Stop(s)
    case SocketFrame(f) => Receive(s, params, f)
    case PaymentClick => Click(s)
  }

  function Run(s: State, params: AppParams, launch: string, signals: seq<Signal>): State
    decreases |signals|
  {
    if signals == [] then s else Run(Step(s, params, launch, signals[0]), params, launch, signals[1..])
  }

  // ---------------------------------------------------------------------------
  // The bootstrap chain

  /** The position of each bootstrap effect in the chain. */
  function Rank(e: Effect): nat
  {
    match e
    case LoginImplicitGrant(_, _, _) => 0
    case GetUsersMe => 1
    case CreateChannel => 2
    case OpenSocket(_) => 3
    case InstallMessageHandler => 4
    case Subscribe(_, _) => 5
    case GetConversation(_) => 6
    case Bootstrapped => 7
    case Toast(_, _) => 8
    case _ => 9
  }

  predicate InOrder(es: seq<Effect>)
  {
    forall i, j :: 0 <= i < j < |es| ==> Rank(es[i]) < Rank(es[j])
  }

  lemma InOrderPrepend(e: Effect, es: seq<Effect>)
    requires InOrder(es)
    requires forall j :: 0 <= j < |es| ==> Rank(e) < Rank(es[j])
    ensures InOrder([e] + es)
  {
    var all := [e] + es;
    forall i, j | 0 <= i < j < |all| ensures Rank(all[i]) < Rank(all[j]) {
      assert all[j] == es[j - 1];
      if i > 0 {
        assert all[i] == es[i - 1];
      }
    }
  }

  predicate RanksAbove(es: seq<Effect>, k: nat)
  {
    forall j :: 0 <= j < |es| ==> k < Rank(es[j])
  }

  lemma HaltInOrder<T>(reply: Reply<T>, k: nat)
    requires k < 9
    ensures InOrder(Halt(reply)) && RanksAbove(Halt(reply), k)
  {
  }

  lemma AfterConversationInOrder(r: Replies)
    ensures InOrder(AfterConversation(r)) && RanksAbove(AfterConversation(r), 6)
  {
    HaltInOrder(r.conversation, 6);
    InOrderPrepend(Toast("Bootstrap Complete (500ms delay)", Success), []);
    InOrderPrepend(Bootstrapped, [Toast("Bootstrap Complete (500ms delay)", Success)]);
  }

  lemma AfterSubscriptionInOrder(conversationId: Value, r: Replies)
    ensures InOrder(AfterSubscription(conversationId, r)) && RanksAbove(AfterSubscription(conversationId, r), 5)
  {
    HaltInOrder(r.subscription, 5);
    AfterConversationInOrder(r);
    InOrderPrepend(GetConversation(conversationId), AfterConversation(r));
  }

  lemma AfterChannelInOrder(conversationId: Value, r: Replies)
    ensures InOrder(AfterChannel(conversationId, r)) && RanksAbove(AfterChannel(conversationId, r), 2)
  {
    HaltInOrder(r.channel, 2);
    if HasChannel(r) {
      var rest := AfterSubscription(conversationId, r);
      var sub := Subscribe(r.channel.value.id, TopicFor(r.usersMe.value.id));
      var open := OpenSocket(r.channel.value.connectUri);
      AfterSubscriptionInOrder(conversationId, r);
      InOrderPrepend(sub, rest);
      InOrderPrepend(InstallMessageHandler, [sub] + rest);
      InOrderPrepend(open, [InstallMessageHandler] + ([sub] + rest));
      assert AfterChannel(conversationId, r) == [open] + ([InstallMessageHandler] + ([sub] + rest));
    }
  }

  lemma AfterUsersMeInOrder(conversationId: Value, r: Replies)
    ensures InOrder(AfterUsersMe(conversationId, r)) && RanksAbove(AfterUsersMe(conversationId, r), 1)
  {
    HaltInOrder(r.usersMe, 1);
    AfterChannelInOrder(conversationId, r);
    InOrderPrepend(CreateChannel, AfterChannel(conversationId, r));
  }

  /** The stages run strictly in order and none runs twice: login, user,
      channel, socket, handler, subscription, conversation, acknowledgement,
      toast, with at most a logged failure at the end. */
  lemma BootstrapInOrder(launch: string, conversationId: Value, r: Replies)
    ensures InOrder(BootstrapEffects(launch, conversationId, r))
  {
    HaltInOrder(r.login, 0);
    AfterUsersMeInOrder(conversationId, r);
    InOrderPrepend(GetUsersMe, AfterUsersMe(conversationId, r));
    InOrderPrepend(LoginImplicitGrant(ClientId, RedirectUri, launch), AfterLogin(conversationId, r));
  }

  lemma ConversationOutcome(r: Replies)
    requires Subscribed(r)
    ensures Bootstrapped in AfterConversation(r) <==> Completed(r)
    ensures LogFailure in AfterConversation(r) <==> r.conversation.Rejected?
  {
  }

  lemma SubscriptionOutcome(conversationId: Value, r: Replies)
    requires HasChannel(r)
    ensures Bootstrapped in AfterSubscription(conversationId, r) <==> Completed(r)
    ensures LogFailure in AfterSubscription(conversationId, r) <==>
      r.subscription.Rejected? || (Subscribed(r) && r.conversation.Rejected?)
  {
    if Subscribed(r) {
      ConversationOutcome(r);
      assert AfterSubscription(conversationId, r) == [GetConversation(conversationId)] + AfterConversation(r);
    }
  }

  lemma ChannelOutcome(conversationId: Value, r: Replies)
    requires HasUser(r)
    ensures Bootstrapped in AfterChannel(conversationId, r) <==> Completed(r)
    ensures LogFailure in AfterChannel(conversationId, r) <==>
      r.channel.Rejected? || (HasChannel(r) && r.subscription.Rejected?) || (Subscribed(r) && r.conversation.Rejected?)
  {
    if HasChannel(r) {
      SubscriptionOutcome(conversationId, r);
      assert AfterChannel(conversationId, r) ==
        [OpenSocket(r.channel.value.connectUri), InstallMessageHandler,
         Subscribe(r.channel.value.id, TopicFor(r.usersMe.value.id))] + AfterSubscription(conversationId, r);
    }
  }

  lemma UsersMeOutcome(conversationId: Value, r: Replies)
    requires LoggedIn(r)
    ensures Bootstrapped in AfterUsersMe(conversationId, r) <==> Completed(r)
    ensures LogFailure in AfterUsersMe(conversationId, r) <==>
      r.usersMe.Rejected? || (HasUser(r) && r.channel.Rejected?) || (HasChannel(r) && r.subscription.Rejected?) ||
      (Subscribed(r) && r.conversation.Rejected?)
  {
    if HasUser(r) {
      ChannelOutcome(conversationId, r);
      assert AfterUsersMe(conversationId, r) == [CreateChannel] + AfterChannel(conversationId, r);
    }
  }

  /** The host hears `bootstrapped()` exactly when every stage resolved, and a
      failure is logged exactly when a stage was rejected after all earlier
      ones resolved. */
  lemma BootstrappedIffCompleted(launch: string, conversationId: Value, r: Replies)
    ensures Bootstrapped in BootstrapEffects(launch, conversationId, r) <==> Completed(r)
    ensures LogFailure in BootstrapEffects(launch, conversationId, r) <==>
      r.login.Rejected? || (LoggedIn(r) && r.usersMe.Rejected?) || (HasUser(r) && r.channel.Rejected?) ||
      (HasChannel(r) && r.subscription.Rejected?) || (Subscribed(r) && r.conversation.Rejected?)
  {
    if LoggedIn(r) {
      UsersMeOutcome(conversationId, r);
      assert AfterLogin(conversationId, r) == [GetUsersMe] + AfterUsersMe(conversationId, r);
    }
    assert BootstrapEffects(launch, conversationId, r) ==
      [LoginImplicitGrant(ClientId, RedirectUri, launch)] + AfterLogin(conversationId, r);
  }

  /** A stage's platform call is made only when every earlier stage resolved:
      a rejection goes straight to the `catch`, and a pending login has
      navigated away. */
  lemma StagesRunOnlyAfterEarlierResolve(launch: string, conversationId: Value, r: Replies)
    ensures GetUsersMe in BootstrapEffects(launch, conversationId, r) <==> LoggedIn(r)
    ensures CreateChannel in BootstrapEffects(launch, conversationId, r) <==> HasUser(r)
    ensures InstallMessageHandler in BootstrapEffects(launch, conversationId, r) <==> HasChannel(r)
    ensures GetConversation(conversationId) in BootstrapEffects(launch, conversationId, r) <==> Subscribed(r)
  {
    var login := LoginImplicitGrant(ClientId, RedirectUri, launch);
    assert BootstrapEffects(launch, conversationId, r) == [login] + AfterLogin(conversationId, r);
    if LoggedIn(r) {
      UsersMeStageCalls(conversationId, r);
      assert AfterLogin(conversationId, r) == [GetUsersMe] + AfterUsersMe(conversationId, r);
    }
  }

  lemma UsersMeStageCalls(conversationId: Value, r: Replies)
    ensures GetUsersMe !in AfterUsersMe(conversationId, r)
    ensures CreateChannel in AfterUsersMe(conversationId, r) <==> HasUser(r)
    ensures InstallMessageHandler in AfterUsersMe(conversationId, r) <==> HasChannel(r)
    ensures GetConversation(conversationId) in AfterUsersMe(conversationId, r) <==> Subscribed(r)
  {
    if HasUser(r) {
      ChannelStageCalls(conversationId, r);
      assert AfterUsersMe(conversationId, r) == [CreateChannel] + AfterChannel(conversationId, r);
    }
  }

  lemma ChannelStageCalls(conversationId: Value, r: Replies)
    ensures GetUsersMe !in AfterChannel(conversationId, r) && CreateChannel !in AfterChannel(conversationId, r)
    ensures InstallMessageHandler in AfterChannel(conversationId, r) <==> HasChannel(r)
    ensures GetConversation(conversationId) in AfterChannel(conversationId, r) <==> Subscribed(r)
  {
    if HasChannel(r) {
      var open := OpenSocket(r.channel.value.connectUri);
      var sub := Subscribe(r.channel.value.id, TopicFor(r.usersMe.value.id));
      var rest := AfterSubscription(conversationId, r);
      assert AfterChannel(conversationId, r) == [open, InstallMessageHandler, sub] + rest;
      if Subscribed(r) {
        assert rest == [GetConversation(conversationId)] + AfterConversation(r);
      }
    }
  }

  /** Every subscription in `es` is for the user's topic and comes right
      after the socket was opened on the channel and the handler installed. */
  predicate SubscribesAfterHandler(es: seq<Effect>, r: Replies)
  {
    forall j :: 0 <= j < |es| && es[j].Subscribe? ==>
      HasChannel(r) && 2 <= j && es[j - 1] == InstallMessageHandler &&
      es[j - 2] == OpenSocket(r.channel.value.connectUri) && es[j].topic == TopicFor(r.usersMe.value.id)
  }

  lemma SubscribesAfterHandlerPrepend(e: Effect, es: seq<Effect>, r: Replies)
    requires !e.Subscribe? && SubscribesAfterHandler(es, r)
    ensures SubscribesAfterHandler([e] + es, r)
  {
    var xs := [e] + es;
    forall j | 0 <= j < |xs| && xs[j].Subscribe?
      ensures HasChannel(r) && 2 <= j && xs[j - 1] == InstallMessageHandler &&
        xs[j - 2] == OpenSocket(r.channel.value.connectUri) && xs[j].topic == TopicFor(r.usersMe.value.id)
    {
      assert xs[j] == es[j - 1];
    }
  }

  lemma NoSubscriptionAfterSubscribing(conversationId: Value, r: Replies)
    ensures forall e :: e in AfterSubscription(conversationId, r) ==> !e.Subscribe?
  {
  }

  lemma ChannelStageSubscribesAfterHandler(conversationId: Value, r: Replies)
    ensures SubscribesAfterHandler(AfterChannel(conversationId, r), r)
  {
    var ac := AfterChannel(conversationId, r);
    if HasChannel(r) {
      var tail := AfterSubscription(conversationId, r);
      assert ac == [OpenSocket(r.channel.value.connectUri), InstallMessageHandler,
                    Subscribe(r.channel.value.id, TopicFor(r.usersMe.value.id))] + tail;
      NoSubscriptionAfterSubscribing(conversationId, r);
      assert forall k :: 3 <= k < |ac| ==> ac[k] == tail[k - 3];
    }
  }

  /** The message handler is installed on the socket immediately before the
      subscription is requested, and the subscription is for the topic of the
      authenticated user. */
  lemma HandlerBeforeSubscription(launch: string, conversationId: Value, r: Replies)
    ensures SubscribesAfterHandler(BootstrapEffects(launch, conversationId, r), r)
  {
    if HasUser(r) {
      ChannelStageSubscribesAfterHandler(conversationId, r);
      SubscribesAfterHandlerPrepend(CreateChannel, AfterChannel(conversationId, r), r);
    }
    if LoggedIn(r) {
      SubscribesAfterHandlerPrepend(GetUsersMe, AfterUsersMe(conversationId, r), r);
    }
    SubscribesAfterHandlerPrepend(LoginImplicitGrant(ClientId, RedirectUri, launch), AfterLogin(conversationId, r), r);
  }

  // ---------------------------------------------------------------------------
  // Stop, focus and blur

  /** On stop the focus and blur listeners are removed first; with a socket it
      is closed with the normal-closure code, and only after the 500 ms delay
      is `stopped()` reported and the final toast shown. */
  lemma StopClosesBeforeAcknowledging(s: State)
    requires s.socket.Some?
    ensures Stop(s).effects[|s.effects|..] ==
      [RemoveFocusListener, RemoveBlurListener, CloseSocket(1000, "Application Closing"), Wait(500), Stopped,
       Toast("App Stopped (500ms delay)", Failure)]
    ensures !Stop(s).focusListening && !Stop(s).blurListening
  {
  }

  /** A stop that arrives before any socket exists stops at the TypeError of
      `socket.close`: the host never hears `stopped()`. */
  lemma StopWithoutSocketNeverAcknowledges(s: State)
    requires s.socket.None?
    ensures Stop(s).effects[|s.effects|..] == [RemoveFocusListener, RemoveBlurListener]
    ensures Stopped !in Stop(s).effects[|s.effects|..]
  {
  }

  /** Nothing guards a repeated stop: a second one closes the socket again
      and acknowledges again. */
  lemma RepeatedStopAcknowledgesAgain(s: State)
    requires s.socket.Some?
    ensures Stop(Stop(s)).effects == s.effects + StopEffects(s.socket) + StopEffects(s.socket)
  {
  }

  predicate IsListenerToast(e: Effect)
  {
    e == Toast("App Focused", Info) || e == Toast("App Blurred", Info)
  }

  lemma BootstrapShowsNoListenerToast(launch: string, conversationId: Value, r: Replies)
    ensures forall e :: e in BootstrapEffects(launch, conversationId, r) ==> !IsListenerToast(e)
  {
    var es := BootstrapEffects(launch, conversationId, r);
    var fromConversation := AfterConversation(r);
    assert forall e :: e in fromConversation ==> !IsListenerToast(e);
    var fromSubscription := AfterSubscription(conversationId, r);
    assert forall e :: e in fromSubscription ==> !IsListenerToast(e);
    var fromChannel := AfterChannel(conversationId, r);
    assert forall e :: e in fromChannel ==> !IsListenerToast(e);
    var fromUser := AfterUsersMe(conversationId, r);
    assert forall e :: e in fromUser ==> !IsListenerToast(e);
    assert forall e :: e in AfterLogin(conversationId, r) ==> !IsListenerToast(e);
  }

  lemma StepAfterStop(s: State, params: AppParams, launch: string, signal: Signal)
    requires !s.focusListening && !s.blurListening
    ensures var next := Step(s, params, launch, signal);
      !next.focusListening && !next.blurListening &&
      |s.effects| <= |next.effects| && next.effects[..|s.effects|] == s.effects &&
      forall e :: e in next.effects[|s.effects|..] ==> !IsListenerToast(e)
  {
    var next := Step(s, params, launch, signal);
    match signal
    case HostBootstrap(r) =>
      BootstrapShowsNoListenerToast(launch, params.pcConversationId, r);
      assert next.effects[|s.effects|..] == BootstrapEffects(launch, params.pcConversationId, r);
    case HostStop =>
      assert next.effects[|s.effects|..] == StopEffects(s.socket);
    case PaymentClick =>
      assert next.effects[|s.effects|..] == [] || next.effects[|s.effects|..] == [SubmitForm(PaymentForm(s.credentials).value)];
    case _ =>
      assert next.effects[|s.effects|..] == [];
  }

  /** Once stop has removed the focus and blur listeners nothing registers
      them again, so no later signal produces their toasts. */
  lemma {:induction false} NoListenerToastsAfterStop(s: State, params: AppParams, launch: string, signals: seq<Signal>)
    requires !s.focusListening && !s.blurListening
    ensures !Run(s, params, launch, signals).focusListening && !Run(s, params, launch, signals).blurListening
    ensures |s.effects| <= |Run(s, params, launch, signals).effects|
    ensures Run(s, params, launch, signals).effects[..|s.effects|] == s.effects
    ensures forall i :: |s.effects| <= i < |Run(s, params, launch, signals).effects| ==>
      !IsListenerToast(Run(s, params, launch, signals).effects[i])
    decreases |signals|
  {
    if signals != [] {
      var next := Step(s, params, launch, signals[0]);
      StepAfterStop(s, params, launch, signals[0]);
      NoListenerToastsAfterStop(next, params, launch, signals[1..]);
      var final := Run(next, params, launch, signals[1..]);
      assert final == Run(s, params, launch, signals);
      forall i | |s.effects| <= i < |final.effects| ensures !IsListenerToast(final.effects[i]) {
        if i < |next.effects| {
          assert final.effects[i] == next.effects[i] == next.effects[|s.effects|..][i - |s.effects|];
        }
      }
    }
  }

  // ---------------------------------------------------------------------------
  // Credentials, display and payment

  predicate NoBootstrap(signals: seq<Signal>)
  {
    forall i :: 0 <= i < |signals| ==> !signals[i].HostBootstrap?
  }

  /** The payment credentials come only from a fetched conversation: no
      event, listener or click changes them. */
  lemma {:induction false} CredentialsOnlyFromBootstrap(s: State, params: AppParams, launch: string, signals: seq<Signal>)
    requires NoBootstrap(signals)
    ensures Run(s, params, launch, signals).credentials == s.credentials
    decreases |signals|
  {
    if signals != [] {
      assert !signals[0].HostBootstrap?;
      assert NoBootstrap(signals[1..]) by {
        assert forall i :: 0 <= i < |signals[1..]| ==> signals[1..][i] == signals[i + 1];
      }
      CredentialsOnlyFromBootstrap(Step(s, params, launch, signals[0]), params, launch, signals[1..]);
    }
  }

  /** Each frame delivered as a socket signal, in order. */
  function Frames(frames: seq<Frame>): seq<Signal>
  {
    seq(|frames|, i requires 0 <= i < |frames| => SocketFrame(frames[i]))
  }

  /** Socket frames drive the display exactly as `onSocketMessage` replayed
      over them, against the subscribed topic and the tracked conversation. */
  lemma {:induction false} FramesReplay(s: State, params: AppParams, launch: string, frames: seq<Frame>)
    ensures Run(s, params, launch, Frames(frames)).displayed == Replay(s.displayed, frames, s.topicName, params.pcConversationId)
    ensures Run(s, params, launch, Frames(frames)).topicName == s.topicName
    decreases |frames|
  {
    if frames != [] {
      assert Frames(frames)[1..] == Frames(frames[1..]);
      FramesReplay(Receive(s, params, frames[0]), params, launch, frames[1..]);
    }
  }

  /** After a bootstrap whose conversation has a customer with a session id,
      the payment button submits one POST form to that session's secure link,
      carrying the customer's tokens in its two hidden fields. */
  lemma PaymentAfterBootstrap(s: State, params: AppParams, launch: string, r: Replies, i: nat)
    requires Completed(r)
    requires FirstCustomer(r.conversation.value.participants) == Some(i)
    requires "PCIPalSessionID" in r.conversation.value.participants[i].attributes
    ensures var booted := Bootstrap(s, params, launch, r);
      var attributes := r.conversation.value.participants[i].attributes;
      exists form ::
        Click(booted).effects == booted.effects + [SubmitForm(form)] &&
        form.formMethod == "post" &&
        SessionOfLink(form.action) == Some(attributes["PCIPalSessionID"]) &&
        form.fields == [HiddenField("X-BEARER-TOKEN", InputText(Attribute(attributes, "bearer_token"))),
                        HiddenField("X-REFRESH-TOKEN", InputText(Attribute(attributes, "refresh_token")))]
  {
    var booted := Bootstrap(s, params, launch, r);
    var ps := r.conversation.value.participants;
    assert booted.credentials == CredentialsOf(ps[i]);
    var form := PaymentForm(booted.credentials).value;
    assert Click(booted).effects == booted.effects + [SubmitForm(form)];
  }

  /** From page load, a bootstrap whose conversation has no customer leaves
      the credentials `null`, and the payment button then does nothing. */
  lemma NoCustomerNoPayment(params: AppParams, launch: string, r: Replies)
    requires Completed(r)
    requires forall j :: 0 <= j < |r.conversation.value.participants| ==> !IsCustomer(r.conversation.value.participants[j])
    ensures Bootstrap(Loaded, params, launch, r).credentials == NoCredentials
    ensures Click(Bootstrap(Loaded, params, launch, r)) == Bootstrap(Loaded, params, launch, r)
  {
  }
}
