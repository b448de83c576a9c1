/** The widget as the script runs it: the module globals are the fields of one
    object, and the lifecycle listeners, the socket handler and the payment
    button's handler are methods that update them. */
module App {
  import opened Js
  import opened Params
  import opened Conversation
  import opened Events
  import opened Payment
  import opened Lifecycle

  /** The form element `takePayment` creates and fills. */
  class FormElement {
    var formMethod: string
    var action: string
    var children: seq<HiddenField>

    constructor ()
      ensures formMethod == "" && action == "" && children == []
    {
      formMethod, action, children := "", "", [];
    }

    method AppendChild(field: HiddenField)
      modifies this`children
      ensures children == old(children) + [field]
    {
      children := children + [field];
    }

    function Value(): Form
      reads this
    {
      Form(formMethod, action, children)
    }
  }

  class InteractionApp {
    const integrationQueryString: string
    const appParams: AppParams

    var me: Option<User>
    var topicName: string
    var socket: Option<Socket>
    var pcipalSessionId: Value
    var pcipalBearerToken: Value
    var pcipalRefreshToken: Value
    /** The conversation shown on the page. */
    var displayed: string
    /** Whether the payment button's click handler is bound. */
    var paymentEnabled: bool
    var focusListening: bool
    var blurListening: bool
    /** Everything the widget has done outside its own state, in order. */
    var effects: seq<Effect>

    function Snapshot(): State
      reads this
    {
      State(me, topicName, socket, Credentials(pcipalSessionId, pcipalBearerToken, pcipalRefreshToken),
            displayed, paymentEnabled, focusListening, blurListening, effects)
    }

    /** The script's globals once it has run, with the launch string and the
        parameters resolved from it. */
    constructor (integrationQueryString: string, appParams: AppParams)
      ensures this.integrationQueryString == integrationQueryString && this.appParams == appParams
      ensures Snapshot() == Loaded
    {
      this.integrationQueryString := integrationQueryString;
      this.appParams := appParams;
      me, topicName, socket := None, "", None;
      pcipalSessionId, pcipalBearerToken, pcipalRefreshToken := Null, Null, Null;
      displayed, paymentEnabled := "", false;
      focusListening, blurListening := true, true;
      effects := [];
    }

    /** `initializeApplication`, the platform's replies given: the login call
        starts the chain of callbacks. */
    method InitializeApplication(replies: Replies)
      modifies this
      ensures Snapshot() == Bootstrap(old(Snapshot()), appParams, integrationQueryString, replies)
    {
      ghost var before := Snapshot();
      effects := effects + [LoginImplicitGrant(ClientId, RedirectUri, integrationQueryString)];
      AwaitLogin(replies);
      ChainIsBootstrap(before, appParams, integrationQueryString, replies);
    }

    /** The login promise: once it resolves, `getUsersMe` is called; a
        rejection anywhere in the chain reaches the single `catch`. */
    method AwaitLogin(replies: Replies)
      modifies this
      ensures Snapshot() == FromLogin(old(Snapshot()), appParams, replies)
    {
      if !replies.login.Resolved? {
        effects := effects + Halt(replies.login);
        return;
      }
      effects := effects + [GetUsersMe];
      AwaitUser(replies);
    }

    /** The `getUsersMe` promise: keep the user, request a channel. */
    method AwaitUser(replies: Replies)
      modifies this
      ensures Snapshot() == FromUser(old(Snapshot()), appParams, replies)
    {
      if !replies.usersMe.Resolved? {
        effects := effects + Halt(replies.usersMe);
        return;
      }
      me := Some(replies.usersMe.value);
      effects := effects + [CreateChannel];
      AwaitChannel(replies);
    }

    /** The channel promise. */
    method AwaitChannel(replies: Replies)
      requires me.Some?
      modifies this
      ensures Snapshot() == FromChannel(old(Snapshot()), appParams, replies)
    {
      if !replies.channel.Resolved? {
        effects := effects + Halt(replies.channel);
        return;
      }
      OnChannelCreated(replies.channel.value);
      AwaitSubscription(replies);
    }

    /** The subscription promise: request the conversation details. */
    method AwaitSubscription(replies: Replies)
      modifies this
      ensures Snapshot() == FromSubscription(old(Snapshot()), appParams, replies)
    {
      if !replies.subscription.Resolved? {
        effects := effects + Halt(replies.subscription);
        return;
      }
      effects := effects + [GetConversation(appParams.pcConversationId)];
      AwaitConversation(replies);
    }

    /** The conversation promise. */
    method AwaitConversation(replies: Replies)
      modifies this
      ensures Snapshot() == FromConversation(old(Snapshot()), replies)
    {
      if !replies.conversation.Resolved? {
        effects := effects + Halt(replies.conversation);
        return;
      }
      OnConversationDetails(replies.conversation.value);
    }

    /** The callback for the created channel: open the socket, install the
        handler and subscribe to the user's conversation topic. */
    method OnChannelCreated(channel: Channel)
      requires me.Some?
      modifies this`socket, this`topicName, this`effects
      ensures Snapshot() == ChannelCreated(old(Snapshot()), channel)
    {
      socket := Some(Socket(channel.connectUri));
      effects := effects + [OpenSocket(channel.connectUri), InstallMessageHandler];
      topicName := TopicFor(me.value.id);
      effects := effects + [Subscribe(channel.id, topicName)];
    }

    /** The callback for the conversation details: show them, take the first
        customer's credentials, bind the payment button and acknowledge. */
    method OnConversationDetails(data: Details)
      modifies this`displayed, this`pcipalSessionId, this`pcipalBearerToken, this`pcipalRefreshToken
      modifies this`paymentEnabled, this`effects
      ensures Snapshot() == ConversationLoaded(old(Snapshot()), data)
    {
      displayed := data.text;
      var customer := FirstCustomer(data.participants);
      if customer.Some? {
        var attributes := data.participants[customer.value].attributes;
        pcipalSessionId := Attribute(attributes, "PCIPalSessionID");
        pcipalBearerToken := Attribute(attributes, "bearer_token");
        pcipalRefreshToken := Attribute(attributes, "refresh_token");
      }
      paymentEnabled := true;
      effects := effects + [Bootstrapped, Toast("Bootstrap Complete (500ms delay)", Success)];
    }

    method OnAppFocus()
      modifies this`effects
      ensures Snapshot() == Focus(old(Snapshot()))
    {
      if focusListening {
        effects := effects + [Toast("App Focused", Info)];
      }
    }

    method OnAppBlur()
      modifies this`effects
      ensures Snapshot() == Blur(old(Snapshot()))
    {
      if blurListening {
        effects := effects + [Toast("App Blurred", Info)];
      }
    }

    /** The stop listener; the delayed callback runs as the last part of it. */
    method OnStop()
      modifies this`focusListening, this`blurListening, this`effects
      ensures Snapshot() == Stop(old(Snapshot()))
    {
      focusListening := false;
      effects := effects + [RemoveFocusListener];
      blurListening := false;
      effects := effects + [RemoveBlurListener];
      if socket.None? {
        return;
      }
      effects := effects + [CloseSocket(NormalClosure, "Application Closing")];
      effects := effects + [Wait(StopDelay)];
      effects := effects + [Stopped, Toast("App Stopped (500ms delay)", Failure)];
    }

    method OnSocketMessage(frame: Frame)
      modifies this`displayed
      ensures Snapshot() == Receive(old(Snapshot()), appParams, frame)
    {
      if frame.Parsed? {
        var topic := frame.message.topicName;
        if topic == Str(topicName) && frame.message.eventBody.Some? && frame.message.eventBody.value.id == appParams.pcConversationId {
          displayed := frame.message.eventBody.value.text;
        }
      }
    }

    /** `takePayment`: builds the form element field by field and submits it. */
    method TakePayment()
      modifies this`effects
      ensures Snapshot() == Lifecycle.TakePayment(old(Snapshot()))
    {
      if IsPresent(pcipalSessionId) {
        var secureLink := SecureLink(pcipalSessionId.s);
        var form := new FormElement();
        form.formMethod := "post";
        form.action := secureLink;
        form.AppendChild(HiddenField("X-BEARER-TOKEN", InputText(pcipalBearerToken)));
        form.AppendChild(HiddenField("X-REFRESH-TOKEN", InputText(pcipalRefreshToken)));
        assert form.Value() == PaymentForm(Snapshot().credentials).value;
        effects := effects + [SubmitForm(form.Value())];
      }
    }

    /** A click on the payment button. */
    method OnPaymentClick()
      modifies this`effects
      ensures Snapshot() == Click(old(Snapshot()))
    {
      if paymentEnabled {
        TakePayment();
      }
    }
  }

  /** The script's top level: the launch string is chosen and resolved (a
      URIError stops the script before anything else runs); after the
      authentication redirect, recognised by a non-empty fragment,
      `initializeApplication` runs at once. */
  method LoadPage(search: string, hash: string, replies: Replies) returns (app: Option<InteractionApp>)
    ensures app.None? <==> Resolve(LaunchString(search, hash)).Err?
    ensures app.Some? ==>
      fresh(app.value) &&
      app.value.integrationQueryString == LaunchString(search, hash) &&
      app.value.appParams == Resolve(LaunchString(search, hash)).value &&
      app.value.Snapshot() ==
        if |hash| != 0 then Bootstrap(Loaded, app.value.appParams, app.value.integrationQueryString, replies) else Loaded
  {
    var integrationQueryString := "";
    if |search| != 0 {
      integrationQueryString := search[1..];
    } else if |hash| != 0 {
      integrationQueryString := hash[1..];
    }
    var parsed := ParseAppParameters(integrationQueryString);
    if parsed.Err? {
      return None;
    }
    var widget := new InteractionApp(integrationQueryString, parsed.value);
    if |hash| != 0 {
      widget.InitializeApplication(replies);
    }
    return Some(widget);
  }
}
