/** The notification filter: `onSocketMessage`, which replaces the displayed
    conversation by an event's body only for the tracked topic and conversation. */
module Events {
  import opened Js

  /** An event body: its `id` and the JSON text the widget displays for it. */
  datatype Body = Body(id: Value, text: string)

  /** A parsed message; `eventBody` is `None` when it is `null` or absent. */
  datatype Message = Message(topicName: Value, eventBody: Option<Body>)

  /** An inbound frame: `JSON.parse` either yields a message or throws. */
  datatype Frame = Parsed(message: Message) | Malformed

  /** The topic the widget subscribes to for user `userId`. */
  function TopicFor(userId: string): string
  {
    "v2.users." + userId + ".conversations"
  }

  /** The frame is an event for the subscribed topic and the tracked conversation. */
  predicate Matches(f: Frame, topicName: string, conversationId: Value)
  {
    f.Parsed? && f.message.topicName == Str(topicName) &&
    f.message.eventBody.Some? && f.message.eventBody.value.id == conversationId
  }

  /** The displayed conversation after `onSocketMessage` handles one frame. A
      frame `JSON.parse` rejects, and a matching topic without an event body,
      throw before anything is displayed. */
  function OnSocketMessage(displayed: string, f: Frame, topicName: string, conversationId: Value): (r: string)
    ensures r == if Matches(f, topicName, conversationId) then f.message.eventBody.value.text else displayed
  {
    match f
    case Malformed => displayed
    case Parsed(m) =>
      if m.topicName != Str(topicName) then displayed
      else
        match m.eventBody
        case None => displayed
        case Some(b) => if b.id == conversationId then b.text else displayed
  }

  /** The frames handled in arrival order. */
  function Replay(displayed: string, frames: seq<Frame>, topicName: string, conversationId: Value): string
    decreases |frames|
  {
    if frames == [] then displayed
    else Replay(OnSocketMessage(displayed, frames[0], topicName, conversationId), frames[1..], topicName, conversationId)
  }

  /** The body of the last matching frame. */
  function LastMatch(frames: seq<Frame>, topicName: string, conversationId: Value): (r: Option<Body>)
    ensures r.Some? ==>
      exists i :: 0 <= i < |frames| && Matches(frames[i], topicName, conversationId) && frames[i].message.eventBody == r &&
        forall j :: i < j < |frames| ==> !Matches(frames[j], topicName, conversationId)
    ensures r.None? ==> forall i :: 0 <= i < |frames| ==> !Matches(frames[i], topicName, conversationId)
  {
    if frames == [] then None
    else
      var last := frames[|frames| - 1];
      if Matches(last, topicName, conversationId) then last.message.eventBody
      else LastMatch(frames[..|frames| - 1], topicName, conversationId)
  }

  lemma {:induction false} LastMatchFirst(frames: seq<Frame>, topicName: string, conversationId: Value)
    requires frames != []
    ensures LastMatch(frames, topicName, conversationId) ==
      match LastMatch(frames[1..], topicName, conversationId)
      case Some(b) => Some(b)
      case None => if Matches(frames[0], topicName, conversationId) then frames[0].message.eventBody else None
    decreases |frames|
  {
    if |frames| > 1 {
      var init := frames[..|frames| - 1];
      assert init[1..] == frames[1..][..|frames[1..]| - 1];
      assert frames[1..][|frames[1..]| - 1] == frames[|frames| - 1];
      if !Matches(frames[|frames| - 1], topicName, conversationId) {
        LastMatchFirst(init, topicName, conversationId);
      }
    }
  }

  /** After any stream of frames, the display shows the body of the last
      event for the tracked topic and conversation, or what it showed before
      when there was none: every other frame is discarded. */
  lemma {:induction false} ReplayShowsLastMatch(displayed: string, frames: seq<Frame>, topicName: string, conversationId: Value)
    ensures Replay(displayed, frames, topicName, conversationId) ==
      match LastMatch(frames, topicName, conversationId)
      case None => displayed
      case Some(b) => b.text
    decreases |frames|
  {
    if frames != [] {
      var next := OnSocketMessage(displayed, frames[0], topicName, conversationId);
      ReplayShowsLastMatch(next, frames[1..], topicName, conversationId);
      LastMatchFirst(frames, topicName, conversationId);
    }
  }
}
