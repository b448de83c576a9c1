/** The fetched conversation and the extraction of the payment-session
    credentials from its first customer participant. */
module Conversation {
  import opened Js

  /** A participant: its `purpose` and its custom `attributes`. */
  datatype Participant = Participant(purpose: Value, attributes: map<string, string>)

  /** What `getConversation` resolves to: the participants in order, and the
      JSON text the widget displays for it. */
  datatype Details = Details(participants: seq<Participant>, text: string)

  /** `PCIPalSessionID`, `PCIPalBearerToken` and `PCIPalRefreshToken`. */
  datatype Credentials = Credentials(sessionId: Value, bearerToken: Value, refreshToken: Value)

  const NoCredentials := Credentials(Null, Null, Null)

  predicate IsCustomer(p: Participant)
  {
    p.purpose == Str("customer")
  }

  /** `participants.find(p => p.purpose === "customer")`, as a position. */
  function FirstCustomer(ps: seq<Participant>): (r: Option<nat>)
    ensures r.Some? ==> r.value < |ps| && IsCustomer(ps[r.value])
    ensures r.Some? ==> forall j :: 0 <= j < r.value ==> !IsCustomer(ps[j])
    ensures r.None? ==> forall j :: 0 <= j < |ps| ==> !IsCustomer(ps[j])
  {
    if ps == [] then None
    else if IsCustomer(ps[0]) then Some(0)
    else
      match FirstCustomer(ps[1..])
      case None => None
      case Some(i) => Some(i + 1)
  }

  /** `customer.attributes[name]`: `undefined` when the attribute is absent. */
  function Attribute(attributes: map<string, string>, name: string): Value
  {
    if name in attributes then Str(attributes[name]) else Undefined
  }

  function CredentialsOf(p: Participant): Credentials
  {
    Credentials(
      Attribute(p.attributes, "PCIPalSessionID"),
      Attribute(p.attributes, "bearer_token"),
      Attribute(p.attributes, "refresh_token"))
  }

  /** The extraction step: the credentials become those of the first customer
      participant; without a customer they stay as they were. */
  function Extract(ps: seq<Participant>, current: Credentials): (c: Credentials)
    ensures (forall j :: 0 <= j < |ps| ==> !IsCustomer(ps[j])) ==> c == current
    ensures forall i :: 0 <= i < |ps| && IsCustomer(ps[i]) && (forall j :: 0 <= j < i ==> !IsCustomer(ps[j])) ==>
      c == CredentialsOf(ps[i])
  {
    match FirstCustomer(ps)
    case None => current
    case Some(i) => CredentialsOf(ps[i])
  }

  /** Starting from the `null` credentials of page load, a session id is
      present exactly when there is a customer participant and the first one
      carries a `PCIPalSessionID` attribute; and the credentials stay `null`
      exactly when there is no customer. */
  lemma SessionIdPresentIff(ps: seq<Participant>)
    ensures IsPresent(Extract(ps, NoCredentials).sessionId) <==>
      FirstCustomer(ps).Some? && "PCIPalSessionID" in ps[FirstCustomer(ps).value].attributes
    ensures Extract(ps, NoCredentials).sessionId == Null <==> forall j :: 0 <= j < |ps| ==> !IsCustomer(ps[j])
  {
    match FirstCustomer(ps)
    case None =>
    case Some(i) =>
      assert IsCustomer(ps[i]);
  }
}
