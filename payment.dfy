/** The payment handoff: the form `takePayment` posts to the secure payment page. */
module Payment {
  import opened Js
  import opened Conversation

  /** A hidden input of the form. */
  datatype HiddenField = HiddenField(name: string, value: string)

  datatype Form = Form(formMethod: string, action: string, fields: seq<HiddenField>)

  const SecureLinkPrefix := "https://useast1.pcipal.cloud/session/208/view/"
  const SecureLinkSuffix := "/framed/"

  /** The secure link of a payment session. */
  function SecureLink(sessionId: string): string
  {
    SecureLinkPrefix + sessionId + SecureLinkSuffix
  }

  /** The session id a secure link names, if it is one. */
  function SessionOfLink(link: string): Option<string>
  {
    if |link| >= |SecureLinkPrefix| + |SecureLinkSuffix| &&
       link[..|SecureLinkPrefix|] == SecureLinkPrefix &&
       link[|link| - |SecureLinkSuffix|..] == SecureLinkSuffix
    then Some(link[|SecureLinkPrefix|..|link| - |SecureLinkSuffix|])
    else None
  }

  /** The secure link carries the session id and nothing else. */
  lemma SecureLinkNamesSession(sessionId: string)
    ensures SessionOfLink(SecureLink(sessionId)) == Some(sessionId)
  {
    var link := SecureLink(sessionId);
    assert link[..|SecureLinkPrefix|] == SecureLinkPrefix;
    assert link[|link| - |SecureLinkSuffix|..] == SecureLinkSuffix;
    assert link[|SecureLinkPrefix|..|link| - |SecureLinkSuffix|] == sessionId;
  }

  /** The form `takePayment` submits: a POST to the secure link of the session
      with the bearer and the refresh token as hidden fields, in that order;
      none while the session id is `null` or `undefined`. */
  function PaymentForm(c: Credentials): (r: Option<Form>)
    ensures r.Some? <==> IsPresent(c.sessionId)
    ensures r.Some? ==> r.value.formMethod == "post" && SessionOfLink(r.value.action) == Some(c.sessionId.s)
    ensures r.Some? ==>
      r.value.fields == [HiddenField("X-BEARER-TOKEN", InputText(c.bearerToken)), HiddenField("X-REFRESH-TOKEN", InputText(c.refreshToken))]
  {
    if IsPresent(c.sessionId) then
      SecureLinkNamesSession(c.sessionId.s);
      Some(Form("post", SecureLink(c.sessionId.s),
        [HiddenField("X-BEARER-TOKEN", InputText(c.bearerToken)), HiddenField("X-REFRESH-TOKEN", InputText(c.refreshToken))]))
    else None
  }

  /** The tokens travel only in the form's body: the action does not depend on them. */
  lemma ActionIgnoresTokens(c: Credentials, d: Credentials)
    requires c.sessionId == d.sessionId && IsPresent(c.sessionId)
    ensures PaymentForm(c).value.action == PaymentForm(d).value.action
  {
  }
}
