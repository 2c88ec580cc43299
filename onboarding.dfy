/** The seller onboarding link: the account-link request, the e-mail prefill
    merged into the processor's account-link object, and the final URL. */
module Onboarding {
  import opened Js

  /** The property name under which the seller's e-mail is prefilled. */
  const EmailField := "stripe_user[email]"

  /** The parameters of `accountLinks.create`. */
  datatype LinkRequest = LinkRequest(account: Option<string>, refreshUrl: string, returnUrl: string, linkType: string)

  /** An onboarding link request for `account`; both redirects go to `redirectUrl`. */
  function OnboardingRequest(account: Option<string>, redirectUrl: string): LinkRequest
  {
    LinkRequest(account, redirectUrl, redirectUrl, "account_onboarding")
  }

  /** `Object.assign(link, {"stripe_user[email]": email || undefined})`. */
  function PrefillEmail(link: JsObject, email: Option<string>): JsObject
  {
    link[EmailField := if Truthy(email) then Str(email.value) else Undefined]
  }

  /** The properties `query-string` serialises from the prefilled link object:
      it skips every property whose value is `undefined`. */
  function QueryFields(link: JsObject, email: Option<string>): (q: JsObject)
    ensures EmailField in q <==> Truthy(email)
    ensures Truthy(email) ==> q[EmailField] == Str(email.value)
    ensures forall k :: k != EmailField ==> (k in q <==> k in link && !link[k].Undefined?)
    ensures forall k :: k in q && k != EmailField ==> q[k] == link[k]
  {
    DefinedUpdate(link, EmailField, if Truthy(email) then Str(email.value) else Undefined);
    Defined(PrefillEmail(link, email))
  }

  /** `${accountLink.url}?${queryString.stringify(accountLink)}`, where
      `stringify` stands for the library's ordering and escaping of the
      defined properties. */
  function OnboardingLink(link: JsObject, email: Option<string>, stringify: JsObject -> string): (s: string)
    ensures var base := TemplateText(Get(link, "url"));
      (&& |s| > |base|
       && s[..|base|] == base
       && s[|base|] == '?'
       && s[|base| + 1..] == stringify(QueryFields(link, email)))
  {
    var merged := PrefillEmail(link, email);
    TemplateText(Get(merged, "url")) + "?" + stringify(Defined(merged))
  }
}
