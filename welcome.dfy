/** The greeting `/conversation/start` stores and returns, chosen from the
    `pageType` entry of the request context. */
module Welcome {
  import opened Payload

  const PaymentGreeting: string := "Hello! I'm here to help with your payment experience. How can I assist you today?"
  const AccountGreeting: string := "Hello! I'm here to help with your account. What can I help you with?"
  const SupportGreeting: string := "Hello! I'm here to provide support. How can I help you?"
  const GeneralGreeting: string := "Hello! I'm your AI assistant. How can I help you today?"

  /** `context.get('pageType', 'general')`. */
  function PageType(ctx: Context): (v: Value)
    ensures "pageType" !in ctx ==> v == Str("general")
    ensures "pageType" in ctx ==> v == ctx["pageType"]
  {
    if "pageType" in ctx then ctx["pageType"] else Str("general")
  }

  /** The welcome text for a page type: three page types have a greeting of
      their own, anything else (a missing entry, another string, a non-string
      value) gets the general one. */
  function WelcomeMessage(pageType: Value): (greeting: string)
    ensures greeting == PaymentGreeting <==> pageType == Str("payment")
    ensures greeting == AccountGreeting <==> pageType == Str("account")
    ensures greeting == SupportGreeting <==> pageType == Str("support")
    ensures greeting == GeneralGreeting
        <==> pageType !in {Str("payment"), Str("account"), Str("support")}
  {
    if pageType == Str("payment") then PaymentGreeting
    else if pageType == Str("account") then AccountGreeting
    else if pageType == Str("support") then SupportGreeting
    else GeneralGreeting
  }

  /** The greeting depends on the context only through its `pageType` entry. */
  lemma WelcomeDependsOnlyOnPageType(c1: Context, c2: Context)
    requires ("pageType" in c1) == ("pageType" in c2)
    requires "pageType" in c1 ==> c1["pageType"] == c2["pageType"]
    ensures WelcomeMessage(PageType(c1)) == WelcomeMessage(PageType(c2))
  {
  }

  /** A context without a `pageType` entry gets the general greeting. */
  lemma MissingPageTypeIsGeneral(ctx: Context)
    requires "pageType" !in ctx
    ensures WelcomeMessage(PageType(ctx)) == GeneralGreeting
  {
  }
}
