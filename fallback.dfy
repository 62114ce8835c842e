/** The keyword fallback responder (`get_fallback_response`): the reply the
    `/chat` handler gives when the conversation graph is unavailable or fails. */
module Fallback {
  import opened Payload
  import opened Text

  /** The six canned replies, one per branch of the responder. */
  datatype Topic = Help | Payment | TechnicalIssue | FeatureRequest | BugReport | General

  const HelpReply: string := "I'm here to help! I can assist you with technical issues, product questions, or general support. What would you like to know?"
  const PaymentReply: string := "I understand you're having payment issues. Let me help you troubleshoot. Can you tell me more about what's happening?"
  const IssueReply: string := "I see you're experiencing an issue. I've detected some technical problems on this page. Let me help you resolve them."
  const FeatureReply: string := "Thank you for your feature request! I'll make sure this gets to our development team. Can you provide more details?"
  const BugReply: string := "I'm sorry to hear you're experiencing a bug. Let me help you report this issue. Can you describe what happened?"
  const GenericReply: string := "Thank you for your message. I'm here to help improve your experience. Is there anything specific you'd like to discuss?"

  /** The text of each canned reply: each text belongs to exactly one
      branch. */
  function ReplyText(topic: Topic): (text: string)
    ensures text == HelpReply <==> topic == Help
    ensures text == PaymentReply <==> topic == Payment
    ensures text == IssueReply <==> topic == TechnicalIssue
    ensures text == FeatureReply <==> topic == FeatureRequest
    ensures text == BugReply <==> topic == BugReport
    ensures text == GenericReply <==> topic == General
  {
    match topic
    case Help => HelpReply
    case Payment => PaymentReply
    case TechnicalIssue => IssueReply
    case FeatureRequest => FeatureReply
    case BugReport => BugReply
    case General => GenericReply
  }

  /** Different branches give different texts, so the reply tells which
      branch was taken. */
  lemma ReplyTextInjective(a: Topic, b: Topic)
    ensures ReplyText(a) == ReplyText(b) <==> a == b
  {
  }

  /** A keyword rule: it fires when either keyword occurs in the
      lower-cased message. */
  datatype Rule = Rule(keyword: string, synonym: string, topic: Topic)

  /** The rule table, in the order the responder tests it. */
  const Rules: seq<Rule> := [
    Rule("help", "support", Help),
    Rule("payment", "billing", Payment),
    Rule("error", "problem", TechnicalIssue),
    Rule("feature", "request", FeatureRequest),
    Rule("bug", "issue", BugReport)
  ]

  predicate Fires(rule: Rule, lowered: string)
  {
    Contains(lowered, rule.keyword) || Contains(lowered, rule.synonym)
  }

  /** Reference definition: the topic of the first rule of `rules` that
      fires, or the generic acknowledgment when none does. */
  function FirstMatch(rules: seq<Rule>, lowered: string): Topic
  {
    if rules == [] then General
    else if Fires(rules[0], lowered) then rules[0].topic
    else FirstMatch(rules[1..], lowered)
  }

  /** The branch the responder takes: a chain of keyword tests on the
      lower-cased message, which picks the first rule of the table that
      fires. */
  function FallbackTopic(message: string): (topic: Topic)
    ensures topic == FirstMatch(Rules, Lower(message))
  {
    var lowered := Lower(message);
    assert FirstMatch(Rules[5..], lowered) == General;
    assert FirstMatch(Rules[4..], lowered) == if Fires(Rules[4], lowered) then BugReport else General;
    assert FirstMatch(Rules[3..], lowered) == if Fires(Rules[3], lowered) then FeatureRequest else FirstMatch(Rules[4..], lowered);
    assert FirstMatch(Rules[2..], lowered) == if Fires(Rules[2], lowered) then TechnicalIssue else FirstMatch(Rules[3..], lowered);
    assert FirstMatch(Rules[1..], lowered) == if Fires(Rules[1], lowered) then Payment else FirstMatch(Rules[2..], lowered);
    if Contains(lowered, "help") || Contains(lowered, "support") then Help
    else if Contains(lowered, "payment") || Contains(lowered, "billing") then Payment
    else if Contains(lowered, "error") || Contains(lowered, "problem") then TechnicalIssue
    else if Contains(lowered, "feature") || Contains(lowered, "request") then FeatureRequest
    else if Contains(lowered, "bug") || Contains(lowered, "issue") then BugReport
    else General
  }

  /** The position of the first rule of `rules` that fires, or `|rules|`
      when none does. */
  function FirstFiring(rules: seq<Rule>, lowered: string): (w: nat)
    ensures w <= |rules|
    ensures w < |rules| ==> Fires(rules[w], lowered)
    ensures forall j :: 0 <= j < w ==> !Fires(rules[j], lowered)
  {
    if rules == [] then 0
    else if Fires(rules[0], lowered) then 0
    else 1 + FirstFiring(rules[1..], lowered)
  }

  /** The reference definition picks the topic of the first rule that fires,
      and the generic acknowledgment when none does. */
  lemma {:induction false} FirstMatchAtFirstFiring(rules: seq<Rule>, lowered: string)
    ensures var w := FirstFiring(rules, lowered);
      FirstMatch(rules, lowered) == if w < |rules| then rules[w].topic else General
  {
    if rules != [] && !Fires(rules[0], lowered) {
      FirstMatchAtFirstFiring(rules[1..], lowered);
    }
  }

  /** `get_fallback_response(message, context)`: the text of the first rule
      that fires on the lower-cased message, or the generic acknowledgment
      when none does. `context` is accepted and never consulted. */
  function FallbackResponse(message: string, context: Context): (reply: string)
    ensures var w := FirstFiring(Rules, Lower(message));
      reply == if w < |Rules| then ReplyText(Rules[w].topic) else GenericReply
  {
    FirstMatchAtFirstFiring(Rules, Lower(message));
    ReplyText(FallbackTopic(message))
  }

  /** The first rule that fires is rule `k` exactly when rule `k` fires and
      no earlier rule does. */
  lemma FirstFiringAt(rules: seq<Rule>, lowered: string, k: nat)
    requires k < |rules|
    ensures FirstFiring(rules, lowered) == k
        <==> Fires(rules[k], lowered) && forall j :: 0 <= j < k ==> !Fires(rules[j], lowered)
  {
  }

  /** The responder takes the branch of rule `k` exactly when rule `k`
      fires on the lower-cased message and no earlier rule does. */
  lemma TopicIsFirstFiringRule(message: string, k: nat)
    requires k < |Rules|
    ensures FallbackTopic(message) == Rules[k].topic
        <==> Fires(Rules[k], Lower(message)) && forall j :: 0 <= j < k ==> !Fires(Rules[j], Lower(message))
  {
    var lowered := Lower(message);
    FirstMatchAtFirstFiring(Rules, lowered);
    FirstFiringAt(Rules, lowered, k);
  }

  /** The responder takes the generic branch exactly when no keyword occurs. */
  lemma TopicIsGeneralIffNoKeyword(message: string)
    ensures FallbackTopic(message) == General
        <==> forall j :: 0 <= j < |Rules| ==> !Fires(Rules[j], Lower(message))
  {
    FirstMatchAtFirstFiring(Rules, Lower(message));
  }

  /** The reply is the text of rule `k` exactly when rule `k` fires on the
      lower-cased message and no earlier rule does. */
  lemma FallbackChoosesFirstFiringRule(message: string, context: Context, k: nat)
    requires k < |Rules|
    ensures FallbackResponse(message, context) == ReplyText(Rules[k].topic)
        <==> Fires(Rules[k], Lower(message)) && forall j :: 0 <= j < k ==> !Fires(Rules[j], Lower(message))
  {
    ReplyTextInjective(FallbackTopic(message), Rules[k].topic);
    TopicIsFirstFiringRule(message, k);
  }

  /** The generic acknowledgment is given exactly when no keyword occurs. */
  lemma FallbackGenericIffNoKeyword(message: string, context: Context)
    ensures FallbackResponse(message, context) == GenericReply
        <==> forall j :: 0 <= j < |Rules| ==> !Fires(Rules[j], Lower(message))
  {
    ReplyTextInjective(FallbackTopic(message), General);
    TopicIsGeneralIffNoKeyword(message);
  }

  /** The context argument never changes the reply. */
  lemma FallbackIgnoresContext(message: string, c1: Context, c2: Context)
    ensures FallbackResponse(message, c1) == FallbackResponse(message, c2)
  {
  }

  /** Matching is case-insensitive: the reply to a message is the reply to its
      lower-cased form. */
  lemma FallbackIgnoresCase(message: string, context: Context)
    ensures FallbackResponse(message, context) == FallbackResponse(Lower(message), context)
  {
    assert FallbackTopic(message) == FallbackTopic(Lower(message)) by {
      LowerIdempotent(message);
    }
  }

  /** "billing error" contains a payment keyword and an error keyword, and
      no help keyword. */
  lemma BillingErrorKeywords(lowered: string)
    requires lowered == "billing error"
    ensures !Contains(lowered, "help") && !Contains(lowered, "support")
    ensures Contains(lowered, "billing") && Contains(lowered, "error")
  {
    assert OccursAt(lowered, "billing", 0);
    assert OccursAt(lowered, "error", 8);
    AbsentInitialRulesOut(lowered, "help");
    AbsentInitialRulesOut(lowered, "support");
  }

  /** "Billing error", in any capitalisation, mentions both the payment and
      the error rule; the payment rule comes first and wins. */
  lemma BillingErrorTakesPaymentBranch(message: string)
    requires Lower(message) == "billing error"
    ensures Fires(Rules[1], Lower(message)) && Fires(Rules[2], Lower(message))
    ensures FallbackTopic(message) == Payment
  {
    BillingErrorKeywords(Lower(message));
    TopicIsFirstFiringRule(message, 1);
  }

  /** So such a message gets the payment reply. */
  lemma BillingErrorGetsPaymentReply(message: string, context: Context)
    requires Lower(message) == "billing error"
    ensures FallbackResponse(message, context) == PaymentReply
  {
    BillingErrorTakesPaymentBranch(message);
  }

  /** The message "Billing error" itself is one such message. */
  lemma BillingErrorLowersToKeywords()
    ensures Lower("Billing error") == "billing error"
  {
  }
}
