/** The home-page chat widget (static/js/main.js): the ordered keyword table
    of `generateContextualResponse`, and the widget state that
    `initializeChatWidget` keeps — whether the widget is minimised, whether
    demo mode is on, and the messages shown. Reply texts are named by the
    table entry they come from; `AnswerText` gives the words. */
module ChatWidget {
  import opened Outcomes
  import opened Text

  /** The distinct reply texts of the keyword table, and the four defaults. */
  datatype Answer =
    | Pricing | Plans | InstagramInfo | FacebookInfo | TiktokInfo | WhatsappInfo
    | SetupInfo | DemoInfo | StartInfo | HelpInfo | FeatureInfo | SupportInfo
    | Default(n: nat)

  /** The `responses` object in insertion order: keyword, reply. "price" and
      "cost" map to the same text. */
  const Table: seq<(string, Answer)> := [
    ("price", Pricing), ("cost", Pricing), ("plan", Plans),
    ("instagram", InstagramInfo), ("facebook", FacebookInfo), ("tiktok", TiktokInfo),
    ("whatsapp", WhatsappInfo), ("setup", SetupInfo), ("demo", DemoInfo),
    ("start", StartInfo), ("help", HelpInfo), ("feature", FeatureInfo),
    ("support", SupportInfo)]

  const Defaults: seq<Answer> := [Default(0), Default(1), Default(2), Default(3)]

  /** The reply of the first entry of `table` whose keyword occurs in `text`. */
  function FirstMatch(text: string, table: seq<(string, Answer)>): (r: Option<Answer>)
    ensures r.Some? ==> exists i :: 0 <= i < |table| && table[i].1 == r.value && Contains(text, table[i].0)
  {
    if table == [] then None
    else if Contains(text, table[0].0) then Some(table[0].1)
    else
      var r := FirstMatch(text, table[1..]);
      assert r.Some? ==> exists i :: 1 <= i < |table| && table[i].1 == r.value && Contains(text, table[i].0) by {
        if r.Some? {
          var i :| 0 <= i < |table[1..]| && table[1..][i].1 == r.value && Contains(text, table[1..][i].0);
          assert table[i + 1] == table[1..][i];
        }
      }
      r
  }

  /** The first match is entry `i` when its keyword occurs and no earlier one does. */
  lemma {:induction false} FirstMatchAt(text: string, table: seq<(string, Answer)>, i: nat)
    requires i < |table| && Contains(text, table[i].0)
    requires forall j :: 0 <= j < i ==> !Contains(text, table[j].0)
    ensures FirstMatch(text, table) == Some(table[i].1)
  {
    if i > 0 {
      assert !Contains(text, table[0].0);
      forall j | 0 <= j < i - 1 ensures !Contains(text, table[1..][j].0) {
        assert table[1..][j] == table[j + 1];
      }
      FirstMatchAt(text, table[1..], i - 1);
    }
  }

  /** There is no match exactly when no keyword of the table occurs. */
  lemma {:induction false} FirstMatchNone(text: string, table: seq<(string, Answer)>)
    ensures FirstMatch(text, table) == None <==> forall j :: 0 <= j < |table| ==> !Contains(text, table[j].0)
  {
    if table != [] {
      FirstMatchNone(text, table[1..]);
      if FirstMatch(text, table) == None {
        forall j | 0 <= j < |table| ensures !Contains(text, table[j].0) {
          if j > 0 {
            assert table[j] == table[1..][j - 1];
          }
        }
      }
    }
  }

  /** `generateContextualResponse`: the keyword loop with early return over the
      lower-cased message, then one of the four defaults, chosen at random. */
  method GenerateContextualResponse(message: string) returns (r: Answer)
    ensures FirstMatch(ToLower(message), Table).Some? ==> r == FirstMatch(ToLower(message), Table).value
    ensures FirstMatch(ToLower(message), Table).None? ==> r in Defaults
  {
    var lower := ToLower(message);
    var i := 0;
    while i < |Table|
      invariant 0 <= i <= |Table|
      invariant forall j :: 0 <= j < i ==> !Contains(lower, Table[j].0)
    {
      var (keyword, response) := Table[i];
      if Contains(lower, keyword) {
        FirstMatchAt(lower, Table, i);
        return response;
      }
      i := i + 1;
    }
    FirstMatchNone(lower, Table);
    assert Defaults[0] in Defaults;
    r :| r in Defaults;
  }

  /** A message naming the price gets the pricing reply whatever else it says,
      "plan" included: "price" is first in the table. */
  lemma PriceWins(message: string)
    requires Contains(ToLower(message), "price")
    ensures FirstMatch(ToLower(message), Table) == Some(Pricing)
  {
    FirstMatchAt(ToLower(message), Table, 0);
  }

  /** "cost" gets the very reply "price" gets. */
  lemma CostAsPrice(message: string)
    requires Contains(ToLower(message), "cost")
    ensures FirstMatch(ToLower(message), Table) == Some(Pricing)
  {
    if Contains(ToLower(message), "price") {
      FirstMatchAt(ToLower(message), Table, 0);
    } else {
      FirstMatchAt(ToLower(message), Table, 1);
    }
  }

  // ---------------------------------------------------------------------
  // The widget

  /** The texts of demo mode's random replies, by position. */
  const DemoReplyCount := 5

  /** A message in the list: what the user sent, a bot reply, or a system note
      about demo mode. */
  datatype Message =
    | FromUser(text: string)
    | Welcome
    | Contextual(answer: Answer)
    | DemoReply(n: nat)
    | DemoNotice(enabled: bool)

  class Widget {
    var isMinimized: bool
    var isDemoMode: bool
    var messages: seq<Message>

    /** Both flags start false and the welcome message is shown. */
    constructor ()
      ensures !isMinimized && !isDemoMode && messages == [Welcome]
    {
      isMinimized := false;
      isDemoMode := false;
      messages := [Welcome];
    }

    /** The minimise button flips `isMinimized` and nothing else. */
    method ToggleMinimize()
      modifies this
      ensures isMinimized == !old(isMinimized)
      ensures isDemoMode == old(isDemoMode) && messages == old(messages)
    {
      isMinimized := !isMinimized;
    }

    /** The demo toggle flips `isDemoMode` and posts a notice of the new mode. */
    method ToggleDemoMode()
      modifies this
      ensures isDemoMode == !old(isDemoMode)
      ensures messages == old(messages) + [DemoNotice(isDemoMode)]
      ensures isMinimized == old(isMinimized)
    {
      isDemoMode := !isDemoMode;
      messages := messages + [DemoNotice(isDemoMode)];
    }

    /** Two clicks on either button give back both flags. */
    method ToggleTwice(demo: bool)
      modifies this
      ensures isMinimized == old(isMinimized) && isDemoMode == old(isDemoMode)
      ensures !demo ==> messages == old(messages)
      ensures demo ==> messages == old(messages) + [DemoNotice(!old(isDemoMode)), DemoNotice(old(isDemoMode))]
    {
      if demo {
        ToggleDemoMode();
        ToggleDemoMode();
      } else {
        ToggleMinimize();
        ToggleMinimize();
      }
    }

    /** The submit handler: a message that is empty once trimmed is ignored;
        otherwise the trimmed message is shown, then a reply: in demo mode one
        of the demo replies, otherwise the contextual reply. */
    method Submit(input: string)
      modifies this
      ensures isMinimized == old(isMinimized) && isDemoMode == old(isDemoMode)
      ensures Trim(input) == [] ==> messages == old(messages)
      ensures Trim(input) != [] ==>
        |messages| == |old(messages)| + 2 &&
        messages[..|old(messages)| + 1] == old(messages) + [FromUser(Trim(input))] &&
        ReplyFits(messages[|messages| - 1], Trim(input), isDemoMode)
    {
      var message := Trim(input);
      if message == [] {
        return;
      }
      messages := messages + [FromUser(message)];
      var reply: Message;
      if isDemoMode {
        var n :| 0 <= n < DemoReplyCount;
        reply := DemoReply(n);
      } else {
        var answer := GenerateContextualResponse(message);
        reply := Contextual(answer);
      }
      messages := messages + [reply];
    }
  }

  /** The reply a message may get in the given mode. */
  predicate ReplyFits(reply: Message, message: string, demo: bool) {
    if demo then
      reply.DemoReply? && reply.n < DemoReplyCount
    else
      reply.Contextual? &&
      match FirstMatch(ToLower(message), Table)
      case Some(a) => reply.answer == a
      case None => reply.answer in Defaults
  }

  /** The words of each reply. */
  function AnswerText(a: Answer): string {
    match a
    case Pricing => "Our Starter plan is $99/month with a $199 setup fee, and our Pro plan is $149/month with a $249 setup fee. Both include AI chatbot automation!"
    case Plans => "We offer two main plans: Starter ($99/mo) for Instagram automation, and Pro ($149/mo) which includes TikTok, Facebook, and WhatsApp automation as well."
    case InstagramInfo => "Yes! Both our plans include Instagram automation. Our AI can respond to DMs, comments, and help with customer service on Instagram."
    case FacebookInfo => "Facebook automation is included in our Pro plan ($149/mo). We can automate Messenger responses and Facebook page interactions."
    case TiktokInfo => "TikTok automation is available with our Pro plan. We can help manage comments and direct messages on TikTok."
    case WhatsappInfo => "WhatsApp Business automation is part of our Pro plan. Perfect for customer service and order management."
    case SetupInfo => "Our setup process is simple! Just fill out our onboarding form, and our team will configure your AI chatbot within 24-48 hours."
    case DemoInfo => "This is a live demo of our chat interface! In your actual implementation, the AI would be trained on your specific business information."
    case StartInfo => "Ready to get started? Click the \"Get Started\" button on any of our plans, or visit our /start page to begin the onboarding process."
    case HelpInfo => "I'm here to help! Ask me about our pricing, features, setup process, or any questions about AI chatbot automation for your business."
    case FeatureInfo => "Our main features include 24/7 AI chatbots, dynamic social content creation, multi-platform support, and seamless setup with no coding required."
    case SupportInfo => "We provide email support, priority edits, and comprehensive onboarding. Pro plan customers also get SLA guarantees and monthly usage reports."
    case Default(n) =>
      if n == 0 then "That's a great question! Our AI chatbots can help automate customer service across Instagram, Facebook, TikTok, and WhatsApp. Would you like to know more about our plans?"
      else if n == 1 then "Thanks for asking! AIChatFlows specializes in AI-powered customer service automation. We can set up chatbots for your social media platforms in just 24-48 hours."
      else if n == 2 then "Interesting! Our AI systems are designed to handle customer questions, process orders, and provide 24/7 support. Check out our pricing to see which plan fits your needs."
      else "Great point! We offer both Starter and Pro plans, with setup handled completely by our team. No coding or technical knowledge required on your end."
  }
}
