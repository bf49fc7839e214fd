/** The keyword classifier behind the demo chat endpoint (`demo_chat` in
    app/main.py): the lower-cased message is searched for the words of each
    topic in a fixed priority, and the first topic with a word present picks
    the canned reply; with none present the reply quotes the message. */
module DemoChat {
  import opened Outcomes
  import opened Text

  /** The topics, in the order the branches test them. */
  datatype Topic = Price | Feature | Demo | Greeting

  const Priority: seq<Topic> := [Price, Feature, Demo, Greeting]

  /** The words whose presence selects a topic. */
  function Words(t: Topic): seq<string> {
    match t
    case Price => ["price", "cost", "pricing", "how much"]
    case Feature => ["feature", "what", "how", "does"]
    case Demo => ["demo", "test", "try"]
    case Greeting => ["hello", "hi", "hey"]
  }

  /** `any(word in text for word in words)`: substring search, not whole words. */
  predicate Mentions(text: string, words: seq<string>) {
    exists w :: w in words && Contains(text, w)
  }

  /** The reply: one canned text per topic, or the fallback that quotes the message. */
  datatype Reply = Canned(topic: Topic) | Fallback(message: string)

  /** The `if`/`elif` chain of `demo_chat`. */
  function Classify(message: string): (r: Reply)
    ensures r.Fallback? ==> r.message == message
  {
    var lower := ToLower(message);
    if Mentions(lower, Words(Price)) then Canned(Price)
    else if Mentions(lower, Words(Feature)) then Canned(Feature)
    else if Mentions(lower, Words(Demo)) then Canned(Demo)
    else if Mentions(lower, Words(Greeting)) then Canned(Greeting)
    else Fallback(message)
  }

  /** The first topic of `topics` that `text` mentions. */
  function FirstTopic(text: string, topics: seq<Topic>): (r: Option<Topic>)
    ensures r.Some? ==> r.value in topics && Mentions(text, Words(r.value))
  {
    if topics == [] then None
    else if Mentions(text, Words(topics[0])) then Some(topics[0])
    else FirstTopic(text, topics[1..])
  }

  /** The first match in a priority list is the topic it mentions with no earlier
      topic mentioned, and there is none exactly when no topic is mentioned. */
  lemma {:induction false} FirstTopicIsFirst(text: string, topics: seq<Topic>, i: nat)
    requires i < |topics|
    requires forall a, b :: 0 <= a < b < |topics| ==> topics[a] != topics[b]
    ensures FirstTopic(text, topics) == Some(topics[i]) <==>
      Mentions(text, Words(topics[i])) && forall j :: 0 <= j < i ==> !Mentions(text, Words(topics[j]))
  {
    if i > 0 && !Mentions(text, Words(topics[0])) {
      FirstTopicIsFirst(text, topics[1..], i - 1);
    }
  }

  lemma {:induction false} FirstTopicNone(text: string, topics: seq<Topic>)
    ensures FirstTopic(text, topics) == None <==> forall t :: t in topics ==> !Mentions(text, Words(t))
  {
    if topics != [] {
      FirstTopicNone(text, topics[1..]);
    }
  }

  /** The chain is the first-match rule over `Priority`: the reply is the first topic
      the lower-cased message mentions, or the fallback when it mentions none. */
  lemma ClassifyIsFirstMatch(message: string)
    ensures Classify(message) ==
      match FirstTopic(ToLower(message), Priority)
      case Some(t) => Canned(t)
      case None => Fallback(message)
  {
    var lower := ToLower(message);
    var rest1, rest2, rest3 := [Feature, Demo, Greeting], [Demo, Greeting], [Greeting];
    assert Priority[1..] == rest1 && rest1[1..] == rest2 && rest2[1..] == rest3 && rest3[1..] == [];
    assert FirstTopic(lower, rest3) == if Mentions(lower, Words(Greeting)) then Some(Greeting) else None;
    assert FirstTopic(lower, rest2) == if Mentions(lower, Words(Demo)) then Some(Demo) else FirstTopic(lower, rest3);
    assert FirstTopic(lower, rest1) == if Mentions(lower, Words(Feature)) then Some(Feature) else FirstTopic(lower, rest2);
  }

  /** A topic is chosen exactly when the message mentions it and no earlier topic. */
  lemma ClassifyCannedIff(message: string, i: nat)
    requires i < |Priority|
    ensures Classify(message) == Canned(Priority[i]) <==>
      Mentions(ToLower(message), Words(Priority[i])) &&
      forall j :: 0 <= j < i ==> !Mentions(ToLower(message), Words(Priority[j]))
  {
    ClassifyIsFirstMatch(message);
    FirstTopicIsFirst(ToLower(message), Priority, i);
  }

  /** The fallback is given exactly when no topic is mentioned. */
  lemma ClassifyFallbackIff(message: string)
    ensures Classify(message).Fallback? <==> forall t :: t in Priority ==> !Mentions(ToLower(message), Words(t))
  {
    ClassifyIsFirstMatch(message);
    FirstTopicNone(ToLower(message), Priority);
  }

  /** Price words win over everything else: "how much ... what" gets the price reply. */
  lemma PriceFirst(message: string, w: string)
    requires w in Words(Price) && Contains(ToLower(message), w)
    ensures Classify(message) == Canned(Price)
  {
  }

  /** Only letter case is ignored: messages equal up to ASCII case get the same canned reply. */
  lemma ClassifyIgnoresCase(m1: string, m2: string)
    requires ToLower(m1) == ToLower(m2)
    ensures Classify(m1).Canned? <==> Classify(m2).Canned?
    ensures Classify(m1).Canned? ==> Classify(m1) == Classify(m2)
  {
  }

  /** Substring matching: "think" holds "hi", so it is taken for a greeting. */
  lemma ThinkIsGreeting(message: string)
    requires message == "think"
    ensures Classify(message) == Canned(Greeting)
  {
    var lower := ToLower(message);
    assert lower == message;
    assert StartsAt(lower, 1, "hi");
    assert "hi" in Words(Greeting) && Contains(lower, "hi");
    forall w | w in Words(Price) + Words(Feature) + Words(Demo) ensures !Contains(lower, w) {
      NotContained(lower, w);
    }
    assert !Mentions(lower, Words(Price));
    assert !Mentions(lower, Words(Feature));
    assert !Mentions(lower, Words(Demo));
  }

  /** `sub` does not occur in `s` when no two adjacent characters of `s` match its first two. */
  lemma NotContained(s: string, sub: string)
    requires |sub| >= 2
    requires forall i :: 0 <= i < |s| - 1 ==> !(s[i] == sub[0] && s[i + 1] == sub[1])
    ensures !Contains(s, sub)
  {
    forall i: nat | i + |sub| <= |s| ensures !StartsAt(s, i, sub) {
      assert s[i..i + |sub|][0] == s[i] && s[i..i + |sub|][1] == s[i + 1];
    }
  }

  const FallbackOpening := "Thanks for your message! This is a demo showcasing AIChatFlows' AI capabilities. Your question '"
  const FallbackClosing := "' would be answered by our full AI system with detailed, contextual responses. Want to learn more about our services?"

  /** The text of a reply. */
  function ReplyText(r: Reply): (text: string)
    ensures r.Fallback? ==> Contains(text, r.message)
  {
    if r.Fallback? then
      assert StartsAt(r.message, 0, r.message);
      ContainsRight(FallbackOpening, r.message, r.message);
      ContainsLeft(FallbackOpening + r.message, FallbackClosing, r.message);
      FallbackOpening + r.message + FallbackClosing
    else
    match r
    case Canned(Price) => "Great question! AIChatFlows offers three tiers: Basic ($99/mo), Pro ($149/mo), and Enterprise ($249/mo). Each includes setup fees and different feature sets. Would you like details on a specific plan?"
    case Canned(Feature) => "AIChatFlows provides 24/7 AI chatbots, social media automation, and customer service integration. Our bots work across Instagram, Facebook, SMS, and more. What specific feature interests you most?"
    case Canned(Demo) => "You're already using our demo! This showcases how our AI responds to questions. In the full version, you'd get customized responses, integrations, and detailed analytics. Impressed so far?"
    case Canned(Greeting) => "Hello! I'm the AIChatFlows demo assistant. I can answer questions about our AI chatbot services, pricing, and features. What would you like to know?"
    case Fallback(m) => FallbackOpening + m + FallbackClosing
  }

  /** The fallback quotes the message as sent, not lower-cased. */
  lemma FallbackQuotesMessage(message: string)
    requires Classify(message).Fallback?
    ensures Contains(ReplyText(Classify(message)), message)
  {
    assert StartsAt(message, 0, message);
    ContainsRight(FallbackOpening, message, message);
    ContainsLeft(FallbackOpening + message, FallbackClosing, message);
  }
}
