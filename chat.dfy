/**
 * The scripted assistant of the chat screen: the FAQ pool, the first-match
 * reply rules over the lower-cased message, and the append-only message list
 * that `sendMessage` grows.
 */
module ChatScreen {
  import opened Wrappers
  import opened JsText
  import opened MockData

  // ------------------------------------------------------------ FAQ pool

  /** The entry a service FAQ becomes: `question || q`, `answer || a`, tagged with the service name. */
  function ServiceFaq(f: RawFaq, serviceName: string): Faq {
    Faq(if f.question != "" then f.question else f.q,
        if f.answer != "" then f.answer else f.a,
        Some(serviceName))
  }

  /** The FAQs one service detail contributes, in its own order. */
  function DetailFaqs(d: ServiceDetail): seq<Faq> {
    seq(|d.faqs|, i requires 0 <= i < |d.faqs| => ServiceFaq(d.faqs[i], d.name))
  }

  /** The service FAQs of `details`, service after service. */
  function ServiceFaqs(details: seq<DetailEntry>): seq<Faq> {
    if details == [] then [] else DetailFaqs(details[0].detail) + ServiceFaqs(details[1..])
  }

  /** What `getAllFaqs` returns: the global FAQs, then every service's FAQs. */
  function AllFaqs(cat: Catalog): seq<Faq> {
    cat.faqs + ServiceFaqs(cat.serviceDetails)
  }

  /** The number of FAQs stored with the services of `details`. */
  function FaqCount(details: seq<DetailEntry>): nat {
    if details == [] then 0 else |details[0].detail.faqs| + FaqCount(details[1..])
  }

  lemma {:induction false} ServiceFaqsAppend(details: seq<DetailEntry>, e: DetailEntry)
    ensures ServiceFaqs(details + [e]) == ServiceFaqs(details) + DetailFaqs(e.detail)
  {
    if details != [] {
      assert (details + [e])[1..] == details[1..] + [e];
      ServiceFaqsAppend(details[1..], e);
    } else {
      assert ([] + [e])[1..] == [];
    }
  }

  lemma {:induction false} ServiceFaqsLength(details: seq<DetailEntry>)
    ensures |ServiceFaqs(details)| == FaqCount(details)
  {
    if details != [] {
      ServiceFaqsLength(details[1..]);
    }
  }

  /** The pool holds every global FAQ and every service FAQ, and nothing else. */
  lemma AllFaqsLength(cat: Catalog)
    ensures |AllFaqs(cat)| == |cat.faqs| + FaqCount(cat.serviceDetails)
  {
    ServiceFaqsLength(cat.serviceDetails);
  }

  /** The `i`-th FAQ of the `k`-th service sits after the global FAQs and the FAQs of the services before it. */
  lemma {:induction false} ServiceFaqAt(details: seq<DetailEntry>, k: nat, i: nat)
    requires k < |details| && i < |details[k].detail.faqs|
    ensures FaqCount(details[..k]) + i < |ServiceFaqs(details)|
    ensures ServiceFaqs(details)[FaqCount(details[..k]) + i] ==
            ServiceFaq(details[k].detail.faqs[i], details[k].detail.name)
  {
    ServiceFaqsLength(details[1..]);
    if k == 0 {
      assert details[..0] == [];
    } else {
      ServiceFaqAt(details[1..], k - 1, i);
      assert details[..k][1..] == details[1..][..k - 1];
    }
  }

  /** Where the `i`-th FAQ of the `k`-th service lands in the pool. */
  function PoolIndex(cat: Catalog, k: nat, i: nat): nat
    requires k <= |cat.serviceDetails|
  {
    |cat.faqs| + FaqCount(cat.serviceDetails[..k]) + i
  }

  /** `getAllFaqs` keeps the global FAQs first and then each service's FAQs in order. */
  lemma AllFaqsOrder(cat: Catalog)
    ensures forall i | 0 <= i < |cat.faqs| :: AllFaqs(cat)[i] == cat.faqs[i]
    ensures forall k, i | 0 <= k < |cat.serviceDetails| && 0 <= i < |cat.serviceDetails[k].detail.faqs| ::
      PoolIndex(cat, k, i) < |AllFaqs(cat)| &&
      AllFaqs(cat)[PoolIndex(cat, k, i)] ==
        ServiceFaq(cat.serviceDetails[k].detail.faqs[i], cat.serviceDetails[k].detail.name)
  {
    forall k, i | 0 <= k < |cat.serviceDetails| && 0 <= i < |cat.serviceDetails[k].detail.faqs|
      ensures PoolIndex(cat, k, i) < |AllFaqs(cat)|
      ensures AllFaqs(cat)[PoolIndex(cat, k, i)] ==
        ServiceFaq(cat.serviceDetails[k].detail.faqs[i], cat.serviceDetails[k].detail.name)
    {
      ServiceFaqAt(cat.serviceDetails, k, i);
      var n := FaqCount(cat.serviceDetails[..k]) + i;
      assert AllFaqs(cat)[|cat.faqs| + n] == ServiceFaqs(cat.serviceDetails)[n];
    }
  }

  /** `getAllFaqs`: concatenates the global FAQs, then pushes each service's FAQs one by one. */
  method GetAllFaqs(cat: Catalog) returns (faqs: seq<Faq>)
    ensures faqs == AllFaqs(cat)
  {
    faqs := [];
    faqs := faqs + cat.faqs;
    var details := cat.serviceDetails;
    for k := 0 to |details|
      invariant faqs == cat.faqs + ServiceFaqs(details[..k])
    {
      var svc := details[k].detail;
      for i := 0 to |svc.faqs|
        invariant faqs == cat.faqs + ServiceFaqs(details[..k]) + DetailFaqs(svc)[..i]
      {
        faqs := faqs + [ServiceFaq(svc.faqs[i], svc.name)];
      }
      assert DetailFaqs(svc)[..|svc.faqs|] == DetailFaqs(svc);
      ServiceFaqsAppend(details[..k], details[k]);
      assert details[..k + 1] == details[..k] + [details[k]];
    }
    assert details[..|details|] == details;
  }

  // ---------------------------------------------------------- reply rules

  /** The reply rules of `getBotReply`, in the order they are tried. */
  datatype Rule =
    | Greeting
    | ServiceList
    | Offers
    | FaqList
    | MoreFaqs
    | ServiceInfo(detail: ServiceDetail)
    | BookNow
    | BookingRedirect
    | Feedback
    | HumanAgent
    | Help
    | Fallback

  /** A bot reply: its text and the quick replies offered with it, if any. */
  datatype Reply = Reply(text: string, quickReplies: Option<seq<string>>)

  const GreetingWords: seq<string> := ["hi", "hello", "hey", "good morning", "good evening"]
  const BookNowWords: seq<string> := ["book now"]
  const BookingWords: seq<string> := ["book", "reschedule", "cancel"]

  /** The marker `sendMessage` looks for in the previous bot message. */
  const AddressPromptMarker := "Please choose an address for your booking"
  /** The `book now` reply's text: the marker, then " or use your live location:". */
  const AddressPrompt := AddressPromptMarker + " or use your live location:"
  const BookedText := "Your service has been booked!"
  const MenuWithSupport: seq<string> := ["Show services", "Show offers", "FAQs", "Call Support"]

  /** The service-name rule's test: the text contains the lower-cased name, or the name contains the text. */
  predicate NameMatches(s: Service, text: string) {
    Contains(text, ToLower(s.name)) || Contains(ToLower(s.name), text)
  }

  /** `services.find(...)` with the name test: the first service whose name matches. */
  function FindService(services: seq<Service>, text: string): (r: Option<Service>)
    ensures r.None? <==> forall s | s in services :: !NameMatches(s, text)
    ensures r.Some? ==> exists k | 0 <= k < |services| ::
      services[k] == r.value && NameMatches(r.value, text) &&
      forall j | 0 <= j < k :: !NameMatches(services[j], text)
  {
    if services == [] then None
    else if NameMatches(services[0], text) then Some(services[0])
    else
      var r := FindService(services[1..], text);
      assert forall s | s in services :: s == services[0] || s in services[1..];
      if r.Some? then
        var k :| 0 <= k < |services[1..]| && services[1..][k] == r.value && NameMatches(r.value, text) &&
          forall j | 0 <= j < k :: !NameMatches(services[1..][j], text);
        assert services[k + 1] == r.value;
        r
      else
        r
  }

  /** The rule that answers the already lower-cased `text`: the first whose test passes. */
  function MatchRule(cat: Catalog, text: string): Rule {
    if MatchesWords(text, GreetingWords) then Greeting
    else if Contains(text, "service") then ServiceList
    else if Contains(text, "offer") || Contains(text, "discount") then Offers
    else if Contains(text, "faq") || Contains(text, "question") then FaqList
    else if Contains(text, "more faq") then MoreFaqs
    else if FindService(cat.services, text).Some? &&
            DetailsFor(cat.serviceDetails, FindService(cat.services, text).value.id).Some? then
      ServiceInfo(DetailsFor(cat.serviceDetails, FindService(cat.services, text).value.id).value)
    else if MatchesWords(text, BookNowWords) then BookNow
    else if MatchesWords(text, BookingWords) then BookingRedirect
    else if Contains(text, "feedback") || Contains(text, "complaint") then Feedback
    else if Contains(text, "human") || Contains(text, "agent") || Contains(text, "support") then HumanAgent
    else if Contains(text, "help") then Help
    else Fallback
  }

  function Min(a: int, b: int): int {
    if a <= b then a else b
  }

  /** `xs.slice(from, to)` for `0 <= from <= to`: clamped to the length of `xs`. */
  function Slice<T>(xs: seq<T>, from: nat, to: nat): seq<T>
    requires from <= to
  {
    xs[Min(from, |xs|)..Min(to, |xs|)]
  }

  function ServiceNames(services: seq<Service>): seq<string> {
    seq(|services|, i requires 0 <= i < |services| => services[i].name)
  }

  function AddressTexts(addresses: seq<SavedAddress>): seq<string> {
    seq(|addresses|, i requires 0 <= i < |addresses| => addresses[i].address)
  }

  function FaqLine(f: Faq): string {
    "Q: " + f.q + "\nA: " + f.a
  }

  /** The FAQ answer block: one Q/A pair per FAQ, separated by blank lines. */
  function FaqBlock(faqs: seq<Faq>): string {
    Join(seq(|faqs|, i requires 0 <= i < |faqs| => FaqLine(faqs[i])), "\n\n")
  }

  function PackLabel(p: Pack): string {
    p.name + " (" + p.price + ")"
  }

  /** The service-details reply: name, description, packs and the first FAQ. */
  function DetailText(d: ServiceDetail): string {
    d.name + ": " + d.description + "\nPopular packs: "
    + (if |d.superSaverPacks| > 0
       then Join(seq(|d.superSaverPacks|, i requires 0 <= i < |d.superSaverPacks| => PackLabel(d.superSaverPacks[i])), ", ")
       else "")
    + (if |d.faqs| > 0
       then "\nExample FAQ: " + d.faqs[0].question + " - " + d.faqs[0].answer
       else "")
  }

  /** The reply each rule produces. */
  function RuleReply(cat: Catalog, rule: Rule): Reply {
    match rule
    case Greeting =>
      Reply("Hello! How can I assist you today?", Some(MenuWithSupport))
    case ServiceList =>
      Reply("Here are our top services: " + Join(ServiceNames(cat.services), ", ") + ".\nType a service name to know more.",
            Some(ServiceNames(cat.services[..Min(4, |cat.services|)])))
    case Offers =>
      if |cat.offers| > 0 then Reply("Current offers:\n- " + Join(cat.offers, "\n- "), None)
      else Reply("No offers available right now.", None)
    case FaqList =>
      Reply(FaqBlock(Slice(AllFaqs(cat), 0, 3)), Some(["More FAQs"]))
    case MoreFaqs =>
      var more := Slice(AllFaqs(cat), 3, 8);
      Reply(if |more| > 0 then FaqBlock(more) else "No more FAQs.", None)
    case ServiceInfo(d) =>
      Reply(DetailText(d), Some(["Book now", "Show more", "FAQs"]))
    case BookNow =>
      Reply(AddressPrompt, Some(AddressTexts(cat.addresses) + ["Use live location"]))
    case BookingRedirect =>
      Reply("To book, reschedule, or cancel a service, please use the booking section in the app. Would you like to see available services?",
            Some(["Show services"]))
    case Feedback =>
      Reply("We value your feedback! Please type your feedback or complaint, and our team will review it.", None)
    case HumanAgent =>
      Reply("Connecting you to a human agent. Please wait...", None)
    case Help =>
      Reply("You can ask about services, offers, FAQs, or type a service name to know more. Try: 'Show services', 'Show offers', or 'AC Service'.", None)
    case Fallback =>
      Reply("Sorry, I didn't understand that. You can ask about services, offers, or type 'help' for options.",
            Some(MenuWithSupport))
  }

  /** `getBotReply`: the reply of the first rule that the lower-cased message satisfies. */
  function GetBotReply(cat: Catalog, userMsg: string): Reply {
    RuleReply(cat, MatchRule(cat, ToLower(userMsg)))
  }

  // -------------------------------------------------- properties of the rules

  /** The reply depends on the message only through its lower-cased form. */
  lemma ReplyIgnoresCase(cat: Catalog, userMsg: string)
    ensures GetBotReply(cat, ToLower(userMsg)) == GetBotReply(cat, userMsg)
  {
    ToLowerIdempotent(userMsg);
  }

  /** A greeting wins over every later rule: "hello service" is greeted, not shown the services. */
  lemma GreetingComesFirst(cat: Catalog)
    ensures GetBotReply(cat, "hello service") == RuleReply(cat, Greeting)
  {
    LowerHelloService();
    HelloServiceIsGreeting();
  }

  lemma LowerHelloService()
    ensures ToLower("hello service") == "hello service"
  {
  }

  lemma HelloServiceIsGreeting()
    ensures MatchesWords("hello service", GreetingWords)
  {
    assert WordAt("hello service", "hello", 0);
    MatchesWordsIff("hello service", GreetingWords);
  }

  /** The `more faq` rule is never reached: a text containing "more faq" already contains "faq". */
  lemma MoreFaqsUnreachable(cat: Catalog, text: string)
    ensures MatchRule(cat, text) != MoreFaqs
  {
    if Contains(text, "more faq") {
      ContainsSlice("more faq", 5, 8);
      assert "more faq"[5..8] == "faq";
      ContainsTransitive(text, "more faq", "faq");
    }
  }

  /** "FAQs" and the "More FAQs" quick reply, once lower-cased, are both answered by the FAQ rule. */
  lemma MoreFaqsRepeatsFaqs(cat: Catalog)
    ensures MatchRule(cat, ToLower("More FAQs")) == FaqList
    ensures MatchRule(cat, ToLower("FAQs")) == FaqList
  {
    LowerFaqTexts();
    MoreFaqsTextIsFaqRule(cat);
    FaqsTextIsFaqRule(cat);
  }

  lemma LowerFaqTexts()
    ensures ToLower("More FAQs") == "more faqs"
    ensures ToLower("FAQs") == "faqs"
  {
  }

  lemma MoreFaqsTextIsFaqRule(cat: Catalog)
    ensures MatchRule(cat, "more faqs") == FaqList
  {
    MoreFaqsNotGreeted();
    MoreFaqsNoService();
    MoreFaqsNoDiscount();
    NoOfferInMoreFaqs();
    FaqInMoreFaqs();
    FaqRuleWhen(cat, "more faqs");
  }

  lemma MoreFaqsNotGreeted()
    ensures !MatchesWords("more faqs", GreetingWords)
  {
    NotGreetedWithoutHG("more faqs");
  }

  lemma MoreFaqsNoService()
    ensures !Contains("more faqs", "service")
  {
    NotContainsForMissingChar("more faqs", "service", 3);
  }

  lemma MoreFaqsNoDiscount()
    ensures !Contains("more faqs", "discount")
  {
    NotContainsForMissingChar("more faqs", "discount", 0);
  }

  /** The FAQ rule answers a text that no earlier rule takes and that contains "faq" or "question". */
  lemma FaqRuleWhen(cat: Catalog, t: string)
    requires !MatchesWords(t, GreetingWords) && !Contains(t, "service")
    requires !Contains(t, "offer") && !Contains(t, "discount")
    requires Contains(t, "faq") || Contains(t, "question")
    ensures MatchRule(cat, t) == FaqList
  {
  }

  lemma FaqInMoreFaqs()
    ensures Contains("more faqs", "faq")
  {
    assert OccursAt("more faqs", "faq", 5);
    ContainsIff("more faqs", "faq");
  }

  lemma NoOfferInMoreFaqs()
    ensures !Contains("more faqs", "offer")
  {
    NotContainsForMissingPair("more faqs", "offer");
  }

  lemma FaqsTextIsFaqRule(cat: Catalog)
    ensures MatchRule(cat, "faqs") == FaqList
  {
    var u := "faqs";
    NotGreetedWithoutHG(u);
    NotContainsForMissingChar(u, "service", 3);
    NotContainsForMissingChar(u, "offer", 0);
    NotContainsForMissingChar(u, "discount", 0);
    assert OccursAt(u, "faq", 0);
    ContainsIff(u, "faq");
    FaqRuleWhen(cat, u);
  }

  /** A text with neither 'h' nor 'g' matches no greeting word. */
  lemma NotGreetedWithoutHG(t: string)
    requires 'h' !in t && 'g' !in t
    ensures !MatchesWords(t, GreetingWords)
  {
    forall w, i | w in GreetingWords ensures !OccursAt(t, w, i) {
      if 0 <= i && i + |w| <= |t| {
        assert t[i..i + |w|][0] == t[i];
      }
    }
    MatchesWordsIff(t, GreetingWords);
  }

  /** Every text that the `book now` rule answers also passes the later `book` test, so the order of the two decides. */
  lemma BookNowShadowsBook(text: string)
    requires MatchesWords(text, BookNowWords)
    ensures MatchesWords(text, BookingWords)
  {
    MatchesWordsIff(text, BookNowWords);
    var w, i :| w in BookNowWords && WordAt(text, w, i);
    assert text[i..i + 8] == "book now";
    assert text[i + 4] == text[i..i + 8][4] == ' ';
    assert text[i + 3] == text[i..i + 8][3] == 'k';
    assert text[i..i + 4] == text[i..i + 8][..4] == "book";
    assert WordAt(text, "book", i);
    MatchesWordsIff(text, BookingWords);
  }

  /** A message containing "service" that is no greeting lists every service and offers the first four as quick replies. */
  lemma ServiceListReply(cat: Catalog, userMsg: string)
    requires !MatchesWords(ToLower(userMsg), GreetingWords) && Contains(ToLower(userMsg), "service")
    ensures var r := GetBotReply(cat, userMsg);
      && r.text == "Here are our top services: " + Join(ServiceNames(cat.services), ", ") + ".\nType a service name to know more."
      && r.quickReplies.Some?
      && |r.quickReplies.value| == Min(4, |cat.services|)
      && forall i | 0 <= i < |r.quickReplies.value| :: r.quickReplies.value[i] == cat.services[i].name
  {
  }

  /** The FAQ answer shows the first `min(3, n)` entries of the pool and offers only "More FAQs". */
  lemma FaqReply(cat: Catalog, userMsg: string)
    requires MatchRule(cat, ToLower(userMsg)) == FaqList
    ensures var r := GetBotReply(cat, userMsg);
      && r.quickReplies == Some(["More FAQs"])
      && exists k | 0 <= k <= 3 ::
           k == Min(3, |AllFaqs(cat)|) && r.text == FaqBlock(AllFaqs(cat)[..k])
  {
    var k := Min(3, |AllFaqs(cat)|);
    assert Slice(AllFaqs(cat), 0, 3) == AllFaqs(cat)[..k];
  }

  /** The service-details answer belongs to the first catalog service whose name matches the text both ways. */
  lemma ServiceInfoIsFirstMatch(cat: Catalog, text: string, d: ServiceDetail)
    requires MatchRule(cat, text) == ServiceInfo(d)
    ensures !Contains(text, "service") && !Contains(text, "faq")
    ensures exists k | 0 <= k < |cat.services| ::
      NameMatches(cat.services[k], text) &&
      (forall j | 0 <= j < k :: !NameMatches(cat.services[j], text)) &&
      DetailsFor(cat.serviceDetails, cat.services[k].id) == Some(d)
  {
  }

  // ------------------------------------------------------------ message list

  datatype Sender = Bot | User

  /** A chat bubble; ids come from a counter where the source reads the clock. */
  datatype Message = Message(id: int, text: string, sender: Sender, quickReplies: Option<seq<string>>)

  /** What `sendMessage` does besides growing the list: nothing, dial support, or append. */
  datatype SendEffect = Dropped | Dial(url: string) | Appended

  const SupportPhone := "+919677782813"
  const WelcomeText := "Hi! I'm your Fieldeaze assistant. How can I help you today?\nYou can ask about services, offers, or type 'help' for options."

  /** The last message is a bot message showing the address prompt, and `text` is one of its quick replies. */
  predicate AnswersAddressPrompt(messages: seq<Message>, text: string) {
    && |messages| > 0
    && messages[|messages| - 1].sender == Bot
    && Contains(messages[|messages| - 1].text, AddressPromptMarker)
    && text in messages[|messages| - 1].quickReplies.GetOr([])
  }

  /** The bot's answer to `text` when `messages` was the list before it was sent. */
  function BotAnswer(cat: Catalog, messages: seq<Message>, text: string): Reply {
    if AnswersAddressPrompt(messages, text) then Reply(BookedText, None) else GetBotReply(cat, text)
  }

  /** Picking any quick reply of the `book now` answer completes the booking. */
  lemma AddressChoiceBooks(cat: Catalog, messages: seq<Message>, id: int, text: string)
    requires var r := RuleReply(cat, BookNow);
      text in r.quickReplies.value && messages != [] &&
      messages[|messages| - 1] == Message(id, r.text, Bot, r.quickReplies)
    ensures BotAnswer(cat, messages, text) == Reply(BookedText, None)
  {
    ContainsPrefix(AddressPromptMarker, " or use your live location:");
  }

  /** Message ids grow along the list. */
  predicate IdsIncreasing(messages: seq<Message>) {
    forall i, j | 0 <= i < j < |messages| :: messages[i].id < messages[j].id
  }

  /** The chat screen's state: the catalog it reads, the message list, the text box and the id counter. */
  class ChatSession {
    const catalog: Catalog
    var messages: seq<Message>
    var input: string
    var nextId: int

    ghost predicate Valid()
      reads this
    {
      IdsIncreasing(messages) && forall i | 0 <= i < |messages| :: messages[i].id < nextId
    }

    /** The screen opens with the welcome message and an empty text box. */
    constructor (catalog: Catalog)
      ensures Valid() && this.catalog == catalog && input == ""
      ensures messages == [Message(1, WelcomeText, Bot, Some(["Show services", "Show offers", "FAQs"]))]
    {
      this.catalog := catalog;
      messages := [Message(1, WelcomeText, Bot, Some(["Show services", "Show offers", "FAQs"]))];
      input := "";
      nextId := 2;
    }

    /** The text box's `onChangeText`. */
    method SetInput(text: string)
      modifies this`input
      ensures input == text
    {
      input := text;
    }

    /**
     * `sendMessage`: drops blank text, hands "Call Support" to the dialler, and
     * otherwise appends the user's message and then the bot's answer.
     */
    method SendMessage(msgText: string) returns (effect: SendEffect)
      requires Valid()
      modifies this`messages, this`input, this`nextId
      ensures Valid()
      ensures IsBlank(msgText) ==>
        effect == Dropped && messages == old(messages) && input == old(input) && nextId == old(nextId)
      ensures !IsBlank(msgText) && msgText == "Call Support" ==>
        && effect == Dial("tel:" + SupportPhone)
        && messages == old(messages) && input == old(input) && nextId == old(nextId)
      ensures !IsBlank(msgText) && msgText != "Call Support" ==>
        var answer := BotAnswer(catalog, old(messages), msgText);
        && effect == Appended && input == "" && nextId == old(nextId) + 2
        && messages == old(messages) + [Message(old(nextId), msgText, User, None),
                                        Message(old(nextId) + 1, answer.text, Bot, answer.quickReplies)]
    {
      TrimEmptyIffBlank(msgText);
      if Trim(msgText) == "" {
        return Dropped;
      }
      if msgText == "Call Support" {
        return Dial("tel:" + SupportPhone);
      }
      var lastBotMsg := messages;
      messages := messages + [Message(nextId, msgText, User, None)];
      input := "";
      var botMsg;
      if AnswersAddressPrompt(lastBotMsg, msgText) {
        botMsg := Message(nextId + 1, BookedText, Bot, None);
      } else {
        var reply := GetBotReply(catalog, msgText);
        botMsg := Message(nextId + 1, reply.text, Bot, reply.quickReplies);
      }
      messages := messages + [botMsg];
      nextId := nextId + 2;
      effect := Appended;
    }
  }
}
