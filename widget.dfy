/** The floating chat widget: its two local responders, its scheme-suggestion builder and
    the message list it keeps. */
module Widget {
  import opened Wrappers
  import opened Text
  import opened Dispatch

  // ---------------------------------------------------------------------------
  // generateSuggestions

  /** A scheme as the suggestion builder sees it: only its name is read. */
  datatype SchemeInfo = SchemeInfo(name: string)

  const NoSchemeSuggestions := ["Find schemes for me", "Document verification", "Application help", "Contact support"]
  const ApplyQuestion := "How to apply for this scheme?"

  /** The suggestion for one scheme. */
  function TellMeAbout(s: SchemeInfo): string {
    "Tell me about " + s.name
  }

  /** `generateSuggestions(relevantSchemes)`; `None` stands for a missing list. */
  method GenerateSuggestions(relevantSchemes: Option<seq<SchemeInfo>>) returns (r: seq<string>)
    ensures relevantSchemes.None? || relevantSchemes.value == [] ==> r == NoSchemeSuggestions
    ensures relevantSchemes.Some? && relevantSchemes.value != [] ==>
      var n := if |relevantSchemes.value| < 3 then |relevantSchemes.value| else 3;
      && |r| == n + 1
      && (forall i :: 0 <= i < n ==> r[i] == TellMeAbout(relevantSchemes.value[i]))
      && r[n] == ApplyQuestion
    ensures 1 <= |r| <= 4
  {
    if relevantSchemes.None? || |relevantSchemes.value| == 0 {
      return NoSchemeSuggestions;
    }
    var schemes := relevantSchemes.value;
    var suggestions: seq<string> := [];
    var firstThree := Take(schemes, 3);
    var i := 0;
    while i < |firstThree|
      invariant 0 <= i <= |firstThree|
      invariant |suggestions| == i
      invariant forall j :: 0 <= j < i ==> suggestions[j] == TellMeAbout(schemes[j])
    {
      suggestions := suggestions + [TellMeAbout(firstThree[i])];
      i := i + 1;
    }
    if |schemes| > 0 {
      suggestions := suggestions + [ApplyQuestion];
    }
    r := suggestions;
  }

  // ---------------------------------------------------------------------------
  // Replies

  /** The branches of `generateLocalBotResponse`'s keyword chain. */
  datatype Topic = PmKisan | Health | Education | Ration | Pension | Farming | Documents | Greeting | Other

  /** The `content` of a reply, held as which text it is: a canned answer of the local
      responder, an entry of the knowledge base, or `generateBotResponse`'s fallback text. */
  datatype BotText = Canned(topic: Topic) | Knowledge(index: nat) | Understood | Welcome

  /** A message of the widget. The initial greeting and `generateBotResponse` carry no
      confidence and no engine label; timestamps are left out. */
  datatype ChatEntry =
    | UserMessage(id: int, content: string)
    | BotMessage(id: int, text: BotText, suggestions: seq<string>, confidence: Option<nat>, poweredBy: Option<string>)

  const LocalEngine := "Enhanced Local AI"

  // ---------------------------------------------------------------------------
  // generateLocalBotResponse

  /** The chain as an ordered rule table. */
  const LocalRules: seq<Rule<Topic>> := [
    Rule(And(Word("pm"), Word("kisan")), PmKisan),
    Rule(Or(Word("ayushman"), Word("health")), Health),
    Rule(Or(Word("scholarship"), Word("education")), Education),
    Rule(Or(Word("ration"), Word("food")), Ration),
    Rule(Or(Word("pension"), Word("senior")), Pension),
    Rule(Or(Word("farmer"), Word("agriculture")), Farming),
    Rule(Or(Word("document"), Word("verify")), Documents),
    Rule(Or(Or(Word("hello"), Word("hi")), Word("help")), Greeting)
  ]

  /** The branch `generateLocalBotResponse` takes over the lower-cased input. */
  function TopicOf(userInput: string): Topic {
    var input := Lower(userInput);
    if Contains(input, "pm") && Contains(input, "kisan") then PmKisan
    else if Contains(input, "ayushman") || Contains(input, "health") then Health
    else if Contains(input, "scholarship") || Contains(input, "education") then Education
    else if Contains(input, "ration") || Contains(input, "food") then Ration
    else if Contains(input, "pension") || Contains(input, "senior") then Pension
    else if Contains(input, "farmer") || Contains(input, "agriculture") then Farming
    else if Contains(input, "document") || Contains(input, "verify") then Documents
    else if Contains(input, "hello") || Contains(input, "hi") || Contains(input, "help") then Greeting
    else Other
  }

  /** The answer text of each branch. */
  function TopicText(t: Topic): string {
    match t
    case PmKisan => "**PM-KISAN Scheme**: This scheme provides ₹6,000 per year to farmer families. **Eligibility**: All landholding farmers are eligible. **Benefits**: ₹2,000 every 4 months directly to bank account. **How to apply**: Visit pmkisan.gov.in or nearby Common Service Center."
    case Health => "**Ayushman Bharat**: Free healthcare coverage up to ₹5 lakh per family per year. **Eligibility**: Based on Socio-Economic Caste Census (SECC) data. **Benefits**: Cashless treatment at empanelled hospitals. **How to check**: Visit mera.pmjay.gov.in to check eligibility."
    case Education => "**Education Schemes**: Multiple scholarships available including National Scholarship Portal schemes, Merit-cum-Means scholarships. **Eligibility**: Based on income, merit, and category. **Portal**: scholarships.gov.in for applications."
    case Ration => "**Public Distribution System (PDS)**: Subsidized food grains through ration cards. **Types**: AAY (Antyodaya Anna Yojana), BPL, APL cards. **Benefits**: Rice, wheat, sugar at subsidized rates. **Apply**: At local Food & Supplies office."
    case Pension => "**Pension Schemes**: Various schemes like Old Age Pension, Widow Pension, Disability Pension. **Eligibility**: Age 60+, income criteria apply. **Benefits**: Monthly pension amount varies by state. **Apply**: At District Social Welfare Office."
    case Farming => "**Agriculture Schemes**: PM-KISAN, Crop Insurance, KCC (Kisan Credit Card), PM-FME schemes. **Benefits**: Financial support, insurance, credit facilities. **Eligibility**: Farmer families with land records."
    case Documents => "**Document Services**: Aadhaar verification, PAN services, DigiLocker for digital documents, Income/Caste certificate verification. **Portal**: Digital India portal for most services."
    case Greeting => "Hello! I'm your Saral Seva AI assistant. I can help you with government schemes, eligibility checking, application processes, document verification, and finding government services. What would you like to know about?"
    case Other => "I can help you with various government services including schemes, applications, document verification, and eligibility checking. Please ask me about specific schemes like PM-KISAN, Ayushman Bharat, scholarships, or any government service you need help with."
  }

  function TopicSuggestions(t: Topic): seq<string> {
    match t
    case PmKisan => ["Check PM-KISAN eligibility", "How to apply for PM-KISAN", "PM-KISAN payment status", "Required documents for PM-KISAN"]
    case Health => ["Check Ayushman Bharat eligibility", "Find empanelled hospitals", "Download Ayushman card", "Health scheme benefits"]
    case Education => ["Find scholarships", "NSP registration", "Merit scholarships", "Education loan schemes"]
    case Ration => ["Apply for ration card", "Check ration card status", "Fair price shops near me", "PDS benefits"]
    case Pension => ["Check pension eligibility", "Apply for old age pension", "Pension scheme benefits", "Required documents"]
    case Farming => ["PM-KISAN scheme", "Crop insurance", "Kisan Credit Card", "Agriculture subsidies"]
    case Documents => ["Verify Aadhaar", "PAN card services", "DigiLocker access", "Certificate verification"]
    case Greeting => ["Find schemes for me", "Check eligibility", "Document verification", "Application help"]
    case Other => ["PM-KISAN scheme", "Ayushman Bharat", "Education scholarships", "Document services"]
  }

  function TopicConfidence(t: Topic): nat {
    match t
    case PmKisan => 95
    case Health => 95
    case Education => 90
    case Ration => 90
    case Pension => 90
    case Farming => 88
    case Documents => 85
    case Greeting => 90
    case Other => 70
  }

  /** `generateLocalBotResponse`; `messageCount` is the length of the message list the
      handler saw, so the reply's id is two past it. */
  function LocalBotResponse(userInput: string, messageCount: nat): ChatEntry {
    var t := TopicOf(userInput);
    BotMessage(messageCount + 2, Canned(t), TopicSuggestions(t), Some(TopicConfidence(t)), Some(LocalEngine))
  }

  /** The tests of the table, spelled out. */
  lemma LocalTests(input: string)
    ensures Holds(LocalRules[0].test, input) == (Contains(input, "pm") && Contains(input, "kisan"))
    ensures Holds(LocalRules[1].test, input) == (Contains(input, "ayushman") || Contains(input, "health"))
    ensures Holds(LocalRules[2].test, input) == (Contains(input, "scholarship") || Contains(input, "education"))
    ensures Holds(LocalRules[3].test, input) == (Contains(input, "ration") || Contains(input, "food"))
    ensures Holds(LocalRules[4].test, input) == (Contains(input, "pension") || Contains(input, "senior"))
    ensures Holds(LocalRules[5].test, input) == (Contains(input, "farmer") || Contains(input, "agriculture"))
    ensures Holds(LocalRules[6].test, input) == (Contains(input, "document") || Contains(input, "verify"))
    ensures Holds(LocalRules[7].test, input) ==
      (Contains(input, "hello") || Contains(input, "hi") || Contains(input, "help"))
  {
    assert Holds(LocalRules[7].test.l, input) == (Contains(input, "hello") || Contains(input, "hi"));
  }

  /** The chain takes the branch of the first rule of the table that holds, and `Other`
      when no rule holds. */
  lemma TopicIsFirstMatch(userInput: string)
    ensures TopicOf(userInput) == Select(LocalRules, Lower(userInput), Other)
  {
    var input := Lower(userInput);
    var R := LocalRules;
    LocalTests(input);
    if Holds(R[0].test, input) {
      SelectFirst(R, input, Other, 0);
    } else if Holds(R[1].test, input) {
      SelectFirst(R, input, Other, 1);
    } else if Holds(R[2].test, input) {
      SelectFirst(R, input, Other, 2);
    } else if Holds(R[3].test, input) {
      SelectFirst(R, input, Other, 3);
    } else if Holds(R[4].test, input) {
      SelectFirst(R, input, Other, 4);
    } else if Holds(R[5].test, input) {
      SelectFirst(R, input, Other, 5);
    } else if Holds(R[6].test, input) {
      SelectFirst(R, input, Other, 6);
    } else if Holds(R[7].test, input) {
      SelectFirst(R, input, Other, 7);
    } else {
      SelectOtherwise(R, input, Other);
    }
  }

  /** Matching ignores ASCII case. */
  lemma LocalIgnoresCase(userInput: string)
    ensures TopicOf(userInput) == TopicOf(Lower(userInput))
  {
    LowerIdempotent(userInput);
  }

  /** Every branch offers exactly four suggestions. */
  lemma FourSuggestionsPerTopic(t: Topic)
    ensures |TopicSuggestions(t)| == 4
  {
  }

  /** An input naming "pm" and "kisan" gets confidence 95; the default branch gets 70 and
      the four default suggestions. Every reply offers four suggestions. */
  lemma LocalReplyFacts(userInput: string, messageCount: nat)
    ensures LocalBotResponse(userInput, messageCount).BotMessage?
    ensures |LocalBotResponse(userInput, messageCount).suggestions| == 4
    ensures Contains(Lower(userInput), "pm") && Contains(Lower(userInput), "kisan") ==>
      LocalBotResponse(userInput, messageCount).confidence == Some(95)
    ensures TopicOf(userInput) == Other ==>
      LocalBotResponse(userInput, messageCount).confidence == Some(70) &&
      LocalBotResponse(userInput, messageCount).suggestions ==
        ["PM-KISAN scheme", "Ayushman Bharat", "Education scholarships", "Document services"]
  {
    FourSuggestionsPerTopic(TopicOf(userInput));
  }

  // ---------------------------------------------------------------------------
  // generateBotResponse

  /** The keys of the widget's knowledge base, in declaration order; an answer is held
      as the index of its key. */
  const KnowledgeKeys: seq<string> :=
    ["scheme eligibility", "document verification", "application status", "pm kisan", "ayushman bharat", "startup india", "pmay"]

  /** The answer stored under each key. */
  function KnowledgeText(index: nat): string {
    if index == 0 then "To check scheme eligibility, I need some information about you. Could you tell me your age, state, occupation, and annual income? This will help me suggest the most relevant schemes."
    else if index == 1 then "I can help you verify documents using our AI-powered system. You can upload documents like Aadhaar, PAN, Passport, etc. Would you like me to guide you through the verification process?"
    else if index == 2 then "To check your application status, please provide your application reference number or the scheme name you applied for. I can also help you track multiple applications."
    else if index == 3 then "PM-KISAN is a scheme for farmers with landholding up to 2 hectares. It provides ₹6,000 per year in 3 installments. Are you a farmer looking to apply or check eligibility?"
    else if index == 4 then "Ayushman Bharat provides health coverage of ₹5 lakh per family per year. Eligibility is based on SECC 2011 data. Would you like me to check if your family is eligible?"
    else if index == 5 then "Startup India offers various benefits including tax exemptions, funding support, and simplified procedures. Do you have a startup or planning to start one?"
    else "Pradhan Mantri Awas Yojana provides housing assistance to eligible families. Benefits vary from ₹1.2 lakh to ₹2.67 lakh based on category and location."
  }

  /** The text a reply's `content` stands for. */
  function ContentText(t: BotText): string {
    match t
    case Canned(topic) => TopicText(topic)
    case Knowledge(index) => KnowledgeText(index)
    case Understood => "I understand you're asking about government services. Let me help you with that."
    case Welcome => "Hello! I'm your AI assistant for government services. I can help you with scheme eligibility, application processes, document verification, and more. How can I assist you today?"
  }

  /** A key answers when the input contains it or it contains the input; both sides are
      lower-cased. */
  predicate KeyMatches(input: string, key: string) {
    Contains(input, Lower(key)) || Contains(Lower(key), input)
  }

  /** The first key at or after `from` that the input matches. */
  function FirstKnowledge(input: string, from: nat): (r: Option<nat>)
    requires from <= |KnowledgeKeys|
    ensures r.Some? ==> from <= r.value < |KnowledgeKeys| && KeyMatches(input, KnowledgeKeys[r.value])
    ensures r.Some? ==> forall j :: from <= j < r.value ==> !KeyMatches(input, KnowledgeKeys[j])
    ensures r.None? <==> forall j :: from <= j < |KnowledgeKeys| ==> !KeyMatches(input, KnowledgeKeys[j])
    decreases |KnowledgeKeys| - from
  {
    if from == |KnowledgeKeys| then None
    else if KeyMatches(input, KnowledgeKeys[from]) then Some(from)
    else FirstKnowledge(input, from + 1)
  }

  /** The content `generateBotResponse` gives a lower-cased input. */
  function KnowledgeAnswer(input: string): BotText {
    match FirstKnowledge(input, 0)
    case Some(i) => Knowledge(i)
    case None => Understood
  }

  /** The groups of follow-up suggestions `generateBotResponse` picks from. */
  datatype Context = SchemeContext | DocumentContext | StatusContext | NoContext

  function ContextOf(input: string): Context {
    if Contains(input, "scheme") || Contains(input, "eligibility") then SchemeContext
    else if Contains(input, "document") then DocumentContext
    else if Contains(input, "status") then StatusContext
    else NoContext
  }

  function ContextSuggestions(c: Context): seq<string> {
    match c
    case SchemeContext => ["Show me agriculture schemes", "Education schemes", "Healthcare schemes", "Apply for PM-KISAN"]
    case DocumentContext => ["Verify Aadhaar", "Check PAN status", "Upload documents", "Required documents list"]
    case StatusContext => ["Track application", "Check payment status", "Update mobile number", "Download certificate"]
    case NoContext => NoSchemeSuggestions
  }

  /** `generateBotResponse`: the first knowledge-base key the input matches gives the
      content, the fixed fallback text when none does; the suggestions follow the input's
      context. */
  method BotResponse(userInput: string, messageCount: nat) returns (reply: ChatEntry)
    ensures reply == BotMessage(messageCount + 2, KnowledgeAnswer(Lower(userInput)),
      ContextSuggestions(ContextOf(Lower(userInput))), None, None)
  {
    var input := Lower(userInput);
    var response := Understood;
    var i := 0;
    while i < |KnowledgeKeys|
      invariant 0 <= i <= |KnowledgeKeys|
      invariant FirstKnowledge(input, 0) == FirstKnowledge(input, i)
      invariant response == Understood
    {
      var key := Lower(KnowledgeKeys[i]);
      if Contains(input, key) || Contains(key, input) {
        response := Knowledge(i);
        break;
      }
      i := i + 1;
    }
    var suggestions;
    if Contains(input, "scheme") || Contains(input, "eligibility") {
      suggestions := ContextSuggestions(SchemeContext);
    } else if Contains(input, "document") {
      suggestions := ContextSuggestions(DocumentContext);
    } else if Contains(input, "status") {
      suggestions := ContextSuggestions(StatusContext);
    } else {
      suggestions := ContextSuggestions(NoContext);
    }
    reply := BotMessage(messageCount + 2, response, suggestions, None, None);
  }

  /** The content is a stored answer exactly when some key matches, and then it is the
      answer of the first key that matches. */
  lemma KnowledgeFirstKey(input: string)
    ensures KnowledgeAnswer(input) == Understood <==>
      forall j :: 0 <= j < |KnowledgeKeys| ==> !KeyMatches(input, KnowledgeKeys[j])
    ensures KnowledgeAnswer(input).Knowledge? ==>
      var k := KnowledgeAnswer(input).index;
      && k < |KnowledgeKeys| && KeyMatches(input, KnowledgeKeys[k])
      && forall j :: 0 <= j < k ==> !KeyMatches(input, KnowledgeKeys[j])
  {
  }

  /** Any input contained in the first key, the empty input among them, gets the first
      stored answer: the test also accepts a key that contains the input. */
  lemma KnowledgeInsideFirstKey(input: string)
    requires Contains(Lower(KnowledgeKeys[0]), input)
    ensures KnowledgeAnswer(input) == Knowledge(0)
  {
  }

  lemma EmptyInputMatchesFirstKey()
    ensures KnowledgeAnswer(Lower("")) == Knowledge(0)
  {
    assert Lower("") == "";
    KnowledgeInsideFirstKey("");
  }

  /** Every context offers four suggestions. The groups rank scheme or eligibility first,
      then document, then status, then the default. */
  lemma ContextFacts(input: string)
    ensures |ContextSuggestions(ContextOf(input))| == 4
    ensures Contains(input, "scheme") || Contains(input, "eligibility") ==> ContextOf(input) == SchemeContext
    ensures !Contains(input, "scheme") && !Contains(input, "eligibility") && Contains(input, "document") ==>
      ContextOf(input) == DocumentContext
    ensures ContextOf(input) == StatusContext <==>
      !Contains(input, "scheme") && !Contains(input, "eligibility") && !Contains(input, "document") && Contains(input, "status")
    ensures ContextOf(input) == NoContext <==>
      !Contains(input, "scheme") && !Contains(input, "eligibility") && !Contains(input, "document") && !Contains(input, "status")
  {
  }

  /** The suggestion groups as an ordered rule table. */
  const ContextRules: seq<Rule<Context>> := [
    Rule(Or(Word("scheme"), Word("eligibility")), SchemeContext),
    Rule(Word("document"), DocumentContext),
    Rule(Word("status"), StatusContext)
  ]

  lemma ContextTests(input: string)
    ensures Holds(ContextRules[0].test, input) == (Contains(input, "scheme") || Contains(input, "eligibility"))
    ensures Holds(ContextRules[1].test, input) == Contains(input, "document")
    ensures Holds(ContextRules[2].test, input) == Contains(input, "status")
  {
  }

  /** The suggestion chain picks the group of the first rule that holds, and the default
      group when none does. */
  lemma ContextIsFirstMatch(input: string)
    ensures ContextOf(input) == Select(ContextRules, input, NoContext)
  {
    var R := ContextRules;
    ContextTests(input);
    if Holds(R[0].test, input) {
      SelectFirst(R, input, NoContext, 0);
    } else if Holds(R[1].test, input) {
      SelectFirst(R, input, NoContext, 1);
    } else if Holds(R[2].test, input) {
      SelectFirst(R, input, NoContext, 2);
    } else {
      SelectOtherwise(R, input, NoContext);
    }
  }

  // ---------------------------------------------------------------------------
  // The widget's message list

  const WelcomeMessage := BotMessage(1, Welcome,
    ["Check scheme eligibility", "Document verification help", "Application status", "Find government offices"], None, None)

  /** The widget's state: its messages, its input box and the typing indicator. */
  class ChatSession {
    var messages: seq<ChatEntry>
    var inputMessage: string
    var isTyping: bool

    /** Every message's id is its one-based position in the list. */
    ghost predicate Valid()
      reads this
    {
      forall i :: 0 <= i < |messages| ==> messages[i].id == i + 1
    }

    constructor()
      ensures messages == [WelcomeMessage] && inputMessage == "" && !isTyping
      ensures Valid()
    {
      messages := [WelcomeMessage];
      inputMessage := "";
      isTyping := false;
    }

    /** `handleSendMessage`. A blank input changes nothing; otherwise the user's message and
        the local responder's reply are appended and the input is cleared. */
    method SendMessage()
      requires Valid()
      modifies this
      ensures Valid()
      ensures IsBlank(old(inputMessage)) ==> unchanged(this)
      ensures !IsBlank(old(inputMessage)) ==>
        messages == old(messages) + [UserMessage(|old(messages)| + 1, old(inputMessage))]
          + [LocalBotResponse(old(inputMessage), |old(messages)|)]
      ensures !IsBlank(old(inputMessage)) ==> inputMessage == "" && !isTyping
    {
      if IsBlank(inputMessage) {
        return;
      }
      var userInput := inputMessage;
      var seen := |messages|;
      messages := messages + [UserMessage(seen + 1, userInput)];
      inputMessage := "";
      isTyping := true;
      var botResponse := LocalBotResponse(userInput, seen);
      messages := messages + [botResponse];
      isTyping := false;
    }
  }
}
