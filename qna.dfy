/** The "Sarkar QnA" page: its local keyword responder, the confidence colour, and the
    state the page keeps while a question is sent (the message list, the recent-query
    list and the follow-up suggestions). */
module QnA {
  import opened Text
  import opened Dispatch

  /** The branches of the responder's keyword chain. */
  datatype Branch = PmKisan | Ayushman | Scholarship | Housing | Pension | Startup | Women | Greeting | Other

  /** The chain as an ordered rule table; `a || b || c` groups to the left, as in JavaScript. */
  const QnARules: seq<Rule<Branch>> := [
    Rule(And(Word("pm"), Word("kisan")), PmKisan),
    Rule(Or(Word("ayushman"), And(Word("health"), Word("insurance"))), Ayushman),
    Rule(Or(Word("scholarship"), Word("education")), Scholarship),
    Rule(Or(Or(Word("housing"), Word("awas")), Word("pmay")), Housing),
    Rule(Or(Or(Word("pension"), Word("senior")), Word("old age")), Pension),
    Rule(Or(Word("startup"), Word("business")), Startup),
    Rule(Or(Or(Word("women"), Word("mahila")), Word("female")), Women),
    Rule(Or(Or(Or(Word("hello"), Word("hi")), Word("help")), Word("नमस्ते")), Greeting)
  ]

  /** The branch `generateLocalQnAResponse` takes: its chain of tests over the lower-cased input. */
  function BranchOf(userInput: string): Branch {
    var input := Lower(userInput);
    if Contains(input, "pm") && Contains(input, "kisan") then PmKisan
    else if Contains(input, "ayushman") || (Contains(input, "health") && Contains(input, "insurance")) then Ayushman
    else if Contains(input, "scholarship") || Contains(input, "education") then Scholarship
    else if Contains(input, "housing") || Contains(input, "awas") || Contains(input, "pmay") then Housing
    else if Contains(input, "pension") || Contains(input, "senior") || Contains(input, "old age") then Pension
    else if Contains(input, "startup") || Contains(input, "business") then Startup
    else if Contains(input, "women") || Contains(input, "mahila") || Contains(input, "female") then Women
    else if Contains(input, "hello") || Contains(input, "hi") || Contains(input, "help") || Contains(input, "नमस्ते") then Greeting
    else Other
  }

  /** A scheme the answer points to. */
  datatype SchemeRef = SchemeRef(name: string, category: string)


  /** The answer text of each branch. */
  function Content(b: Branch): string {
    match b
    case PmKisan => "**PM-KISAN Scheme Details**:\n\n**Objective**: Financial support to farmers\n**Benefits**: ₹6,000 per year (₹2,000 every 4 months)\n**Eligibility**: All landholding farmers\n**Application**: Visit pmkisan.gov.in or CSC\n**Documents**: Land records, Aadhaar, Bank account details\n**Status Check**: Available on portal with Aadhaar/mobile number"
    case Ayushman => "**Ayushman Bharat - PM-JAY**:\n\n**Coverage**: ₹5 lakh per family per year\n**Eligibility**: Based on SECC 2011 data\n**Benefits**: Cashless treatment at empanelled hospitals\n**Services**: 1,400+ medical packages covered\n**Check Eligibility**: mera.pmjay.gov.in\n**Download Card**: From PMJAY app or website"
    case Scholarship => "**Education Scholarships**:\n\n**National Scholarship Portal**: scholarships.gov.in\n**Types**: Pre-matric, Post-matric, Merit-cum-Means\n**Categories**: SC/ST/OBC/Minority/General\n**Benefits**: ₹1,000 to ₹20,000 per year\n**Application**: Online through NSP\n**Documents**: Income certificate, Caste certificate, Marksheets"
    case Housing => "**Pradhan Mantri Awas Yojana (PMAY)**:\n\n**Urban**: PMAY-U for cities\n**Rural**: PMAY-G for villages\n**Subsidy**: ₹1.2 lakh to ₹2.67 lakh\n**Eligibility**: EWS, LIG, MIG categories\n**Application**: pmaymis.gov.in for urban, pmayg.nic.in for rural\n**Benefits**: Interest subsidy, direct financial assistance"
    case Pension => "**Pension Schemes**:\n\n**Types**: Old Age, Widow, Disability Pension\n**Eligibility**: Age 60+ (varies by state), BPL families\n**Amount**: ₹200-₹1,000 per month (state-wise)\n**Application**: District Social Welfare Office\n**Documents**: Age proof, Income certificate, Bank details\n**Status**: Check with local authorities"
    case Startup => "**Startup India**:\n\n**Benefits**: Tax exemptions for 3 years, IPR fast-tracking\n**Funding**: Fund of Funds, SIDBI support\n**Registration**: startupindia.gov.in\n**Eligibility**: Less than 10 years old, turnover under ₹100 crore\n**Support**: Incubation, mentorship, networking\n**Documents**: Certificate of incorporation, business plan"
    case Women => "**Women Empowerment Schemes**:\n\n**Beti Bachao Beti Padhao**: Girl child education and safety\n**Mahila E-Haat**: Online marketing platform\n**Sukanya Samriddhi**: Savings scheme for girl child\n**PMMY**: Micro-credit for women entrepreneurs\n**Application**: Various portals and local offices"
    case Greeting => "नमस्ते! Welcome to Saral Seva QnA! 🙏\n\nI'm your government services assistant. I can help you with:\n\n• **Scheme Information**: PM-KISAN, Ayushman Bharat, PMAY\n• **Eligibility Checking**: Based on your profile\n• **Application Guidance**: Step-by-step process\n• **Document Requirements**: What you need to apply\n• **Status Tracking**: Check your application status\n\nWhat would you like to know about?"
    case Other => "I can help you with various government schemes and services. Please ask me about specific schemes like PM-KISAN, Ayushman Bharat, scholarships, housing schemes, or any other government service you need information about."
  }

  function Confidence(b: Branch): nat {
    match b
    case PmKisan => 95
    case Ayushman => 95
    case Scholarship => 90
    case Housing => 92
    case Pension => 88
    case Startup => 90
    case Women => 88
    case Greeting => 95
    case Other => 70
  }

  function Category(b: Branch): string {
    match b
    case PmKisan => "agriculture"
    case Ayushman => "healthcare"
    case Scholarship => "education"
    case Housing => "housing"
    case Pension => "social-security"
    case Startup => "business"
    case Women => "women-empowerment"
    case Greeting => "greeting"
    case Other => "general"
  }

  function RelevantSchemes(b: Branch): seq<SchemeRef> {
    match b
    case PmKisan =>
      [SchemeRef("PM-KISAN", "agriculture"), SchemeRef("Crop Insurance", "agriculture"), SchemeRef("Kisan Credit Card", "agriculture")]
    case Ayushman =>
      [SchemeRef("Ayushman Bharat", "healthcare"), SchemeRef("PMJAY", "healthcare"), SchemeRef("Health Insurance", "healthcare")]
    case Scholarship =>
      [SchemeRef("NSP Scholarships", "education"), SchemeRef("Merit Scholarships", "education"), SchemeRef("Minority Scholarships", "education")]
    case Housing =>
      [SchemeRef("PMAY Urban", "housing"), SchemeRef("PMAY Gramin", "housing"), SchemeRef("Housing Loan Subsidy", "housing")]
    case Pension =>
      [SchemeRef("Old Age Pension", "social-security"), SchemeRef("Widow Pension", "social-security"), SchemeRef("Disability Pension", "social-security")]
    case Startup =>
      [SchemeRef("Startup India", "business"), SchemeRef("MUDRA Loan", "business"), SchemeRef("Stand Up India", "business")]
    case Women =>
      [SchemeRef("Beti Bachao Beti Padhao", "women"), SchemeRef("Sukanya Samriddhi", "women"), SchemeRef("Mahila E-Haat", "women")]
    case Greeting =>
      [SchemeRef("Popular Schemes", "general"), SchemeRef("Eligibility Check", "general"), SchemeRef("Application Help", "general")]
    case Other =>
      [SchemeRef("PM-KISAN", "agriculture"), SchemeRef("Ayushman Bharat", "healthcare"), SchemeRef("PMAY", "housing")]
  }

  /** The answer object. Its `content` is held as the branch whose canned text it is (the
      text itself is `Content(answer)`, see `ContentOf`); the `timestamp` field is left out. */
  datatype QnAReply = QnAReply(
    id: int, kind: string, answer: Branch, confidence: nat, relevantSchemes: seq<SchemeRef>,
    category: string, language: string, sources: seq<string>, poweredBy: string)

  /** The `content` text of an answer. */
  function ContentOf(r: QnAReply): string {
    Content(r.answer)
  }

  const Sources := ["Government Official Portals", "Scheme Guidelines"]
  const LocalEngine := "Enhanced Local AI"

  /** `generateLocalQnAResponse`; `now` is the clock reading `Date.now()` gives after the delay. */
  function LocalQnAResponse(userInput: string, now: int): QnAReply {
    var b := BranchOf(userInput);
    QnAReply(now + 1, "bot", b, Confidence(b), RelevantSchemes(b), Category(b), "en", Sources, LocalEngine)
  }

  /** The tests of the table, spelled out. */
  lemma QnATests(input: string)
    ensures Holds(QnARules[0].test, input) == (Contains(input, "pm") && Contains(input, "kisan"))
    ensures Holds(QnARules[1].test, input) ==
      (Contains(input, "ayushman") || (Contains(input, "health") && Contains(input, "insurance")))
    ensures Holds(QnARules[2].test, input) == (Contains(input, "scholarship") || Contains(input, "education"))
    ensures Holds(QnARules[3].test, input) ==
      (Contains(input, "housing") || Contains(input, "awas") || Contains(input, "pmay"))
    ensures Holds(QnARules[4].test, input) ==
      (Contains(input, "pension") || Contains(input, "senior") || Contains(input, "old age"))
    ensures Holds(QnARules[5].test, input) == (Contains(input, "startup") || Contains(input, "business"))
    ensures Holds(QnARules[6].test, input) ==
      (Contains(input, "women") || Contains(input, "mahila") || Contains(input, "female"))
    ensures Holds(QnARules[7].test, input) ==
      (Contains(input, "hello") || Contains(input, "hi") || Contains(input, "help") || Contains(input, "नमस्ते"))
  {
    var R := QnARules;
    assert Holds(R[1].test.r, input) == (Contains(input, "health") && Contains(input, "insurance"));
    assert Holds(R[3].test.l, input) == (Contains(input, "housing") || Contains(input, "awas"));
    assert Holds(R[4].test.l, input) == (Contains(input, "pension") || Contains(input, "senior"));
    assert Holds(R[6].test.l, input) == (Contains(input, "women") || Contains(input, "mahila"));
    assert Holds(R[7].test.l.l, input) == (Contains(input, "hello") || Contains(input, "hi"));
    assert Holds(R[7].test.l, input) == (Contains(input, "hello") || Contains(input, "hi") || Contains(input, "help"));
  }

  /** The chain takes the branch of the first rule of the table that holds, and `Other`
      when no rule holds. */
  lemma BranchIsFirstMatch(userInput: string)
    ensures BranchOf(userInput) == Select(QnARules, Lower(userInput), Other)
  {
    var input := Lower(userInput);
    var R := QnARules;
    QnATests(input);
    if Holds(R[0].test, input) {
      SelectFirst(R, input, Other, 0);
    } else if Holds(R[1].test, input) {
      SelectFirst(R, input, Other, 1);
    } else if Holds(R[2].test, input) {
      SelectFirst(R, input, Other, 2);
    } else if Holds(R[3].test, input) {
      SelectFirst(R, input, Other, 3);
    } else if Holds(R[4].test, input) {
      SelectFirst(R, input, Other, 4);
    } else if Holds(R[5].test, input) {
      SelectFirst(R, input, Other, 5);
    } else if Holds(R[6].test, input) {
      SelectFirst(R, input, Other, 6);
    } else if Holds(R[7].test, input) {
      SelectFirst(R, input, Other, 7);
    } else {
      SelectOtherwise(R, input, Other);
    }
  }

  /** Matching ignores ASCII case. */
  lemma QnAIgnoresCase(userInput: string)
    ensures BranchOf(userInput) == BranchOf(Lower(userInput))
  {
    LowerIdempotent(userInput);
  }

  /** An input naming both "pm" and "kisan" is answered as agriculture with confidence 95,
      whatever else it says. */
  lemma PmKisanWins(userInput: string, now: int)
    requires Contains(Lower(userInput), "pm") && Contains(Lower(userInput), "kisan")
    ensures LocalQnAResponse(userInput, now).category == "agriculture"
    ensures LocalQnAResponse(userInput, now).confidence == 95
  {
  }

  /** First match wins: the health answer is given exactly when the PM-KISAN test fails and
      the health test holds. */
  lemma AyushmanAfterPmKisan(userInput: string)
    ensures var input := Lower(userInput);
      BranchOf(userInput) == Ayushman <==>
        !(Contains(input, "pm") && Contains(input, "kisan")) &&
        (Contains(input, "ayushman") || (Contains(input, "health") && Contains(input, "insurance")))
  {
  }

  /** Every branch, the default included, names exactly three schemes. */
  lemma SchemesPerBranch(b: Branch)
    ensures |RelevantSchemes(b)| == 3
  {
  }

  /** Every answer, the default included, points to exactly three schemes. */
  lemma ThreeSchemes(userInput: string, now: int)
    ensures |LocalQnAResponse(userInput, now).relevantSchemes| == 3
  {
    SchemesPerBranch(BranchOf(userInput));
  }

  /** Confidence is one of five values; 70 belongs to the default branch alone, which is
      filed under "general". */
  lemma ConfidencePerBranch(b: Branch)
    ensures Confidence(b) in {70, 88, 90, 92, 95}
    ensures Confidence(b) == 70 <==> b == Other
    ensures b == Other ==> Category(b) == "general"
  {
  }

  /** The same, for the answers. */
  lemma ConfidenceValues(userInput: string, now: int)
    ensures LocalQnAResponse(userInput, now).confidence in {70, 88, 90, 92, 95}
    ensures LocalQnAResponse(userInput, now).confidence == 70 <==> BranchOf(userInput) == Other
    ensures BranchOf(userInput) == Other ==> LocalQnAResponse(userInput, now).category == "general"
  {
    ConfidencePerBranch(BranchOf(userInput));
  }

  /** The fields every answer shares. */
  lemma ReplyFixedFields(userInput: string, now: int)
    ensures LocalQnAResponse(userInput, now).kind == "bot"
    ensures LocalQnAResponse(userInput, now).id == now + 1
    ensures LocalQnAResponse(userInput, now).language == "en"
    ensures LocalQnAResponse(userInput, now).sources == ["Government Official Portals", "Scheme Guidelines"]
    ensures LocalQnAResponse(userInput, now).poweredBy == "Enhanced Local AI"
  {
  }

  // ---------------------------------------------------------------------------
  // getConfidenceColor

  datatype Shade = Green | Yellow | Red

  /** The band `getConfidenceColor` puts a confidence in. */
  function ConfidenceShade(confidence: int): (s: Shade)
    ensures s == Green <==> confidence >= 80
    ensures s == Yellow <==> 60 <= confidence < 80
    ensures s == Red <==> confidence < 60
  {
    if confidence >= 80 then Green
    else if confidence >= 60 then Yellow
    else Red
  }

  /** `getConfidenceColor`: the text colour class of the band. */
  function ConfidenceColor(confidence: int): string {
    match ConfidenceShade(confidence)
    case Green => "text-green-600"
    case Yellow => "text-yellow-600"
    case Red => "text-red-600"
  }

  /** A higher confidence never gets a lower band. */
  lemma ShadeMonotone(a: int, b: int)
    requires a <= b
    ensures ConfidenceShade(a) == Green ==> ConfidenceShade(b) == Green
    ensures ConfidenceShade(b) == Red ==> ConfidenceShade(a) == Red
  {
  }

  /** Every local answer is shown green except the default one, which is shown yellow. */
  lemma ReplyShade(userInput: string, now: int)
    ensures ConfidenceShade(LocalQnAResponse(userInput, now).confidence) ==
      if BranchOf(userInput) == Other then Yellow else Green
  {
    ConfidencePerBranch(BranchOf(userInput));
  }

  // ---------------------------------------------------------------------------
  // handleSendMessage

  /** An entry of the recent-query list; its timestamp is left out. */
  datatype Query = Query(question: string, language: string)

  /** A message of the conversation: the user's question or the responder's answer. */
  datatype Entry = UserEntry(id: int, content: string) | BotEntry(reply: QnAReply)

  /** `[newQuery, ...prev.slice(0, 9)]`. */
  function PushRecent(q: Query, recent: seq<Query>): seq<Query> {
    [q] + Take(recent, 9)
  }

  /** The pushed query comes first, followed by the earlier queries in their order, cut so
      that the list holds ten entries at most. */
  lemma PushRecentShape(q: Query, recent: seq<Query>)
    ensures 1 <= |PushRecent(q, recent)| <= 10
    ensures PushRecent(q, recent)[0] == q && PushRecent(q, recent)[1..] <= recent
    ensures |recent| < 10 ==> PushRecent(q, recent)[1..] == recent
  {
    assert PushRecent(q, recent)[1..] == Take(recent, 9);
  }

  /** Pushing a query keeps the list at ten entries at most, the newest first, and keeps
      the nine most recent earlier queries in their order. */
  lemma {:induction false} PushRecentTwice(a: Query, b: Query, recent: seq<Query>)
    ensures PushRecent(b, PushRecent(a, recent)) == [b, a] + Take(recent, 8)
  {
    var once := PushRecent(a, recent);
    assert Take(once, 9) == [a] + Take(recent, 8);
  }

  /** `relevantSchemes.slice(0, 3).map(...)`: a follow-up question per scheme. */
  function MoreAbout(schemes: seq<SchemeRef>): seq<string> {
    var firstThree := Take(schemes, 3);
    seq(|firstThree|, i requires 0 <= i < |firstThree| => "Tell me more about " + firstThree[i].name)
  }

  /** One follow-up per scheme, for the first three schemes, in their order. */
  lemma MoreAboutShape(schemes: seq<SchemeRef>)
    ensures |MoreAbout(schemes)| == if |schemes| < 3 then |schemes| else 3
    ensures forall i :: 0 <= i < |MoreAbout(schemes)| ==> MoreAbout(schemes)[i] == "Tell me more about " + schemes[i].name
  {
  }

  /** The page's state. */
  class QnASession {
    var messages: seq<Entry>
    var inputMessage: string
    var isTyping: bool
    var selectedLanguage: string
    var suggestions: seq<string>
    var recentQueries: seq<Query>

    /** A fresh page; `saved` is the recent-query list read back from browser storage. */
    constructor(saved: seq<Query>)
      ensures messages == [] && inputMessage == "" && !isTyping && selectedLanguage == "en"
      ensures suggestions == [] && recentQueries == saved
    {
      messages := [];
      inputMessage := "";
      isTyping := false;
      selectedLanguage := "en";
      suggestions := [];
      recentQueries := saved;
    }

    /** `handleSendMessage`. `sentAt` and `answeredAt` are the two clock readings. A blank
        input changes nothing; otherwise the question and its answer are appended, the
        input is cleared, the query is pushed on the recent list and the suggestions
        become one follow-up per scheme of the answer. */
    method SendMessage(sentAt: int, answeredAt: int)
      modifies this
      ensures IsBlank(old(inputMessage)) ==> unchanged(this)
      ensures !IsBlank(old(inputMessage)) ==>
        messages == old(messages) + [UserEntry(sentAt, old(inputMessage))] + [BotEntry(LocalQnAResponse(old(inputMessage), answeredAt))]
      ensures !IsBlank(old(inputMessage)) ==>
        inputMessage == "" && !isTyping && selectedLanguage == old(selectedLanguage)
      ensures !IsBlank(old(inputMessage)) ==>
        recentQueries == PushRecent(Query(old(inputMessage), old(selectedLanguage)), old(recentQueries))
      ensures !IsBlank(old(inputMessage)) ==> |recentQueries| <= 10
      ensures !IsBlank(old(inputMessage)) ==>
        suggestions == MoreAbout(LocalQnAResponse(old(inputMessage), answeredAt).relevantSchemes)
      ensures !IsBlank(old(inputMessage)) ==> |suggestions| == 3
    {
      if IsBlank(inputMessage) {
        return;
      }
      var userInput := inputMessage;
      messages := messages + [UserEntry(sentAt, userInput)];
      inputMessage := "";
      isTyping := true;
      var botResponse := LocalQnAResponse(userInput, answeredAt);
      messages := messages + [BotEntry(botResponse)];
      PushRecentShape(Query(userInput, selectedLanguage), recentQueries);
      recentQueries := PushRecent(Query(userInput, selectedLanguage), recentQueries);
      ThreeSchemes(userInput, answeredAt);
      if |botResponse.relevantSchemes| > 0 {
        MoreAboutShape(botResponse.relevantSchemes);
        suggestions := MoreAbout(botResponse.relevantSchemes);
      }
      isTyping := false;
    }
  }
}
