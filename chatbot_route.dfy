/** The backend chatbot endpoint `POST /api/chatbot/query` and its two local
    helpers: the keyword fallback answer and the contextual suggestion list. */
module ChatbotRoute {
  import opened Wrappers
  import opened Text
  import opened Dispatch

  /** The request body; `message` is the only field the handler reads. */
  datatype QueryBody = QueryBody(message: Option<string>)

  /** The `data` object of a reply; `powered_by` is absent from the error reply. */
  datatype ChatData = ChatData(response: string, suggestions: seq<string>, poweredBy: Option<string>)

  /** Status code and JSON body `{success, message?, data?}`. */
  datatype QueryReply = QueryReply(status: nat, success: bool, message: Option<string>, data: Option<ChatData>)

  const FallbackModeText := "I'm the Saral Seva AI assistant. I can help you with government schemes, application processes, document verification, and more. I'm currently using enhanced fallback mode for reliable responses."
  const FallbackModeSuggestions := ["Find schemes for me", "Check application status", "Government office locations", "Document verification help"]
  const FallbackModeLabel := "Enhanced AI (Fallback Mode)"
  const FallbackModeData := ChatData(FallbackModeText, FallbackModeSuggestions, Some(FallbackModeLabel))

  const ErrorData := ChatData(
    "I'm experiencing some technical difficulties. Please try again in a moment or contact support for assistance.",
    ["Try again", "Contact support", "Browse schemes", "Check application status"],
    None)

  /** `!message`: the message is missing or empty. */
  predicate MissingMessage(body: QueryBody) {
    body.message.None? || body.message.value == ""
  }

  /** The handler. `body` is `None` when the request carries no parsed body, so that
      destructuring it throws and the handler's catch answers 500. With the remote
      model call switched off, every accepted message gets the same fallback payload. */
  function ChatbotQuery(body: Option<QueryBody>): (r: QueryReply)
    ensures r.success <==> r.status == 200
    ensures r.status == 400 <==> body.Some? && MissingMessage(body.value)
    ensures r.status == 400 ==> r.message == Some("Message is required") && r.data.None?
    ensures r.status == 500 <==> body.None?
    ensures r.status == 200 ==> r.data == Some(FallbackModeData) && r.message.None?
    ensures r.status == 200 || r.status == 400 || r.status == 500
  {
    match body
    case None => QueryReply(500, false, Some("Error processing your request"), Some(ErrorData))
    case Some(b) =>
      if MissingMessage(b) then QueryReply(400, false, Some("Message is required"), None)
      else QueryReply(200, true, None, Some(FallbackModeData))
  }

  /** The reply to an accepted message does not depend on the message. */
  lemma AcceptedReplyIsFixed(a: QueryBody, b: QueryBody)
    requires !MissingMessage(a) && !MissingMessage(b)
    ensures ChatbotQuery(Some(a)) == ChatbotQuery(Some(b))
    ensures ChatbotQuery(Some(a)).data.value.suggestions == FallbackModeSuggestions
  {
  }

  // ---------------------------------------------------------------------------
  // generateFallbackResponse

  /** The branch of the fallback answer chain, one per canned answer. */
  datatype Topic = Schemes | Applying | Documents | Farming | Students | General

  /** The canned answer of each branch. */
  const SchemeAnswer := "I can help you find government schemes! Some popular schemes include PM-KISAN for farmers, Ayushman Bharat for healthcare, and various scholarships for students. To check your eligibility, please provide details about your age, income, category, and state."
  const ApplyAnswer := "For government scheme applications, you can visit official portals like Digital India, PMO website, or specific ministry websites. Most applications require documents like Aadhaar, PAN card, and bank account details. I can guide you to the right portal if you specify which scheme you're interested in."
  const DocumentAnswer := "For document verification, you can use DigiLocker for storing digital documents, or visit official government portals. Common documents needed are Aadhaar, PAN, voter ID, and educational certificates. Let me know which specific document you need help with."
  const FarmerAnswer := "For farmers, key schemes include PM-KISAN (â‚¹6000/year), Crop Insurance, KCC (Kisan Credit Card), and various state-specific schemes. You can check eligibility and apply through PM-KISAN portal or your nearest Common Service Center."
  const StudentAnswer := "Students can benefit from National Scholarship Portal, Merit-cum-Means scholarships, and various central/state scholarships. Eligibility typically depends on family income, academic performance, and category. Visit scholarships.gov.in for more details."
  const DefaultAnswer := "I'm here to help you with government schemes, applications, document verification, and more! You can ask me about eligibility criteria, application processes, or specific schemes like PM-KISAN, Ayushman Bharat, scholarships, and others."

  function TopicAnswer(t: Topic): string {
    match t
    case Schemes => SchemeAnswer
    case Applying => ApplyAnswer
    case Documents => DocumentAnswer
    case Farming => FarmerAnswer
    case Students => StudentAnswer
    case General => DefaultAnswer
  }

  /** The fallback chain as an ordered rule table. */
  const FallbackRules: seq<Rule<Topic>> := [
    Rule(Or(Word("scheme"), Word("eligibility")), Schemes),
    Rule(Or(Word("apply"), Word("application")), Applying),
    Rule(Or(Word("document"), Word("verify")), Documents),
    Rule(Or(Word("farmer"), Word("agriculture")), Farming),
    Rule(Or(Word("student"), Word("scholarship")), Students)
  ]

  /** The branch `generateFallbackResponse` takes: its chain of keyword tests over the
      lower-cased message. */
  function FallbackTopic(message: string): (t: Topic)
    ensures t == General ==> !Contains(Lower(message), "scheme") && !Contains(Lower(message), "apply")
  {
    var lower := Lower(message);
    if Contains(lower, "scheme") || Contains(lower, "eligibility") then Schemes
    else if Contains(lower, "apply") || Contains(lower, "application") then Applying
    else if Contains(lower, "document") || Contains(lower, "verify") then Documents
    else if Contains(lower, "farmer") || Contains(lower, "agriculture") then Farming
    else if Contains(lower, "student") || Contains(lower, "scholarship") then Students
    else General
  }

  /** `generateFallbackResponse`: the canned answer of the branch the chain takes. */
  function FallbackResponse(message: string): string {
    TopicAnswer(FallbackTopic(message))
  }

  /** Every canned answer has some text. */
  lemma AnswersNonEmpty(t: Topic)
    ensures |TopicAnswer(t)| > 0
  {
  }

  /** `generateFallbackResponse` never answers with an empty text. */
  lemma FallbackNonEmpty(message: string)
    ensures |FallbackResponse(message)| > 0
  {
    AnswersNonEmpty(FallbackTopic(message));
  }

  /** The chain takes the branch of the first rule of the table that holds, and the
      default branch when no rule holds. */
  lemma FallbackIsFirstMatch(message: string)
    ensures FallbackTopic(message) == Select(FallbackRules, Lower(message), General)
  {
    var lower := Lower(message);
    var R := FallbackRules;
    assert Holds(R[0].test, lower) == (Contains(lower, "scheme") || Contains(lower, "eligibility"));
    assert Holds(R[1].test, lower) == (Contains(lower, "apply") || Contains(lower, "application"));
    assert Holds(R[2].test, lower) == (Contains(lower, "document") || Contains(lower, "verify"));
    assert Holds(R[3].test, lower) == (Contains(lower, "farmer") || Contains(lower, "agriculture"));
    assert Holds(R[4].test, lower) == (Contains(lower, "student") || Contains(lower, "scholarship"));
    if Holds(R[0].test, lower) {
      SelectFirst(R, lower, General, 0);
    } else if Holds(R[1].test, lower) {
      SelectFirst(R, lower, General, 1);
    } else if Holds(R[2].test, lower) {
      SelectFirst(R, lower, General, 2);
    } else if Holds(R[3].test, lower) {
      SelectFirst(R, lower, General, 3);
    } else if Holds(R[4].test, lower) {
      SelectFirst(R, lower, General, 4);
    } else {
      SelectOtherwise(R, lower, General);
    }
  }

  /** Matching ignores ASCII case: a message and its lower-cased form get the same answer. */
  lemma FallbackIgnoresCase(message: string)
    ensures FallbackTopic(message) == FallbackTopic(Lower(message))
  {
    LowerIdempotent(message);
  }

  /** First match wins: a message naming both a scheme and applying gets the scheme answer. */
  lemma FallbackSchemeBeatsApply(message: string)
    requires Contains(Lower(message), "scheme") && Contains(Lower(message), "apply")
    ensures FallbackTopic(message) == Schemes
  {
  }

  /** The default answer is given exactly when no keyword of any rule occurs. */
  lemma FallbackDefaultIff(message: string)
    ensures FallbackTopic(message) == General <==>
      forall j :: 0 <= j < |FallbackRules| ==> !Holds(FallbackRules[j].test, Lower(message))
  {
    FallbackIsFirstMatch(message);
    var k := FirstMatchFrom(FallbackRules, Lower(message), 0);
    if k.Some? {
      assert FallbackRules[k.value].value != General;
    }
  }

  // ---------------------------------------------------------------------------
  // generateSuggestions

  /** The five suggestion groups of `generateSuggestions`. */
  datatype Group = SchemeHelp | DocumentHelp | StatusHelp | OfficeHelp | TaxHelp

  /** The three entries each group pushes. */
  const SchemeEntries := ["Find schemes for me", "Check eligibility criteria", "Application process"]
  const DocumentEntries := ["Document verification help", "Required documents", "Upload documents"]
  const StatusEntries := ["Check application status", "Track my application", "Application timeline"]
  const OfficeEntries := ["Find government offices", "Office timings", "Contact information"]
  const TaxEntries := ["Tax benefits", "Income tax filing", "Tax calculation"]

  function Entries(g: Group): (r: seq<string>)
    ensures |r| == 3
  {
    match g
    case SchemeHelp => SchemeEntries
    case DocumentHelp => DocumentEntries
    case StatusHelp => StatusEntries
    case OfficeHelp => OfficeEntries
    case TaxHelp => TaxEntries
  }

  const DefaultSuggestions := ["Find schemes for me", "Check application status", "Document verification", "Government office locations"]

  /** The groups as an ordered rule table. */
  const SuggestionRules: seq<Rule<Group>> := [
    Rule(Or(Word("scheme"), Word("eligibility")), SchemeHelp),
    Rule(Or(Word("document"), Word("verification")), DocumentHelp),
    Rule(Or(Word("status"), Word("application")), StatusHelp),
    Rule(Or(Word("office"), Word("location")), OfficeHelp),
    Rule(Or(Word("tax"), Word("income")), TaxHelp)
  ]

  /** The tests of the table, spelled out. */
  lemma SuggestionTests(m: string)
    ensures Holds(SuggestionRules[0].test, m) == (Contains(m, "scheme") || Contains(m, "eligibility"))
    ensures Holds(SuggestionRules[1].test, m) == (Contains(m, "document") || Contains(m, "verification"))
    ensures Holds(SuggestionRules[2].test, m) == (Contains(m, "status") || Contains(m, "application"))
    ensures Holds(SuggestionRules[3].test, m) == (Contains(m, "office") || Contains(m, "location"))
    ensures Holds(SuggestionRules[4].test, m) == (Contains(m, "tax") || Contains(m, "income"))
    ensures SuggestionRules[0].value == SchemeHelp && SuggestionRules[1].value == DocumentHelp
    ensures SuggestionRules[2].value == StatusHelp && SuggestionRules[3].value == OfficeHelp
    ensures SuggestionRules[4].value == TaxHelp
  {
  }

  /** What the suggestion list must be: the entries of every group whose rule holds, in
      table order (the defaults when no rule holds), cut to four. */
  function ExpectedSuggestions(message: string): (r: seq<string>)
    ensures 1 <= |r| <= 4
  {
    var all := Flatten(MatchedFrom(SuggestionRules, message, 0), Entries);
    Take(if all == [] then DefaultSuggestions else all, 4)
  }

  /** One `if (...) push(...)` of `generateSuggestions`, in terms of the table. */
  lemma PushStep(message: string, k: nat, before: seq<string>)
    requires k < |SuggestionRules|
    requires before == PushedUpTo(SuggestionRules, message, k, Entries)
    ensures PushedUpTo(SuggestionRules, message, k + 1, Entries) ==
      if Holds(SuggestionRules[k].test, message) then before + Entries(SuggestionRules[k].value) else before
  {
  }

  /** `generateSuggestions`: pushes each matching group in turn, falls back to the
      defaults when nothing was pushed, and keeps the first four. The message is
      taken as given (its callers lower-case it). */
  method GenerateSuggestions(message: string) returns (r: seq<string>)
    ensures r == ExpectedSuggestions(message)
  {
    SuggestionTests(message);
    var suggestions: seq<string> := [];
    PushStep(message, 0, suggestions);
    if Contains(message, "scheme") || Contains(message, "eligibility") {
      suggestions := suggestions + Entries(SchemeHelp);
    }
    PushStep(message, 1, suggestions);
    if Contains(message, "document") || Contains(message, "verification") {
      suggestions := suggestions + Entries(DocumentHelp);
    }
    PushStep(message, 2, suggestions);
    if Contains(message, "status") || Contains(message, "application") {
      suggestions := suggestions + Entries(StatusHelp);
    }
    PushStep(message, 3, suggestions);
    if Contains(message, "office") || Contains(message, "location") {
      suggestions := suggestions + Entries(OfficeHelp);
    }
    PushStep(message, 4, suggestions);
    if Contains(message, "tax") || Contains(message, "income") {
      suggestions := suggestions + Entries(TaxHelp);
    }
    assert suggestions == PushedUpTo(SuggestionRules, message, 5, Entries);
    ghost var pushed := suggestions;
    SuggestionsFinish(message, pushed);
    if |suggestions| == 0 {
      suggestions := suggestions + DefaultSuggestions;
    }
    r := Take(suggestions, 4);
  }

  /** The end of `generateSuggestions`: the defaults when nothing was pushed, then the
      first four. */
  lemma SuggestionsFinish(message: string, pushed: seq<string>)
    requires pushed == PushedUpTo(SuggestionRules, message, 5, Entries)
    ensures Take(if |pushed| == 0 then pushed + DefaultSuggestions else pushed, 4) == ExpectedSuggestions(message)
  {
    PushedAll(SuggestionRules, message, Entries);
    if |pushed| == 0 {
      assert pushed + DefaultSuggestions == DefaultSuggestions;
    }
  }

  /** With no keyword of any group in the message, the four defaults are suggested. */
  lemma SuggestionsDefault(message: string)
    requires forall j :: 0 <= j < |SuggestionRules| ==> !Holds(SuggestionRules[j].test, message)
    ensures ExpectedSuggestions(message) == DefaultSuggestions
  {
    assert MatchedFrom(SuggestionRules, message, 0) == [];
  }

  /** The first group whose keywords occur leads the list with its three entries. */
  lemma SuggestionsLeadWithFirstMatch(message: string, k: nat)
    requires k < |SuggestionRules| && Holds(SuggestionRules[k].test, message)
    requires forall j :: 0 <= j < k ==> !Holds(SuggestionRules[j].test, message)
    ensures ExpectedSuggestions(message)[..3] == Entries(SuggestionRules[k].value)
  {
    var g := SuggestionRules[k].value;
    var rest := MatchedFrom(SuggestionRules, message, k + 1);
    MatchedFromFirst(SuggestionRules, message, 0, k);
    FlattenAppend([g], rest, Entries);
    FlattenSingle(g, Entries);
    var all := Flatten(MatchedFrom(SuggestionRules, message, 0), Entries);
    assert all == Entries(g) + Flatten(rest, Entries);
    assert all[..3] == Entries(g);
  }

  /** With two groups matching first, the list is the first group's three entries followed
      by the first entry of the second. */
  lemma SuggestionsFirstTwo(message: string, k1: nat, k2: nat)
    requires k1 < k2 < |SuggestionRules|
    requires Holds(SuggestionRules[k1].test, message) && Holds(SuggestionRules[k2].test, message)
    requires forall j :: 0 <= j < k2 && j != k1 ==> !Holds(SuggestionRules[j].test, message)
    ensures ExpectedSuggestions(message) ==
      Entries(SuggestionRules[k1].value) + [Entries(SuggestionRules[k2].value)[0]]
  {
    var g1, g2 := SuggestionRules[k1].value, SuggestionRules[k2].value;
    var rest := MatchedFrom(SuggestionRules, message, k2 + 1);
    MatchedFromFirstTwo(SuggestionRules, message, k1, k2);
    FlattenTwo(g1, g2, rest, Entries);
    var e1, e2 := Entries(g1), Entries(g2);
    var all := e1 + e2 + Flatten(rest, Entries);
    assert all[..4] == e1 + [e2[0]];
  }

  /** The list has four entries unless exactly one group matched, when it has that group's three. */
  lemma SuggestionsCount(message: string)
    ensures |ExpectedSuggestions(message)| == if |MatchedFrom(SuggestionRules, message, 0)| == 1 then 3 else 4
  {
    FlattenLength(MatchedFrom(SuggestionRules, message, 0));
  }

  lemma {:induction false} FlattenLength(groups: seq<Group>)
    ensures |Flatten(groups, Entries)| == 3 * |groups|
    decreases |groups|
  {
    if groups != [] {
      FlattenLength(groups[1..]);
    }
  }
}
