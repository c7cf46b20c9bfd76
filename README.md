# Saral Seva — sign-in resolution and keyword responders

Saral Seva is a citizen portal for Indian government services: an Express backend with
Google and DigiLocker sign-in, and a React frontend with two local chat assistants. This
project models the parts of it that hold real logic and proves what they promise.

- **Sign-in resolution.** The Google verify callback (`passport.js`) and the DigiLocker
  callback (`oauth.js`) resolve a provider profile against the user table:
  - by provider id first;
  - else by email (DigiLocker: email or Aadhaar number), linking the provider id onto
    that record;
  - else by creating exactly one record, whose verification flags the provider fixes.

  The table is the class `Store.UserStore`. Its three methods are `GoogleVerify`,
  `DigiLockerCallback` and `ResolveDigiLocker`, the part of the callback that finds,
  links or creates. They are proved against the pure resolutions `Passport.GoogleResolve`
  and `OAuth.DigiLockerResolve`. The properties are proved about those resolutions:
  - the fast path writes nothing;
  - a link adds no record, and a creation adds exactly one;
  - no flag is ever turned off;
  - ids stay ordered and no provider id lands on two records;
  - an error leaves the table as it was;
  - a second sign-in takes the fast path.

  Around them sit:
  - the Google configuration guard;
  - the session cookie options (expiry days to milliseconds, `httpOnly`, `secure` in
    production);
  - the DigiLocker authorisation URL, whose redirect parameter is proved to
    round-trip through `decodeURIComponent`;
  - the name split, with its round trip;
  - logout;
  - session (de)serialisation.
- **Keyword responders.** Each is an ordered chain of case-insensitive `includes` tests
  where the first test that holds picks a canned answer:
  - the backend's `generateFallbackResponse`;
  - the Sarkar QnA page's `generateLocalQnAResponse`;
  - the widget's `generateLocalBotResponse`;
  - the widget's `generateBotResponse`.

  Every chain is written as the source writes it. The three if-chains are each proved
  equal to `Dispatch.Select` over an ordered rule table. That gives first-match-wins,
  the default exactly when no rule holds, and case insensitivity. `generateBotResponse`
  loops over its knowledge base instead. It is proved against `Widget.FirstKnowledge`,
  the first key, in insertion order, that contains the input or is contained in it.
- **Suggestion lists.**
  - The backend's `generateSuggestions` pushes the entries of each matching group and
    keeps four. It is proved equal to the matched groups' entries, in table order, cut
    to four, with the defaults when nothing matches.
  - The widget's `generateSuggestions` gives one entry for each of the first three
    schemes, then the "how to apply" entry.
  - The QnA page pushes each query onto a recent-query list capped at ten.
- **Chat sessions.** The QnA page and the widget are classes holding:
  - their message list;
  - their input box;
  - the typing flag;
  - for the QnA page, also the recent queries and the suggestions.

  `handleSendMessage` is a method that ignores blank input and otherwise appends the
  question and the local answer. Sends are modelled one at a time. Under that reading,
  the widget's message ids stay equal to their one-based positions.

Files:
- `wrappers.dfy`: `Option` and `Result`.
- `text.dfy`: the JavaScript string operations, over `seq<char>`.
- `uri.dfy`: `encodeURIComponent` and `decodeURIComponent`.
- `dispatch.dfy`: ordered rule tables.
- `chatbot_route.dfy`: `backend/src/routes/chatbot.js`.
- `users.dfy`: the user table and its invariants.
- `passport.dfy`: `backend/src/config/passport.js`.
- `oauth.dfy`: `backend/src/routes/oauth.js`.
- `store.dfy`: the table class.
- `qna.dfy`: `frontend/src/pages/SarkarQnA.jsx`.
- `widget.dfy`: `frontend/src/components/Chatbot.jsx`.

The store calls a resolver makes (first lookup, second lookup, write) can each throw. A
fault set `fails` says which ones do. A missing `emails[0]`, `photos[0]` or `name` throws
where the callback reads it. Clock readings, random passwords and the session id are
parameters.

## Model

| member | source | states |
|---|---|---|
| ChatbotRoute.ChatbotQuery | backend/src/routes/chatbot.js:6-30 | A missing or empty message is answered 400 with "Message is required" and no data. An unparsed body throws and is answered 500. Any other message gets 200 with the fixed fallback text, its four suggestions and the fallback-mode label. Success holds exactly on 200. |
| ChatbotRoute.AcceptedReplyIsFixed | backend/src/routes/chatbot.js:23-30 | Every accepted message gets the same reply, whatever it says. |
| ChatbotRoute.FallbackTopic | backend/src/routes/chatbot.js:132-156 | The default answer is only given when neither "scheme" nor "apply" occurs in the lower-cased message. |
| ChatbotRoute.FallbackIsFirstMatch | backend/src/routes/chatbot.js:133-155 | The answer chain picks the first rule of the ordered table whose keywords occur in the lower-cased message, and the default when none does. |
| ChatbotRoute.FallbackIgnoresCase | backend/src/routes/chatbot.js:133 | A message and its lower-cased form get the same answer. |
| ChatbotRoute.FallbackSchemeBeatsApply | backend/src/routes/chatbot.js:135-141 | A message naming both "scheme" and "apply" gets the scheme answer. |
| ChatbotRoute.FallbackNonEmpty | backend/src/routes/chatbot.js:132-156 | Every message gets a non-empty answer. |
| ChatbotRoute.AnswersNonEmpty | backend/src/routes/chatbot.js:136-155 | None of the six canned answers is empty. |
| ChatbotRoute.FallbackDefaultIff | backend/src/routes/chatbot.js:135-155 | The default answer is given exactly when no rule's keywords occur. |
| ChatbotRoute.ExpectedSuggestions | backend/src/routes/chatbot.js:159-188 | The specified list always has between one and four entries. |
| ChatbotRoute.GenerateSuggestions | backend/src/routes/chatbot.js:159-188 | The push-by-push method returns the entries of every matching group in the order scheme, document, status, office, tax, cut to four. It returns the four defaults when nothing matches. |
| ChatbotRoute.SuggestionsDefault | backend/src/routes/chatbot.js:183-185 | With no group's keyword in the message, the result is exactly the four defaults in source order. |
| ChatbotRoute.SuggestionsLeadWithFirstMatch | backend/src/routes/chatbot.js:162-187 | The first matching group's three entries lead the list. |
| ChatbotRoute.SuggestionsFirstTwo | backend/src/routes/chatbot.js:162-187 | When two groups match first, the list is the first group's three entries followed by the first entry of the second. |
| ChatbotRoute.SuggestionsCount | backend/src/routes/chatbot.js:183-187 | The list has four entries, or three when exactly one group matched. |
| Users.DeserializeUser | backend/src/config/passport.js:74-81 | A failing lookup gives an error. Otherwise the result is the stored record with that id, or nothing when no record has it. |
| Users.SessionRoundTrip | backend/src/config/passport.js:69-80 | Serialising a stored record and deserialising its id gives the record back. |
| Users.ReplaceKeepsTable | backend/src/config/passport.js:32-34 | Saving a record in place keeps the table well formed and keeps every record, under the conditions the resolvers meet: same id, no reused provider id, no flag turned off. |
| Users.AppendKeepsTable | backend/src/config/passport.js:39-54 | Creating a record with the next id keeps the table well formed and keeps every record, when its provider id is new. |
| Passport.GoogleFastPath | backend/src/config/passport.js:21-25 | A record already linked to the Google id is returned and the table is not written. |
| Passport.GoogleLinkPath | backend/src/config/passport.js:28-35 | Otherwise the first record with the profile's first email gains the Google id and the first photo as avatar. No other field changes, the flags keep their values, no other record changes and no record is added. |
| Passport.GoogleCreatePath | backend/src/config/passport.js:39-54 | Otherwise exactly one record is appended and every field is stated. It gets the next id, the profile's Google id, given and family names, first email and first photo, and the generated password. Its phone is "0000000000" and its role "citizen". It carries no DigiLocker id, Aadhaar number, birth date or gender. Email is verified; phone, Aadhaar and PAN are not. |
| Passport.GoogleErrorsWriteNothing | backend/src/config/passport.js:57-60 | A thrown error hands back no user and leaves the table unchanged. A profile without an email fails as malformed. So does a profile without a name when a record must be created. |
| Passport.GoogleResultIsLinked | backend/src/config/passport.js:18-56 | A user handed back carries the profile's Google id and is in the table. |
| Passport.GoogleKeepsTable | backend/src/config/passport.js:18-60 | Every resolution keeps ids ordered and Google and DigiLocker ids unique. It keeps each record at its place with its id, and never turns a flag off. |
| Passport.GoogleSecondSignIn | backend/src/config/passport.js:21-25 | After a successful sign-in, the same profile takes the fast path and gets the same record. |
| Store.UserStore.GoogleVerify | backend/src/config/passport.js:18-60 | The in-place method leaves the table and the result exactly as the resolution says. It keeps the table well formed and keeps every record. |
| OAuth.GoogleStartGuard | backend/src/routes/oauth.js:11-16 | Google sign-in starts, with scopes profile and email, exactly when both credentials are set and non-empty. Otherwise the browser is redirected to the login page with `oauth_not_configured`. |
| OAuth.SessionCookieOptions | backend/src/routes/oauth.js:29-38 | The options expire `JWT_COOKIE_EXPIRE` times 86,400,000 ms after now. They are always `httpOnly`, and `secure` exactly in production. The step-by-step build equals the options value both responses use. |
| OAuth.CallbackCookies | backend/src/routes/oauth.js:136-150 | Both callbacks set the same `token` cookie, holding the signed token of the user, with that expiry, `httpOnly`, and `secure` exactly in production. A signer that throws sends the Google callback to the login page with `oauth_failed`. |
| OAuth.AuthUrlRedirectParameter | backend/src/routes/oauth.js:54-59 | The encoded redirect URI in the authorisation URL decodes back to the configured URI and holds no `&` or `#`. |
| Uri.DecodeEncode | backend/src/routes/oauth.js:57 | `decodeURIComponent(encodeURIComponent(s)) == s` for every string of scalar values. |
| Uri.EncodeAlphabet | backend/src/routes/oauth.js:57 | The encoding is made only of unreserved characters and `%` escapes with two upper-case hex digits. |
| Uri.EncodeStaysOneParameter | backend/src/routes/oauth.js:57 | An encoded value holds no `&`, `=`, `?`, `#` or space. |
| Uri.Utf8Valid | backend/src/routes/oauth.js:57 | The UTF-8 bytes written for a scalar value are a well-formed, shortest-form sequence that decodes to that value. |
| Uri.ReadPercent | backend/src/routes/oauth.js:57 | Reading back the escapes written for some bytes gives those bytes, whatever follows. |
| OAuth.NameRoundTrip | backend/src/routes/oauth.js:114-115 | For a name with a space, first name + " " + last name is the name, and the first name holds no space. |
| OAuth.NameWithoutSpace | backend/src/routes/oauth.js:114-115 | A name without a space is all first name, and the last name is empty. |
| Text.JoinSplit | backend/src/routes/oauth.js:115 | Splitting on a character and joining with it gives the string back. |
| Text.SplitCount | backend/src/routes/oauth.js:114 | A string splits into more than one piece exactly when it holds the separator. |
| OAuth.LinkDigiLockerFlags | backend/src/routes/oauth.js:105-108 | Linking sets the DigiLocker id. The Aadhaar flag afterwards is up exactly when it was up or the profile carries an Aadhaar number. The other flags and fields are unchanged, and no flag goes down. |
| OAuth.DigiLockerFastPath | backend/src/routes/oauth.js:92-94 | A record already linked to the DigiLocker id is used and the table is not written. |
| OAuth.AbsentAadhaarMatchesNothing | backend/src/routes/oauth.js:96-101 | Without an Aadhaar number the email-or-Aadhaar lookup finds what the email lookup finds. |
| OAuth.DigiLockerLinkPath | backend/src/routes/oauth.js:96-109 | Otherwise the first record matching by email or Aadhaar is linked. It gains the DigiLocker id, and its Aadhaar flag goes up when it was down and the profile carries an Aadhaar number. Every other field stays and no flag goes down. No other record changes and no record is added. |
| OAuth.DigiLockerCreatePath | backend/src/routes/oauth.js:110-128 | Otherwise exactly one record is appended and every field is stated. It gets the next id, the DigiLocker id, the split name, and the profile's email, Aadhaar number, birth date and gender. Its phone is the mobile number when one is set, else "0000000000". It has no Google id or avatar, the generated password and role "citizen". Email and Aadhaar are verified; phone and PAN are not. |
| OAuth.DigiLockerErrorsWriteNothing | backend/src/routes/oauth.js:152-155 | An error from the resolver leaves the table unchanged. Any error, a throwing token signer included, sends the browser to the login page with `digilocker_failed` and sets no cookie. |
| OAuth.DigiLockerSignerFailureKeepsWrite | backend/src/routes/oauth.js:110-135 | The token is signed after the record is saved. So when the signer throws for a new profile, the created record stays in the table while the browser goes to the login page with `digilocker_failed`. |
| OAuth.DigiLockerKeepsTable | backend/src/routes/oauth.js:92-130 | Every resolution keeps the table well formed, keeps each record at its place with its id, and never turns a flag off. |
| OAuth.DigiLockerSecondSignIn | backend/src/routes/oauth.js:92-94 | After a successful sign-in, the same profile takes the fast path and gets the same record. |
| Store.UserStore.DigiLockerCallback | backend/src/routes/oauth.js:67-156 | A failed exchange changes nothing and redirects with `digilocker_failed`. Otherwise the table and the response follow the resolution, and the table stays well formed with every record kept. |
| Store.UserStore.ResolveDigiLocker | backend/src/routes/oauth.js:92-130 | The in-place find, link or create leaves the table and the result exactly as the resolution says. |
| OAuth.LogoutClearsToken | backend/src/routes/oauth.js:161-171 | Logout answers 200 with success and "User logged out successfully". It overwrites `token` with "none", `httpOnly`, expiring ten seconds later. |
| QnA.BranchIsFirstMatch | frontend/src/pages/SarkarQnA.jsx:35-123 | The answer chain picks the first rule of the ordered table whose test holds on the lower-cased input, and the default otherwise. |
| QnA.QnAIgnoresCase | frontend/src/pages/SarkarQnA.jsx:35 | An input and its lower-cased form get the same answer. |
| QnA.PmKisanWins | frontend/src/pages/SarkarQnA.jsx:42-50 | An input naming "pm" and "kisan" is answered with category agriculture and confidence 95, whatever else it says. |
| QnA.AyushmanAfterPmKisan | frontend/src/pages/SarkarQnA.jsx:42-59 | The health answer is given exactly when the PM-KISAN test fails and the health test holds. |
| QnA.ThreeSchemes | frontend/src/pages/SarkarQnA.jsx:44-120 | Every answer, the default included, names exactly three schemes. |
| QnA.ConfidenceValues | frontend/src/pages/SarkarQnA.jsx:49-122 | The confidence is one of 70, 88, 90, 92 and 95. It is 70 exactly on the default branch, which is filed under "general". |
| QnA.ReplyFixedFields | frontend/src/pages/SarkarQnA.jsx:125-136 | Every answer has type bot, id now + 1, language en, the two fixed sources and the "Enhanced Local AI" label. |
| QnA.ConfidenceShade | frontend/src/pages/SarkarQnA.jsx:286-290 | Green exactly from 80, yellow exactly from 60 to 79, red exactly below 60. |
| QnA.ShadeMonotone | frontend/src/pages/SarkarQnA.jsx:286-290 | A higher confidence never gets a lower band. |
| QnA.ReplyShade | frontend/src/pages/SarkarQnA.jsx:286-290 | Every local answer shows green except the default one, which shows yellow. |
| QnA.PushRecentShape | frontend/src/pages/SarkarQnA.jsx:232 | The new query comes first, followed by the earlier ones in order. The list holds at most ten entries and keeps every earlier query when there were fewer than ten. |
| QnA.PushRecentTwice | frontend/src/pages/SarkarQnA.jsx:232 | Two pushes give the two newest queries followed by the eight most recent earlier ones. |
| QnA.MoreAboutShape | frontend/src/pages/SarkarQnA.jsx:236-240 | One "Tell me more about" per scheme, for the first three schemes, in order. |
| QnA.QnASession.SendMessage | frontend/src/pages/SarkarQnA.jsx:206-257 | Blank input changes nothing. Otherwise the question and the answer are appended, the input is cleared and typing stops. The query is pushed onto the recent list, which stays at ten or fewer, and the suggestions become the three follow-ups of the answer. |
| Widget.GenerateSuggestions | frontend/src/components/Chatbot.jsx:126-141 | A missing or empty list gives the four defaults. Otherwise the result is "Tell me about X" for the first min(n, 3) schemes in order, then "How to apply for this scheme?", so one to four entries. |
| Widget.TopicIsFirstMatch | frontend/src/components/Chatbot.jsx:147-189 | The answer chain picks the first rule of the ordered table whose test holds on the lower-cased input, and the default otherwise. |
| Widget.LocalIgnoresCase | frontend/src/components/Chatbot.jsx:147 | An input and its lower-cased form get the same answer. |
| Widget.FourSuggestionsPerTopic | frontend/src/components/Chatbot.jsx:155-187 | Every branch offers exactly four suggestions. |
| Widget.LocalReplyFacts | frontend/src/components/Chatbot.jsx:153-199 | "pm" with "kisan" gives confidence 95. The default gives 70 and its four suggestions. Every reply offers four suggestions. |
| Widget.BotResponse | frontend/src/components/Chatbot.jsx:202-233 | The loop with its early exit gives the answer of the first knowledge-base key that matches, or the fallback text, with the suggestions of the input's context and id two past the message count. |
| Widget.KnowledgeFirstKey | frontend/src/components/Chatbot.jsx:208-213 | The content is a stored answer exactly when some key matches. It is then the answer of the first matching key in insertion order. |
| Widget.KnowledgeInsideFirstKey | frontend/src/components/Chatbot.jsx:209 | An input contained in the first key gets the first stored answer. |
| Widget.EmptyInputMatchesFirstKey | frontend/src/components/Chatbot.jsx:209 | The empty input gets the first stored answer. |
| Widget.ContextFacts | frontend/src/components/Chatbot.jsx:216-224 | Every context offers four suggestions. Scheme or eligibility wins over document and status, and document wins over status. The status group is chosen exactly when "status" occurs and none of the first three words does. The default group is chosen exactly when none of the four words occurs. |
| Widget.ContextIsFirstMatch | frontend/src/components/Chatbot.jsx:216-224 | The suggestion chain picks the group of the first rule of the ordered table that holds, and the default group when none does. |
| Widget.ChatSession.SendMessage | frontend/src/components/Chatbot.jsx:90-124 | Blank input changes nothing. Otherwise the user message, with id count + 1, and the local reply, with id count + 2, are appended, the input is cleared and typing stops. With sends taken one at a time, ids stay equal to one-based positions. |
| Text.BlankIffAllSpace | frontend/src/components/Chatbot.jsx:91 | `!s.trim()` holds exactly when every character is JavaScript white space. |
| Text.LowerIdempotent | frontend/src/pages/SarkarQnA.jsx:35 | Lower-casing gives a string with no upper-case letter and is idempotent. |
| Text.ContainsIffOccurs | backend/src/routes/chatbot.js:135 | `includes` holds exactly when the needle occurs at some position. |
| Text.Take | backend/src/routes/chatbot.js:187 | `slice(0, n)` is a prefix with n entries, or with all of them when there are fewer. |

## Left out

- The Gemini request, its timeout and the code after the early return in `chatbotQuery`. The early return makes them unreachable.
- The catch branches of the QnA page's and the widget's `handleSendMessage`. The local responders they wrap never throw.
- `Math.random` passwords, `Date.now` ids and timestamps, and the one-second delays. Passwords and clock readings are parameters; timestamps are dropped.
- The axios token and profile requests. Their outcome is the parameter `exchange`, which is `None` when either request throws.
- JWT signing: the token is `SignedToken(user id)`.
- Password hashing and the schema:
  - the flags a create does not set are taken to be false;
  - the email of a DigiLocker profile is taken to be present.
- `passport.authenticate` and the Google callback's failure redirect. Both are library behaviour.
- Mongo's `$or` with an undefined field: an Aadhaar number the profile does not carry is taken to match no record.
- `JWT_COOKIE_EXPIRE` is taken to be an integer. JavaScript's coercion of other strings, which gives `NaN` or fractional days, is not modelled.
- Full Unicode lower-casing: only ASCII letters are lower-cased.
- The answer texts are kept as branch tokens (`QnA.Branch`, `Widget.BotText`) and the text of a token is a separate function. Only the tokens are reasoned about.
- OAuth.AuthUrl: the whole shape of the URL is not stated as a lemma. Only its redirect parameter is (`OAuth.AuthUrlRedirectParameter`).
- Uri.Encode: defined over scalar values only. A lone surrogate, on which `encodeURIComponent` throws, cannot occur in a Dafny `string`.
- Browser state: `localStorage` (the saved recent queries are the constructor's argument), `scrollIntoView`, the language selector and voice input.
- QnA.QnASession.SendMessage: sends are modelled one at a time. On the QnA page, Enter calls the handler even while a reply is pending (frontend/src/pages/SarkarQnA.jsx:470); only the Send button is disabled. The question is appended before the reply is awaited and the answer after it (frontend/src/pages/SarkarQnA.jsx:216, 224). So two sends that overlap interleave as question 1, question 2, answer 1, answer 2, where the model appends each question directly followed by its answer.
- Widget.ChatSession.SendMessage: sends are modelled one at a time. In the widget, Enter calls the handler even while a reply is pending (frontend/src/components/Chatbot.jsx:465); only the Send button is disabled. Both ids of a send come from the list length it saw when it started, and the reply arrives a second later. So two sends that overlap give duplicate ids: Enter on "a" and then on "b" within the second gives ids 1, 2, 3, 3, 4. The one-based-position invariant holds only for sends that do not overlap.
- React's batching of state updates. Each `set…` call is an assignment in order, and the quick-action handlers' read of the stale input is not modelled.
- The widget's `generateBotResponse` and `generateSuggestions` are never called by the component. They are modelled on their own.
