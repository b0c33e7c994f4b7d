# Time-travel agency chat logic in Dafny

This project models the two pieces of logic in the agency's single-page
website that are more than presentation:

- **The chat widget** (`src/components/ChatBot.tsx`). A rule-based responder
  lower-cases the visitor's text and tries nine keyword rules in a fixed
  order: greeting, Paris 1889, Cretaceous, Florence 1504, prices,
  recommendations, safety, booking and duration. The first rule whose
  keyword alternation occurs in the text gives the reply. A help text answers
  when no rule fires. The widget keeps a transcript that starts with one bot
  greeting. Sending non-blank text appends the user's message and then the
  responder's reply, and empties the text box. Enter without Shift sends.
- **The completion-service client** (`src/services/groqService.ts`). It
  assembles the message list for the hosted model: a history of exactly one
  entry gets a persona pair (instructions, then an acknowledgement) in
  front, and the new user turn always goes last. It turns the call's outcome
  into the reply text or a thrown error. Empty content is an error. Error
  messages naming a credential, an unsupported request or the network are
  replaced, in that priority order, by user-facing messages. Anything else is
  rethrown unchanged.

Modules: `Text` (containment, lower-casing, trimming), `ChatBot`,
`GroqService`, and `Wrappers` (Option and Result). The responder is an
ordered table of `Rule`s. `FirstMatch` finds the earliest rule that fires.
The widget is the class `ChatBot.ChatWidget`, whose `SendMessage` is
specified by the function `AfterSend`. The provider call is a function
parameter of `GetChatbotResponse`: the model reasons only about what that
function returns.

The ordering of the rules makes some keywords unreachable, and the lemmas
show this. "combien de temps" (duration rule) always contains "combien"
(price rule). "partir" (booking rule) contains "art" (Florence rule).
"préhistoire" (Cretaceous rule) contains "hi" (greeting rule), so text
containing it always gets the greeting.

The two pieces are independent, and the model keeps them apart:
- The widget does not call the completion service.
- There is no pending flag and no re-entrancy guard.
- No error path exists in the widget.
- The persona pair is injected by testing the history's length, not by a flag.

## Model

| member | source | states |
|---|---|---|
| `ChatBot.GenerateResponse` | src/components/ChatBot.tsx:42-92 | The reply is never empty. It is the help text exactly when no rule fires on the lower-cased input. Otherwise it is the reply of a rule that fires. |
| `ChatBot.FirstMatch` | src/components/ChatBot.tsx:45-88 | Returns the index of a firing rule, or the end of the table. Every rule before it does not fire. |
| `ChatBot.EarliestRuleWins` | src/components/ChatBot.tsx:43-88 | If rule i fires and no earlier rule does, the reply is rule i's, whatever later rules would also fire. |
| `ChatBot.ResponseIgnoresCase` | src/components/ChatBot.tsx:43 | The reply to a text equals the reply to its lower-cased form. |
| `ChatBot.GreetingBeatsParis` | src/components/ChatBot.tsx:46-52 | Text containing "bonjour" and "paris" gets the greeting, not the Paris reply. |
| `ChatBot.CombienNeverGetsDuration` | src/components/ChatBot.tsx:66-86 | Text containing "combien" never gets the duration reply or the help text. |
| `ChatBot.CombienDeTempsGetsPrice` | src/components/ChatBot.tsx:66-86 | "combien de temps" with no greeting or destination keyword gets the price reply. |
| `ChatBot.PartirGetsFlorence` | src/components/ChatBot.tsx:61-81 | "partir" with no earlier keyword gets the Florence reply and never the booking reply, because it contains "art". |
| `ChatBot.PartirNeverGetsBooking` | src/components/ChatBot.tsx:61-81 | Text containing "partir" never gets the booking reply or the help text, whatever else it holds. |
| `ChatBot.PrehistoireGetsGreeting` | src/components/ChatBot.tsx:46-56 | Text containing "préhistoire" always gets the greeting, because it contains "hi". |
| `ChatBot.InitialState` | src/components/ChatBot.tsx:96-104 | The transcript starts as one bot greeting, the text box is empty, and the transcript alternates (an invariant of sequential sends only). |
| `ChatBot.ChatWidget.constructor` | src/components/ChatBot.tsx:96-104 | The mounted widget is in the initial state and satisfies its invariant. |
| `ChatBot.AfterSend` | src/components/ChatBot.tsx:115-139 | Blank input changes nothing. Otherwise the transcript grows by exactly two and the old messages stay its prefix. The first new entry is a user message with the untrimmed input. The second is a bot message with the reply to that same input. The text box becomes empty. |
| `ChatBot.SendKeepsAlternation` | src/components/ChatBot.tsx:115-139 | With the two appends in sequence, a send keeps the transcript opening with the greeting, ending with a bot message, and alternating senders. |
| `ChatBot.ChatWidget.SendMessage` | src/components/ChatBot.tsx:115-139 | The new widget state is `AfterSend` of the old one, and the invariant is kept. |
| `ChatBot.ChatWidget.ChangeInput` | src/components/ChatBot.tsx:219 | Typing replaces the text box and leaves the transcript alone. |
| `ChatBot.AfterKeyPress` | src/components/ChatBot.tsx:141-146 | Enter without Shift sends. Shift+Enter and every other key change nothing. |
| `ChatBot.ChatWidget.KeyPress` | src/components/ChatBot.tsx:141-146 | The new widget state is `AfterKeyPress` of the old one, and the invariant is kept. |
| `Text.ContainsHasOffset` | src/services/groqService.ts:127 | If `Contains(s, sub)` holds, `sub` occurs in `s` at some offset. With `OffsetGivesContains` this ties `Contains`, the model of `includes` and of the keyword regexes (`ChatBot.Fires`), to its offset definition. |
| `Text.OffsetGivesContains` | src/components/ChatBot.tsx:46 | If `sub` occurs in `s` at some offset, `Contains(s, sub)` holds: the other direction of the offset definition. |
| `Text.ToLower` | src/components/ChatBot.tsx:43 | Lower-casing keeps the length and maps each character through `LowerChar`. |
| `Text.Trim` | src/components/ChatBot.tsx:116 | The trimmed text is empty exactly when every character is JavaScript whitespace. |
| `GroqService.CreateConversationMessage` | src/services/groqService.ts:150-155 | The record has exactly the given role and content. |
| `GroqService.BuildMessages` | src/services/groqService.ts:72-104 | A one-entry history gives [persona, acknowledgement, that entry, user turn]. Any other history stays a prefix and gains one entry. An empty history gives the single user turn. The last entry is always the user turn. |
| `GroqService.MapError` | src/services/groqService.ts:122-147 | The credential test comes before the unsupported test, which comes before the network test. A matching `Error` becomes the corresponding user-facing error. Unmatched `Error`s and non-`Error` values come back unchanged. |
| `GroqService.Settle` | src/services/groqService.ts:114-147 | The call succeeds exactly when the content is present and non-empty, and then returns that content. Empty content becomes the "no response" error, passed through the error mapping. A thrown value goes through the error mapping. |
| `GroqService.GetChatbotResponse` | src/services/groqService.ts:72-148 | A returned reply is non-empty and is what the provider gave for the assembled list. A failure means the provider threw or gave no usable content. |
| `GroqService.EmptyCompletionRethrown` | src/services/groqService.ts:115-146 | Missing or empty content always ends as an `Error` with message "Pas de réponse reçue de Groq". |
| `GroqService.UpperCaseNetworkRethrown` | src/services/groqService.ts:139-146 | The network test is case-sensitive: "NETWORK" is rethrown unchanged. |
| `GroqService.CredentialTestComesFirst` | src/services/groqService.ts:127-143 | A message naming "401", "unsupported" and the network maps to the credential message. |

## Left out

- The completion SDK client and its `create` call are not modelled. The call is the `provider` parameter, and its outcome is given as content or a thrown value.
- The model name, temperature and token limit are not modelled. They are constant request settings, and one is a float.
- The API-key read from the environment, `console.warn` and `console.error` are not modelled. They are side effects only.
- The 500 ms `setTimeout` before the bot reply is not modelled. `SendMessage` performs the two appends in sequence. It therefore does not capture a second send landing between them, which the running widget allows. `Alternates`, the widget's `Valid()`, holds only for sends that finish at once; it is false of the running widget. Sending "a" and then "b" within 500 ms gives greeting, user "a", user "b", bot, bot, and between the two appends the transcript ends with a user message. What survives interleaving is what `AfterSend` states: the greeting stays first and no entry is removed or reordered.
- Message identifiers from `Date.now()` and timestamps from `new Date()` are dropped from `Message`. They depend on the clock.
- Scrolling, the open/closed panel flag, `preventDefault`, time formatting and all rendering are not modelled. They are UI only.
- Text.ToLower: lower-cases only Basic Latin and Latin-1 Supplement capitals. `toLowerCase` covers all of Unicode, including mappings that change a string's length.
- Text.Contains compares Unicode code points, whereas JavaScript's `includes` and regular expressions compare UTF-16 code units. For the keywords and markers here, all in the Basic Multilingual Plane, the two agree. Neither the source nor the model normalises Unicode.
- The unused personality text of the chat knowledge base is not modelled.
- The booking form, gallery, header, hero, about section, footer and app shell are not modelled. They hold presentation only.
