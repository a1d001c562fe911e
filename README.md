# Portfolio site core, modelled in Dafny

This project models the behavioural core of a Next.js developer-portfolio site.

- **Chat widget.** A client-side message list seeded with three sample messages. A text box, a `sending` flag and an id counter starting at 1000. A send appends the user's trimmed message and a "…thinking" placeholder, then the reply (or a fixed error text) replaces the placeholder's content.
- **Chat endpoint.** `POST /api/chat` checks the server's API key, reads the JSON body, and truncates the message to 4000 code units. It rejects a blank message, builds the prompt (persona block, `\nUser: `, the text, `\nAssistant:`) and calls the model. It extracts the reply text by a fixed priority and maps every exception to a 500 answer.
- **Contact form.** `validate` checks three things: a trimmed name of at least 2 code units, an e-mail matching `/.+@.+\..+/`, and a trimmed message longer than 10. The `idle`/`sending`/`sent`/`error` state machine of `onSubmit` is driven by its timers. The copy-to-clipboard feedback `copiedId` is cleared by its own timer.
- **Typewriter effect.** The tick that types one code unit of the current word at a time. A delayed switch to deleting once the word is complete. Deletion back to empty, then the next word, cyclically.
- **Skills matrix.** The category data (levels 0 to 100), each card's skill count, and the matrix view: all skills flattened and tagged with their category, stably sorted by level with the highest first, and cut to the first 30.
- **Projects view.** The first featured project gets the large card, and the non-featured projects follow in order. A compact card lists at most five tech tags plus a `+k` badge for the rest.

Files:

- `js_text.dfy`: the JavaScript string operations the components rely on (`trim`, prefix `slice`/`substring`, `toString` of a non-negative integer).
- `chat_widget.dfy`
- `chat_route.dfy`
- `contact_form.dfy`
- `typewriter.dfy`
- `skills_matrix.dfy`
- `projects_view.dfy`

How the model is built:

- Components that keep React state become classes whose methods update the fields.
- Each `setTimeout` callback, and the continuation after an `await`, becomes an event method. It may run only while its timer or request is pending, which a counter or a returned token records.
- Pure computations become functions with lemmas about them.
- A `char` is a Unicode scalar value. For text within the Basic Multilingual Plane, each one is exactly one UTF-16 code unit, the unit JavaScript strings are indexed and measured in; the model covers such text (see "## Left out").

## Model

| member | source | states |
|---|---|---|
| JsText.Trim | src/components/contact-section.tsx:115 | `String.prototype.trim` is never longer than its input; what it removes is stated by `TrimShape` |
| JsText.TrimShape | src/components/chat-widget.tsx:46-47 | `trim` returns the contiguous piece between the leading and trailing whitespace: both removed parts are whitespace and the piece neither starts nor ends with whitespace |
| JsText.TrimEmptyIffBlank | src/app/api/chat/route.ts:122 | `!s.trim()` holds exactly when every code unit of `s` is whitespace or a line terminator |
| JsText.TrimUntouched | src/components/contact-section.tsx:115 | a string that neither starts nor ends with whitespace is its own trim |
| JsText.TrimIdempotent | src/components/chat-widget.tsx:46-47 | trimming the already trimmed text changes nothing |
| JsText.Prefix | src/app/api/chat/route.ts:120 | `substring(0, n)`, which is `slice(0, n)` for the n >= 0 every call site passes, has length min(n, len) (0 for n <= 0) and is a prefix of its input |
| JsText.DecimalString | src/components/chat-widget.tsx:43 | `toString()` of a counter value is a non-empty run of decimal digits without a leading zero |
| JsText.DecimalRoundTrip | src/components/chat-widget.tsx:43 | reading the rendered digits back gives the counter value |
| JsText.DecimalStringInjective | src/components/chat-widget.tsx:43 | distinct counter values give distinct id strings |
| ChatWidget.PlaceholderContent | src/components/chat-widget.tsx:63-68 | the placeholder's final text is never empty: a non-empty reply as is, `(empty response)` for an empty or missing reply, the fixed service error for every failure |
| ChatWidget.ReplaceContent | src/components/chat-widget.tsx:65 | the `map` keeps length, ids, roles and stamps, and replaces the content exactly of the messages carrying the id |
| ChatWidget.ReplaceContentOnlyTarget | src/components/chat-widget.tsx:65 | with unique ids, the update by id changes only that message's content |
| ChatWidget.ReplaceContentAbsentId | src/components/chat-widget.tsx:65-68 | an update by an id no message carries leaves the list unchanged |
| ChatWidget.AppendGeneratedKeepsIdsFresh | src/components/chat-widget.tsx:47-55 | appending the two messages with the next two counter ids keeps ids unique, and the counter can never repeat one |
| ChatWidget.SampleIdsFresh | src/components/chat-widget.tsx:17-21 | the sample ids "1", "2", "3" are unique and the counter, starting at 1000, never produces them |
| ChatWidget.AppendExchangeKeepsInvariant | src/components/chat-widget.tsx:46-55 | a send from a state with no pending request keeps ids unique and out of the counter's future range, and leaves the placeholder last, carrying the last id handed out |
| ChatWidget.ChatClient.constructor | src/components/chat-widget.tsx:26-41 | initial state: the sample messages, empty input, not sending, counter 1000; ids unique and fresh |
| ChatWidget.ChatClient.SendDisabled | src/components/chat-widget.tsx:153 | the send button is disabled exactly when a request is pending or the input is whitespace only |
| ChatWidget.ChatClient.SetInput | src/components/chat-widget.tsx:145 | the text box's change handler sets the input |
| ChatWidget.ChatClient.NextId | src/components/chat-widget.tsx:43 | `nextId` returns the counter's decimal string and advances the counter by one |
| ChatWidget.ChatClient.BeginSend | src/components/chat-widget.tsx:45-55 | a send happens exactly when the button is enabled (line 153); refused, nothing changes; accepted, the user message with the trimmed text and the placeholder are appended with the next two ids, the input is cleared, `sending` is set, and ids stay unique |
| ChatWidget.ChatClient.AppendExchange | src/components/chat-widget.tsx:47-55 | the accepted part of a send: the two messages appended with the next two ids (two `nextId` calls), input cleared, flag set |
| ChatWidget.ChatClient.CompleteSend | src/components/chat-widget.tsx:57-71 | runs only while a request is pending, with the id `BeginSend` handed out; the update by id changes exactly the content of the last message, the placeholder, to `PlaceholderContent(outcome)`, and `sending` is always cleared; ids stay unique |
| ChatWidget.ChatClient.HandleKey | src/components/chat-widget.tsx:74-79 | Enter without Shift has exactly the effect of `BeginSend` (`SendAttempt`): refused while the button is disabled with nothing changed, otherwise the two messages appended, input cleared, flag set, counter up by two; any other key, and Shift+Enter, changes nothing |
| ChatRoute.MessageString | src/app/api/chat/route.ts:120 | the `message` field coerced to a string: a string message as is, a missing or falsy one as "", any other value as its `toString()` rendering |
| ChatRoute.UserText | src/app/api/chat/route.ts:120 | the user text is the message's prefix of length min(4000, len) |
| ChatRoute.BuildPrompt | src/app/api/chat/route.ts:106-108 | `buildPrompt`: the persona block, `\nUser: `, the untrimmed user text, `\nAssistant:`; that the text can be read back is `PromptRoundTrip` |
| ChatRoute.PromptRoundTrip | src/app/api/chat/route.ts:106-108 | the user text can be read back out of the built prompt, so the prompt determines it |
| ChatRoute.ReplyText | src/app/api/chat/route.ts:135-138 | reply priority: a callable `text` (even returning ""), else a non-empty `text` string; when `text` is absent or the empty string, a non-empty `output_text`, else the serialisation; only the callable can throw, and then with its own message |
| ChatRoute.Post | src/app/api/chat/route.ts:110-148 | the status is 200, 400 or 500; 200 exactly with a reply envelope; no key gives 500 "Missing Gemini API key on server"; an unreadable body gives the 500 server error with its message |
| ChatRoute.MissingKeyIgnoresRequest | src/app/api/chat/route.ts:111-116 | without a key the answer does not depend on the body, the persona, the model or the serialiser |
| ChatRoute.BlankMessageRejected | src/app/api/chat/route.ts:120-127 | a blank truncated message gets 400 "Empty message" whatever the model would do |
| ChatRoute.TruncationBeforeBlankCheck | src/app/api/chat/route.ts:120-122 | a message whose first 4000 code units are whitespace is rejected whatever follows |
| ChatRoute.ModelCalledOnceWithPrompt | src/app/api/chat/route.ts:129-133 | a non-blank message is answered from the model's answer to `BuildPrompt(persona, userText)` alone, never with 400 |
| ChatRoute.PostOutcomes | src/app/api/chat/route.ts:110-148 | 400 if and only if the key is set, the body parsed and the message is blank; 200 if and only if in addition the model answered and a reply was extracted, which is then the reply |
| ChatRoute.ExceptionsAnswerServerError | src/app/api/chat/route.ts:141-148 | every error with detail is a 500 "Server error"; a failed model call and a throwing `text()` each answer with their own message as detail |
| ChatRoute.TextPassedThrough | src/app/api/chat/route.ts:135-140 | a non-empty `text` property is the reply unchanged; a response with no text at all is answered with its serialisation |
| ContactForm.SearchStateIsProgress | src/components/contact-section.tsx:115 | after reading a string the search automaton is in the state of the furthest partial match of `.+@.+\..+` ending there |
| ContactForm.EmailMatches | src/components/contact-section.tsx:115 | `/.+@.+\..+/.test(email)` as the search automaton ending in its accepting state; its meaning is `EmailMatchesIffPattern` |
| ContactForm.EmailMatchesIffPattern | src/components/contact-section.tsx:115 | the automaton accepts exactly the strings containing X@Y.Z (X, Y, Z non-empty) with no line terminator in the match |
| ContactForm.Validate | src/components/contact-section.tsx:114-116 | `validate`: trimmed name of at least 2, e-mail accepted by the automaton, trimmed message of more than 10; its meaning is `ValidateMeaning` |
| ContactForm.ValidateMeaning | src/components/contact-section.tsx:114-116 | `validate` holds exactly when the trimmed name has at least 2 code units, the pattern occurs in the e-mail and the trimmed message has more than 10 |
| ContactForm.BlankFieldsRejected | src/components/contact-section.tsx:115 | an all-whitespace name or message is always refused |
| ContactForm.ContactSection.constructor | src/components/contact-section.tsx:100-104 | initial state: idle, nothing copied, empty fields, no timer pending |
| ContactForm.ContactSection.Disabled | src/components/contact-section.tsx:105 | the submit button is disabled exactly while the form is `sending` |
| ContactForm.ContactSection.ShowsCopied | src/components/contact-section.tsx:178 | a channel row shows the check mark exactly when its value is the last copied one |
| ContactForm.ContactSection.SetName | src/components/contact-section.tsx:205 | the name field's change handler |
| ContactForm.ContactSection.SetEmail | src/components/contact-section.tsx:218 | the e-mail field's change handler |
| ContactForm.ContactSection.SetMessage | src/components/contact-section.tsx:232 | the message field's change handler |
| ContactForm.ContactSection.Copy | src/components/contact-section.tsx:107-111 | after a successful clipboard write exactly the copied value shows the check mark (line 178) and a reset is pending; a failed write changes nothing |
| ContactForm.ContactSection.CopyTimerFires | src/components/contact-section.tsx:110 | the reset clears `copiedId`, so no row shows the check mark |
| ContactForm.ContactSection.Submit | src/components/contact-section.tsx:118-125 | while disabled (line 105) nothing happens; an invalid form goes to `error` with its reset pending and the fields kept; a valid one goes to `sending` with the delay pending; every non-idle state keeps a pending timer |
| ContactForm.ContactSection.ErrorTimerFires | src/components/contact-section.tsx:122 | the reset after a refused submit returns to `idle` |
| ContactForm.ContactSection.SendDelayElapses | src/components/contact-section.tsx:126-128 | the end of the simulated delay moves to `sent` and schedules the final reset |
| ContactForm.ContactSection.SentTimerFires | src/components/contact-section.tsx:128-133 | the final reset returns to `idle` and clears the three fields |
| Typewriter.TypewriterEffect.constructor | src/components/typewriter-effect.tsx:16-20 | initial state: not mounted, empty text, word 0, index 0, typing, no switch pending |
| Typewriter.TypewriterEffect.Rendered | src/components/typewriter-effect.tsx:52-67 | before mount the first word (or nothing); afterwards a prefix of the current word |
| Typewriter.TypewriterEffect.Mount | src/components/typewriter-effect.tsx:22 | the mount effect sets `mounted` |
| Typewriter.TypewriterEffect.Tick | src/components/typewriter-effect.tsx:27-44 | deleting: one code unit less, and at zero typing resumes with word (w+1) mod n; typing: one more, and completing the word schedules the switch; the displayed text stays the current word cut at the index; with no words nothing changes |
| Typewriter.TypewriterEffect.SwitchFires | src/components/typewriter-effect.tsx:41 | the delayed switch starts deleting, from a non-empty prefix |
| SkillsMatrix.CategoriesLevelsInRange | src/components/skills-section.tsx:19 | every level in the category data lies in 0..100 |
| SkillsMatrix.SkillCount | src/components/skills-section.tsx:198 | a category card's count, `cat.skills.length` |
| SkillsMatrix.Tagged | src/components/skills-section.tsx:214 | a category's skills, in order, each tagged with the category's label |
| SkillsMatrix.Flatten | src/components/skills-section.tsx:214 | the flattened list is as long as the sum of the card counts (line 198) |
| SkillsMatrix.FlattenAt | src/components/skills-section.tsx:214 | skill j of category i sits at the category's offset plus j, tagged with its label |
| SkillsMatrix.OffsetNext | src/components/skills-section.tsx:214 | each category's stretch starts right after the previous one's, so the stretches do not overlap |
| SkillsMatrix.SortByLevel | src/components/skills-section.tsx:215 | the sort is a permutation of its input |
| SkillsMatrix.SortByLevelSpec | src/components/skills-section.tsx:215 | the sorted list is non-increasing by level and keeps the input order within each level (stable) |
| SkillsMatrix.MatrixRows | src/components/skills-section.tsx:214-215 | the rows of the matrix view: the flattened skills sorted by level, cut to the first 30; what they are is `MatrixRowsSpec` |
| SkillsMatrix.MatrixRowsSpec | src/components/skills-section.tsx:214-215 | the matrix shows min(30, total) rows, sorted, drawn from the flattened skills; they are the head of the sorted list and no skill left out has a higher level than a shown one |
| SkillsMatrix.MatrixOfCategories | src/components/skills-section.tsx:34-124 | the data has 35 skills, so the matrix shows exactly 30 |
| ProjectsView.FindFeatured | src/components/projects-section.tsx:222 | `find` gives nothing exactly when no project is featured, else the first featured one |
| ProjectsView.Rest | src/components/projects-section.tsx:223 | a project is in the rest exactly when it is a non-featured project of the list |
| ProjectsView.RestAppend | src/components/projects-section.tsx:223 | the filter keeps the original order: filtering a concatenation concatenates the filtered parts |
| ProjectsView.Rendered | src/components/projects-section.tsx:261-270 | the cards in page order: the featured card, if any, then the grid; never more cards than projects, and no card only when there are no projects |
| ProjectsView.RenderedMeaning | src/components/projects-section.tsx:261-270 | a project gets a card exactly when it is the first featured one or not featured; only the first card can be a featured one |
| ProjectsView.SecondFeaturedHidden | src/components/projects-section.tsx:222-223 | a featured project after an earlier featured one gets no card at all |
| ProjectsView.ShownTags | src/components/projects-section.tsx:195 | a compact card lists the first min(5, n) tags, in order |
| ProjectsView.OverflowBadge | src/components/projects-section.tsx:198-199 | the `+k` badge appears exactly with more than five tags, and listed tags plus k make up all of them |
| ProjectsView.ProjectsOnPage | src/components/projects-section.tsx:21-57 | with the project data: project 1 is the featured card, projects 2 to 4 form the grid in order, with badges +2, none and +1 |

## Left out

- The network request of the chat widget, the model call of the endpoint and `JSON.stringify` of the model's response are parameters: `FetchOutcome` for the request's settled result, and function-valued parameters `generate` and `stringify` for the endpoint.
- `req.json()` is modelled by its settled result (`RequestBody`). A truthy non-string `message` is carried together with its `toString()` rendering rather than computed.
- A `text` property of the model's response that is neither a function nor a string is not modelled. Neither is an `output_text` that is not a string. `JSON.stringify` throwing on the response is not modelled either.
- The persona text `PERSONAL_CONTEXT` is a parameter of `BuildPrompt` and `Post`. Only its position in the prompt matters to the handler.
- ChatRoute.ReplyText: a `text()` method that returns something other than a string is not modelled. The handler then answers 200 with that value as `reply`, which `JSON.stringify` may drop (giving `{}`); `Returned` carries only strings.
- `console.error` and the `runtime = "edge"` export have no effect on the answer and are not modelled.
- Timers are events with a pending count; their delays (1500, 150 and 50 ms, 1400, 2500, 3500, 1800 ms) and the relative order in which they fire are not modelled. React's batching of state updates is modelled as one atomic step per handler.
- ChatWidget.ChatClient.BeginSend: both `Date.now()` readings are parameters, and the two `setMessages` updates are one append.
- The clipboard API is reduced to whether the write succeeded. The browser's own constraint validation of the `type="email"` field, which can stop a submit before `onSubmit` runs, is not modelled.
- The widget's open/close toggle, scrolling and mount gating, the card tilt, the gauge arithmetic and all animation are presentation only. So are the remaining components (header, hero, about, footer, theme).
- The featured card lists all of its tags with no truncation, so it has no member of its own.
- Typewriter.TypewriterEffect.Tick: with no words the source throws a `TypeError` inside the timer callback; the model leaves the state unchanged there instead.
- The tick timer's re-arming and cancellation by the effect cleanup are folded into `Tick` being enabled whenever the component is mounted.
- Optional fields of the data records (`highlight`, `description`, `media`, links, icons, blurbs) do not influence the modelled behaviour and are dropped. An absent `experience` is "".
- Text with characters outside the Basic Multilingual Plane is not modelled. A Dafny `char` is a Unicode scalar value, so such a character (an emoji, say) is one `char`. In JavaScript it is two UTF-16 code units. The lengths checked on it would differ: the name's at least 2 and the message's more than 10 in `validate`, the 4000-unit cut of the chat endpoint, and the typewriter's steps. A lone surrogate, which `slice` can leave behind, cannot be represented at all. No Unicode normalisation is modelled either.
- ChatWidget.PlaceholderContent: a `reply` that is truthy but not a string is kept as is by `data.reply || '(empty response)'`. The model's `FetchOutcome` carries only string replies, so such a reply counts as missing and gets `(empty response)`.
- ChatWidget.ChatClient.Valid: `idCounter` is a JavaScript number. Past 2^53 the increment in `nextId` no longer changes it, so ids would repeat. From 10^21 on, `toString` switches to exponent notation. The model's counter is unbounded, so its ids stay unique forever; that many sends are out of reach in practice.
- ChatRoute.MessageString: a truthy non-string `message` whose `toString` is not callable or throws (the body `{"message":{"toString":1}}`) makes the handler answer 500 "Server error". The model always gets a rendering from `OtherTruthy`, so it does not capture that case.
