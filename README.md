# Lazarus portfolio: a verified model of its page logic

The Lazarus portfolio is a single-page React site with a small Express server. Most of it is
markup. What carries behaviour is a handful of string and list rules and short state machines.
This project models them in Dafny and proves what they promise:

- **Reply tables.** The terminal's `getTerminalResponse` and the assistant's `getAIResponse` are
  ordered, first-match-wins keyword tables over the lowered, trimmed input.
- **Navigation.** Three dispatchers send the page to a section: the terminal's, the assistant's
  and the home page's exact-name one.
- **Project gallery.** It can be filtered by exact category or searched case-insensitively. The
  search box forwards only values of length 0 or more than 2.
- **Skill graph.** It has a fixed linear layout, a find-first connection rule and hover/pulse
  highlighting.
- **Two transcripts.** The hero terminal types out its own login command, then echoes commands
  with their replies. The assistant panel types its reply out one character per tick, then asks
  for a section.
- **Project card strings.** Badge label, badge palette, the `data-categories` join, the anchor
  and the link text.
- **Contact form.** The field update, the `mailto:` URI of section 2 of RFC 6068 and the
  post-submit reset.
- **Server check.** The `POST /api/contact` four-field check and its status codes.
- **Date format.** `formatCyberpunkDate`, which writes a date as `YYYY.MM.DD`.

The files:

- `ascii.dfy` and `lists.dfy` give the JavaScript built-ins the code relies on, each with its
  characterisation:
  - `toLowerCase`, `trim` and `includes`, over ASCII;
  - `filter`, `join` and its inverse `split`.
- `types.dfy` and `data.dfy` hold the records and the constant catalog.
- Each remaining file is one component.
- Components whose state changes step by step are classes: `Terminal`, `Greeter`,
  `ProjectFilter`, `ContactForm`, `SkillGraph`, and the page's `Home`. Each timer callback is a
  method the environment calls (`AutoTypeTick`, `StartReply`, `TypingTick`, `PulseEnd`, ...).

Two facts about the command and keyword handling:

- `handleTerminalCommand` lowers but does not trim its input, unlike `getTerminalResponse`, which
  trims and lowers it.
- `getAIResponse` checks twelve keywords in five groups: project/work, skill/technology,
  contact/hire, lazarus/you/who, do/help/can.

## Model

| member | source | states |
|---|---|---|
| Ascii.ToLower | client/src/lib/data.ts:209 | lowering keeps the length and maps each character on its own (ASCII letters only) |
| Ascii.TrimStartDrops | client/src/lib/data.ts:209 | the start trim removes a leading run of white space and nothing else; what is left does not start with white space |
| Ascii.TrimEndDrops | client/src/lib/data.ts:209 | the end trim removes a trailing run of white space and nothing else; what is left does not end with white space |
| Ascii.TrimUnique | client/src/lib/data.ts:209 | `trim` is characterised by its result: for white space + r + white space, with r empty or bounded by non-space, the trim is r |
| Ascii.TrimSplits | client/src/lib/data.ts:209 | every string is white space + its trim + white space |
| Ascii.TrimIdempotent | client/src/components/terminal/Terminal.tsx:65 | trimming twice is trimming once |
| Ascii.BlankIffAllSpace | client/src/pages/home.tsx:64 | `!s.trim()` holds exactly for strings of white space only |
| Ascii.TrimIgnoresPadding | client/src/lib/data.ts:209 | white space added around a string does not change its trim |
| Ascii.NormalizeIdempotent | client/src/lib/data.ts:209 | lowering and trimming an already normalised string changes nothing |
| Ascii.NormalizeIgnoresCaseAndPadding | client/src/lib/data.ts:230 | the normal form ignores case and surrounding white space |
| Ascii.NormalizeOfTrim | client/src/components/terminal/Terminal.tsx:65 | trimming before normalising changes nothing |
| Ascii.ContainsIffOccurs | client/src/lib/data.ts:211 | `includes` holds iff the text occurs at some index |
| Lists.Filter | client/src/pages/home.tsx:57 | the result is an order-preserving subsequence holding exactly the accepted elements |
| Lists.FilterAppend | client/src/pages/home.tsx:57 | filtering commutes with concatenation |
| Lists.FilterKeepsAll | client/src/pages/home.tsx:57 | a filter that accepts every element returns the list unchanged |
| Lists.SplitJoin | client/src/components/projects/ProjectCard.tsx:11 | splitting a non-empty join gives the pieces back when no piece holds the separator |
| Data.CatalogWellFormed | client/src/lib/data.ts:4-24 | skill names are distinct; every connection joins two different skills of the catalog |
| Data.TerminalFirstRuleWins | client/src/lib/data.ts:209-216 | "access" with "portfolio" wins over "help"; otherwise "help" wins over the section names |
| Data.TerminalEchoIffUnrecognised | client/src/lib/data.ts:208-225 | the `Command not recognized: "<command>"` echo is the reply exactly when no rule applies |
| Data.TerminalReplyDependsOnNormalForm | client/src/lib/data.ts:209-221 | a recognised command and any command with the same lowered, trimmed form get the same reply |
| Data.TerminalNormalFormReply | client/src/lib/data.ts:209-225 | replying to the normal form instead of the command changes the reply iff the command is unrecognised and not already normal |
| Data.FirstGroup | client/src/lib/data.ts:232-248 | the index of the first keyword group mentioned: that group is mentioned, no earlier one is |
| Data.AIResponseIsTableLookup | client/src/lib/data.ts:229-250 | the if/else chain is the lookup of the first mentioned group's reply in the ordered table, else the greeting |
| Data.AIEarlierGroupWins | client/src/lib/data.ts:232-246 | a message mentioning group k never gets the reply of a later group or the greeting |
| Data.AIGreetingIffNoKeyword | client/src/lib/data.ts:247-248 | the greeting is the reply iff the normalised message mentions none of the twelve keywords |
| Home.TerminalTarget | client/src/pages/home.tsx:24-36 | no section iff no section name occurs in the lowered command; otherwise a name that occurs, with no earlier-tried name occurring |
| Home.AiTarget | client/src/pages/home.tsx:39-49 | a section is chosen iff the argument equals its name exactly |
| Home.ProjectsForFilter | client/src/pages/home.tsx:52-60 | "all" gives the catalog; any other filter keeps, in order, exactly the projects listing it as a category |
| Home.ProjectsForSearch | client/src/pages/home.tsx:63-78 | a blank term gives the catalog; otherwise exactly the projects whose title, description or a category contains the lowered term, in order |
| Home.SearchIgnoresCase | client/src/pages/home.tsx:69-75 | searching a lowered term gives the same projects as the term itself |
| Home.AutomationFilterResult | client/src/pages/home.tsx:55-58 | the "automation" filter keeps RezGuruAI alone |
| Home.AiFilterResult | client/src/pages/home.tsx:55-58 | the "ai" filter keeps every project but OrionToken |
| Home.Home.constructor | client/src/pages/home.tsx:21 | the gallery starts with the whole catalog |
| Home.Home.HandleProjectFilter | client/src/pages/home.tsx:52-60 | the shown list becomes the filter's result, computed from the catalog and not from the list shown before |
| Home.Home.HandleProjectSearch | client/src/pages/home.tsx:63-78 | the shown list becomes the search's result, computed from the catalog |
| Home.Home.NotesAfterFilter | client/src/pages/home.tsx:178-186 | the count note and the no-match block never show together; after "all" neither shows, after "automation" or "ai" the count note shows |
| SkillGraph.NodePositions | client/src/components/skills/SkillGraph.tsx:10-26 | one node per skill, in catalog order |
| SkillGraph.NodeLayout | client/src/components/skills/SkillGraph.tsx:13-22 | a node keeps its skill's name, colour and position, has radius size·20, and its screen point gives back the first two coordinates |
| SkillGraph.LayoutIgnoresDepth | client/src/components/skills/SkillGraph.tsx:13-15 | the third coordinate does not affect the screen point or the radius |
| SkillGraph.FindIndex | client/src/components/skills/SkillGraph.tsx:33-34 | the first node with the name, or the end when there is none |
| SkillGraph.FindNodeIffSkill | client/src/components/skills/SkillGraph.tsx:33-34 | a node is found iff the catalog has a skill of that name, and it has that name |
| SkillGraph.ConnectionPath | client/src/components/skills/SkillGraph.tsx:33-48 | no path iff an end has no node; otherwise a line between the two found centres, magenta iff highlighted and teal otherwise, width 3 when highlighted and 1 otherwise |
| SkillGraph.ConnectionPaths | client/src/components/skills/SkillGraph.tsx:31-50 | one entry per connection, in order; a skipped connection does not affect the others |
| SkillGraph.CatalogConnectionsAllDrawn | client/src/components/skills/SkillGraph.tsx:33-36 | every catalog connection is drawn, whatever the active skill |
| SkillGraph.HoverPythonHighlightsAws | client/src/components/skills/SkillGraph.tsx:39-44 | with Python active, the Python–AWS line runs from (400, 250) to (250, 150), magenta and 3 wide |
| SkillGraph.StyleFor | client/src/components/skills/SkillGraph.tsx:99-102 | the active node is opaque 0.9 with a white outline of width 2 and pulses; any other node is 0.6 with its own colour and no outline |
| SkillGraph.AtMostOneActiveNode | client/src/components/skills/SkillGraph.tsx:99-102 | no two catalog nodes are styled active at once |
| SkillGraph.LabelY | client/src/components/skills/SkillGraph.tsx:108 | a label sits below its node's centre |
| SkillGraph.SkillGraph.constructor | client/src/components/skills/SkillGraph.tsx:6 | no skill is active at first |
| SkillGraph.SkillGraph.MouseEnter | client/src/components/skills/SkillGraph.tsx:89 | hovering a node makes its skill active |
| SkillGraph.SkillGraph.MouseLeave | client/src/components/skills/SkillGraph.tsx:90 | leaving a node clears the active skill |
| SkillGraph.SkillGraph.PulseStart | client/src/components/skills/SkillGraph.tsx:54-56 | the pulse activates the skill at the given catalog index |
| SkillGraph.SkillGraph.PulseEnd | client/src/components/skills/SkillGraph.tsx:59-61 | the pulse's timeout clears the active skill |
| Terminal.Exchange | client/src/components/terminal/Terminal.tsx:69-80 | an entered command adds two lines: "$ " then the command, as a command line, and the table's reply as a response line |
| Terminal.Terminal.constructor | client/src/components/terminal/Terminal.tsx:9-19 | the output is the three fixed banner lines, the input is empty and auto-typing is on |
| Terminal.Terminal.AutoTypeTick | client/src/components/terminal/Terminal.tsx:25-38 | each tick adds the next character of the login command (each state updater taken to run at the tick that issues it), so the typed text is always a prefix of it; after the last one typing stops and the completion is scheduled |
| Terminal.Terminal.CompleteAuthentication | client/src/components/terminal/Terminal.tsx:40-47 | the completion appends exactly the four fixed lines |
| Terminal.Terminal.Input | client/src/components/terminal/Terminal.tsx:134 | the input takes the new value; the output, typing flag, typed prefix, index and pending completion are unchanged |
| Terminal.Terminal.KeyDown | client/src/components/terminal/Terminal.tsx:63-91 | Enter with a non-blank input appends the exchange for the trimmed command, reports that trimmed command and clears the input; any other key or a blank input changes nothing |
| Terminal.EnteredCommandIgnoresPadding | client/src/components/terminal/Terminal.tsx:65-75 | padding around what is typed changes neither the command reported nor whether it is recognised; a recognised command gets the reply it would get untrimmed |
| AiGreeter.NavigationRequest | client/src/components/terminal/AiGreeter.tsx:57-65 | a request is made iff the lowered query contains "project", "skill", "contact" or "resume" |
| AiGreeter.NavigationReachesSection | client/src/components/terminal/AiGreeter.tsx:57-65 | every request names a section the page accepts, chosen in the order project, skill, contact, resume |
| AiGreeter.TicksAsWrittenRepeatQuery | client/src/components/terminal/AiGreeter.tsx:43-51 | after k typing ticks the transcript holds the query k times, followed by the first k characters of the reply |
| AiGreeter.TwoTicksDuplicateQuery | client/src/components/terminal/AiGreeter.tsx:46-50 | two ticks already list the query twice; the intended update lists it once |
| AiGreeter.TicksIntendedReplaceReply | client/src/components/terminal/AiGreeter.tsx:46-50 | with the intended update, after k ticks the transcript is the submitted one plus a single partial reply |
| AiGreeter.Greeter.constructor | client/src/components/terminal/AiGreeter.tsx:10-12 | the transcript starts as the default messages, with an empty input and no typing |
| AiGreeter.Greeter.Input | client/src/components/terminal/AiGreeter.tsx:110 | the input takes the new value; the transcript, the phase, the query and the reply being typed (text and index) are unchanged |
| AiGreeter.Greeter.Submit | client/src/components/terminal/AiGreeter.tsx:22-33 | a blank input or a reply in progress changes nothing (transcript, input, phase, query, reply text and index all kept); otherwise exactly one user message with the untrimmed input is appended, typing starts and the input is cleared |
| AiGreeter.Greeter.KeyDown | client/src/components/terminal/AiGreeter.tsx:71-75 | Enter submits; any other key, or a rejected Enter, changes nothing (transcript, input, phase, query, reply text and index all kept) |
| AiGreeter.Greeter.StartReply | client/src/components/terminal/AiGreeter.tsx:36-41 | the reply is the assistant's reply to the stored query, and typing starts from nothing |
| AiGreeter.Greeter.TypingTick | client/src/components/terminal/AiGreeter.tsx:43-66 | while characters remain, the next one is added and the partial reply in the transcript is replaced (the corrected update of the finding below); typing stops only after the whole reply is typed, and then the navigation request for the query is issued |
| AiGreeter.Greeter.TypeNextCharacter | client/src/components/terminal/AiGreeter.tsx:44-51 | the next reply character is appended to the typed text, the last transcript entry is replaced by the typed prefix (the corrected update of the finding below, not the update as written) and the index advances; the typing invariant is kept |
| AiGreeter.Greeter.FinishTyping | client/src/components/terminal/AiGreeter.tsx:52-65 | once the index reaches the reply's length, the typed text is the whole reply and stays so, the index is kept, typing stops, the transcript is unchanged and the navigation request for the query is issued |
| AiGreeter.Greeter.FinishedTranscript | client/src/components/terminal/AiGreeter.tsx:43-54 | under the corrected update of the finding below (not the update as written), when typing ends the transcript is the one before the submit, then the query once, then the whole reply |
| ProjectFilter.ForwardsSearchIff | client/src/components/projects/ProjectFilter.tsx:21 | lengths 1 and 2 are the only ones not forwarded |
| ProjectFilter.OfferedFiltersShowProjects | client/src/components/projects/ProjectFilter.tsx:49-69 | each of the three buttons leaves at least one catalog project shown |
| ProjectFilter.ClearedSearchShowsAll | client/src/components/projects/ProjectFilter.tsx:21-22 | an emptied box is forwarded and restores the whole catalog |
| ProjectFilter.ProjectFilter.constructor | client/src/components/projects/ProjectFilter.tsx:9-10 | the filter starts on "all" with an empty search |
| ProjectFilter.ProjectFilter.FilterClick | client/src/components/projects/ProjectFilter.tsx:12-15 | the clicked value becomes the active filter (the only highlighted button) and is forwarded unchanged |
| ProjectFilter.ProjectFilter.SearchChange | client/src/components/projects/ProjectFilter.tsx:17-24 | the box always takes the value; the value is forwarded iff its length is 0 or more than 2 |
| ProjectCard.BadgeLabel | client/src/components/projects/ProjectCard.tsx:73 | the label has the category's length, its first character uppercased and the rest unchanged; empty gives empty |
| ProjectCard.BadgeLabelKeepsWord | client/src/components/projects/ProjectCard.tsx:73 | up to case the label is the category, and relabelling a label changes nothing |
| ProjectCard.CategoryPalette | client/src/components/projects/ProjectCard.tsx:61-71 | magenta iff ai/productivity, purple iff blockchain/fintech/web3, green iff web/consultancy, amber iff real-estate/career, teal otherwise |
| ProjectCard.DataCategoriesRoundTrip | client/src/components/projects/ProjectCard.tsx:11 | the attribute splits back into the categories when none holds a comma |
| ProjectCard.CatalogDataCategoriesRoundTrip | client/src/components/projects/ProjectCard.tsx:11 | every catalog card's attribute splits back into its categories |
| ProjectCard.CatalogCardsShowLinks | client/src/components/projects/ProjectCard.tsx:31-41 | every catalog card shows both links, since a demo URL of "#" is non-empty |
| ProjectCard.AnchorHref | client/src/components/projects/ProjectCard.tsx:81 | the anchor is "#project-" followed by the id, and nothing else |
| ProjectCard.LinkText | client/src/components/projects/ProjectCard.tsx:84 | the link text is "access_project --id=" followed by the id, and nothing else |
| ProjectCard.CardStringsInjective | client/src/components/projects/ProjectCard.tsx:81-84 | two ids give the same anchor, or the same link text, iff they are equal |
| ContactForm.WithField | client/src/components/contact/ContactForm.tsx:21-27 | the named field takes the value and the other three are kept |
| ContactForm.SubjectLine | client/src/components/contact/ContactForm.tsx:35 | the subject is the "[Portfolio Contact] " tag followed by the entered subject, and nothing else |
| ContactForm.BodyLines | client/src/components/contact/ContactForm.tsx:36-38 | when the name and email hold no line break, the body's lines are the name line, the email line, a blank line, then the message's own lines (however many), a blank line and the signature |
| ContactForm.MailtoHeaderFields | client/src/components/contact/ContactForm.tsx:41 | the URI is the recipient and "?", then the `subject` and `body` header fields, which split apart again when neither encoded value holds "&" |
| ContactForm.ContactForm.constructor | client/src/components/contact/ContactForm.tsx:11-19 | the form starts empty, not submitting and without the success notice |
| ContactForm.ContactForm.Change | client/src/components/contact/ContactForm.tsx:21-27 | only the named field changes |
| ContactForm.ContactForm.Submit | client/src/components/contact/ContactForm.tsx:29-63 | on success the URI from the encoded subject and body is opened, the notice shows and all four fields are emptied; on failure the form is kept; either way submitting is off at the end |
| ContactForm.ContactForm.ClearSuccess | client/src/components/contact/ContactForm.tsx:55-57 | the timeout hides the notice and nothing else |
| Routes.ContactReply | server/routes.ts:7-22 | 500 iff there is no body to destructure (null or undefined); 400 "All fields are required" iff some required field is falsy; 200 "Message sent successfully" iff all four are truthy |
| Routes.NonObjectBodyIsIncomplete | server/routes.ts:9-13 | a number, string, boolean or array body reads all four fields as `undefined` and gets the 400 reply |
| Routes.FailsOnlyWithoutBody | server/routes.ts:8-21 | the 500 reply comes iff the body is null or undefined |
| Routes.ReplyDependsOnlyOnPresence | server/routes.ts:12-14 | the reply depends only on which fields are truthy, and not on which field is missing |
| Utils.ParseNatToString | client/src/lib/utils.ts:45-46 | the decimal digits read back as the number |
| Utils.NatToStringLength | client/src/lib/utils.ts:44 | a number below 10 has one digit, below 100 two, and a four-digit year four |
| Utils.Pad2Value | client/src/lib/utils.ts:45-46 | padding keeps the value, a value below 100 fills exactly two places, and values from 10 up are unchanged |
| Utils.FormatFields | client/src/lib/utils.ts:43-49 | for a four-digit year the result has 10 characters, dots at 4 and 7, and fields that read back as year, month number (1 to 12) and day |
| Utils.FormatEndsWithPaddedFields | client/src/lib/utils.ts:44-48 | for any year, the result ends with ".MM.DD", whose fields read back as the month number and the day |

## Left out

- **Rendering, scrolling and the DOM** are not modelled:
  - `scrollIntoView` calls are modelled as the section a dispatcher returns;
  - auto-scroll effects, CSS classes other than the ones above, and `disabled` attributes are not modelled.
  - So `Terminal.Terminal.Input` and `AiGreeter.Greeter.Input` also accept input while the box is disabled.
- **Timers** (`setInterval`, `setTimeout`) are steps the environment calls; no delays or wall-clock time are modelled. Dropping a timer when the component unmounts is not modelled.
- AiGreeter.Greeter.TypingTick, AiGreeter.Greeter.TypeNextCharacter, AiGreeter.Greeter.FinishedTranscript: use the corrected transcript update from the finding below. The update as written is `AiGreeter.TickAsWritten`, and its outcome is stated by `AiGreeter.TicksAsWrittenRepeatQuery`.
- Terminal.Terminal.AutoTypeTick: each `setTypedText` updater is taken to run at the tick that issues it. React may instead run a queued updater at the next render, after `index++`, so that it reads the incremented index. The model does not capture that reading, under which the displayed prefix could skip a letter.
- **SkillGraph.SkillGraph.PulseStart**: `Math.floor(Math.random() * skills.length)` becomes an index parameter. The 5-second interval and the 2-second reset are the two step methods.
- **SVG output.** The path's `d` string, its number formatting and the fixed opacity and pulse class of the lines are not modelled. A path is given by its end points and stroke.
- **Numbers** are exact reals. IEEE rounding of sizes such as 1.2·20 is not modelled.
- **SkillGraph.LabelY**: states only that the label lies below the centre. The exact offset of size + 15 is its definition.
- **Strings are ASCII-only.**
  - `toLowerCase`, `toUpperCase` and `trim` are modelled on ASCII.
  - Unicode case mapping and Unicode white space beyond ASCII are not.
  - A non-ASCII character is never white space and keeps its case.
- **ContactForm.ContactForm.Submit**:
  - `encodeURIComponent` is an opaque function parameter;
  - whether the browser throws is a boolean parameter;
  - `window.location.href` is the returned URI;
  - the `console.error` call is not modelled.
- **ContactForm.MailtoHeaderFields**: assumes the encoder escaped "&", as `encodeURIComponent` does; the encoder itself is not modelled.
- **Express plumbing** is not modelled: `createServer`, `res.status().json()`, and the unused `storage` import. The handler stores and sends nothing, so its only output is the reply.
- **Routes.ContactReply**:
  - A null or undefined body, whose destructuring throws, is the one exception source modelled. Any other non-object body reads no field.
  - `NaN` as a falsy number is not modelled.
- **Invalid dates.** `formatCyberpunkDate` on an invalid `Date` (which prints "NaN") is not modelled. The date is given by the calendar fields a valid `Date` reports, and the default `new Date()` is the caller's.
- **Other source files** are not part of this model: markup-only files, library wrappers, the dev server, the particle background, the resume components, `utils.ts` helpers other than `formatCyberpunkDate`, the remaining catalog tables of `data.ts` (skill categories, work experience, soft skills, stats), and `main.tsx`.
- **Markup details.** The typing cursor, placeholder texts and the assistant's submit button are left out. The button's `disabled` condition repeats the submit guard.

## Findings

| source | as written | input that shows it | evidently intended | confidence | as-written member | corrected member |
|---|---|---|---|---|---|---|
| client/src/components/terminal/AiGreeter.tsx:46-50 | every typing tick drops the last transcript entry, then appends the user's query and the partial reply. From the second tick on, the dropped entry is the previous partial reply, so the query is added again. After k ticks the transcript lists the query k times. | any accepted query, e.g. "hello": its reply has more than one character, and after two ticks the query appears twice | each tick replaces the previous partial reply, so the query appears once and is followed by one growing reply | not executed | AiGreeter.TicksAsWrittenRepeatQuery | AiGreeter.TicksIntendedReplaceReply |
