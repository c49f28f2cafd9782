# Portfolio contact pipeline — a verified Dafny model

This project models the logic in a personal portfolio web site. Everything else in the site is presentation. The logic is:

- **The contact endpoint** (`POST /api/contact`). It has four parts:
  - It identifies the caller from the `x-forwarded-for` / `x-real-ip` headers.
  - It limits each caller to 3 requests in a sliding 60 000 ms window. Timestamp lists are kept per caller in a `Map`.
  - It runs a fixed decision sequence: rate limit, then honeypot (`company`), then required fields, then an email and an optional chat-webhook post.
  - It shapes both messages: default subjects, line feeds in the email become `<br />`, and the webhook copy is cut to 1000 characters plus `…`.
- **The two contact pages.** Each has a field→error validator and the form's state cells, `formData`, `errors`, `isSubmitting` and `isSuccess`. The TypeScript page trims before measuring lengths and posts to the endpoint. The JavaScript page measures the raw strings and only simulates the send. Both test the email with one loose shape pattern, `^[^\s@]+@[^\s@]+\.[^\s@]+$`.
- **The CardSwap stack** of the featured-work section. It has a front-card index that a timer advances modulo the card count, and a per-card stack offset, `zIndex` and opacity. The timer stops when the stack is paused on hover.
- **The skills section.** A click toggles one selected skill on or off. The project list is filtered by the selected skill's `projectIds`. At most 3 tags and 2 capabilities are shown per skill, and the skill and project tables are static.

Modules:

| module | file | models |
|---|---|---|
| `Wrappers` | `wrappers.dfy` | `Option` |
| `Text` | `text.dfy` | whitespace, `trim`, character counting and `replace(/\n/g, …)` |
| `EmailShape` | `email_shape.dfy` | the email shape pattern |
| `RateLimit` | `rate_limit.dfy` | the sliding-window limiter, and a replay of a request sequence through it |
| `ContactRoute` | `contact_route.dfy` | the endpoint: payload shaping, the decision sequence, and the `Gateway` class holding the limiter map |
| `ContactPageTsx` | `contact_page_tsx.dfy` | `app/contact/page.tsx` |
| `ContactPageJsx` | `contact_page_jsx.dfy` | `app/contact/page.jsx` |
| `FeaturedWork` | `featured_work.dfy` | CardSwap arithmetic and the `CardSwap` class |
| `SkillsSection` | `skills_section.dfy` | the filter, the toggle, the slices and the tables |

Inputs the code takes from its surroundings become parameters:
- the clock (`now`);
- the headers;
- the parsed body;
- the webhook URL;
- the timestamp string;
- whether each notifier throws;
- the reply the page's `fetch` receives.

The notifiers are recorded as attempts in a ghost log, `Gateway.notified`. The first notifier is the email send. The second is the webhook post.

Consequences of the code's rules and their order that the model states:
- On the TypeScript page, `{name: "Jo", email: "bad-email", subject: "Hi", message: "short"}` is flagged on email, subject and message. The subject rule needs five trimmed characters.
- Every request that passes the rate limit consumes quota before its body is read. This includes honeypot hits, missing fields and bodies that fail to parse.
- A timestamp exactly 60 000 ms old is outside the window, because the test is `now - t < 60000`.
- A second click on a skill restores the earlier selection only when nothing was selected or the same skill was. Clicking a different skill twice clears the selection, so `ToggleTwice` states exactly that if-and-only-if.

## Model

| member | source | states |
|---|---|---|
| `ContactRoute.CallerId` | app/api/contact/route.ts:14-17 | the caller is `x-forwarded-for` when non-empty, else `x-real-ip` when non-empty, else `"unknown"`; never empty |
| `RateLimit.Recent` | app/api/contact/route.ts:21 | the pruned list keeps exactly the stored timestamps `t` with `now - t < 60000`, and is no longer than the stored list |
| `RateLimit.Admit` | app/api/contact/route.ts:19-31 | allowed iff fewer than 3 in-window timestamps; a refusal leaves the map as it was; an admission stores the in-window timestamps followed by `now`; no other key changes; the ≤ 3 bound on every stored list is preserved |
| `RateLimit.RecentLater` | app/api/contact/route.ts:21 | pruning at an earlier time and then at a later one is the same as pruning at the later time |
| `RateLimit.RecentAppend` | app/api/contact/route.ts:21 | pruning distributes over concatenation |
| `RateLimit.RecentDropsStale` | app/api/contact/route.ts:21 | a list holding a stale timestamp shrinks when pruned |
| `RateLimit.WindowReopens` | app/api/contact/route.ts:20-31 | once any one of a caller's stored timestamps has left the window, the caller's next request is admitted |
| `RateLimit.Step` | app/api/contact/route.ts:19-31 | one request through the limiter keeps every stored list at length ≤ 3 |
| `RateLimit.Run` | app/api/contact/route.ts:7-9 | the map the module starts with (empty), after any sequence of requests, holds lists of length ≤ 3 |
| `RateLimit.SpanWithinRecent` | app/api/contact/route.ts:21-23 | timestamps falling in a 60 000 ms span that ends after `now` are all still in the pruned list at `now` |
| `RateLimit.TimesOfStep` | app/api/contact/route.ts:30-31 | an accepted request adds its time to its own caller's history only |
| `RateLimit.TracksAppend` | app/api/contact/route.ts:21-31 | recording `now` after pruning gives the same future windows as appending `now` to the full history |
| `RateLimit.StepTracks` | app/api/contact/route.ts:19-31 | the stored list keeps agreeing, for every later clock value, with the caller's full history |
| `RateLimit.StepNotAfter` | app/api/contact/route.ts:19 | with non-decreasing clocks, no recorded time lies in the future |
| `RateLimit.StepSpanBounded` | app/api/contact/route.ts:23-31 | one step keeps every 60 000 ms span of a caller's accepted times at ≤ 3 |
| `RateLimit.RunRemembers` | app/api/contact/route.ts:19-31 | after any non-decreasing request sequence, each caller's store mirrors its history, no time lies ahead, and every span holds ≤ 3 |
| `RateLimit.AtMostMaxPerWindow` | app/api/contact/route.ts:7-31 | with non-decreasing clock values, at most 3 requests per caller are accepted in any 60 000 ms span |
| `RateLimit.FullWindowScenario` | app/api/contact/route.ts:21-28 | three requests at `t`, `t+1`, `t+2` refuse a fourth at `t+3`, and admit one again at `t+60000` |
| `ContactRoute.EmailSubject` | app/api/contact/route.ts:53 | the email subject is the submitted one when non-empty, else "New Contact Message" |
| `ContactRoute.ShownSubject` | app/api/contact/route.ts:59-81 | the subject shown in the body and the webhook is the submitted one when non-empty, else "—" |
| `ContactRoute.MessageHtml` | app/api/contact/route.ts:61 | the HTML message has no line feed left, grows by 5 characters per line feed, and is the message itself when it had none |
| `Text.ReplaceChar` | app/api/contact/route.ts:61 | a global one-character replacement removes the character when the replacement lacks it, changes the length by one replacement per occurrence, and is the identity when the character is absent |
| `Text.ReplaceCharAppend` | app/api/contact/route.ts:61 | the replacement works piecewise over concatenation |
| `Text.ReplaceCharOne` | app/api/contact/route.ts:61 | a single character becomes the replacement when it is the target, and stays otherwise; with `ReplaceCharAppend` this determines the replacement of every string |
| `ContactRoute.MessageHtmlLineFeed` | app/api/contact/route.ts:61 | each line feed becomes exactly one `<br />`, with the text on either side rendered on its own |
| `ContactRoute.RenderHtml` | app/api/contact/route.ts:54-63 | the email body is the fixed template with the name and email inserted as they are, the shown subject (`—` when absent), and the message with `<br />` line breaks |
| `ContactRoute.Excerpt` | app/api/contact/route.ts:83-88 | the excerpt is the message when it has ≤ 1000 characters, else its first 1000 characters followed by `…`; never longer than 1001 |
| `ContactRoute.ExcerptIdempotent` | app/api/contact/route.ts:86-88 | cutting an excerpt again changes nothing |
| `ContactRoute.ExcerptStartsWithMessage` | app/api/contact/route.ts:86-88 | the excerpt starts with the longest prefix of the message it can hold |
| `ContactRoute.EmailFor` | app/api/contact/route.ts:49-64 | the email goes from the sandbox sender to the operator, replies to the submitter, carries the defaulted subject, and its body is `RenderHtml` of the submission |
| `ContactRoute.EmbedFor` | app/api/contact/route.ts:71-93 | the embed has the fixed title and colour, the request's timestamp, and four fields in order: `Name` and `Email` inline, then `Subject` (shown subject) and `Message` (excerpt, at most 1001 characters) with no `inline` key |
| `ContactRoute.Response.Status` | app/api/contact/route.ts:24-104 | 200 exactly for the two successes, 429 for the rate limit, 400 for missing fields, 500 for a failure |
| `ContactRoute.Response.ErrorText` | app/api/contact/route.ts:24-104 | an `error` text, never empty, exactly for the answers other than the two successes |
| `ContactRoute.Notifications` | app/api/contact/route.ts:49-96 | a genuine body yields the email first, then one webhook post exactly when a webhook URL is configured |
| `ContactRoute.ResponseStatuses` | app/api/contact/route.ts:23-104 | the answers carry statuses 200, 400, 429 or 500, and carry an error text exactly when the status is not 200 |
| `ContactRoute.Dispatch` | app/api/contact/route.ts:34-105 | past the limiter: an unparsable body is a 500; a honeypot hit succeeds with no notifier run; missing name, email or message is a 400 with no notifier run; a notifier is attempted iff the body is genuine; the email is attempted first and a throwing email stops the webhook; the answer is `Sent` iff nothing configured throws, and `Failed` (500) iff the body did not parse or a genuine body's email or configured webhook throws |
| `ContactRoute.Handle` | app/api/contact/route.ts:11-105 | the whole request: refused with 429 iff the caller's window is full, in which case nothing changes; otherwise quota is consumed first and the rest is `Dispatch` |
| `ContactRoute.HoneypotConsumesQuota` | app/api/contact/route.ts:30-39 | a honeypot hit answers 200 with no notifier run, yet its time is recorded against the caller |
| `ContactRoute.GenuineNotifiesOnce` | app/api/contact/route.ts:48-98 | with a webhook configured and neither notifier throwing, an admitted genuine request makes exactly one email attempt and then one webhook post, and answers `Sent`; the email replies to the submitter and carries the rendered body, and the embed carries the excerpt |
| `ContactRoute.Gateway.constructor` | app/api/contact/route.ts:7 | the module starts with an empty map and no notifications |
| `ContactRoute.Gateway.CheckAndRecord` | app/api/contact/route.ts:19-31 | the map after prune, check and record is `Admit`'s, and the admission answer is `Admit`'s |
| `ContactRoute.Gateway.Respond` | app/api/contact/route.ts:33-105 | the answer and the notifications appended to the log are `Dispatch`'s |
| `ContactRoute.Gateway.Post` | app/api/contact/route.ts:11-106 | the answer, the new map and the appended notifications are those of `Handle` on the old map; every stored list stays at length ≤ 3 |
| `Text.TrimStart` | app/contact/page.tsx:57 | no leading white space is left |
| `Text.TrimStartCuts` | app/contact/page.tsx:57 | trimming the start removes only a leading run of white space |
| `Text.TrimEnd` | app/contact/page.tsx:57 | no trailing white space is left |
| `Text.TrimEndCuts` | app/contact/page.tsx:57 | trimming the end removes only a trailing run of white space |
| `Text.Trim` | app/contact/page.tsx:57-63 | trimming never lengthens a string |
| `Text.TrimIsTrimOf` | app/contact/page.tsx:57-63 | `Trim` is the slice of its input with only white space outside it and no white space at either end |
| `Text.TrimmedAtBounds` | app/contact/page.tsx:57 | a non-empty trim's bounds enclose every non-space character |
| `Text.TrimmedAtRangeSpace` | app/contact/page.tsx:57 | a string whose trim is empty is all white space |
| `Text.TrimOfUnique` | app/contact/page.tsx:57-63 | a string has only one such trimmed slice |
| `Text.TrimUntouched` | app/contact/page.tsx:57 | a string with no white space at its ends is its own trim |
| `Text.Count` | app/contact/page.tsx:59 | the count is zero iff the character does not occur |
| `Text.IndexOf` | app/contact/page.tsx:59 | the first occurrence of a character, or the length when there is none |
| `Text.SingleOccurrence` | app/contact/page.tsx:59 | a character occurs only at index `a` iff its count is 1 and its first index is `a` |
| `EmailShape.EmailShapeIffPattern` | app/contact/page.tsx:59 | the executable shape check (no white space, one `@` after a non-empty local part, a dot that is neither first nor last in the domain) holds iff the string splits as `local@label.tld` with three non-empty parts free of white space and `@` |
| `EmailShape.MinimalAddressAccepted` | app/contact/page.tsx:59 | `a@b.com` has the shape |
| `EmailShape.NoAtRejected` | app/contact/page.tsx:59 | `bad-email` does not |
| `ContactPageTsx.FormData.With` | app/contact/page.tsx:73 | the spread update sets the edited field and leaves the others |
| `ContactPageTsx.Errors` | app/contact/page.tsx:54-68 | each of name, email, subject and message is flagged iff its own rule fails (trimmed length < 2, not an email shape, trimmed length < 5, trimmed length < 10), with its fixed text; the honeypot is never flagged |
| `ContactPageTsx.WellFormedFormPasses` | app/contact/page.tsx:54-68 | `{name: "Jo", email: "a@b.com", subject: "Hi there", message: "Hello world!"}` gets no errors |
| `ContactPageTsx.ShortFieldsFlagged` | app/contact/page.tsx:54-68 | `bad-email`, subject `Hi` and message `short` are flagged on email, subject and message, and the name `Jo` is not |
| `ContactPageTsx.ReplyTo` | app/contact/page.tsx:85-91 | the page counts an answer as success iff the endpoint sent or the honeypot answered; every refusal and failure is a non-OK reply |
| `ContactPageTsx.ContactPage.constructor` | app/contact/page.tsx:41-52 | empty form, no errors, not submitting, no success |
| `ContactPageTsx.ContactPage.ValidateForm` | app/contact/page.tsx:54-68 | the shown errors become `Errors(formData)`, and the answer is true iff there are none |
| `ContactPageTsx.ContactPage.HandleChange` | app/contact/page.tsx:70-77 | only the edited field changes, and only its error, which is blanked when it was non-empty |
| `ContactPageTsx.ContactPage.HandleSubmit` | app/contact/page.tsx:79-108 | an invalid form posts nothing and keeps the form; a valid one posts the form; an OK reply resets every field, honeypot included, and shows success; any other reply or a throw keeps the form and alerts once; `isSubmitting` ends false |
| `ContactPageTsx.ContactPage.SuccessTimeout` | app/contact/page.tsx:102 | the timer hides the success message |
| `ContactPageJsx.FormData.With` | app/contact/page.jsx:55 | the spread update sets the edited field and leaves the others |
| `ContactPageJsx.Errors` | app/contact/page.jsx:36-44 | each field is flagged iff its own rule fails on the raw string (length < 2, not an email shape, length < 5, length < 10), with its fixed text |
| `ContactPageJsx.RawRulesNoStricter` | app/contact/page.jsx:38-41 | a field flagged here is flagged by the trimming page too, and the email rule agrees in both directions |
| `ContactPageJsx.BlankNamePassesHere` | app/contact/page.jsx:38 | a two-space name passes here but is rejected by the trimming page |
| `ContactPageJsx.ContactPage.constructor` | app/contact/page.jsx:21-23 | empty form, no errors, not submitting |
| `ContactPageJsx.ContactPage.ValidateForm` | app/contact/page.jsx:36-44 | the shown errors become `Errors(formData)`, and the answer is true iff there are none |
| `ContactPageJsx.ContactPage.HandleSubmit` | app/contact/page.jsx:46-52 | an invalid form is kept as it is; a valid submit ends with all four fields empty and not submitting |
| `ContactPageJsx.ContactPage.HandleChange` | app/contact/page.jsx:54-57 | only the edited field changes, and only its error, which is blanked when it was non-empty |
| `FeaturedWork.Advance` | components/FeaturedWork.tsx:20 | the next index stays below the card count and wraps from the last card to the first |
| `FeaturedWork.AdvanceTimes` | components/FeaturedWork.tsx:19-21 | any number of timer steps keeps the index in range |
| `FeaturedWork.AdvanceTimesShifts` | components/FeaturedWork.tsx:19-21 | up to a full cycle, `k` steps move the front `k` places round the stack |
| `FeaturedWork.FullCycle` | components/FeaturedWork.tsx:19-21 | `n` steps return to the starting index |
| `FeaturedWork.Offset` | components/FeaturedWork.tsx:33 | the offset is below `n`, zero iff the card is at the front, and counts how far behind the front the card sits |
| `FeaturedWork.CardAt` | components/FeaturedWork.tsx:33 | the card `k` places behind the front, always a valid index |
| `FeaturedWork.OffsetCardAtInverse` | components/FeaturedWork.tsx:33 | `CardAt` and `Offset` undo each other, so the offsets are a permutation of `0 .. n-1` |
| `FeaturedWork.OffsetsDistinct` | components/FeaturedWork.tsx:33 | different cards have different offsets |
| `FeaturedWork.ZIndex` | components/FeaturedWork.tsx:44 | `zIndex` lies in `1 .. n`, is `n` exactly for the front card, and is `n` minus how far behind the front the card sits |
| `FeaturedWork.ZIndexFollowsOffset` | components/FeaturedWork.tsx:44 | `zIndex + offset = n` for every card, so a card further behind the front is on a strictly lower layer, and conversely |
| `FeaturedWork.ZIndexDistinct` | components/FeaturedWork.tsx:44 | different cards have different `zIndex` |
| `FeaturedWork.Opacity` | components/FeaturedWork.tsx:43 | opacity is 1 exactly for the front card and 0.7 otherwise |
| `FeaturedWork.AdvanceMovesForward` | components/FeaturedWork.tsx:20-33 | one step lowers each card's offset by one, and the front card goes to offset `n-1` |
| `FeaturedWork.CardSwap.constructor` | components/FeaturedWork.tsx:11-14 | the stack starts at card 0, unpaused |
| `FeaturedWork.CardSwap.Tick` | components/FeaturedWork.tsx:16-24 | a tick advances the front unless the stack is paused and pausing on hover is enabled; the index stays in range |
| `FeaturedWork.CardSwap.MouseEnter` | components/FeaturedWork.tsx:29 | entering pauses only when pausing on hover is enabled, and then rotation stops |
| `FeaturedWork.CardSwap.MouseLeave` | components/FeaturedWork.tsx:30 | leaving unpauses only when pausing on hover is enabled, and then rotation resumes |
| `SkillsSection.KeepIds` | components/skillsSection.tsx:191 | the filter keeps exactly the projects whose id is listed |
| `SkillsSection.KeepIdsInOrder` | components/skillsSection.tsx:191 | the kept projects are a subsequence of the list, in its order |
| `SkillsSection.FilteredProjects` | components/skillsSection.tsx:190-192 | with no selection the list is unchanged; with one, exactly the projects whose id the skill lists |
| `SkillsSection.FilteredInOrder` | components/skillsSection.tsx:190-192 | the shown projects keep the order of the full list |
| `SkillsSection.SubsequenceOfSelf` | components/skillsSection.tsx:192 | the unfiltered list is trivially in order |
| `SkillsSection.Toggle` | components/skillsSection.tsx:229-239 | clicking the active skill clears the selection, and clicking any other skill selects it |
| `SkillsSection.ToggleTwice` | components/skillsSection.tsx:229-239 | two clicks on a skill restore the selection iff nothing or that same skill was selected; from a different skill they leave nothing selected |
| `SkillsSection.SliceFront` | components/skillsSection.tsx:266-273 | `slice(0, k)` is the prefix of length `min(k, length)` |
| `SkillsSection.ShownTags` | components/skillsSection.tsx:266 | the first `min(3, tags)` tags are shown |
| `SkillsSection.ShownCapabilities` | components/skillsSection.tsx:273 | the first `min(2, capabilities)` capabilities are shown |
| `SkillsSection.TablesConsistent` | components/skillsSection.tsx:9-188 | project ids are unique, skill ids are unique, and every id a skill lists names a project |

## Left out

- The Resend email send and the webhook `fetch` are network calls. They become attempts in a ghost log, and a parameter says whether each one throws.
- The Resend SDK can also report a failure in its returned value without throwing, and the webhook's HTTP status is never inspected by the code. The model covers only the throw, which is what the code turns into a 500.
- `req.json()`: a body that fails to parse is `None`, which the code answers with 500. A field holding a non-string JSON value is not modelled; fields are optional strings.
- `NextResponse` is reduced to the `Response` datatype with its status and `error` text. The `console.error` log is not modelled.
- `Date.now()` is the `now` parameter. `new Date().toISOString()` is an opaque timestamp string.
- Concurrent requests sharing the limiter map are not modelled; requests run one after another. The source never evicts a stale key, and the model does not either.
- JavaScript strings are sequences of UTF-16 code units, but here they are sequences of Unicode scalar values, so lengths and the 1000-character cut can differ on characters outside the Basic Multilingual Plane.
- `Text.IsSpace` names the common white-space characters of JavaScript's `\s` and `trim`. It is not the full Unicode table.
- JavaScript numbers are modelled as unbounded integers: clock values, indices and counts.
- `setTimeout` and `setInterval` timing is left out. Timer firings are explicit method calls (`SuccessTimeout`, `Tick`).
- `ContactPageTsx.ContactPage.HandleSubmit` runs to completion in one call, so the in-flight `isSubmitting == true` state and user input during the awaited `fetch` are not observable. The body posted is recorded in a ghost log. `alert` is a ghost counter.
- `ContactPageJsx.ContactPage.HandleSubmit` likewise runs to completion; the two-second wait is left out.
- The pages' `activeField`, the mouse-position cursor, and all framer-motion animation are left out. This includes CardSwap's `x`, `y` and `scale` (floating point), `cardDistance`, `verticalDistance` and `delay`.
- `FeaturedWork.CardSwap.constructor`: requires at least one card, because with no cards the source's `% 0` gives `NaN`.
- The CardSwap effect that restarts its interval when its dependencies change is modelled only as the `Rotating` condition. A change of the card count after construction is not modelled.
- The skills section's markup, icons and colours are left out, apart from the fields the filter and the slices read. The header text that names the active skill's category is left out too.

