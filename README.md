# Cover Letter Buddy, modelled in Dafny

Cover Letter Buddy is a Next.js application. It writes a cover letter, a
recruiter email or a short Hebrew recruiter message from an uploaded résumé and
a job description. This project models the parts of it that decide things:

- **The three generation routes** (`/api/generate-cover-letter`,
  `/api/generate-email`, `/api/generate-message`). Each keeps its own in-memory
  fixed-window rate limiter: 10 requests per client key per hour, where the key
  is taken from `x-forwarded-for`, else `x-real-ip`, else `"unknown"`. Each
  route then runs an ordered chain of field and length checks, builds a prompt,
  asks the model provider, and shapes the reply.
- **The three template catalogs** with their fallback lookups and prompt
  composers.
- **Three client-side rules**: the template picker's filter and auto-selection,
  the upload box's type and size gate, and the home page's pre-submit checks
  with the state `generateCoverLetter` updates.

State the source changes in place is modelled as classes:

- `RateLimit.RateLimiter` is the route module's `Map`. Each route class owns
  one, and `Api.Server` holds the three routes.
- `FileUpload.FileUploader` and `Page.HomePage` hold the React state.

Everything else is pure functions and lemmas about them. The model provider is
a function parameter from the prompt to either a text or an exception.
`Date.now()` becomes a `now` parameter, and the text a browser `File` yields
becomes a field of the file.

Behaviour worth knowing:

- A window is renewed only when `now > resetTime`. A request at exactly
  `resetTime` still belongs to the old window.
- The empty-reply check looks at the raw provider text before trimming. A reply
  of only white space is a 200 with an empty text and a word count of 1.
- `metadata.templateUsed` is the id as requested (`""` stays `""`), not the id
  of the template it resolved to.
- Only the Gemini provider exists, and it receives the prompt as a single user
  turn.

Files, one module each:

- `wrappers.dfy`, `js.dfy`, `strings.dfy`: JavaScript truthiness, `||`,
  template interpolation, `trim`, `split`, `join`.
- `prompt_text.dfy`: the prompt pieces the composers share.
- `rate_limit.dfy`, `http.dfy`: the limiter and the parts the routes share.
- `template_system.dfy`, `email_templates.dfy`, `message_templates.dfy`: the
  catalogs and composers.
- `cover_letter_route.dfy`, `email_route.dfy`, `message_route.dfy`, `api.dfy`:
  the routes and the server that holds them.
- `template_selector.dfy`, `file_upload.dfy`, `page.dfy`: the client side.

## Model

Some definitions carry no contract of their own. The lemmas in the table are
about them:

- The prompt composers are `TemplateSystem.ComposePrompt` and
  `TemplateSystem.GeneratePrompt` (utils/templateSystem.ts:80-117).
  `PromptShowsTemplate`, `PromptCarriesUserContent`,
  `AdditionalInstructionsIff` and `UnknownIdIsProfessional` are about them.
- `EmailTemplates.ComposeEmailPrompt` and `EmailTemplates.GenerateEmailPrompt`
  (utils/emailTemplates.ts:115-167). `EmailPromptCarries`,
  `TemplateLanguageIgnored`, `EnglishUnlessHebrew`, `HebrewPromptIsLonger`,
  `LanguagePartsShown`, `LanguageDirectives` and `ContactLine` are about them.
- `MessageTemplates.ComposeMessagePrompt` and
  `MessageTemplates.GenerateMessagePrompt` (utils/messageTemplates.ts:35-89).
  `MessagePromptIgnoresId`, `MessagePromptIgnoresProfiles` and
  `MessagePromptCarries` are about them.
- Each route's `PromptOf` passes the body's fields, with their defaults, to its
  composer (app/api/generate-cover-letter/route.ts:63,
  app/api/generate-email/route.ts:76-82, app/api/generate-message/route.ts:75-80).
  `Respond` and the route lemmas use it.
- `FileUpload.Content` is the content rule at components/FileUpload.tsx:73-84,
  stated by `ContentRule`.
- `TemplateSelector.AvailableTemplates` is the filtered list at
  components/TemplateSelector.tsx:89-91, fixed by `Filter`, `FilterAppend` and
  the `*Offers` lemmas.
- `Strings.Join` is `Array.prototype.join`, tied to `Split` by `JoinSplit` and
  `SplitJoin`.
- `Api.CoverLetterPart` and `Api.MessagePart` only build the other route's body
  from an email body's fields, for the two `Api` comparison lemmas.

| member | source | states |
|---|---|---|
| RateLimit.Check | app/api/generate-cover-letter/route.ts:11-26 | allowed iff the key is absent, its window ended strictly before `now`, or its count is below 10; a refusal leaves the table unchanged; only the key's entry can change and it is always present afterwards; well-formed tables (every count in 1..10) stay well-formed |
| RateLimit.NewWindow | app/api/generate-cover-letter/route.ts:15-18 | an absent key or an ended window is (re)started as count 1 ending 3 600 000 ms after `now`, and the request is allowed |
| RateLimit.SameWindow | app/api/generate-cover-letter/route.ts:20-25 | inside the window and below the ceiling the count rises by exactly one, the window end is kept, and the request is allowed |
| RateLimit.FullAtBoundary | app/api/generate-cover-letter/route.ts:15-22 | a full key is still refused at exactly `now == resetTime` and is allowed again one millisecond later |
| RateLimit.Decisions | app/api/generate-cover-letter/route.ts:11-26 | one decision per request in a series from one key |
| RateLimit.InsideWindow | app/api/generate-cover-letter/route.ts:9-26 | for requests that all fall inside the current window, exactly the first `10 - count` are allowed |
| RateLimit.FreshWindow | app/api/generate-cover-letter/route.ts:9-26 | after a request that opens a window, of the requests within one hour the first 10 are allowed and the 11th and later are refused |
| RateLimit.RateLimiter.constructor | app/api/generate-cover-letter/route.ts:9 | the table starts empty |
| RateLimit.RateLimiter.CheckRateLimit | app/api/generate-cover-letter/route.ts:11-26 | the in-place update produces exactly the table and decision of `Check`, and keeps counts within 1..10 |
| Http.ClientKey | app/api/generate-cover-letter/route.ts:30 | the first truthy of `x-forwarded-for` and `x-real-ip`, else "unknown"; never empty |
| Http.WordsCount | app/api/generate-cover-letter/route.ts:89 | the word count is the number of spaces in the trimmed text plus one |
| Http.WordsCountOfPaddedPair | app/api/generate-cover-letter/route.ts:89 | two words joined by one space, padded with white space, count as 2 |
| Http.WordsCountOfDoubleSpace | app/api/generate-cover-letter/route.ts:89 | two spaces between words are not collapsed and count as 3 words |
| Http.WordsCountOfBlank | app/api/generate-cover-letter/route.ts:89 | an empty or all-white text counts as one word |
| Strings.Trim | app/api/generate-cover-letter/route.ts:82 | the result has no white space at either end and is the slice of the input left after removing the leading and trailing white runs |
| Strings.TrimOfPadded | app/api/generate-cover-letter/route.ts:82 | white padding around an unpadded text is exactly what trimming removes |
| Strings.TrimIdempotent | app/api/generate-cover-letter/route.ts:82 | trimming twice is trimming once |
| Strings.TrimEmptyIffAllWhite | app/api/generate-cover-letter/route.ts:72-82 | the trimmed text is empty iff the text is all white space |
| Strings.Split | app/api/generate-cover-letter/route.ts:89 | `split(c)` yields one piece more than there are separators, and no piece holds the separator |
| Strings.JoinSplit | app/api/generate-cover-letter/route.ts:89 | joining the pieces of a split with the separator gives the text back |
| Strings.SplitJoin | app/api/generate-cover-letter/route.ts:89 | splitting a join of separator-free pieces gives the pieces back |
| TemplateSystem.CatalogShape | utils/templateSystem.ts:10-74 | the catalog has exactly the ids professional, creative, technical and startup, each filed under its own id |
| TemplateSystem.GetTemplate | utils/templateSystem.ts:76-78 | a known id gives its entry and any other id the professional one; the result is always a catalog entry filed under its id |
| TemplateSystem.PromptShowsTemplate | utils/templateSystem.ts:88-97 | the prompt contains the template's name and its style, tone, structure (items joined by ", ") and instructions block verbatim |
| TemplateSystem.PromptCarriesUserContent | utils/templateSystem.ts:99-103 | the prompt contains "RESUME CONTENT:", the résumé, "JOB DESCRIPTION:" and the job description verbatim and in that order |
| TemplateSystem.AdditionalInstructionsIff | utils/templateSystem.ts:105 | the prompt equals the prompt without instructions iff the instructions are falsy; truthy instructions appear verbatim under "ADDITIONAL INSTRUCTIONS:" |
| TemplateSystem.UnknownIdIsProfessional | utils/templateSystem.ts:76-86 | an unknown id gives the same prompt as "professional" |
| EmailTemplates.EmailCatalogShape | utils/emailTemplates.ts:10-109 | the email catalog has exactly the six ids, each filed under its own id, and only email-hebrew is a Hebrew template |
| EmailTemplates.GetEmailTemplate | utils/emailTemplates.ts:111-113 | a known id gives its entry and any other id the English email template; the result is a catalog entry |
| EmailTemplates.ContactLine | utils/emailTemplates.ts:140-143 | the prompt carries a "Phone:", "Email:", "LinkedIn:" and "GitHub:" line, each showing its field when the field is truthy and "Not provided" otherwise |
| EmailTemplates.EmailPromptCarries | utils/emailTemplates.ts:124-149 | the prompt contains the template block, the contact block and the résumé and job description sections verbatim |
| EmailTemplates.TemplateLanguageIgnored | utils/emailTemplates.ts:124-167 | the template's own language field has no effect on the prompt; only the requested language does |
| EmailTemplates.EnglishUnlessHebrew | utils/emailTemplates.ts:129-163 | the prompt for a language equals the English prompt iff the language is not exactly "hebrew" |
| EmailTemplates.NonHebrewParts | utils/emailTemplates.ts:129-163 | every language-dependent part is the same for any language other than "hebrew" as for "english" |
| EmailTemplates.HebrewPromptIsLonger | utils/emailTemplates.ts:129-163 | the Hebrew prompt is exactly 103 characters longer than the English one |
| EmailTemplates.EmailPromptLength | utils/emailTemplates.ts:124-167 | the prompt's length is the sum of its parts and separators |
| EmailTemplates.LanguagePartsShown | utils/emailTemplates.ts:136-163 | for every language the prompt contains its "IMPORTANT" line, its closing instruction and its requirement 6 |
| EmailTemplates.LanguageDirectives | utils/emailTemplates.ts:136-163 | for "hebrew" the prompt carries the Hebrew "IMPORTANT" line, the Hebrew closing instruction and requirement 6 asking for Hebrew; for any other language there is no "IMPORTANT" line and the prompt carries the English closing and requirement 6 asking for English |
| MessageTemplates.MessageCatalogShape | utils/messageTemplates.ts:11-29 | the message catalog has the single id message-casual, filed under its own id |
| MessageTemplates.GetMessageTemplate | utils/messageTemplates.ts:31-33 | every id resolves to the casual message template, the catalog's only entry |
| MessageTemplates.MessagePromptIgnoresId | utils/messageTemplates.ts:35-42 | the message prompt does not depend on the template id |
| MessageTemplates.MessagePromptIgnoresProfiles | utils/messageTemplates.ts:63-66 | the LinkedIn and GitHub fields do not reach the message prompt |
| MessageTemplates.MessagePromptCarries | utils/messageTemplates.ts:43-72 | the prompt contains the template block, the name/phone/email block and the résumé and job description sections verbatim |
| CoverLetterRoute.TemplateIdOf | app/api/generate-cover-letter/route.ts:40 | an absent template id defaults to "professional"; a given one, even "", is kept |
| CoverLetterRoute.Validate | app/api/generate-cover-letter/route.ts:42-61 | the first failing check in order (fields truthy, resume ≥ 50, job ≥ 100 on untrimmed lengths) decides the message, each case as an iff; `None` iff all pass |
| CoverLetterRoute.Reply | app/api/generate-cover-letter/route.ts:68-100 | a throw is 500 "Internal server error…", an empty text 500 "No cover letter generated…"; otherwise 200 with the trimmed text, its word count, the resolved template's id/name/tone and the requested id |
| CoverLetterRoute.Respond | app/api/generate-cover-letter/route.ts:42-93 | a failed check is a 400 with its message; a valid body is answered from the provider's reply to the composed prompt |
| CoverLetterRoute.Serve | app/api/generate-cover-letter/route.ts:28-101 | the rate check runs first and updates the table whatever follows; refused is 429; an unparsable body is 500; otherwise `Respond` |
| CoverLetterRoute.RejectionSkipsProvider | app/api/generate-cover-letter/route.ts:42-63 | for an invalid body the response is a 400 that does not depend on the provider |
| CoverLetterRoute.BlankReplyIsEmptyLetter | app/api/generate-cover-letter/route.ts:72-89 | a non-empty all-white reply passes the emptiness check and yields an empty letter with word count 1 |
| CoverLetterRoute.TemplateIdDefaults | app/api/generate-cover-letter/route.ts:40-91 | an absent id is reported and resolved as "professional"; an empty id is reported as "" but resolves to professional |
| CoverLetterRoute.Route.constructor | app/api/generate-cover-letter/route.ts:9 | a route starts with a fresh, empty rate-limit table |
| CoverLetterRoute.Route.Post | app/api/generate-cover-letter/route.ts:28-101 | the handler's table and response are exactly those of `Serve` |
| EmailRoute.TemplateIdOf | app/api/generate-email/route.ts:43 | an absent template id defaults to "email-english"; a given one is kept |
| EmailRoute.LanguageOf | app/api/generate-email/route.ts:45 | an absent language defaults to "english"; a given one is kept |
| EmailRoute.Validate | app/api/generate-email/route.ts:48-74 | fields, then a truthy personal-info name, then resume ≥ 50, then job ≥ 100, each outcome as an iff |
| EmailRoute.Reply | app/api/generate-email/route.ts:87-122 | 500 on a throw or an empty text; otherwise the trimmed email, its word count, the resolved template with its language, the requested id and the requested language |
| EmailRoute.Respond | app/api/generate-email/route.ts:48-114 | a failed check is a 400 with its message; a valid body is answered from the provider's reply to the composed prompt |
| EmailRoute.Serve | app/api/generate-email/route.ts:28-123 | rate check first, then 429, unparsable-body 500, or `Respond` |
| EmailRoute.RejectionSkipsProvider | app/api/generate-email/route.ts:48-76 | for an invalid body the response is a 400 that does not depend on the provider |
| EmailRoute.BlankReplyIsEmptyEmail | app/api/generate-email/route.ts:91-109 | a non-empty all-white reply yields an empty email with word count 1 |
| EmailRoute.DefaultsOfEmail | app/api/generate-email/route.ts:43-113 | absent id and language are reported as "email-english" and "english"; an empty id is reported as "" and resolves to email-english |
| EmailRoute.HebrewTemplateInEnglish | app/api/generate-email/route.ts:98-113 | the Hebrew template requested in English reports template language Hebrew and metadata language "english" |
| EmailRoute.Route.constructor | app/api/generate-email/route.ts:9 | the route starts with its own empty table |
| EmailRoute.Route.Post | app/api/generate-email/route.ts:28-123 | the handler's table and response are exactly those of `Serve` |
| MessageRoute.TemplateIdOf | app/api/generate-message/route.ts:43 | an absent template id defaults to "message-casual"; a given one is kept |
| MessageRoute.Validate | app/api/generate-message/route.ts:47-73 | fields, then a truthy personal-info name, then resume ≥ 50, then job ≥ 100, each outcome as an iff |
| MessageRoute.Reply | app/api/generate-message/route.ts:85-121 | 500 on a throw or an empty text; otherwise the trimmed message, its word count, the casual template with language "hebrew" and its platform, and the requested id |
| MessageRoute.Respond | app/api/generate-message/route.ts:47-113 | a failed check is a 400 with its message; a valid body is answered from the provider's reply to the composed prompt |
| MessageRoute.Serve | app/api/generate-message/route.ts:28-122 | rate check first, then 429, unparsable-body 500, or `Respond` |
| MessageRoute.RejectionSkipsProvider | app/api/generate-message/route.ts:47-75 | for an invalid body the response is a 400 that does not depend on the provider |
| MessageRoute.BlankReplyIsEmptyMessage | app/api/generate-message/route.ts:89-108 | a non-empty all-white reply yields an empty message with word count 1 |
| MessageRoute.AnyIdIsCasual | app/api/generate-message/route.ts:43-112 | whatever id is sent the casual template is reported, while `templateUsed` echoes the id sent or "message-casual" when absent |
| MessageRoute.Route.constructor | app/api/generate-message/route.ts:9 | the route starts with its own empty table |
| MessageRoute.Route.Post | app/api/generate-message/route.ts:28-122 | the handler's table and response are exactly those of `Serve` |
| Api.Server.constructor | app/api/generate-email/route.ts:9 | three routes with three distinct, empty tables |
| Api.Server.PostCoverLetter | app/api/generate-cover-letter/route.ts:9-37 | a cover-letter request updates that route's table as `Serve` says and leaves the email and message tables unchanged |
| Api.Server.PostEmail | app/api/generate-email/route.ts:9-37 | an email request updates only the email route's table |
| Api.Server.PostMessage | app/api/generate-message/route.ts:9-37 | a message request updates only the message route's table |
| Api.EmailChecksMore | app/api/generate-email/route.ts:48-74 | a body the email route accepts the cover-letter route accepts; the two differ exactly when the email route asks for the name |
| Api.EmailAndMessageAgree | app/api/generate-message/route.ts:47-73 | the email and message routes accept the same bodies and refuse them for the same reasons, differing only in the name message's wording |
| TemplateSelector.Filter | components/TemplateSelector.tsx:89-91 | an entry is in the result iff it is in the list and offers the content type; the result is no longer than the list |
| TemplateSelector.Find | components/TemplateSelector.tsx:95 | a found entry is the first entry of the list with that id; nothing is found iff no entry has that id |
| TemplateSelector.AutoSelect | components/TemplateSelector.tsx:94-98 | an offered selection is kept; otherwise it becomes the first offered id, or "professional" when nothing is offered; the result is offered whenever something is |
| TemplateSelector.FilterAppend | components/TemplateSelector.tsx:89-91 | filtering keeps list order: the filter of a concatenation is the concatenation of the filters |
| TemplateSelector.CoverLetterOffers | components/TemplateSelector.tsx:17-91 | cover letters offer professional, creative, technical and startup, in that order |
| TemplateSelector.EmailOffers | components/TemplateSelector.tsx:17-91 | emails offer the four styles and then the English and Hebrew email templates |
| TemplateSelector.MessageOffers | components/TemplateSelector.tsx:17-91 | messages offer the casual message template alone |
| TemplateSelector.CatalogIdsUnique | components/TemplateSelector.tsx:17-74 | the picker's ids are pairwise distinct |
| TemplateSelector.AutoSelectIdempotent | components/TemplateSelector.tsx:94-98 | running the effect on its own result changes nothing |
| TemplateSelector.EmailFallsBackToProfessional | components/TemplateSelector.tsx:17-98 | switching to email with a selection email does not offer selects "professional" |
| TemplateSelector.CoverLetterIdsResolve | components/TemplateSelector.tsx:17-58 | every cover-letter entry offered is a key of the cover-letter catalog |
| TemplateSelector.EmailIdsResolve | components/TemplateSelector.tsx:17-73 | every email entry offered is a key of the email catalog |
| TemplateSelector.MessageIdsResolve | components/TemplateSelector.tsx:66-73 | the message entry offered is a key of the message catalog |
| TemplateSelector.AutoSelectResolves | components/TemplateSelector.tsx:94-98 | after the effect, the cover-letter selection is a key of the cover-letter catalog, so the route never falls back for it |
| FileUpload.Gate | components/FileUpload.tsx:61-71 | wrong type iff the MIME type is not one of the four allowed; too large iff allowed and above 10 485 760 bytes; accepted iff allowed and at most that size |
| FileUpload.ContentRule | components/FileUpload.tsx:73-84 | a plain-text file is passed on verbatim; any other type as a placeholder that names the file, ignores its bytes and starts "PDF file uploaded: " or "Document uploaded: " |
| FileUpload.SizeBoundary | components/FileUpload.tsx:69 | exactly 10 MiB is accepted and one byte more is refused for its size |
| FileUpload.TypeBeforeSize | components/FileUpload.tsx:65-71 | a wrong type is reported as such whatever the size |
| FileUpload.FileUploader.constructor | components/FileUpload.tsx:23-24 | nothing uploaded and not uploading |
| FileUpload.FileUploader.HandleFile | components/FileUpload.tsx:57-95 | an accepted file is shown as uploaded, handed to the callback exactly once with its content and announced; a refused one changes nothing but the error toast; the spinner is off afterwards either way |
| FileUpload.FileUploader.HandleFiles | components/FileUpload.tsx:37-55 | no file changes nothing; otherwise the first chosen file alone is handled, with `HandleFile`'s outcome in full: the name shown, the callback and the toast on success, an unchanged name and callbacks and the error toast on refusal |
| Page.PreSubmit | app/page.tsx:35-48 | on trimmed texts: empty résumé, then empty job description, then a job description under 100 characters, each outcome as an iff; no résumé length check |
| Page.RequestBody | app/page.tsx:58-62 | the posted body carries the untrimmed texts and the selected id, and no instructions |
| Page.TrimShortens | app/page.tsx:45 | trimming never lengthens a text |
| Page.ClientThenServer | app/page.tsx:35-62 | a request the page lets through, with a résumé of at least 50 characters, passes every check of the route |
| Page.ShortResumeReachesServer | app/page.tsx:35-62 | a short but non-blank résumé passes the page and is refused by the route as too short |
| Page.PaddedJobRefusedByClientOnly | app/page.tsx:45-48 | a job description that reaches 100 characters only through white padding is refused by the page but would pass the route |
| Page.HomePage.constructor | app/page.tsx:17-24 | the page's initial state |
| Page.HomePage.HandleFileUpload | app/page.tsx:27-30 | the upload sets the résumé text and file name and nothing else |
| Page.HomePage.SyncTemplate | app/page.tsx:159-163 | the selection becomes `AutoSelect` of the page's content type |
| Page.HomePage.Start | app/page.tsx:35-50 | a failed check shows its error and sends nothing; otherwise generation starts and the untrimmed body is returned |
| Page.HomePage.Finish | app/page.tsx:65-88 | a success stores the letter, raises the count by exactly one and announces it; an error shows the route's message or "Failed to generate cover letter" and changes neither letter nor count; generating is off afterwards |
| Page.HomePage.GenerateCoverLetter | app/page.tsx:33-89 | a failed check shows its error and leaves the route's table, the letter and the count alone; otherwise one POST is served, a success stores its letter, adds one to the count and shows the success toast, and an error keeps the letter and shows the route's message or "Failed to generate cover letter"; the texts, file name and selection never change |
| Page.StoredLetterIsTrimmed | app/page.tsx:71 | the letter the page stores is the trimmed reply and has no surrounding white space |

## Left out

- The Gemini SDK call and the `GEMINI_MODEL` environment choice are a function parameter. The provider gets the prompt only. The model does not capture the SDK's own failures beyond a single "threw" outcome.
- `request.json()` parsing is a body that is either parsed or absent. JSON `null` and values of other types (a number as `resumeContent` has no string `.length`) are not modelled; every field is a string or absent.
- `generatedAt` timestamps, the `GET` liveness handlers, `NextResponse` serialisation and server-side logging are left out, because they are wall-clock time and HTTP plumbing.
- Requests are processed one at a time. Concurrent access to a rate-limit table is not modelled, because the runtime is single-threaded.
- The catalogs are finite maps. JavaScript prototype keys such as "constructor" in `templates[templateId]` lookups are not modelled.
- String lengths count Unicode scalar values. JavaScript counts UTF-16 code units, so the two differ only for characters outside the Basic Multilingual Plane.
- `Strings.Trim` treats a fixed set of white characters as white space, the ECMAScript white-space and line-terminator set. The model does not track changes to Unicode's space-separator category.
- FileUpload.FileUploader.HandleFile: the text `file.text()` yields is taken as a field of the file. A failing read, which the source reports with the error's message, is not modelled.
- Page.HomePage.GenerateCoverLetter: the network never fails, and the page's request always reaches the route with a parsed body. The `fetch` rejection path, the scroll timer and `console.error` are not modelled.
- The generate button's enabled condition is the predicate `CanGenerate`, which the model states but proves nothing about. The regenerate button is not part of this model.
- Drag-over highlighting, notification display and styling in the upload box and the page are left out, because they are display-only.
- The email and message output components, the spinner, analytics, the content-type selector, the personal-info form, the job-description counters, `utils/pdfExtractor.ts` and `next.config.js` are not part of this model. They render or configure, and decide nothing the routes depend on.
- Provider adapters other than Gemini are not modelled, because none exist in the code.
- TemplateSelector's `onTemplateSelect` callback is modelled as the returned selection. Its title and description texts are display-only and left out.
