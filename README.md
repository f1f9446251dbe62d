# sunocards core, modelled in Dafny

sunocards is a web application for personalised greeting cards. A user walks
through a five-step wizard to describe a card: occasion, recipient details,
music style, theme, and a final preview. A route handler validates the card
and stores it. A second route sends the card's lyrics to a song provider and
tracks the job in a `generation_jobs` table. Both routes sit behind a per-IP,
fixed-window rate limiter.

This project models the logic that decides what those pieces do; the external
services they call are inputs to the model. It models:

- the rate limiter over the `rate_limits` table;
- the in-memory card store, a JavaScript `Map` indexing each card twice;
- the song provider adapter: parsing its reply, normalising its status, and
  the style-to-prompt table;
- the input schemas, with zod's issue lists and their flattening;
- the two route handlers;
- the tag editor;
- the creation wizard's step machine.

On those models it proves the properties the code promises. Examples:

- `limit` increments inside one window make the next check report "limited";
- `getAllCards` returns each id once, using its first map entry, in insertion
  order;
- the song route runs its checks in a fixed order, and writes exactly the
  generating / job / counter triple on success;
- a rejected card is answered with the messages of exactly the rejected
  fields;
- the tag list never exceeds its bound and never gains a duplicate;
- the wizard moves forward only past a valid step.

Modules, one per source file plus three shared ones:

| module | models |
|---|---|
| `Wrappers` | `Option` and `Result` |
| `JsText` | ECMAScript `trim`, UTF-16 `length`, `split(',')[0]`, string truthiness |
| `Types` | the records and enumerations of `src/types/index.ts` |
| `RateLimit` | `src/lib/rate-limit.ts` |
| `MockDb` | `src/lib/mock-db.ts` |
| `Suno` | `src/lib/suno.ts` without its `fetch` calls |
| `Validators` | `src/lib/validators.ts` |
| `CardsRoute` | `src/app/api/cards/route.ts` |
| `GenerateSongRoute` | `src/app/api/generate-song/route.ts` |
| `TagInput` | `src/components/ui/TagInput.tsx` |
| `CreateWizard` | `src/app/create/page.tsx` |

Where the code changes state, the model keeps that form:

- the store, the rate-limit table, the song-route tables, the tag editor and
  the wizard are classes whose methods change their fields;
- `getAllCards`, `validateStep` and the issue loop of `handleSubmit` are
  methods with the source's loops and straight-line checks;
- each of these is proved equal to a specification function, and the
  lemmas are stated about those functions.

Inputs the model takes as parameters:

- the clock: `now` and `later`, in milliseconds, and the timestamp strings;
- the generated ids that `nanoid` and the database would produce;
- the reply from the song provider;
- the `bad-words` profanity filter (`isProfane`);
- zod's e-mail check (`isEmail`).

## Model

| member | source | states |
|---|---|---|
| Types.ParseMusicStyle | src/types/index.ts:23-31 | the style parsed from a key carries that key, and any style whose key it is gets found |
| Types.ParseThemeId | src/types/index.ts:33-39 | the theme parsed from a key carries that key, and any theme whose key it is gets found |
| JsText.Trim | src/lib/rate-limit.ts:96 | the result has no white space at either end; it is the input with only white space cut from the front and the back; it is empty exactly when the input is all white space |
| JsText.TrimIdempotent | src/lib/rate-limit.ts:96 | trimming twice is the same as trimming once |
| JsText.TrimKeepsCharacters | src/lib/rate-limit.ts:96 | every character of the trimmed text occurs in the input |
| JsText.Utf16Length | src/components/ui/TagInput.tsx:46 | a string's `length` lies between its character count and twice that, and equals the count when all characters are in the Basic Multilingual Plane |
| JsText.BeforeFirstComma | src/lib/rate-limit.ts:96 | the result is the longest prefix without a comma, and a comma follows it when it is shorter than the input |
| RateLimit.RateLimits | src/lib/rate-limit.ts:5-10 | every window is 60 minutes; generate_lyrics has limit 10, send_email 3, and create_card and generate_song 5, each exactly |
| RateLimit.Matches | src/lib/rate-limit.ts:25-31 | the query selects exactly the rows for this ip and action whose window started no earlier than one window ago, in table order |
| RateLimit.Single | src/lib/rate-limit.ts:25-31 | `.single()` returns a row exactly when one row matches; with no match or with two or more, it returns none |
| RateLimit.SingleFinds | src/lib/rate-limit.ts:25-31 | when exactly one row is in the window, `.single()` returns that row |
| RateLimit.CheckRateLimit | src/lib/rate-limit.ts:16-49 | with no found row: not limited, the full limit remaining, reset one window from now; with a found row: limited iff count is at least the limit, remaining is the limit minus the count but never below 0, reset one window after the row's start. It is a function of the table, so the table is unchanged |
| RateLimit.AfterIncrement | src/lib/rate-limit.ts:54-86 | with a found row, only that row's count goes up by one; otherwise exactly one row is appended, with count 1 starting now |
| RateLimit.IncrementKeepsAtMostOne | src/lib/rate-limit.ts:62-85 | under sequential use an increment keeps at most one current row per (ip, action), which the `.single()` lookups rely on |
| RateLimit.AtMostOneAsTimePasses | src/lib/rate-limit.ts:22-31 | the at-most-one invariant survives time moving forward |
| RateLimit.IncrementsAccumulate | src/lib/rate-limit.ts:71-85 | starting with no current row, n increments inside the first one's window produce one new row with count n, starting at the first increment |
| RateLimit.CheckSeesAccumulatedRow | src/lib/rate-limit.ts:33-42 | a check inside the window of the accumulated row reports that row's count against the limit |
| RateLimit.LimitReachedAfterLimitIncrements | src/lib/rate-limit.ts:33-85 | after `limit` increments inside one window, the next check in that window reports limited, with 0 remaining and the reset one window after the first increment |
| RateLimit.LastCallAllowed | src/lib/rate-limit.ts:33-85 | after `limit - 1` increments the check is not limited and reports 1 remaining |
| RateLimit.FreshWindowAfterExpiry | src/lib/rate-limit.ts:22-48 | once the window has passed, the old row no longer counts: not limited, the full limit remaining, reset one window from the check |
| RateLimit.RateLimitTable.Increment | src/lib/rate-limit.ts:54-86 | the table becomes `AfterIncrement` of the old table, and the at-most-one invariant is preserved |
| RateLimit.GetClientIp | src/lib/rate-limit.ts:91-104 | a non-empty X-Forwarded-For gives its first comma-separated entry, trimmed (no comma, no outer white space); else a non-empty X-Real-IP is returned as it is; else "127.0.0.1" |
| MockDb.Get | src/lib/mock-db.ts:15-21 | `Map.get` finds a value exactly for the keys present |
| MockDb.Set | src/lib/mock-db.ts:10-11 | `Map.set` makes the key hold the value and changes no other key; a new key goes last in iteration order, an existing key keeps its place; well-formedness is kept |
| MockDb.Created | src/lib/mock-db.ts:9-13 | after `createCard` the card is found under its id and under its share id, and no other key changes |
| MockDb.Merge | src/lib/mock-db.ts:27 | the merged record takes every field the update gives and keeps every other field; `updated_at` is always the new time, even when the update supplies one |
| MockDb.MergeTwice | src/lib/mock-db.ts:27 | two merges equal one merge of the combined update, and repeating a merge changes nothing |
| MockDb.MergeNothing | src/lib/mock-db.ts:27 | an update with no keys only refreshes `updated_at` |
| MockDb.Updated | src/lib/mock-db.ts:23-31 | an absent key changes nothing and yields undefined; otherwise the merged record is stored under the key given and under the found card's share id, and is returned |
| MockDb.UpdateThroughId | src/lib/mock-db.ts:27-30 | updating through a card's own id leaves both of its keys holding the merged record; no other key and no key order changes |
| MockDb.UpdateThroughShareIdLeavesIdStale | src/lib/mock-db.ts:24-29 | updating through a share id refreshes only that entry; the entry under the primary id keeps the old record |
| MockDb.Values | src/lib/mock-db.ts:38 | `forEach` visits each key's value once, in insertion order |
| MockDb.DedupById | src/lib/mock-db.ts:33-46 | the cards kept have distinct ids, cover every id of the input, and all come from the input |
| MockDb.DedupKeepsFirstOccurrences | src/lib/mock-db.ts:38-45 | each card kept is the first card with its id, and the kept cards follow the order of those first occurrences |
| MockDb.AllCardsFacts | src/lib/mock-db.ts:33-46 | the listing holds one card per id, covers every stored card's id, contains only stored cards, and keeps first occurrences in visiting order |
| MockDb.FirstById | src/lib/mock-db.ts:35-45 | the `seen`/`push` loop computes exactly the first-by-id listing |
| MockDb.CardStore.GetCardById | src/lib/mock-db.ts:15-17 | finds a card exactly for the keys present in the map |
| MockDb.CardStore.GetCardByShareId | src/lib/mock-db.ts:19-21 | is the same lookup as `getCardById` on every key, so either one resolves either kind of key |
| MockDb.CardStore.CreateCard | src/lib/mock-db.ts:9-13 | returns the card; both lookups then yield it; the map is `Created` of the old one and stays well-formed |
| MockDb.CardStore.UpdateCard | src/lib/mock-db.ts:23-31 | the map and the result are `Updated` of the old map; the result is undefined exactly for an absent key, and then the map is unchanged |
| MockDb.CardStore.GetAllCards | src/lib/mock-db.ts:33-46 | lists each stored id once, covering every stored card, using the first map entry of each id, in insertion order |
| Suno.FirstJob | src/lib/suno.ts:47-48 | a single job is used as it is; for an array, its first element, and nothing for an empty array |
| Suno.NormaliseStatus | src/lib/suno.ts:79-87 | processing iff the status is streaming or processing; complete iff not that and the status is "complete" or there is a non-empty audio URL; failed iff neither of those and the status is "error" or there is a non-empty error; pending otherwise |
| Suno.ProcessingWinsOverAudio | src/lib/suno.ts:81-84 | a streaming or processing job is processing even when it already has an audio URL |
| Suno.GetSongStatus | src/lib/suno.ts:61-97 | an HTTP error gives the provider's status and text; an empty array is an error; otherwise id, audio_url, image_url, duration and error pass through unchanged, with the normalised status |
| Suno.OnlyFirstJobCounts | src/lib/suno.ts:45-56 | for both calls, only the first job of an array matters, and a one-job array reads like the job alone |
| Suno.RequestBody | src/lib/suno.ts:32-37 | prompt, tags and title are passed on; `make_instrumental` is true only when given as true |
| Suno.GenerateCustomSong | src/lib/suno.ts:25-56 | an HTTP error gives the provider's status and text; an empty array is an error; otherwise id, audio_url and error pass through, and a missing or empty status becomes "pending" |
| Suno.StyleInfo | src/lib/suno.ts:102-151 | each entry's `id` is its own key |
| Suno.LookupStyle | src/lib/suno.ts:102-151 | the table has an entry exactly for the eight style keys, and each entry's `id` is the key looked up |
| Suno.EightStyles | src/lib/suno.ts:102-151 | there are eight styles, each listed once, with distinct keys |
| Validators.NameMessages | src/lib/validators.ts:9-13 | no issue iff the name is given, is 1 to 50 UTF-16 units long, and is not profane; a missing name yields zod's required issue; a profane name's last issue is "Please use appropriate language" |
| Validators.RecipientNameMessages | src/lib/validators.ts:9-13 | recipientName is accepted iff its length is 1 to 50 and it is not profane |
| Validators.SenderNameMessages | src/lib/validators.ts:56-60 | senderName is accepted iff its length is 1 to 50 and it is not profane |
| Validators.TooLongElements | src/lib/validators.ts:16 | one too-big issue per element longer than 30 |
| Validators.ListMessages | src/lib/validators.ts:15-23 | a list is accepted iff it is given, has 1 to 5 elements, and each element has length at most 30 |
| Validators.TraitsMessages | src/lib/validators.ts:15-18 | personalityTraits is accepted iff it has 1 to 5 elements, each of length at most 30 |
| Validators.InterestsMessages | src/lib/validators.ts:20-23 | interests is accepted iff it has 1 to 5 elements, each of length at most 30 |
| Validators.RelationshipMessages | src/lib/validators.ts:25-28 | relationship is accepted iff its length is 1 to 30 |
| Validators.MusicStyleMessages | src/lib/validators.ts:30-39 | musicStyle is accepted iff it is one of the style keys |
| Validators.ThemeMessages | src/lib/validators.ts:41-48 | themeId is accepted iff it is one of the theme keys |
| Validators.CustomMessageMessages | src/lib/validators.ts:50-54 | customMessage is accepted iff it is absent, or has length at most 500 and is not profane |
| Validators.EmailMessages | src/lib/validators.ts:62-66 | senderEmail is accepted iff it is absent, empty, or a valid e-mail address |
| Validators.EnumsAcceptExactlyTheirKeys | src/lib/validators.ts:30-48 | musicStyle accepts exactly the eight style keys, and themeId exactly the six theme keys |
| Validators.IssuesOf | src/lib/validators.ts:69-79 | the object's issues come from fields that have issues, and there are none iff no field has any |
| Validators.FlattenKeys | src/app/api/cards/route.ts:17 | `flatten().fieldErrors` has exactly the fields that have issues |
| Validators.FlattenAppendTagged | src/app/api/cards/route.ts:17 | issues of a field not seen before are filed, in order, under that field |
| Validators.FlattenGroups | src/app/api/cards/route.ts:17 | flattening issues grouped by distinct fields gives back each non-empty group under its field |
| Validators.FlattenGroupsKeys | src/app/api/cards/route.ts:17 | every field of the flattening is a field with a non-empty group |
| Validators.CardGroups | src/lib/validators.ts:69-79 | the nine fields of the schema, in schema order, all distinct |
| Validators.CardIssues | src/lib/validators.ts:69-79 | there are no issues iff every field schema accepts its field, and every issue names a schema field |
| Validators.ParseCard | src/lib/validators.ts:69-79 | `createCardSchema` succeeds iff every field schema accepts its field; on success every field is copied over, with the enumerations parsed; on failure it reports its (non-empty) issue list |
| Validators.CardFieldErrors | src/lib/validators.ts:69-79 | the field errors of a card hold, for exactly the rejected fields, the messages of that field's schema |
| Validators.NanoidCardIdIsNoUuid | src/app/api/generate-song/route.ts:8 | a 21-character id is never a UUID |
| Validators.SendEmailIssues | src/lib/validators.ts:82-85 | no issue iff cardId is a UUID and recipientEmail is a valid address; issues name only these two fields |
| Validators.ShareIdMessages | src/lib/validators.ts:88-91 | a share id is accepted iff it has exactly 12 characters, all in `[A-Za-z0-9_-]` |
| Validators.PickerOffersRejectedThemes | src/components/forms/ThemeSelector.tsx:17-118 | of the ten themes the picker offers, themeIdSchema accepts the first six and rejects neon, minimalist, cosmic and watercolor |
| CardsRoute.BuildCard | src/app/api/cards/route.ts:30-45 | the record takes the given ids and clock readings; recipient name, traits, interests, relationship, sender name and sender e-mail are copied from the validated data; song status is complete, with no job id, song URL or lyrics; an absent custom message becomes ""; style and theme are stored under their keys |
| CardsRoute.StoredCardRevalidates | src/app/api/cards/route.ts:30-45 | a stored card read back as a body passes the schema again and gives back the same data, the fields being copied one to one; an absent custom message comes back as the empty text, which needs the filter to accept "" |
| CardsRoute.PostOutcome | src/app/api/cards/route.ts:7-64 | a non-JSON body gives 500, and a rejected body gives 400 with the flattened field errors; both leave the store unchanged. An accepted body stores the built card under both generated ids, changes no other key, and answers with its id, share id and "complete" |
| CardsRoute.RejectionNamesFailingFields | src/app/api/cards/route.ts:12-21 | a rejected body leaves the store unchanged and answers with the messages of exactly the rejected fields, each under its field name |
| CardsRoute.Post | src/app/api/cards/route.ts:7-64 | the store and the answer are `PostOutcome`'s; a created card is found under both ids, with status complete |
| GenerateSongRoute.StylePrompt | src/app/api/generate-song/route.ts:80-82 | the style's prompt when the table has the key and the prompt is non-empty, otherwise "upbeat pop, birthday song, celebratory"; never empty |
| GenerateSongRoute.SongParamsFor | src/app/api/generate-song/route.ts:91-95 | the lyrics, the style prompt, the title "Happy Birthday " followed by the recipient's name, and no instrumental flag |
| GenerateSongRoute.CreatedCardIdsRejected | src/app/api/generate-song/route.ts:7-9 | the 21-character ids that card creation assigns never pass this route's UUID check |
| GenerateSongRoute.WithStatus | src/app/api/generate-song/route.ts:85-88 | an update by id changes only that card's status, and nothing when no card has that id |
| GenerateSongRoute.CloneJson | src/app/api/generate-song/route.ts:125 | cloning a request whose body has been read fails; an unread JSON body is parsed again |
| GenerateSongRoute.CleanupAsWrittenNeverMarksFailed | src/app/api/generate-song/route.ts:124-135 | as written, after a failed provider call the card remains "generating_song" |
| GenerateSongRoute.RecoverFromError | src/app/api/generate-song/route.ts:123-132 | as intended: the card named by the request body is marked failed, and no other card changes |
| GenerateSongRoute.RateLimitComesFirst | src/app/api/generate-song/route.ts:13-32 | a limited client gets 429 with the check's remaining count and reset time; no table changes and nothing is sent; the answer depends on no table but the rate table |
| GenerateSongRoute.ChecksInOrder | src/app/api/generate-song/route.ts:34-77 | the first failing check decides the answer, with the tables unchanged and nothing sent: non-JSON body 500, invalid card id 400, unknown card 404, existing song 200 with its URL, no lyrics 400 |
| GenerateSongRoute.GenerationPath | src/app/api/generate-song/route.ts:79-141 | the provider receives the lyrics, the style prompt and the birthday title. On success the card is generating_song with the provider's job id, one processing job row is added, the counter rises once, and the answer is the job id. On failure the cleanup as written cannot re-read the body, so the card stays generating_song, no job or counter changes, and the answer is 500. Other cards never change |
| GenerateSongRoute.PostOutcome | src/app/api/generate-song/route.ts:11-142 | the handler as written: no card is added or removed; the job table and the rate counter change only when the answer is the provider's job id; a request goes to the provider exactly on success or on a provider failure |
| GenerateSongRoute.IntendedRecoveryMarksFailed | src/app/api/generate-song/route.ts:120-135 | on a failed provider call the handler as written leaves the card generating_song, while the intended recovery applied to the same tables marks it failed and changes no other card |
| GenerateSongRoute.SongDatabase.Post | src/app/api/generate-song/route.ts:11-142 | the handler's writes, made one by one, with the cleanup as written, leave the tables, the answer and the provider request equal to `PostOutcome` |
| TagInput.AddKeepsBoundAndNoDuplicates | src/components/ui/TagInput.tsx:42-48 | a tag that passes the guard keeps the list within maxTags and free of duplicates |
| TagInput.Without | src/components/ui/TagInput.tsx:53-55 | the filter drops exactly the element at the index, and changes nothing for an out-of-range index |
| TagInput.WithoutKeepsOthers | src/components/ui/TagInput.tsx:53-55 | removal keeps the other tags in order, shortens the list by one, and introduces no duplicate |
| TagInput.TagInputState.constructor | src/components/ui/TagInput.tsx:25-29 | the editor starts with an empty input; maxTags defaults to 5 and maxLength to 30 |
| TagInput.TagInputState.SetInput | src/components/ui/TagInput.tsx:105 | typing replaces the input and leaves the tags |
| TagInput.TagInputState.AddTag | src/components/ui/TagInput.tsx:40-51 | when the trimmed text is non-empty, not yet a tag, fits in length and the list has room, it is appended and the input cleared; otherwise nothing changes. The bound and distinctness are preserved |
| TagInput.TagInputState.RemoveTag | src/components/ui/TagInput.tsx:53-55 | the list becomes the filter result; the input stays; distinctness is preserved |
| TagInput.TagInputState.HandleKeyDown | src/components/ui/TagInput.tsx:31-38 | Enter performs `addTag`; Backspace on an empty input with tags removes the last tag; any other key or state changes nothing |
| CreateWizard.IndexOf | src/app/create/page.tsx:30 | every step is found in `STEPS`, at exactly one position |
| CreateWizard.Forward | src/app/create/page.tsx:56-59 | the next step one position on, or the same step on the last |
| CreateWizard.Backward | src/app/create/page.tsx:63-66 | the previous step one position back, or the same step on the first |
| CreateWizard.ForwardBackward | src/app/create/page.tsx:53-67 | back undoes forward except on the last step, and forward undoes back except on the first |
| CreateWizard.WalkThrough | src/app/create/page.tsx:14-20 | four moves forward lead from occasion to preview; there is no step past either end |
| CreateWizard.ErrorsOverContents | src/app/create/page.tsx:32-48 | the checks add exactly the keys of the unfilled fields, each with its check's message, and keep the other keys |
| CreateWizard.RequirementKeysDistinct | src/app/create/page.tsx:35-47 | no step checks a field twice |
| CreateWizard.StepErrorsExact | src/app/create/page.tsx:32-51 | a step's error map holds exactly its unfilled fields, each with its message, so the step validates iff all of its fields are filled |
| CreateWizard.DetailsAndPreview | src/app/create/page.tsx:37-47 | the details step validates iff both names and the relationship are non-empty and there is at least one trait and one interest; the preview step always validates |
| CreateWizard.StepErrorsUnfold | src/app/create/page.tsx:35-47 | a step's error map is its checks applied one after another, in the order written |
| CreateWizard.FieldErrors | src/app/create/page.tsx:73-77 | the loop over the issues builds the map of last messages |
| CreateWizard.LastMessageOfEachField | src/app/create/page.tsx:73-77 | the error map has exactly the fields of the server's flattening, and each holds the last of that field's messages: the last issue wins |
| CreateWizard.PreviewOccasion | src/app/create/page.tsx:118 | the chosen occasion when non-empty, otherwise "birthday" |
| CreateWizard.CheckStep | src/app/create/page.tsx:32-48 | the field-by-field checks build exactly the step's error map |
| CreateWizard.SubmitErrorsMeaning | src/app/create/page.tsx:71-80 | there are submit errors iff the schema rejects the form; they are then never empty and have exactly the fields of the flattened issues |
| CreateWizard.CheckSubmit | src/app/create/page.tsx:71-80 | the schema check and the issue loop give the submit errors |
| CreateWizard.Wizard.constructor | src/app/create/page.tsx:24-26 | the wizard starts at occasion, with an empty form and no errors |
| CreateWizard.Wizard.SetFormData | src/app/create/page.tsx:186-216 | the form components replace the form data; the step and the errors stay |
| CreateWizard.Wizard.ValidateStep | src/app/create/page.tsx:32-51 | the error map is replaced, not added to, by the step's errors; the result is true iff that map is empty |
| CreateWizard.Wizard.HandleNext | src/app/create/page.tsx:53-60 | the errors become the current step's; only when they are empty does the step move forward, and never past the last |
| CreateWizard.Wizard.HandleBack | src/app/create/page.tsx:62-67 | moves one step back without validating, never before the first; errors and form stay |
| CreateWizard.Wizard.HandleSubmit | src/app/create/page.tsx:69-80 | a rejected form replaces the error map with the submit errors and sends nothing; an accepted form is sent as it is, with the errors unchanged |

## Left out

- I/O: the Supabase client, the provider `fetch` calls, `request.json()`,
  `nanoid`, `new Date()` and `Date.now()`. The tables are values or class
  fields. The provider's reply, the ids and the clock readings are
  parameters.
- The `bad-words` filter and zod's e-mail regular expression are the
  parameters `isProfane` and `isEmail`.
- zod's default messages (required, too big, invalid enum value, invalid
  UUID) are kept as issue kinds, not as their English text. The issue order
  follows zod 3: fields in schema order; a string's checks in order, the
  refinement still running after a failed length check; an array's size
  checks before its elements.
- Request bodies are JSON objects whose fields are absent or of the right
  JSON type. A field of the wrong type, a non-object body and a field set to
  `undefined` are not modelled.
- An element issue's path is kept only down to the field name, which is all
  that `flatten()` and the wizard read.
- Rate-limit rows are identified by position. `update(...).eq('id', ...)` on
  the found row is an update of that position.
- Concurrency: the check-then-increment race between simultaneous requests.
  The model is sequential.
- Database errors on writes, database defaults for inserted rows, and the
  job row's timestamps, which are one `stamp` parameter.
- `src/lib/openai.ts`, `src/lib/resend.ts` and the send-card and
  generate-lyrics routes are not part of this model.
- Presentation is not part of this model: the theme components, the
  selectors, the card preview, the progress bar, and the JSX of the tag
  editor and the wizard.
- `preventDefault` and React re-rendering. In the tag editor, `value` and
  `onChange` are one `tags` field that the methods replace.
- The rest of `handleSubmit`: the `fetch` to `/api/cards`, the
  `isSubmitting` and `submitError` flags, and navigation. `HandleSubmit`
  returns the form it would send.
- The occasion is opaque text: `OCCASIONS` is not part of this model, and
  the header's lookup of `OCCASIONS[...]` is left out with it.
- GenerateSongRoute.StylePrompt: follows the `||` of the source exactly. The
  fact that every prompt in the table is non-empty, so that the fallback is
  taken exactly for unknown styles, is not proved. Its literals are too long
  for the verifier to unfold.
- `generate-song` rejects the 21-character ids that `cards` creates,
  because it checks for a UUID. The theme picker offers four themes that
  `themeIdSchema` rejects. Both are modelled as written and stated as lemmas
  (`CreatedCardIdsRejected`, `PickerOffersRejectedThemes`). No end-to-end
  flow from card creation to song generation is claimed.
- A body that is not JSON makes `request.json()` throw; the song route then
  answers 500 from its catch block, and so does the cards route.
- RateLimit.CheckRateLimit is a function. That it leaves the table
  unchanged follows from its form and is not a separate contract.

## Findings

| source | as written | input that shows it | evidently intended | confidence | as-written member | corrected member |
|---|---|---|---|---|---|---|
| src/app/api/generate-song/route.ts:124-132 | The catch block re-reads the body with `request.clone().json()`. Under the Fetch standard, cloning a request whose body has already been read throws. The error lands in the empty inner catch, so the card is never marked failed. | A card with lyrics and no song, when the provider answers with a non-2xx status. The card was set to generating_song just before the call, and stays so. | Mark the card named in the already-parsed body as failed, then answer 500 | not executed | GenerateSongRoute.CleanupAsWrittenNeverMarksFailed | GenerateSongRoute.IntendedRecoveryMarksFailed |
