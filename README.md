# Retrieval backbone of the weekly-meeting chat server, in Dafny

The server answers chat questions with a language-model completion. It grounds that completion in a process-wide list of `{text, embedding}` records (the vector store), the metadata of uploaded weekly-meeting transcripts, and an optional web search. This project models the rules around those calls and proves properties of the model:

- **Vector store** (`server/vectorStore.ts`): a class `VectorStore.Store` with the record list and its JSON snapshot.
  - `loadVectors`, `saveVectors`, `addVector` are methods.
  - `search` is a function over an abstract score, ranked by a stable descending sort (module `Ranking`).
- **Chunker** (`chunkText`, identical in `server/index.ts` and `server/ingest.ts`): a loop proved against a window function (module `Chunking`).
- **Week number** (`getWeekNumber`): day-number arithmetic over integer civil dates. It is proved equal to the ISO 8601 week number (ISO 8601:2004, section 4.1.4: week 1 is the week with the year's first Thursday). Module `Calendar`.
- **Handlers of `server/index.ts`**:
  - `Server.Server`: chat context assembly and the Q&A write-back, transcript upload, the capped upload history, `/api/weekly`.
  - `Accounts.AccountFiles`: the whitelist, register and login.
- **Batch ingestion** (`server/ingest.ts`): the extension filter and the nested loops that append one record per chunk and save once. Module `Ingest`.
- **Web-search text** (`server/webSearch.ts`): the `+=` steps that build the result string, and the price fallback. Module `WebSearch`.
- **Demo login** (`src/pages/LoginPage.tsx`): the display name and the admin flag derived from the email. Module `LoginPage`.

Foreign calls are parameters of the model:

- The embedding call is `embed: string -> Option<Embedding>`; `None` means the call threw.
- The completion call, the summarising call's parsed fields, the instant-answer and price responses, `toLocaleDateString`, bcrypt's compare and JWT signing are also parameters.
- Clock readings (`Date.now()`, `new Date()`) are passed in as values.
- Each JSON file is an `Option` field. `None` means the file is missing or does not parse, which is the case the source's `try { … } catch { return fallback }` readers handle.

Embedding failures are handled differently in two places. `/api/transcripts` catches and skips a failing chunk (`server/index.ts:376-384`). The batch job in `server/ingest.ts` has no `try` around `embedText`, so there the first failure ends the job before `saveVectors`. `Ingest.Ingest` models that.

## Model

| member | source | states |
|---|---|---|
| Chunking.ChunkText | server/index.ts:138-146 | the while loop that pushes `text.slice(start, start + size)` and advances `start` produces exactly the windows `Chunks(text, size)` |
| Chunking.Chunks | server/ingest.ts:33-41 | the number of chunks is the ceiling of the text's length divided by `size`: the least count whose windows cover the text |
| Chunking.ChunksConcat | server/index.ts:138-146 | the chunks, concatenated in order, give back the text |
| Chunking.ChunksLengths | server/ingest.ts:33-41 | every chunk but the last is `size` long, and the last is 1 to `size` long |
| Chunking.ChunksEmpty | server/index.ts:138-146 | no chunks if and only if the text is empty |
| Calendar.GetWeekNumber | server/index.ts:97-103 | `getWeekNumber` is in 1..53 for every valid date, and equals the ISO 8601 week number of the date within every ISO week-numbering year that holds it |
| Calendar.SameWeekSameNumber | server/index.ts:97-103 | all seven days Monday to Sunday of one week get the same number, also across a change of year |
| Calendar.WeekOfDayIsIso | server/index.ts:99-102 | the Thursday shift and the division by 7 count weeks from the ISO year's first Thursday |
| Calendar.WeekOfDay | server/index.ts:99-102 | the Thursday shift and the `Math.ceil(... / 7)` yield 1..53 for any day of any year |
| Calendar.SameWeekOfDay | server/index.ts:99-102 | days sharing a Monday get the same result from the arithmetic |
| Calendar.ThursdayOfWeek | server/index.ts:99-100 | the weekday with Sunday counted as 7 is the ISO weekday (Monday 1 … Sunday 7), and `day + 4 - dayNum` is that week's Thursday |
| Calendar.DayFromYearFormula | server/index.ts:98 | counting days year by year from 1970 agrees with the closed form behind `Date.UTC` |
| Calendar.DayInYear | server/index.ts:98 | the day number of a valid date lies inside its own year |
| Calendar.YearOf | server/index.ts:101 | the year found for a day (`getUTCFullYear` of the shifted day) is the one whose span holds it |
| Ranking.Rank | server/vectorStore.ts:65 | the insertion sort lists each of the first `n` positions exactly once, each ranked ahead of every later one |
| Ranking.RankAllPermutation | server/vectorStore.ts:65 | the sorted order is a permutation of the positions |
| Ranking.RankAllOrdered | server/vectorStore.ts:65 | keys never rise along the order, and equal keys keep their original order, as a stable sort leaves them |
| Ranking.RankAllTopPrefix | server/vectorStore.ts:65-66 | no position left out of the first `m` has a higher key than one inside them |
| VectorStore.Store.AddVector | server/vectorStore.ts:34-36 | the record is appended at the end and earlier records are unchanged |
| VectorStore.Store.LoadVectors | server/vectorStore.ts:18-27 | the list becomes the snapshot's records; a missing or unparsable snapshot gives an empty list instead of an error |
| VectorStore.Store.SaveVectors | server/vectorStore.ts:29-32 | the snapshot becomes the encoding of the whole current list |
| VectorStore.DecodeEncode | server/vectorStore.ts:18-32 | decoding what `saveVectors` writes gives back the same records in the same order |
| VectorStore.Store.SaveThenLoad | server/vectorStore.ts:18-32 | saving then loading leaves the list as it was |
| VectorStore.Store.Search | server/vectorStore.ts:58-67 | an empty store answers `[]` without embedding; otherwise failure happens exactly when the query's embedding fails, and the answer is the top `k`; the store is only read |
| VectorStore.TopK | server/vectorStore.ts:65-66 | for `k >= 0` the answer has exactly `min(k, n)` texts |
| VectorStore.TopKRanking | server/vectorStore.ts:61-66 | the answer's texts come from distinct records, in non-increasing score order with ties in store order, and no record left out scores above one returned |
| VectorStore.Embedded | server/index.ts:374-385 | the embed-and-skip loop adds at most one record per text |
| VectorStore.EmbeddedSpec | server/index.ts:374-385 | each added record is one of the texts with its own embedding; when no embedding fails, every text is added, in order |
| VectorStore.EmbeddedKeepsSucceeded | server/index.ts:376-384 | the catch-and-skip loop keeps exactly the texts whose embedding succeeds, in their order (the front-to-back filter `Succeeded`), one record each, with that text's embedding |
| VectorStore.Restored | server/vectorStore.ts:18-27 | a missing snapshot restores nothing, and any record restored comes from decoding the snapshot |
| Server.WeekOfDate | server/index.ts:441 | the week number stored with a transcript is in 1..53 |
| Server.WithEntry | server/index.ts:81-95 | the new entry is first, the previous entries follow in their order, and the history is cut to at most 100 entries |
| Server.Server.AddToUploadHistory | server/index.ts:81-95 | the history file becomes the previous history with the new entry in front, capped at 100 |
| Server.TimeKeys | server/index.ts:453 | one sort key per transcript: its date's time |
| Server.PickAt | server/index.ts:453 | picking by positions yields the records at those positions |
| Server.SortedByDate | server/index.ts:453 | the sorted list has the same length, holds only input records, and lists them latest first |
| Server.SortedByDateSpec | server/index.ts:453 | sorting the transcripts rearranges them (every input used once), latest first, with equal dates keeping their order |
| Server.LatestFirst | server/index.ts:453 | the first transcript after sorting is at least as recent as every transcript |
| Server.Server.Weekly | server/index.ts:501-505 | `/api/weekly` answers 404 exactly when there are no transcripts, and otherwise the first stored one |
| Server.Question | server/index.ts:278 | the question is the last message's content, or "" when there is none |
| Server.NeedsSearch | server/index.ts:302-306 | defined as the lower-cased question including one of the five keywords; `NeedsSearchWords` restates it over the keyword list |
| Server.Header | server/index.ts:295 | the transcript line opens with "[IMPORTANT CONTEXT: The most recent weekly meeting was on " and closes with the bracket and a blank line |
| Server.ChatContext | server/index.ts:281-317 | defined as the header (when transcripts exist) plus the joined hits, plus the web block when searched for and non-empty; `ContextOrder` proves the order of the parts |
| Server.NeedsSearchWords | server/index.ts:278-306 | web search runs exactly when the lower-cased last message contains one of "price", "latest", "today", "current", "now" |
| Server.ContextOrder | server/index.ts:281-317 | the context is the transcript header (when transcripts exist), then the hits joined by `\n---\n`, then the web results, only when searched for and non-empty |
| Server.Server.BuildContext | server/index.ts:278-317 | the reassignments of `context` yield the context function of the question and the current state |
| Server.Server.Chat | server/index.ts:272-355 | no messages array: 400 and the store is untouched; completion failure: model error and the store is untouched; success: the answer, plus exactly one appended and saved Q&A record when its embedding succeeds, and none otherwise |
| Server.TranscriptDate | server/index.ts:364 | the given date when it is a non-empty string, otherwise the clock's reading, as the falsy fallback `date or now` does |
| Server.SummaryText | server/index.ts:389-394 | the summary starts with the intro, the date and the topics heading, ends with the fixed footer, and is at most 2000 characters longer than those parts |
| Server.Prefix | server/index.ts:392 | `slice(0, n)` is a prefix of `s` whose length is the smaller of `n` and the length of `s` |
| Server.MakeMeta | server/index.ts:408-452 | each default of the metadata is replaced by the summary's field only when that field had the expected type |
| Server.TranscriptRecordCount | server/index.ts:374-405 | a 2000-character transcript whose embeddings succeed adds exactly four records: three chunks and the summary |
| Server.Server.AddEmbedded | server/index.ts:374-385 | the loop appends the records of the texts whose embedding succeeded, in order, behind the existing records |
| Server.Server.AddTranscriptRecords | server/index.ts:373-405 | the chunk records, then the summary record, are appended, and the snapshot is saved once |
| Server.Server.RecordTranscript | server/index.ts:439-466 | the metadata list becomes the old list plus the new record, sorted latest first, and the upload history gains the transcript entry; afterwards `/api/weekly` returns a record at least as recent as the new one and every earlier one |
| Server.Server.IngestTranscript | server/index.ts:358-466 | missing text: 400 and nothing changes; otherwise the document is written, the chunk and summary records are appended and saved, the metadata list grows by the new record and stays sorted, and the history gains its entry; `/api/weekly` then answers with a record at least as recent as every earlier one |
| Accounts.WithEmail | server/index.ts:207-213 | the whitelist gains the lower-cased email at most once, keeps its old entries in front, and stays free of repeats |
| Accounts.WithEmailIdempotent | server/index.ts:207-213 | adding an email twice gives the same list as adding it once |
| Accounts.AccountFiles.Whitelist | server/index.ts:188-195 | `readWhitelist().allowedEmails`: the stored list, or `["admin@qom.com"]` when the file cannot be read |
| Accounts.AccountFiles.IsEmailWhitelisted | server/index.ts:202-205 | defined as the lower-cased email being on the list |
| Accounts.AccountFiles.WhitelistedIgnoresCase | server/index.ts:202-205 | the check gives the same answer for an email and for its lower-cased or upper-cased form |
| Accounts.AccountFiles.AddToWhitelist | server/index.ts:207-213 | the file is rewritten only when the lower-cased email is new, and afterwards the email is whitelisted |
| Accounts.AccountFiles.AddRoute | server/index.ts:531-538 | a missing email gives 400 and no write; otherwise the email is added and 200 is returned |
| Accounts.Uploaded | server/index.ts:546-551 | the bulk loop as a fold over the array: each accepted string whose lower-cased form is not yet listed is appended |
| Accounts.UploadedSpec | server/index.ts:546-551 | the bulk loop keeps the old list in front, appends only lower-cased accepted strings, never adds a duplicate (even within one batch), and lists every accepted entry |
| Accounts.AccountFiles.UploadRoute | server/index.ts:540-554 | a non-array gives 400 and no write; otherwise the list becomes the loop's result, written once, and the message counts every element of the array |
| Accounts.FindUser | server/index.ts:240 | the first user whose email matches exactly (case-sensitively), or none when no user matches |
| Accounts.AccountFiles.Register | server/index.ts:228-247 | missing field: 400; not on the whitelist after lower-casing: 403; exact duplicate: 400; registration happens exactly when none of these applies, and then exactly one user is appended; otherwise the users file is untouched |
| Accounts.AccountFiles.Login | server/index.ts:250-264 | a token is issued exactly when the first user with exactly this email has a hash the password verifies against, and it is the signature of that email |
| Ingest.LastDot | server/ingest.ts:15 | the index of the last '.' of the name, or -1 when it has none |
| Ingest.ExtName | server/ingest.ts:15 | a non-empty extension starts with '.', has no other '.', ends the name, and is shorter than the name |
| Ingest.IngestibleIff | server/ingest.ts:15-16 | a file passes the filter exactly when its name ends in ".txt" or ".md" with at least one character before the extension |
| Ingest.AllChunksText | server/ingest.ts:13-25 | the chunks the job embeds, concatenated, are the contents of the passing files in listing order; other files contribute nothing |
| Ingest.AllChunksPrefix | server/ingest.ts:13-25 | later files only add chunks after those of earlier files |
| Ingest.AddChunks | server/ingest.ts:21-24 | the inner loop appends one record per chunk, in order, up to the first chunk whose embedding fails |
| Ingest.IngestFile | server/ingest.ts:14-25 | one pass of the outer loop extends the records by the file's chunks, or stops at the first failing chunk of all files |
| Ingest.Ingest | server/ingest.ts:10-29 | the loaded records stay in front; the job completes exactly when every chunk embeds, and then holds one record per chunk in file and chunk order, saved once; otherwise it stops at the first failing chunk with the snapshot unsaved |
| Ingest.AppendedInOrder | server/ingest.ts:21-24 | when every embedding succeeds, the store grows by exactly the chunk count, one record per chunk in order |
| WebSearch.SearchResult | server/webSearch.ts:3-81 | defined as the instant-answer text, replaced by the price lines when blank and the query asks for prices, by the placeholder when still empty, and "" when the request fails; the lemmas below state its properties |
| WebSearch.Search | server/webSearch.ts:3-81 | the method's `+=` steps and fallback yield the result function of the query and the responses |
| WebSearch.FormatInstant | server/webSearch.ts:17-40 | the answer, abstract, source and related-topic steps yield the instant-answer text |
| WebSearch.AppendTopics | server/webSearch.ts:35-39 | the `forEach` appends one numbered line per topic with text |
| WebSearch.FormatPrices | server/webSearch.ts:60-69 | the fallback replaces the results with the price header and one line per listed coin |
| WebSearch.EmptyOnlyOnFailure | server/webSearch.ts:76-79 | the result is "" exactly when the request failed |
| WebSearch.PlaceholderExactly | server/webSearch.ts:43-76 | the placeholder is returned exactly when nothing was found and the price fallback did not run |
| WebSearch.FoundTextKept | server/webSearch.ts:43-76 | when the response yields non-blank text, that text is returned as it is |
| WebSearch.AnswerFirst | server/webSearch.ts:20-30 | when an answer is present, its line comes first, followed by the abstract and its source |
| WebSearch.RelatedHeaderWhenListed | server/webSearch.ts:33-34 | a non-empty topic list always brings the "Related info" header, so the fallback cannot run |
| WebSearch.PriceFallback | server/webSearch.ts:43-60 | the fallback runs exactly when the results are blank, the lower-cased query mentions "price" or "pulsechain", and the price request succeeded |
| WebSearch.TopicNumbering | server/webSearch.ts:35-39 | each of the first three topics is numbered by its position, so a topic without text leaves a gap |
| WebSearch.InstantResultsEnd | server/webSearch.ts:17-40 | any non-empty text from the response ends with a newline |
| LoginPage.FakeLogin | src/pages/LoginPage.tsx:26-33 | defined as the call `onLogin('demo-token', name, isAdmin)`; `CaseInsensitive` proves it depends only on the lower-cased email |
| LoginPage.DisplayName | src/pages/LoginPage.tsx:28-30 | defined as the local part, or "Friend", with its first character upper-cased and the rest lower-cased; `DisplayNameShape` states its shape |
| LoginPage.IsAdmin | src/pages/LoginPage.tsx:31 | defined as the lower-cased email starting with "admin" or ending with "@admin.com" |
| LoginPage.LocalPart | src/pages/LoginPage.tsx:28 | `split('@')[0]` is the longest prefix of the email without '@' |
| LoginPage.DisplayNameShape | src/pages/LoginPage.tsx:28-30 | the display name is the upper-cased first character of the local part ("Friend" when that is empty) followed by the rest lower-cased |
| LoginPage.LocalPartOfLower | src/pages/LoginPage.tsx:28-31 | lower-casing commutes with taking the local part |
| LoginPage.CaseInsensitive | src/pages/LoginPage.tsx:26-33 | the derived name and admin flag depend only on the lower-cased email |
| LoginPage.HandleSubmit | src/pages/LoginPage.tsx:32-38 | submitting always logs in with token "demo-token", whatever the tab and the password |
| Text.Contains | server/index.ts:302-306 | `includes` holds exactly when the pattern occurs at some index |

## Left out

- Cosine similarity's floating-point arithmetic, `sqrt`, and NaN on a dimension mismatch. The score is an abstract function into the reals. JavaScript's comparator `b.score - a.score` is modelled as a stable descending sort on those reals.
- JSON text itself (`JSON.parse` of raw bytes, `JSON.stringify` layout) is left out. Snapshots are `Json` values.
- A vector snapshot that parses but is not a list of records is treated as unreadable, so the store loads empty. The source would instead install whatever `JSON.parse` returned.
- Other JSON files (users, whitelist, transcripts, history) are typed `Option` fields. A file whose JSON has the wrong shape is not modelled.
- Case mapping (`toLowerCase`, `toUpperCase`) covers ASCII letters only. Strings are sequences of characters, not UTF-16 code units.
- Dates are integer civil dates with a millisecond time. Leap seconds and time zones are left out. The local calendar day of an instant is part of its parsed value.
- `Date.UTC`'s mapping of years 0-99 to 1900-1999 is left out.
- ISO date-string parsing is left out: a date string comes with what `new Date(text)` makes of it.
- `toLocaleDateString` and `toFixed` are parameters.
- Server.SortedByDate: an unparsable date sorts as time 0. In the source the comparator returns NaN there, and the resulting order is implementation-defined.
- Server.Server.IngestTranscript: the clock is read once (`now`), while the source reads it separately for the default date and for `uploadedAt`. The file name (`${Date.now()}.txt`) and the history id are parameters.
- Request fields that are present but not strings (which would make the source throw on `toLowerCase`) are left out. A body field is `Option<string>`.
- The summarising and dashboard completions, `writeDashboard`, `/api/summary`, `/api/collective`, the system prompt file and `readSystemPrompt` are not modelled. The summary's parsed fields are a parameter.
- `bootstrapAdminUser` (`server/index.ts:166-180`) is not part of this model. It runs once at start-up. It reads the users file. When no user's lower-cased email equals `ADMIN_EMAIL`, it hashes `ADMIN_PASSWORD` with bcrypt, appends that admin user and writes the users file. It then calls `addToWhitelist(ADMIN_EMAIL)`, which is modelled. The start-up ordering and the bcrypt hashing are outside the request handlers this model covers.
- Express routing, `authMiddleware`, HTTP status plumbing beyond the modelled replies, bcrypt hashing and JWT signing are left out. The hash, the compare and the signature are parameters.
- The React UI besides `fakeLogin`/`handleSubmit` is left out.
- Concurrency is left out: interleaving of requests around `addVector` and `saveVectors`, and the async suspension points.
- Ingest.Ingest: `readFileSync` failures and the directory's existence are not modelled. The listing is a sequence of names with contents.
- Ingest.ExtName follows `path.extname` for names without '/', which is all a directory listing yields.
- Chunking.ChunkText requires a positive size. With a size of zero or less, the source's loop returns `[]` on an empty text and never ends on any other text. The model does not cover those sizes. All three call sites pass 800: `server/index.ts:374`, `server/index.ts:569` and `server/ingest.ts:19`.
- The two identical copies of `chunkText` are modelled once.
- Server.ContextOrder, Accounts.WithEmailIdempotent and Server.Server.Weekly state facts that follow closely from their definitions. They are kept because the source's behaviour is exactly that. What `Weekly` returns after an upload is stated on `Server.Server.RecordTranscript`.
- The embedding call is a function of the text alone. The real call may fail on one occurrence of a text and succeed on another. So the model can never fail on a chunk whose identical text already embedded, and `Ingest.Ingest` cannot stop at a repeated chunk.
- Console logging (`console.log`, `console.warn`) is dropped. It has no effect on state or replies.
- JavaScript `Date` values are limited to ±8.64e15 ms, and a date beyond that range is an Invalid Date. The model's dates are unbounded integers.
