# A verified model of the WhatsApp business-assistant backend

The system is a FastAPI backend with the following parts:

- **Workspaces.** Each workspace has an administrator, members and up to two WhatsApp phone numbers.
- **Knowledge base.** Uploaded documents are cut into chunks, embedded, and searched to give the AI assistant context.
- **Spreadsheets.** Workbooks are rendered into text and re-chunked by table rows.
- **Message blasts.** One message goes to a list of imported phone numbers, sent in batches.
- **Message queue.** Incoming messages are processed, and retried on failure.
- **Workflows.** A qualification workflow tracks a chat's progress through numbered steps.
- **Reporting.** E-mail notifications, exports and reports of chat messages are produced as spreadsheets.

This Dafny project models the rules of that backend and proves what they promise. There is one module per service or route file:

- **Text helpers** (`Text`): Python's `strip`, `split`, `join`, `lower`, `title`, `rfind` and `str(int)`.
- **Sorting and cutting** (`Ranking`): a stable descending sort and `s[:n]`.
- **Documents:**
  - the chunker (`DocumentChunking`);
  - the store and its upload lifecycle (`DocumentStore`);
  - the grouped search (`DocumentSearch`);
  - the listing routes (`DocumentRoutes`).
- **Spreadsheets:**
  - cells (`ExcelCells`) and worksheets (`ExcelWorksheets`);
  - the row re-chunker (`ExcelChunks`);
  - the spreadsheet-aware search (`EnhancedDocuments`);
  - the helpers (`ExcelHelpers`).
- **The AI service** (`OpenAI`):
  - the embedding guard and the prompt builder;
  - the reply and its fallbacks;
  - the parsing of workflow analyses;
  - top-k search.
- **Blasts** (`MessageBlasts`, `BlastRoutes`), **the queue** (`QueueService`) and **monitoring** (`Monitoring`).
- **Workflows** (`Workflows`).
- **Access control** (`AuthHandler`, `AuthRoutes`) and the **registries**:
  - phones (`PhoneRoutes`);
  - workspaces (`WorkspaceRoutes`);
  - e-mail configurations (`EmailConfigRoutes`).
- **Reporting:**
  - the message view (`ChatMessages`);
  - notifications (`EmailNotifications`);
  - exports (`ExcelExport`) and reports (`ExcelReport`);
  - route outcomes (`Http`).

How the source is represented in the model:

- Code that updates stored records becomes a class whose fields are the collections: `DocumentService`, `BlastService`, `MessageQueue`, `WorkflowService`, `PhoneRegistry`, `WorkspaceRegistry`, `UserTable`, `NotificationStore` and `ExportLog`. Each method states the whole new state and keeps the class invariant.
- Loops become methods with invariants, proved against specification functions. Those functions carry the lemmas.
- The database is maps and sequences.
- The following are all function parameters:
  - the embedding provider, the chat-completion call and cosine similarity;
  - the JSON decoder;
  - the clock;
  - whether a spreadsheet write raised, and whether an e-mail went out.
- A route's result is an `Http.Response`: either the value it returns, or the status code and detail it raises.

Where the code does something other than what its authors evidently meant, the model does one of two things:

- For the discrepancies listed under "## Findings", it keeps the behaviour as written and proves the discrepancy. It then defines the corrected behaviour and proves the intended property about it.
- For the spreadsheet ingestion of `enhanced_document_service.py`, which fails before doing anything, it models only the intended behaviour. "## Left out" says why.

Some specification functions carry no `ensures` of their own. They are stated through the rows of the lemmas and methods about them:

- `DocumentSearch.Search` through `DocumentSearch.SearchSpec` and `DocumentSearch.SearchFindsResults`;
- `WorkspaceRoutes.NewWorkspace` through `WorkspaceRoutes.WorkspaceRegistry.CreateWorkspace`;
- `Workflows.AnalyzeMessage` through `Workflows.AnalyzeUnknownStep`;
- `OpenAI.ParseWorkflowAnalysis` through `OpenAI.ParseWorkflowAnalysisSpec`;
- `OpenAI.TopDocuments` through `OpenAI.TopDocumentsMembers`, `OpenAI.TopDocumentsOrdered` and `OpenAI.TopDocumentsAreTop`;
- `ExcelHelpers.DetectDataTypes` through `ExcelHelpers.DetectDataTypesSpec` and `ExcelHelpers.SheetTitleIsCounted`;
- `ExcelHelpers.DetectDataTypesAsWritten` through `ExcelHelpers.FormulasAsWrittenOnEveryWorksheet`;
- `EnhancedDocuments.PrepareExcelContentForEmbedding` through `EnhancedDocuments.PrepareSpec`;
- `Monitoring.AiUsagePercentage` through `Monitoring.AiUsageBounds`;
- `MessageBlasts.Percentage` through `MessageBlasts.PercentageBounds`;
- `QueueService.SuccessRate` through `QueueService.SuccessRateBounds`;
- `DocumentChunking.Chunks` through `DocumentChunking.ChunkProperties` and `DocumentChunking.ShortTextIsOneChunk`.

## Model

| member | source | states |
|---|---|---|
| AuthHandler.AdminGate | app/routes/workspaces.py:44-48 | the global-admin gate: passes exactly when the attribute reads true; an unreadable attribute escapes as a plain 500, a false one raises 403 with the route's detail |
| AuthHandler.AdminGateAsWritten | app/models/user.py:31-35 | as written the `User` model declares no `is_admin`, so the gate answers 500 to every caller, the stored admins included |
| AuthHandler.AdminGateFixed | app/routes/workspaces.py:44-48 | with the flag declared, the gate admits exactly the stored global admins and refuses every other caller with 403 |
| AuthHandler.RoleInWorkspace | app/auth/auth_handler.py:127-141 | the role is "admin" exactly for the workspace's admin, "member" exactly for a listed member who is not its admin, "none" otherwise and for a missing workspace |
| AuthHandler.VerifyWorkspaceAccess | app/auth/auth_handler.py:94-109 | access is granted exactly to the admin and the members of an existing workspace |
| AuthHandler.VerifyWorkspaceAdmin | app/auth/auth_handler.py:111-125 | admin rights only ever hold for an existing workspace, and exactly for its admin |
| AuthHandler.ChecksAgreeWithRole | app/auth/auth_handler.py:94-141 | the three checks agree: access is a role other than "none", admin is the role "admin", and admin implies access |
| AuthHandler.FindByEmail | app/auth/auth_handler.py:47 | the lookup answers the first user stored under the key, and `None` exactly when no user has it |
| AuthHandler.AuthenticateUser | app/auth/auth_handler.py:41-59 | empty credentials give no user; a user returned is active and stored under the normalised email |
| AuthHandler.AuthenticateDecision | app/auth/auth_handler.py:41-59 | login succeeds exactly when both credentials are given and the first user stored under the normalised email is active and accepts the password |
| AuthHandler.CreateAccessToken | app/auth/auth_handler.py:29-39 | the token keeps every claim of the caller except `exp` and adds none; its expiry is `now` plus the delta, or plus 15 minutes when the delta is missing or zero |
| AuthHandler.TokenLifetime | app/auth/auth_handler.py:29-39 | a token is unexpired exactly up to the end of its lifetime; one with the default lifetime is accepted for 15 minutes after issue |
| AuthRoutes.AdminCountZero | app/routes/auth.py:64-68 | no stored user is a global admin exactly when the count of `is_admin` users is zero |
| AuthRoutes.FormError | app/routes/auth.py:26-44 | the form is refused exactly when a field is empty, the password is shorter than 6 characters, or the stripped full name is shorter than 2 |
| AuthRoutes.RegisteredAppend | app/routes/auth.py:46-71 | inserting a user under an email no stored user has keeps the emails distinct and the global admins at most one |
| AuthRoutes.NormalIdempotent | app/routes/auth.py:55 | the stored email (lower-cased and stripped) is already normal, so a later lookup of it finds it |
| AuthRoutes.UserTable.constructor | app/routes/auth.py:24 | the users collection starts empty and registered |
| AuthRoutes.UserTable.Register | app/routes/auth.py:21-73 | a refused form or a taken email answers 400 and stores nothing; otherwise exactly one user is appended, with the normalised email, stripped name, no workspaces and the admin flag set exactly when no admin existed, and the table stays registered |
| AuthRoutes.FirstRegistrantIsAdmin | app/routes/auth.py:64-68 | a new user is made global admin exactly when no stored user is one; the first registrant always is |
| AuthRoutes.RegisteredUserCanLogIn | app/routes/auth.py:46-71 | a user registered active, with a password the hash accepts, can then log in under any spelling of the email that normalises the same |
| BlastRoutes.Clamp | app/routes/message_blasts.py:92-93 | `max(lo, min(hi, x))` lies in [lo, hi], is `x` inside the range and the nearer bound outside it |
| BlastRoutes.RequestPassesRangeChecks | app/routes/message_blasts.py:87-97 | the request built from any form has its batch size in [1, 50], its interval in [1, 30] and status draft, so with 1 to 1000 numbers the service refuses it exactly when the sender phone is missing, of another workspace or not connected |
| BlastRoutes.CreateBlastRoute | app/routes/message_blasts.py:34-132 | as written: 403 for a non-admin, 400 for a non-Excel name or an empty import, every other path a refusal; a request that passes every check is stored as a draft and still answered 500 |
| BlastRoutes.CreateBlastRouteIntended | app/routes/message_blasts.py:102-117 | as intended: a refusal stores nothing; a request that passes every check is stored under the next id and is scheduled for a future start, active otherwise |
| BlastRoutes.PreviewOf | app/routes/message_blasts.py:411-416 | the preview reports the list's size, is valid, and shows the list's first ten numbers (all of a shorter list) |
| BlastRoutes.PreviewRoute | app/routes/message_blasts.py:378-428 | 403 for a non-admin; a non-Excel name or an unreadable sheet answers 400 with the failure's text; otherwise the preview of the imported numbers |
| BlastRoutes.FoldStatistics | app/routes/message_blasts.py:470-487 | the loop over the status groups computes the statistics of the groups |
| BlastRoutes.LastCountWithinTotal | app/routes/message_blasts.py:474-485 | the count reported for one status is one group's count, within the total |
| BlastRoutes.LastCountsWithinTotal | app/routes/message_blasts.py:474-485 | the active and completed counts together stay within the total blasts |
| BlastRoutes.LastCountOfGroup | app/routes/message_blasts.py:482-485 | with one group per status, the count reported for a status is its group's count, and 0 when no group has it |
| BlastRoutes.StatisticsBounds | app/routes/message_blasts.py:462-492 | active plus completed never exceed the total; the success rate lies in [0, 100], is 0 without messages and, as the exact ratio, is 100 exactly when messages were sent and none failed |
| BlastRoutes.StatisticsRoute | app/routes/message_blasts.py:430-506 | as written: 403 without access; with access the unimported `timedelta` makes every call a 500 |
| BlastRoutes.StatisticsRouteIntended | app/routes/message_blasts.py:430-499 | with the import supplied: 403 without access, otherwise the statistics folded from the status groups |
| ChatMessages.Or | app/services/email_notification_service.py:197 | `d.get(key, default)` answers the default for a missing key |
| ChatMessages.PartiesSwap | app/services/email_notification_service.py:200-209 | on one chat an incoming and an outgoing message have sender and receiver swapped; the incoming sender is the customer's phone and the outgoing sender the workspace's, "Unknown" when missing |
| ChatMessages.Since | app/services/email_notification_service.py:144-147 | the window query keeps exactly the workspace's messages stamped at or after the start (`$gte`), and no more messages than given |
| ChatMessages.SinceMonotone | app/services/email_notification_service.py:144-147 | a later start of the window never finds more messages |
| DocumentChunking.LastSentenceMark | app/services/document_service.py:237-241 | the largest of the three `rfind`s is -1 or an index in [start, end) |
| DocumentChunking.LastSentenceMarkSpec | app/services/document_service.py:237-241 | the index found holds '.', '!' or '?', and no sentence mark lies after it in the window |
| DocumentChunking.WindowEnd | app/services/document_service.py:232-249 | a window ends past its first third and never beyond its 800-character width |
| DocumentChunking.CutRules | app/services/document_service.py:235-249 | a window reaching the end of the text is not cut; otherwise it ends just after the last sentence mark beyond its first third, failing that at the last space beyond it, failing that at full width |
| DocumentChunking.SplitIntoChunks | app/services/document_service.py:222-264 | the loop computes the chunk list of the stripped text: nothing for a text under 50 characters, at most 101 chunks, each longer than 20 characters and at most 800, each a stripped window of the text; the chunks are the kept pieces of the windows at `WindowStarts`, in text order, of every window unless the cap stopped the loop at 101 chunks |
| DocumentChunking.WindowAdvances | app/services/document_service.py:253-254 | every window moves the start forward (by at least 167 characters), so the loop terminates |
| DocumentChunking.PieceIsWindow | app/services/document_service.py:251 | the stripped slice of a window is at most 800 characters and is a window of the text |
| DocumentChunking.ChunksFromLengths | app/services/document_service.py:251-261 | every chunk kept is longer than 20 characters and at most 800, and the limit check lets at most 101 through |
| DocumentChunking.ChunksFromWindows | app/services/document_service.py:251-261 | every chunk kept is a stripped window of the text |
| DocumentChunking.StartsFrom | app/services/document_service.py:231-258 | the windows read from a start begin with that start |
| DocumentChunking.StartsFromSteps | app/services/document_service.py:231-258 | from any start: every start lies in the text, each next start is the previous window's end less 100 and greater than the previous start, and the last window runs at least 100 characters past the end of the text |
| DocumentChunking.StartsFromCovers | app/services/document_service.py:231-258 | every position of the text from the start on lies in one of the windows read from there |
| DocumentChunking.WindowStartsSpec | app/services/document_service.py:228-258 | the windows come in text order and cover it: the first starts at 0, each next one starts exactly 100 characters before the previous one ends, so starts strictly increase and neighbours overlap, the last reaches the end of the text, and every position lies in some window |
| DocumentChunking.ChunksFromStarts | app/services/document_service.py:231-262 | the chunks collected from a start are the pieces kept from a prefix of the windows from there, in order, and the prefix stops short only when the cap of 101 chunks was reached |
| DocumentChunking.ChunksInTextOrder | app/services/document_service.py:222-264 | the chunks are exactly the pieces longer than 20 characters of the first m windows, in text order, where m is every window unless the cap stopped the loop once 101 chunks were collected |
| DocumentChunking.ChunkProperties | app/services/document_service.py:222-264 | at most 101 chunks, each of 21 to 800 characters and a stripped window of the stripped text |
| DocumentChunking.ShortTextIsOneChunk | app/services/document_service.py:222-264 | a stripped text of 50 to 700 characters comes back whole as its one chunk |
| DocumentChunking.NearlyFullWindowIsReadTwice | app/services/document_service.py:251-257 | a stripped text of 701 to 800 characters fits one window, yet the overlap restarts the loop at position 700, so its tail comes back as a second chunk when that is longer than 20 characters |
| DocumentChunking.SuffixesExclusive | app/services/document_service.py:637-656 | the five suffixes exclude one another (".xlsx" does not end in ".xls") |
| DocumentChunking.GetDocumentType | app/services/document_service.py:642-656 | each type is chosen exactly when the lower-cased name ends with its suffix, TXT also when no suffix matches |
| DocumentChunking.ValidTxtIsTxtSuffix | app/services/document_service.py:637-656 | a valid upload whose type comes out TXT is a ".txt" file |
| DocumentRoutes.Keep | app/routes/documents.py:33-45 | a filter keeps exactly the documents that pass its criteria, and never more documents than given |
| DocumentRoutes.KeepKeep | app/routes/documents.py:33-45 | filtering twice is filtering once on both sets of criteria |
| DocumentRoutes.KeepNothing | app/routes/documents.py:33-45 | a filter with no criteria keeps the list as it is |
| DocumentRoutes.Active | app/routes/documents.py:33-45 | a document passes the criteria the query switches on exactly when it matches every given parameter |
| DocumentRoutes.StepIsKeep | app/routes/documents.py:33-45 | a filter step applied only when its parameter is given is the filter on that parameter's criterion, or on none |
| DocumentRoutes.FilteredIsOneFilter | app/routes/documents.py:33-45 | the three passes keep, in their order, exactly the documents that match the query |
| DocumentRoutes.KeepSubsequence | app/routes/documents.py:33-45 | a filter keeps its documents in their order |
| DocumentRoutes.SubsequenceTrans | app/routes/documents.py:33-49 | a subsequence of a subsequence is a subsequence |
| DocumentRoutes.PrefixSubsequence | app/routes/documents.py:49 | a prefix keeps the order |
| DocumentRoutes.RunSubsequence | app/routes/documents.py:49 | a contiguous run keeps the order |
| DocumentRoutes.SliceIndex | app/routes/documents.py:49 | a slice bound resolves as Python resolves it: a negative one counts from the end and both are clamped into [0, len] |
| DocumentRoutes.PageBounds | app/routes/documents.py:48-49 | with a non-negative offset and limit the page is the run from the offset, at most `limit` long, and empty past the end |
| DocumentRoutes.ListDocuments | app/routes/documents.py:13-52 | a limit above 100 or a negative offset answers 422; no access answers 403; otherwise the page of the filtered documents |
| DocumentRoutes.ListingSound | app/routes/documents.py:13-52 | every listed document is one of the workspace's and matches the query, in the service's order |
| DocumentRoutes.ListingComplete | app/routes/documents.py:13-52 | the first page of a limit at least the number of documents lists every matching document |
| DocumentRoutes.SliceSubsequence | app/routes/documents.py:49 | a Python slice is a subsequence, whatever its bounds |
| DocumentRoutes.NegativeLimitListsMore | app/routes/documents.py:19 | as written the bounds let `limit = -1` through, and the slice then counts its end from the back: with three matching documents the page holds two |
| DocumentRoutes.ListDocumentsIntended | app/routes/documents.py:13-52 | with a lower bound of 0 on the limit, the listing is refused for a bad query, and a page never exceeds the limit, itself at most 100 |
| DocumentRoutes.ParseTagsClean | app/routes/documents.py:118-120 | every parsed tag is non-empty, trimmed and free of commas |
| DocumentRoutes.StripCommaFree | app/routes/documents.py:120 | trimming a comma-free part leaves it comma-free |
| DocumentRoutes.SplitJoin | app/routes/documents.py:120 | splitting comma-joined comma-free parts gives the parts back |
| DocumentRoutes.CleanTagsOfClean | app/routes/documents.py:120 | trimmed non-empty tags pass through the comprehension unchanged |
| DocumentRoutes.ParseTagsOfJoined | app/routes/documents.py:118-120 | joining clean tags with commas and parsing the text gives the tags back |
| DocumentRoutes.WhitelistKeepsContentAndStatus | app/routes/documents.py:155-162 | whatever the body says, an update changes only title, description and tags; an update naming none of them changes only the update time |
| DocumentRoutes.UpdateDocumentRoute | app/routes/documents.py:130-173 | 404 for an unknown document, 403 without access to its own workspace, both storing nothing; otherwise exactly the whitelisted fields of that document are updated |
| DocumentSearch.Lookup | app/services/document_service.py:372-377 | the `$lookup` on `_id` finds a document exactly for an ObjectId key naming a stored document, never for a text key |
| DocumentSearch.HitOfSpec | app/services/document_service.py:364-421 | with the intended join, a chunk gives a hit exactly when it is in the workspace, has an embedding, joins a ready document passing the type and tag filters and reaches the threshold, and the hit is made of that chunk |
| DocumentSearch.HitsExact | app/services/document_service.py:406-421 | every hit comes from one of the chunks read, and every chunk that gives a hit contributes it |
| DocumentSearch.CollectHits | app/services/document_service.py:404-421 | the loop over the pipeline's chunks collects exactly the hits of the chunks, in order |
| DocumentSearch.IndexOfGroup | app/services/document_service.py:434 | the entry found is the first one for the document, and none is found exactly when no entry has it |
| DocumentSearch.Opened | app/services/document_service.py:434-442 | after the membership test the hit's document has an entry |
| DocumentSearch.GroupHits | app/services/document_service.py:431-459 | the grouping loop over the top chunks computes the grouping of those chunks, in first-seen order |
| DocumentSearch.FlattenUpdate | app/services/document_service.py:445-454 | adding a hit to one entry adds exactly that hit to the entries' hits |
| DocumentSearch.AddHitShape | app/services/document_service.py:456-459 | adding a hit of the entry's document keeps its maximum, total and count those of its hits |
| DocumentSearch.PlaceCases | app/services/document_service.py:431-459 | a hit joins the entry of its document, or opens a new entry at the end |
| DocumentSearch.PlaceShape | app/services/document_service.py:431-459 | one placement keeps every entry well-formed and one entry per document |
| DocumentSearch.PlaceFlatten | app/services/document_service.py:431-459 | one placement adds exactly the hit to the entries' hits |
| DocumentSearch.GroupedShape | app/services/document_service.py:431-459 | the grouping's entries are well-formed, one per document |
| DocumentSearch.GroupedHits | app/services/document_service.py:431-459 | the grouping keeps every hit exactly once: its entries hold a permutation of the hits grouped |
| DocumentSearch.GroupingSpec | app/services/document_service.py:431-459 | the grouping of the top hits: well-formed entries, one per document, holding exactly those hits |
| DocumentSearch.GroupingKeepsHits | app/services/document_service.py:431-459 | the grouping's entries hold exactly the hits grouped, counted with multiplicity |
| DocumentSearch.ScoreSumAbove | app/services/document_service.py:457 | scores that all reach a bound sum to at least the count times the bound |
| DocumentSearch.ScoreSumBelow | app/services/document_service.py:457 | scores that are all at most a bound sum to at most the count times the bound |
| DocumentSearch.RelevanceBounds | app/services/document_service.py:467 | an entry whose hits all reach the threshold has a mean between the threshold and its maximum, so its relevance lies between 0.6 * max + 0.4 * threshold and the maximum |
| DocumentSearch.DivBounds | app/services/document_service.py:459 | a mean of values in [lo, hi] lies in [lo, hi] |
| DocumentSearch.ChunksOf | app/services/document_service.py:445-454 | the chunks returned for an entry are its hits' chunks, in order, carrying the requested workspace id |
| DocumentSearch.Results | app/services/document_service.py:464-480 | one result per entry, in the entries' order |
| DocumentSearch.MakeResults | app/services/document_service.py:464-480 | the loop building the results computes one result per entry, in order |
| DocumentSearch.SearchDocuments | app/services/document_service.py:344-492 | the search with the intended join computes the search specification |
| DocumentSearch.HitsGood | app/services/document_service.py:364-421 | every hit collected with the intended join is a good hit |
| DocumentSearch.FlattenHas | app/services/document_service.py:445-454 | a hit of any entry is among the entries' hits |
| DocumentSearch.ResultOfGood | app/services/document_service.py:464-479 | an entry of good hits gives a good result: a ready document of the store, 1 to 5 chunks, a similarity at the threshold or above and a relevance within its bounds |
| DocumentSearch.ResultsDistinct | app/services/document_service.py:464-480 | results of well-formed entries name each document at most once |
| DocumentSearch.CountTwice | app/services/document_service.py:483-484 | a value at two positions is counted twice by the multiset |
| DocumentSearch.TwoPositions | app/services/document_service.py:483-484 | a value counted twice occurs at two positions |
| DocumentSearch.CountedOnce | app/services/document_service.py:483-484 | results with distinct documents are each counted once |
| DocumentSearch.PermutationDistinct | app/services/document_service.py:483-484 | re-ordering results keeps their documents distinct |
| DocumentSearch.TopGood | app/services/document_service.py:427-431 | the hits that enter the grouping (the first `limit * 5` by similarity) are good ones |
| DocumentSearch.GroupsHoldTop | app/services/document_service.py:431-459 | every hit held by an entry is one of the hits grouped |
| DocumentSearch.ResultsGood | app/services/document_service.py:464-480 | entries of good hits give good results, one per document |
| DocumentSearch.RankGroupsSpec | app/services/document_service.py:427-484 | ranking good hits gives results sorted by relevance, at most `limit`, good, one per document |
| DocumentSearch.SortAndCut | app/services/document_service.py:483-484 | sorting by relevance and cutting to `limit` keeps the results sorted, good and with distinct documents |
| DocumentSearch.DocHits | app/services/document_service.py:431-454 | the hits kept for one document are hits of that document taken from the hits given |
| DocumentSearch.MaxScoreSpec | app/services/document_service.py:438-456 | the running maximum started at 0 bounds every hit's score, is at least 0, and is 0 or some hit's score |
| DocumentSearch.DocHitsAppend | app/services/document_service.py:445-454 | one more hit joins only its own document's hits |
| DocumentSearch.DocHitsNone | app/services/document_service.py:431-454 | a document without hits keeps none |
| DocumentSearch.MaxScoreAppend | app/services/document_service.py:456 | one more hit raises the maximum to its score or leaves it |
| DocumentSearch.PlaceNewExact | app/services/document_service.py:434-442 | a hit of a document without entry opens one holding exactly that document's hits, every other entry unchanged and exact |
| DocumentSearch.PlaceOldExact | app/services/document_service.py:445-459 | a hit of a document with an entry joins that entry only, every entry still holding exactly its document's hits and their maximum |
| DocumentSearch.GroupedDistinct | app/services/document_service.py:431-459 | after any number of hits the entries are well-formed and name distinct documents |
| DocumentSearch.PlaceExact | app/services/document_service.py:431-459 | one placement keeps every entry exactly its document's hits with their maximum, and every hit's document with an entry |
| DocumentSearch.GroupedExact | app/services/document_service.py:431-459 | after the first n hits each entry holds exactly its document's hits among them, in order, with their maximum, and every document of those hits has an entry |
| DocumentSearch.ResultIsDocResult | app/services/document_service.py:464-479 | an entry holding its hits with their maximum gives the document's intended result: 0.6 of the maximum plus 0.4 of the mean, its first 5 chunks |
| DocumentSearch.CutKeepsBest | app/services/document_service.py:483-484 | sorting by relevance and cutting to `limit` keeps only results found, and every result found is kept or outranked by all `limit` kept ones |
| DocumentSearch.ExactResultAt | app/services/document_service.py:464-479 | an exact entry's result is the intended result of the document of its first hit |
| DocumentSearch.ExactFoundOne | app/services/document_service.py:464-480 | a result of exact entries is the intended result of some document of the top hits |
| DocumentSearch.ExactFoundSound | app/services/document_service.py:464-480 | every result of exact entries is the intended result of some document of the top hits |
| DocumentSearch.ExactFoundComplete | app/services/document_service.py:464-480 | every document of the top hits has its intended result among the results of exact entries |
| DocumentSearch.GroupsFindAll | app/services/document_service.py:431-480 | the grouping yields the intended result of every document of the top hits, and nothing else |
| DocumentSearch.CutRanks | app/services/document_service.py:483-484 | cutting everything found ranks the documents: each kept result is some document's intended result, and each document's result is kept or outranked by a full cut |
| DocumentSearch.RankGroupsComplete | app/services/document_service.py:427-484 | ranking any hits keeps only intended document results, and each document's result is kept or outranked by `limit` kept ones |
| DocumentSearch.TopHitsHas | app/services/document_service.py:427-431 | the hits that enter the grouping are collected hits, and some enter whenever a hit is collected and the limit is positive |
| DocumentSearch.SearchFindsResults | app/services/document_service.py:344-492 | with the intended join, a query embedding, a well-formed workspace id and a positive limit, the search returns something exactly when some stored chunk passes every test |
| DocumentSearch.SearchSpec | app/services/document_service.py:344-492 | nothing without a query embedding or with a malformed workspace id; otherwise results sorted by relevance, at most `limit`, each good, no document twice, each the intended result of a document of the best `limit * 5` hits, and each such document's result kept or outranked by `limit` kept ones |
| DocumentSearch.StoredKeyFindsNothing | app/services/document_service.py:194 | with the text key the chunks are stored under, no chunk ever joins a document, so no hit is collected |
| DocumentSearch.SearchAsWrittenIsEmpty | app/services/document_service.py:372-377 | as written the join of the stored text key against ObjectIds fails, so the search returns nothing whatever is stored |
| DocumentStore.WordCount | app/services/document_service.py:188 | a string of n characters has at most n words |
| DocumentStore.WordCountBlank | app/services/document_service.py:188 | a string has a word exactly when it is not blank |
| DocumentStore.Capped | app/services/document_service.py:172-176 | at most the first 100 candidates are processed, a prefix of them, and all of them when there are at most 100 |
| DocumentStore.ChunkDocument | app/services/document_service.py:160-168 | Excel documents are cut by the worksheet chunker, all others by the sentence chunker |
| DocumentStore.StoreChunks | app/services/document_service.py:178-205 | the loop over the capped candidates stores exactly the records of the non-blank candidates that got an embedding, in order |
| DocumentStore.ProcessDocumentChunks | app/services/document_service.py:149-217 | chunk processing stores exactly the ingested records of the document |
| DocumentStore.StoreOneIndex | app/services/document_service.py:180-202 | one candidate gives at most one record, carrying its index |
| DocumentStore.StoredIndices | app/services/document_service.py:180-202 | the records made from the first n candidates carry indices below n |
| DocumentStore.StoreOneSpec | app/services/document_service.py:181-202 | a candidate gives a record exactly when it is non-blank and embeds to a non-empty vector, and the record holds its content, index, embedding and word and character counts |
| DocumentStore.StoredSound | app/services/document_service.py:178-205 | at most one record per candidate, each the embedded form of the candidate at its index |
| DocumentStore.RecordsAppend | app/services/document_service.py:178-205 | records of two adjacent index ranges are records of their union |
| DocumentStore.StoredOrdered | app/services/document_service.py:180-202 | the stored records keep the candidates' order: their indices strictly increase |
| DocumentStore.IncreaseAppend | app/services/document_service.py:180-202 | appending a record with a larger index keeps the indices increasing |
| DocumentStore.StoredComplete | app/services/document_service.py:178-205 | every embeddable candidate among those processed has a record |
| DocumentStore.HasRecordAppend | app/services/document_service.py:202 | a record on either side of a concatenation is in it |
| DocumentStore.StoredChunksHaveWords | app/services/document_service.py:181-189 | a stored chunk has at least one word |
| DocumentStore.IngestionIsCapped | app/services/document_service.py:172-176 | a document stores at most 100 chunks |
| DocumentStore.UploadRejection | app/services/document_service.py:48-92 | an upload reaches the insert exactly when it has a named file, a non-blank workspace id that is an ObjectId, an allowed type, a size within the limit and extracted text of at least 10 non-blank characters |
| DocumentStore.UploadTitle | app/services/document_service.py:96 | the trimmed title when it is non-empty, otherwise the file name |
| DocumentStore.CleanTags | app/services/document_service.py:102 | no more tags than given, each a non-empty trimmed given tag |
| DocumentStore.NewDocument | app/services/document_service.py:94-113 | the inserted record is processing, has no chunks and no accesses, and carries the workspace, content, file name and the type its suffix names |
| DocumentStore.WithoutChunksOf | app/services/document_service.py:331-334 | the delete never adds chunks |
| DocumentStore.WithoutChunksOfSpec | app/services/document_service.py:331-334 | a chunk survives the delete exactly when it does not belong to the document in the workspace |
| DocumentStore.Accessed | app/services/document_service.py:284-290 | a read counts one more access and stamps the time, and nothing else changes |
| DocumentStore.Updated | app/services/document_service.py:314-319 | the given fields take the new values, the others keep theirs, the update time is stamped and nothing else changes |
| DocumentStore.DocumentService.constructor | app/services/document_service.py:28-34 | an empty store |
| DocumentStore.DocumentService.UploadDocument | app/services/document_service.py:36-147 | a rejected upload changes nothing and fails with 500; an accepted one inserts the new document and, by the injected fault, stores its chunks or not and records their count or not; it is marked error when recording the result raises and ready otherwise, even when the chunks or their count were lost |
| DocumentStore.DocumentService.InsertAndProcess | app/services/document_service.py:115-147 | the document is inserted; its chunks are appended unless their insert failed, its count is the stored chunks' number only when no step failed, and its status is error exactly when recording fails, ready otherwise |
| DocumentStore.DocumentService.GetDocumentById | app/services/document_service.py:279-303 | a document of the workspace is returned with its access counted; otherwise nothing changes and none is returned |
| DocumentStore.DocumentService.UpdateDocument | app/services/document_service.py:305-324 | a document of the workspace is updated and read back with its access counted; otherwise nothing changes and none is returned |
| DocumentStore.DocumentService.DeleteDocument | app/services/document_service.py:326-342 | the document's chunks go first, then the document; true exactly when the workspace owned it |
| DocumentStore.DeleteCascades | app/services/document_service.py:326-342 | after a delete no chunk of the document is left, and every other chunk is |
| EmailConfigRoutes.NewConfig | app/routes/email_notifications.py:73-79 | the stored configuration keeps the request's workspace and frequency, has sent nothing and has no error |
| EmailConfigRoutes.ConfigsOkInsert | app/routes/email_notifications.py:55-79 | inserting a configuration with a valid frequency for a workspace that has none keeps one configuration per workspace |
| EmailConfigRoutes.CreateConfigRoute | app/routes/email_notifications.py:41-81 | 403 for a non-administrator, 400 when the workspace already has a configuration or the frequency is outside 1-60, each changing nothing; otherwise the new configuration is stored under a fresh id and the invariant kept |
| EmailConfigRoutes.Applied | app/routes/email_notifications.py:106-120 | the given fields take their new values, the others and the counters keep theirs, and the update time is stamped |
| EmailConfigRoutes.AppliedProperties | app/routes/email_notifications.py:106-120 | an empty update only stamps the time; applying an update twice is applying it once |
| EmailConfigRoutes.UpdateConfigRoute | app/routes/email_notifications.py:83-126 | 404 for an unknown id, 403 for a non-administrator of its workspace, 400 for a frequency outside 1-60, each changing nothing; otherwise exactly that configuration is updated |
| EmailConfigRoutes.LogsWithout | app/routes/email_notifications.py:152 | the logs left are exactly those of other configurations |
| EmailConfigRoutes.DeleteFreesWorkspace | app/routes/email_notifications.py:55-63 | once its configuration is deleted, a workspace has none and can be configured again |
| EmailConfigRoutes.DeleteConfigRoute | app/routes/email_notifications.py:128-154 | 404 for an unknown id, 403 for a non-administrator, each changing nothing; otherwise the configuration and exactly its logs go |
| EmailConfigRoutes.ActiveConfigOf | app/routes/email_notifications.py:276-279 | the configuration found is an active one of the workspace and the first such; none is found exactly when there is none |
| EmailConfigRoutes.TriggerManualAsWritten | app/routes/email_notifications.py:259-309 | the trigger as written always refuses: 422 for hours outside 1-24, 403 for a non-administrator, 404 without an active configuration, and 500 otherwise |
| EmailConfigRoutes.ManualTriggerAlwaysFails | app/routes/email_notifications.py:287-309 | an administrator with an active configuration and valid hours is answered 500 |
| EmailConfigRoutes.ManualConfig | app/routes/email_notifications.py:287-289 | the notification's window starts `hours` hours back |
| EmailConfigRoutes.TriggerManualRoute | app/routes/email_notifications.py:259-300 | the trigger as intended: an hour count out of range (422), a non-administrator (403) and a workspace without an active configuration (404) are refused and change nothing; otherwise the notification over the last `hours` hours runs, its outcome is answered, and the stored configuration is stamped with a log appended, marked with the report error, or left as it was, according to the notification's path |
| EmailConfigRoutes.ManualReportsLastHours | app/routes/email_notifications.py:287-300 | the count reported is exactly the count of the workspace's messages of the last `hours` hours |
| EmailNotifications.SanitizeFilename | app/services/email_notification_service.py:439-443 | the file name is never empty and holds only letters, digits, '-' and '_' |
| EmailNotifications.SanitizeKeepsClean | app/services/email_notification_service.py:439-443 | a non-empty name of file characters is kept as it is |
| EmailNotifications.SanitizeIdempotent | app/services/email_notification_service.py:439-443 | sanitising twice is sanitising once |
| EmailNotifications.Row | app/services/email_notification_service.py:194-225 | a message's row names its two parties, is "Incoming" exactly for an incoming message, and gives its source as "Customer", "AI Generated" or "Human" exactly as the message is incoming, outgoing from the AI, or outgoing from a person |
| EmailNotifications.BuildRows | app/services/email_notification_service.py:194-225 | the loop writes one row per message, in order |
| EmailNotifications.SourceCriterionMeaning | app/services/email_notification_service.py:149-154 | an AI message is reported when AI messages are included or human ones are excluded (the second flag wins when both are off); any other message exactly when human messages are included |
| EmailNotifications.Admitted | app/services/email_notification_service.py:144-171 | the messages kept are exactly those the match criteria admit |
| EmailNotifications.NewMessages | app/services/email_notification_service.py:134-181 | a message is reported exactly when its chat is in the workspace, it is at or after the window's start and its source is admitted |
| EmailNotifications.FirstWindow | app/services/email_notification_service.py:88-92 | a configuration that never sent reports the messages of the last `frequency` minutes |
| EmailNotifications.Notify | app/services/email_notification_service.py:70-132 | success exactly when the workspace exists and there is nothing new, or the report and the e-mail both succeed; nothing new counts 0; a non-zero count is the number of new messages |
| EmailNotifications.StampedMovesWindow | app/services/email_notification_service.py:390-403 | after an e-mail goes out the next window starts at that send, the counter grows by one and other configurations are untouched |
| EmailNotifications.ConfigsOkReplace | app/services/email_notification_service.py:390-437 | changing a configuration's other fields keeps one configuration per workspace |
| EmailNotifications.StampedOk | app/services/email_notification_service.py:390-403 | stamping a send keeps the configurations' invariant |
| EmailNotifications.ErroredOk | app/services/email_notification_service.py:425-437 | recording an error keeps the configurations' invariant |
| EmailNotifications.ActiveIds | app/services/email_notification_service.py:35 | exactly the active configurations, in ascending id order |
| EmailNotifications.Tally | app/services/email_notification_service.py:41-62 | one count per configuration, each a success or a failure, and no messages counted when no success sent any |
| EmailNotifications.Results | app/services/email_notification_service.py:50-62 | one result per active configuration, in order |
| EmailNotifications.TallyNext | app/services/email_notification_service.py:50-62 | one more configuration adds its result to the counters |
| EmailNotifications.InPeriod | app/services/email_notification_service.py:490-493 | exactly the workspace's logs sent from the cutoff on |
| EmailNotifications.SentCount | app/services/email_notification_service.py:497 | no more successful e-mails than e-mails |
| EmailNotifications.MessageTotalAppend | app/services/email_notification_service.py:498 | one more log adds its message count to the total |
| EmailNotifications.Bump | app/services/email_notification_service.py:502-507 | a log either grows an existing day's entry or appends a new one, and the days already present stay in place |
| EmailNotifications.BumpSums | app/services/email_notification_service.py:502-507 | one log adds one e-mail and its messages to the breakdown |
| EmailNotifications.BumpDistinct | app/services/email_notification_service.py:502-507 | the breakdown keeps one entry per day |
| EmailNotifications.BumpAbsent | app/services/email_notification_service.py:504-505 | a new entry is appended only for a day not yet present |
| EmailNotifications.DailyAddsUp | app/services/email_notification_service.py:500-507 | one entry per day, whose counts add up to the number of e-mails and the total of messages |
| EmailNotifications.SuccessRate | app/services/email_notification_service.py:514 | a percentage between 0 and 100, exactly 100 when all succeeded and 0 when none did or there are no logs |
| EmailNotifications.NewestFirst | app/services/email_notification_service.py:490-493 | the period's logs are exactly the workspace's logs sent at or after the cutoff, none exactly when there is no such log, and the first is the newest |
| EmailNotifications.GetEmailStatistics | app/services/email_notification_service.py:483-517 | the statistics of the workspace's logs of the period sorted newest first: totals, successes, messages, success rate, daily breakdown, and the first log's send time as the newest send, none for no logs |
| EmailNotifications.StatisticsAddUp | app/services/email_notification_service.py:496-516 | the daily counts add up to the totals and the successes never exceed the e-mails |
| EmailNotifications.NotificationStore.constructor | app/services/email_notification_service.py:22-25 | an empty store |
| EmailNotifications.NotificationStore.SendWorkspaceNotification | app/services/email_notification_service.py:70-132 | returns the notification's result; after a send the configuration is stamped and one log appended, after a failed report the raw error is recorded as the configuration's last error while the answer carries it prefixed with `error: `, and otherwise nothing changes |
| EmailNotifications.NotificationStore.SendAll | app/services/email_notification_service.py:27-68 | none exactly when no configuration is active; otherwise the counters of notifying each active configuration as read before the pass |
| EmailNotifications.NotificationStore.NotifyEach | app/services/email_notification_service.py:49-62 | the loop's counters are the tally of the results of every configuration notified |
| EmailNotifications.NotificationStore.NotifyNext | app/services/email_notification_service.py:51-62 | one turn adds the next configuration's result to the counters |
| EnhancedDocuments.PrepareSpec | app/services/enhanced_document_service.py:134-152 | the prepared text is at most 8000 characters, a prefix of the context line followed by the content, as long as that allows, and opens with the spreadsheet line exactly when the content mentions WORKSHEET |
| EnhancedDocuments.StoreExcelChunks | app/services/enhanced_document_service.py:71-109 | as intended (as written every call raises): the loop stores exactly the non-blank candidates whose prepared text got a vector, in order, and counts them |
| EnhancedDocuments.ProcessExcelChunks | app/services/enhanced_document_service.py:47-128 | as intended (as written every call raises): the chunks stored are the spreadsheet ingestion of the content; the chunk count and the successful embeddings are their number; the created count is that of the capped candidates, at most 100 |
| EnhancedDocuments.ExcelIngestedSpec | app/services/enhanced_document_service.py:62-109 | every stored record is a chunk of the capped list embedded from its prepared text; at most 100, in order |
| EnhancedDocuments.EnhancedProcessDocumentChunks | app/services/enhanced_document_service.py:23-45 | as intended (as written every call raises): spreadsheets take the spreadsheet ingestion, every other type the base one |
| EnhancedDocuments.ChunkScore | app/services/enhanced_document_service.py:200-214 | one chunk adds between 0 and 0.6 |
| EnhancedDocuments.RawExcelScoreBounds | app/services/enhanced_document_service.py:196-214 | the sum over n chunks lies between 0 and 0.6 n |
| EnhancedDocuments.ExcelRelevanceBounds | app/services/enhanced_document_service.py:194-216 | the score lies in [0, 1], and one chunk gives at most 0.6 |
| EnhancedDocuments.CalculateExcelRelevance | app/services/enhanced_document_service.py:194-216 | the loop computes the spreadsheet score, which lies in [0, 1] |
| EnhancedDocuments.RerankedAll | app/services/enhanced_document_service.py:179-184 | one re-weighted result per base result, in order |
| EnhancedDocuments.RerankResults | app/services/enhanced_document_service.py:179-184 | the loop re-weights every result to 0.7 of its relevance plus 0.3 of its spreadsheet score, in order |
| EnhancedDocuments.SearchExcelContent | app/services/enhanced_document_service.py:154-192 | the base search over spreadsheets for twice the limit at threshold 0.6, re-weighted, sorted and cut to the limit |
| EnhancedDocuments.RerankedGood | app/services/enhanced_document_service.py:166-184 | a good base result stays a result of a ready spreadsheet of the workspace after re-weighting |
| EnhancedDocuments.RerankedAllGood | app/services/enhanced_document_service.py:179-184 | re-weighting keeps each result's document, so distinct good base results stay distinct spreadsheet results |
| EnhancedDocuments.RerankedCut | app/services/enhanced_document_service.py:179-188 | re-weighting, sorting and cutting keeps only re-weighted base results, and every re-weighted base result is kept or outranked by `limit` kept ones |
| EnhancedDocuments.SearchExcelSpec | app/services/enhanced_document_service.py:154-192 | results sorted by the re-weighted relevance, at most `limit`, each of a ready spreadsheet of the store, no document twice; each is a re-weighted result of the base search over spreadsheets, and every re-weighted base result is kept or outranked by `limit` kept ones |
| EnhancedDocuments.SearchExcelFindsResults | app/services/enhanced_document_service.py:154-192 | with a query embedding, a well-formed workspace id and a positive limit, the spreadsheet search returns something exactly when some stored chunk of a ready spreadsheet passes every test of the base search |
| EnhancedDocuments.RerankAsWrittenIsEmpty | app/services/enhanced_document_service.py:189-201 | as written, base results that carry chunks make the re-ranking raise, so the search answers nothing |
| EnhancedDocuments.SearchExcelAsWrittenIsEmpty | app/services/enhanced_document_service.py:154-201 | as written, the spreadsheet search returns nothing whatever the base search finds |
| ExcelCells.Pad | app/services/excel_processor.py:279 | a field is rendered with at least its width of digits, and unchanged when already that long |
| ExcelCells.PadExact | app/services/excel_processor.py:279 | a value that fits its width is padded to exactly that width |
| ExcelCells.Pow10 | app/services/excel_processor.py:279 | a power of ten is positive |
| ExcelCells.NatToStringShort | app/services/excel_processor.py:279 | a value below 10^w has at most w digits |
| ExcelCells.FormatDateTimeLength | app/services/excel_processor.py:279 | a date with fields in their calendar ranges renders as `%Y-%m-%d %H:%M:%S` in exactly 19 characters |
| ExcelCells.FormatNumber | app/services/excel_processor.py:272-277 | an integer prints as itself, an integral float as an integer, any other float as Python prints it |
| ExcelCells.WithFormula | app/services/excel_processor.py:283-287 | a formula is appended exactly when it is non-empty, starts with '=' and differs from the content |
| ExcelCells.Truncate | app/services/excel_processor.py:289-291 | content over 1000 characters is cut to 1000 and marked with "...", shorter content is kept |
| ExcelCells.ExtractCellContent | app/services/excel_processor.py:262-293 | an empty cell gives "", no result exceeds 1003 characters, and a short text cell without formula gives its trimmed text |
| ExcelCells.CleanCellValue | app/services/excel_processor.py:295-310 | an empty value gives "" and a text value its trimmed text |
| ExcelCells.ExtractAgreesWithClean | app/services/excel_processor.py:262-310 | the two renderings agree on a cell without formula whose content stays under the cap |
| ExcelCells.LongContentIsCut | app/services/excel_processor.py:289-291 | a long value is cut to exactly 1000 characters and ends with "..." |
| ExcelCells.ColumnLetter | app/services/excel_processor.py:218 | a column name is one or more capital letters, one letter for the first 26 columns |
| ExcelCells.ColumnLetterLast | app/services/excel_processor.py:218 | the last letter of a column name gives the column modulo 26 |
| ExcelChunks.WorksheetInfo | app/services/excel_processor.py:332-338 | a worksheet section's context line starts with "WORKSHEET "; the text before the first marker has none |
| ExcelChunks.KeptLinesTrimmed | app/services/excel_processor.py:348-351 | the lines kept are trimmed and non-empty |
| ExcelChunks.RowLineCount | app/services/excel_processor.py:372 | no more "Row" lines than lines |
| ExcelChunks.PackSection | app/services/excel_processor.py:344-403 | the packing loop over one section's lines emits the chunks of the groups of its kept lines |
| ExcelChunks.KeptLinesNext | app/services/excel_processor.py:348-351 | one more raw line adds its trimmed form when it is not blank |
| ExcelChunks.PackAllNext | app/services/excel_processor.py:348-387 | one more line is one more packing step |
| ExcelChunks.ToChunksNext | app/services/excel_processor.py:362-375 | one more group adds the chunk emitted for it |
| ExcelChunks.ChunkSection | app/services/excel_processor.py:322-403 | a blank section gives no chunk; otherwise the context line is derived and the rest packed |
| ExcelChunks.CreateExcelChunks | app/services/excel_processor.py:312-406 | the chunks of the workbook text |
| ExcelChunks.ChunkSections | app/services/excel_processor.py:320-403 | the loop over the worksheet sections emits each section's chunks in order |
| ExcelChunks.TotalLengthAppend | app/services/excel_processor.py:386-387 | one more line adds its length to the size |
| ExcelChunks.FlattenAppend | app/services/excel_processor.py:344-403 | one more group adds its data lines |
| ExcelChunks.TotalLengthOne | app/services/excel_processor.py:386-387 | one line's size is its length |
| ExcelChunks.OpenedCovers | app/services/excel_processor.py:353-356 | opening a chunk with the context line keeps every line seen |
| ExcelChunks.OpenedSized | app/services/excel_processor.py:353-356 | opening a chunk keeps every chunk within its size rule |
| ExcelChunks.PlaceCovers | app/services/excel_processor.py:358-387 | placing a line keeps every line seen, in order, exactly once |
| ExcelChunks.FlushedSized | app/services/excel_processor.py:361-384 | flushing a full chunk keeps every chunk within its size rule |
| ExcelChunks.AppendSized | app/services/excel_processor.py:386-387 | appending a line that fits, or to a chunk without data, keeps the size rule |
| ExcelChunks.PlaceSized | app/services/excel_processor.py:358-387 | placing a line keeps the size rule |
| ExcelChunks.StepGood | app/services/excel_processor.py:348-387 | one loop step keeps both the coverage and the size rule |
| ExcelChunks.PackAllGood | app/services/excel_processor.py:344-387 | the whole packing keeps both the coverage and the size rule |
| ExcelChunks.GroupsProperties | app/services/excel_processor.py:344-403 | every kept line lands, in order, in exactly one group, none is split; each group is led by the context line when there is one; a group exceeds 800 characters only when it holds at most one data line |
| ExcelChunks.FirstLineOverflow | app/services/excel_processor.py:354-384 | a context line whose first data line would overflow it is emitted as a chunk of its own |
| ExcelChunks.DonePrefix | app/services/excel_processor.py:361-379 | a group once flushed stays: the groups of a prefix start the groups of the whole |
| ExcelChunks.ContextLineAlone | app/services/excel_processor.py:354-384 | a section whose first data line overflows the context line yields the context line alone first |
| ExcelChunks.JoinNotBlank | app/services/excel_processor.py:364 | a group led by a non-empty trimmed line joins to a non-blank text |
| ExcelChunks.ToChunksAll | app/services/excel_processor.py:363-364 | the blank test never drops a group: each becomes its chunk |
| ExcelChunks.RowLinesAreData | app/services/excel_processor.py:372 | the "Row" lines of a group are data lines, never the context line |
| ExcelChunks.RowCountSkipsFirst | app/services/excel_processor.py:372 | a group whose first line is not a "Row" line counts at most its other lines |
| ExcelChunks.SectionChunksProperties | app/services/excel_processor.py:322-403 | a blank section gives nothing; otherwise one chunk per group, holding the group's lines, the data lines being exactly the kept lines, with a row count within the data lines and the metadata of its section |
| ExcelChunks.SectionChunksSummary | app/services/excel_processor.py:322-403 | each chunk of a section is non-blank, of the file and section, and starts with its context line, which is empty only for section 0 |
| ExcelChunks.AllChunksKeep | app/services/excel_processor.py:322-403 | chunks made section by section keep the facts each section's chunks have |
| ExcelChunks.AllChunksProperties | app/services/excel_processor.py:312-406 | every chunk of the workbook text names a section of the split and satisfies that section's rules |
| ExcelExport.ExportFilename | app/services/excel_export_service.py:356-363 | the file name is never empty, holds only file characters and no capital letter |
| ExcelExport.NameCharsLowered | app/services/excel_export_service.py:359-361 | kept name characters, trimmed, with '_' for ' ' and lower-cased, are lower-case file characters |
| ExcelExport.FileCharLowered | app/services/excel_export_service.py:359-361 | one kept character, with '_' for ' ' and lower-cased, is a lower-case file character |
| ExcelExport.ExportFilenameIsLowered | app/services/excel_export_service.py:356-363 | the export's file name is the notification's, lower-cased |
| ExcelExport.LowerFallback | app/services/excel_export_service.py:362-363 | the fallback name is already lower-case |
| ExcelExport.ExportStatus | app/services/excel_export_service.py:198-210 | "received" exactly for incoming messages, "sent_via_ai" exactly for outgoing AI messages, "sent_by_human" exactly for other outgoing ones |
| ExcelExport.ExportStatusAgreesWithReport | app/services/excel_export_service.py:198-210 | the export's status and the notification report's source column classify every message alike |
| ExcelExport.ExportRowOf | app/services/excel_export_service.py:194-219 | a row names the message's two parties, its status and the workspace |
| ExcelExport.BuildExportRows | app/services/excel_export_service.py:194-219 | the loop writes one row per message, in order |
| ExcelExport.ExportAsWritten | app/services/excel_export_service.py:75-127 | as written: success exactly with an address and either no new message or a written spreadsheet, and the timestamp moves exactly when a non-empty batch got a spreadsheet, whatever the e-mail did |
| ExcelExport.ExportIntended | app/services/excel_export_service.py:75-127 | as intended: success and a moved timestamp need the e-mail to go out as well; a reported count is the batch size; with the e-mail sent it agrees with the code as written |
| ExcelExport.FailedEmailCountsAsExported | app/services/excel_export_service.py:107-123 | a failed e-mail is reported as a successful export and moves the window past the batch, so its messages are never offered again; the intended export reports the failure |
| ExcelExport.ExportLog.constructor | app/services/excel_export_service.py:22-26 | no workspace has exported yet |
| ExcelExport.ExportLog.LastExportTime | app/services/excel_export_service.py:129-143 | a workspace without a log starts 15 minutes back |
| ExcelExport.ExportLog.UpdateLastExport | app/services/excel_export_service.py:296-315 | the upsert leaves one timestamp per workspace, now, and the next read returns it |
| ExcelExport.ExportLog.ExportWorkspace | app/services/excel_export_service.py:75-127 | the export as intended of one workspace: its result, and its timestamp moved exactly when it succeeded with new messages |
| ExcelExport.ExportLog.ExportAll | app/services/excel_export_service.py:28-73 | as intended: none and no change without active workspaces; otherwise the counters of the pass over them, each workspace exported as intended, and the timestamps it leaves |
| ExcelExport.ExportLog.ExportEach | app/services/excel_export_service.py:50-63 | as intended: the loop's counters and timestamps are those of the pass, each workspace exported as intended |
| ExcelExport.Pass | app/services/excel_export_service.py:50-63 | as intended (each step is the intended export): one result per workspace; timestamps are kept for workspaces outside the pass |
| ExcelExport.PassNext | app/services/excel_export_service.py:50-63 | one more workspace exports from the timestamps the earlier ones left |
| ExcelExport.FailedExportKeepsWindow | app/services/excel_export_service.py:75-127 | as intended, a workspace whose export failed keeps its timestamp, so its messages are offered again |
| ExcelHelpers.RowPhrases | app/utils/excel_helpers.py:43-45 | at most one phrase per column |
| ExcelHelpers.TableRowLines | app/utils/excel_helpers.py:36-49 | at most one line per row |
| ExcelHelpers.DescribeRow | app/utils/excel_helpers.py:41-45 | the loop builds the phrases of one well-formed row |
| ExcelHelpers.FormatTableForAI | app/utils/excel_helpers.py:14-51 | the loop builds the table text |
| ExcelHelpers.RowPhrasesEmpty | app/utils/excel_helpers.py:43-47 | a row has phrases exactly when one of its values is not blank |
| ExcelHelpers.RowDescriptionSpec | app/utils/excel_helpers.py:36-49 | a row gets a line exactly when it has one value per header and a non-blank value; the line opens with its own number |
| ExcelHelpers.TableRowLinesSpec | app/utils/excel_helpers.py:36-49 | the row lines are exactly those of the rows that get one, numbered by position among all rows, skipped ones included |
| ExcelHelpers.JoinOpening | app/utils/excel_helpers.py:51 | a join of three or more lines opens with the first three, each followed by the separator |
| ExcelHelpers.FormatTableOpening | app/utils/excel_helpers.py:24-33 | "" exactly without headers or rows; otherwise the text opens with the name, the row count (skipped rows included), the column count, the columns and a blank line |
| ExcelHelpers.ChunkRelevance | app/utils/excel_helpers.py:149-164 | a chunk's relevance lies in [0, 0.6] |
| ExcelHelpers.ScoreChunk | app/utils/excel_helpers.py:145-166 | the boosts add up to the chunk's relevance |
| ExcelHelpers.RankExcelChunks | app/utils/excel_helpers.py:139-169 | each chunk gets its relevance written in place, and the result is the chunks sorted by it, highest first |
| ExcelHelpers.BlankQueryRanksByRows | app/utils/excel_helpers.py:153-164 | a blank query has no words, so only the row count raises the relevance |
| ExcelHelpers.RankedChunksSpec | app/utils/excel_helpers.py:139-169 | the ranking is a permutation of the scored chunks, sorted highest first, with relevances in [0, 0.6] and contents and metadata untouched |
| ExcelHelpers.DigitRun | app/utils/excel_helpers.py:111 | the run counted is the maximal run of digits at that position |
| ExcelHelpers.MarkerCount | app/utils/excel_helpers.py:111 | no more matches than positions |
| ExcelHelpers.NumberSpec | app/utils/excel_helpers.py:87 | a number needs a digit, and a run of digits alone is a number |
| ExcelHelpers.PadDigits | app/utils/excel_helpers.py:91-99 | a padded rendering is all digits |
| ExcelHelpers.IsoDateShape | app/utils/excel_helpers.py:92 | four digits, a dash, two digits, a dash and two digits have the first date shape |
| ExcelHelpers.PadDigitsOfLength | app/utils/excel_helpers.py:91-99 | a value below 10^w pads to exactly w digits |
| ExcelHelpers.RenderedDatesAreDates | app/utils/excel_helpers.py:91-100 | a date the cell renderer writes is recognised as a date |
| ExcelHelpers.DigitRunOf | app/utils/excel_helpers.py:111 | a run of n digits ended by a non-digit has length n |
| ExcelHelpers.MarkerCountAtLeast | app/utils/excel_helpers.py:111 | a match before n is counted |
| ExcelHelpers.SheetTitleIsCounted | app/utils/excel_helpers.py:111 | a worksheet title the renderer writes counts as one table |
| ExcelHelpers.DetectDataTypesSpec | app/utils/excel_helpers.py:72-114 | headers exactly when "Headers:" occurs, formulas exactly when "Formula:" occurs, no table exactly when there is no "WORKSHEET n:" marker, and no patterns |
| ExcelHelpers.MarkerCountZero | app/utils/excel_helpers.py:111 | no match is counted exactly when there is none |
| ExcelHelpers.NoFormulaMarker | app/utils/excel_helpers.py:103 | text without a capital F holds no formula marker |
| ExcelHelpers.FormulasAsWrittenOnEveryWorksheet | app/utils/excel_helpers.py:102-104 | as written, every rendered worksheet reports formulas, because its title line contains '='; a bare title shows it |
| ExcelHelpers.EnhanceExcelQuery | app/utils/excel_helpers.py:119-136 | the loop of appends builds the enriched query |
| ExcelHelpers.EnhancedQuerySpec | app/utils/excel_helpers.py:124-136 | the query followed by the hints of the flags set, in the order numbers, dates, headers; the query itself exactly when no flag is set |
| ExcelHelpers.HintsAppended | app/utils/excel_helpers.py:124-136 | three optional appends add the hints that are set, in order |
| ExcelHelpers.XlsxIsNotXls | app/utils/excel_helpers.py:180 | no name ends with both ".xlsx" and ".xls" |
| ExcelHelpers.ExcelType | app/utils/excel_helpers.py:180 | "xlsx" or "xls" exactly as the lower-cased name ends, none exactly for a non-Excel name |
| ExcelHelpers.ProcessingTime | app/utils/excel_helpers.py:181 | never under 5 seconds, and two per whole MiB from 3 MiB on |
| ExcelHelpers.GetExcelFileInfo | app/utils/excel_helpers.py:176-183 | an Excel file exactly when a type is named, one of xlsx and xls; at least 5 seconds; special handling always |
| ExcelHelpers.ProcessingTimeMonotone | app/utils/excel_helpers.py:181 | a larger file is never estimated to take less time |
| ExcelHelpers.ValidateExcelUpload | app/utils/excel_helpers.py:185-195 | accepted exactly for an Excel name within 15 MiB; the name is checked first, each refusal with its message, and acceptance with "" |
| ExcelHelpers.AcceptedUploadIsExcel | app/utils/excel_helpers.py:176-195 | an accepted upload is an Excel file of a known type |
| ExcelReport.ReportStatus | app/services/excel_report_service.py:143-150 | "Received" exactly for incoming messages, "AI Generated" exactly for outgoing AI messages, "Human Sent" exactly for other outgoing ones |
| ExcelReport.ReportStatusMatchesExport | app/services/excel_report_service.py:143-150 | the report's status and the export's status split the messages into the same three classes |
| ExcelReport.ReportLineOf | app/services/excel_report_service.py:139-164 | a line names the message's two parties and its status; an incoming message's direction is titled "Incoming", a missing direction gives "" and a missing type "Text" |
| ExcelReport.TitledText | app/services/excel_report_service.py:158 | the default type "text", titled, is "Text" |
| ExcelReport.TitledIncoming | app/services/excel_report_service.py:163 | the direction "incoming", titled, is "Incoming" |
| ExcelReport.BuildReportLines | app/services/excel_report_service.py:139-164 | the loop writes one line per message, in order |
| ExcelReport.ReportFileStem | app/services/excel_report_service.py:171 | the stem holds only name characters and does not start or end with a space; it may be empty |
| ExcelReport.ReportStemVsNotification | app/services/excel_report_service.py:171 | the notification's file name is the report's stem with '_' for ' ', or "workspace" for an empty stem |
| ExcelReport.WorkspaceReport | app/services/excel_report_service.py:53-126 | mailed exactly when an address is configured, there are messages in the last 15 minutes and nothing raised, with their count; no recent messages means none in the window |
| ExcelReport.ReportWindowSlides | app/services/excel_report_service.py:69-90 | a later run never sees a message older than an earlier run's window |
| ExcelReport.GenerateReports | app/services/excel_report_service.py:26-51 | one outcome per active workspace, in order, a failure of one not stopping the others |
| ExcelReport.Between | app/services/excel_report_service.py:306-327 | exactly the workspace's messages with start <= timestamp <= end |
| ExcelReport.BetweenOpenEnd | app/services/excel_report_service.py:321 | a range ending after every message is the window query from its start |
| ExcelReport.GenerateManualReport | app/services/excel_report_service.py:287-347 | an unknown workspace and an empty range fail with their messages; success exactly when the workspace exists, the range holds messages and nothing raised, counting them, and mailing exactly when an address is given |
| ExcelReport.EmptyRangeFails | app/services/excel_report_service.py:321-334 | a range whose start is after its end always fails for an existing workspace |
| ExcelReport.BetweenEmpty | app/services/excel_report_service.py:321 | a range whose start is after its end holds no message |
| ExcelReport.ReportHistory | app/services/excel_report_service.py:349-360 | the history is always empty |
| ExcelWorksheets.BlockPartsCount | app/services/excel_processor.py:155-169 | n row lines become ceil(n / 50) blocks, each whole block followed by a blank separator |
| ExcelWorksheets.BlockPartsAppendBlock | app/services/excel_processor.py:159-165 | a whole block appended adds its text and a separator |
| ExcelWorksheets.BlockPartsAppendRest | app/services/excel_processor.py:167-169 | a last, shorter block adds its text when it is not empty |
| ExcelWorksheets.PackFlush | app/services/excel_processor.py:159-165 | the 50th line of a block closes it and writes it with a separator |
| ExcelWorksheets.PackFinish | app/services/excel_processor.py:167-169 | at the end the open block, if any, is written last |
| ExcelWorksheets.PackLines | app/services/excel_processor.py:155-169 | the block loop writes the row lines in blocks of 50, each whole block followed by a separator |
| ExcelWorksheets.NonEmptyCount | app/services/excel_processor.py:246-252 | no more non-empty cells than cells |
| ExcelWorksheets.HeaderLabels | app/services/excel_processor.py:248-254 | one label per cell |
| ExcelWorksheets.HeaderLabelsAt | app/services/excel_processor.py:248-254 | each label is the cell's content, or "Column_k" for an empty k-th cell |
| ExcelWorksheets.HeadersOfShape | app/services/excel_processor.py:239-260 | no headers below two rows or when fewer than half of the columns have content; otherwise one label per cell of the first row |
| ExcelWorksheets.DetectHeaders | app/services/excel_processor.py:239-260 | the pass over the first row computes the headers |
| ExcelWorksheets.OpenpyxlEntries | app/services/excel_processor.py:140-153 | at most one entry per cell |
| ExcelWorksheets.OpenpyxlEntriesEmpty | app/services/excel_processor.py:140-155 | a row has entries exactly when one of its cells has content |
| ExcelWorksheets.OpenpyxlRowLines | app/services/excel_processor.py:136-157 | at most one line per row |
| ExcelWorksheets.OpenpyxlRowLinesNext | app/services/excel_processor.py:136-157 | one more row adds its line when it has entries |
| ExcelWorksheets.ExtractWorksheetContentOpenpyxl | app/services/excel_processor.py:103-171 | the renderer writes the title, the header line when there are headers, and the packed row lines, joined by newlines |
| ExcelWorksheets.FrameHeaders | app/services/excel_processor.py:195 | the frame's headers are its non-blank first-row values |
| ExcelWorksheets.PandasEntries | app/services/excel_processor.py:209-219 | at most one entry per cell |
| ExcelWorksheets.PandasRowLines | app/services/excel_processor.py:205-223 | at most one line per row of the range |
| ExcelWorksheets.PandasRowLinesNext | app/services/excel_processor.py:205-223 | one more row adds its line when it has entries |
| ExcelWorksheets.ExtractWorksheetContentPandas | app/services/excel_processor.py:173-237 | the pandas renderer writes the title, the header line when at least half the values are headers, and the packed row lines |
| ExcelWorksheets.OpenpyxlTitleFirst | app/services/excel_processor.py:113 | every rendered sheet opens with its "=== WORKSHEET n: name ===" line and is never blank |
| ExcelWorksheets.OneByOneIsEmpty | app/services/excel_processor.py:119-122 | a 1x1 sheet renders as the empty-worksheet marker whatever its cell holds |
| ExcelWorksheets.ContentRowsStep | app/services/excel_processor.py:136-157 | one more row is counted exactly when it has content |
| ExcelWorksheets.OpenpyxlRowLinesStep | app/services/excel_processor.py:136-157 | row n gets a line exactly when it has content |
| ExcelWorksheets.OpenpyxlRowLinesCount | app/services/excel_processor.py:136-157 | exactly the rows with a non-empty cell get a row line |
| ExcelWorksheets.NoSheetIsDropped | app/services/excel_processor.py:53-62 | the blank-sheet filter never drops a sheet, since each opens with its title |
| ExcelWorksheets.ValidateExcelFile | app/services/excel_processor.py:518-555 | a non-Excel name is refused with its message before opening; valid exactly for an Excel name whose workbook opens with a sheet, with "" then and a message otherwise |
| MessageBlasts.KeepPhoneChars | app/services/message_blast_service.py:548 | the filter never lengthens its input |
| MessageBlasts.KeepPhoneCharsSpec | app/services/message_blast_service.py:548 | only digits and '+' are kept, and a string made of them is kept whole |
| MessageBlasts.CleanPhoneNumber | app/services/message_blast_service.py:545-554 | the cleaned number is empty exactly when the trimmed input has no digit or '+', and otherwise starts with '+' |
| MessageBlasts.CleanPhoneNumberChars | app/services/message_blast_service.py:545-554 | a cleaned number holds only digits and '+' |
| MessageBlasts.CleanPhoneNumberIdempotent | app/services/message_blast_service.py:545-554 | cleaning a cleaned number changes nothing |
| MessageBlasts.ValidPhoneFormatSpec | app/services/message_blast_service.py:556-563 | without a final newline the check is exactly '+', a digit 1-9 and 7 to 14 more digits, so a valid number has 9 to 16 characters |
| MessageBlasts.CleanedValidity | app/services/message_blast_service.py:539 | a cleaned number is valid exactly when it has the full pattern |
| MessageBlasts.Dedup | app/services/message_blast_service.py:537-541 | no more numbers than inputs |
| MessageBlasts.CleanAll | app/services/message_blast_service.py:538 | every input, cleaned, in order |
| MessageBlasts.CleanPhoneNumbers | app/services/message_blast_service.py:533-543 | the list cleaning computes the cleaned numbers |
| MessageBlasts.KeepFirstAccepted | app/services/message_blast_service.py:537-541 | the loop keeps each accepted cleaned number at its first occurrence |
| MessageBlasts.DedupMembers | app/services/message_blast_service.py:537-541 | the list holds exactly the accepted entries, each once |
| MessageBlasts.DedupOrder | app/services/message_blast_service.py:537-541 | the list keeps the order of first occurrence |
| MessageBlasts.CleanedNumbersMembers | app/services/message_blast_service.py:533-543 | exactly the inputs whose cleaned form has the full pattern are kept, cleaned, each number once |
| MessageBlasts.KeywordColumns | app/services/message_blast_service.py:99-103 | exactly the columns whose lower-cased name mentions phone, mobile, number or contact |
| MessageBlasts.PhoneColumns | app/services/message_blast_service.py:99-107 | the keyword columns, or the first column when there is none; never empty |
| MessageBlasts.UploadPhoneNumbersFromExcel | app/services/message_blast_service.py:83-126 | a sheet without columns fails; otherwise the imported numbers, or a refusal when there are more than 1000 |
| MessageBlasts.CleanKeepsValidText | app/services/message_blast_service.py:112-114 | a trimmed cell valid as written is kept unchanged by the cleaning |
| MessageBlasts.ImportCellSound | app/services/message_blast_service.py:111-116 | importing one cell keeps the numbers distinct and fully patterned |
| MessageBlasts.ImportCellsSound | app/services/message_blast_service.py:111-116 | importing a column keeps the numbers distinct and fully patterned |
| MessageBlasts.ImportColumnsSound | app/services/message_blast_service.py:110-116 | importing several columns keeps the numbers distinct and fully patterned |
| MessageBlasts.ImportedNumbersSound | app/services/message_blast_service.py:96-116 | every imported number is distinct from the others and has the full pattern |
| MessageBlasts.ImportDropsSpacedNumbers | app/services/message_blast_service.py:112-116 | as written a number with a space after its country code, such as "+91 9876543210", is dropped; cleaning first keeps it as "+919876543210" |
| MessageBlasts.SpacedNumberRead | app/services/message_blast_service.py:112-113 | such a cell is already trimmed and fails the check as written |
| MessageBlasts.SpacedNumberCleans | app/services/message_blast_service.py:545-554 | such a cell cleans to the number without the space, which has the full pattern |
| MessageBlasts.KeptWhole | app/services/message_blast_service.py:548 | a country prefix or a run of digits survives the filter whole |
| MessageBlasts.DigitsMakePattern | app/services/message_blast_service.py:562 | a country prefix and digits, 9 to 16 characters in all, have the full pattern |
| MessageBlasts.KeepPhoneCharsAppend | app/services/message_blast_service.py:548 | the filter distributes over concatenation |
| MessageBlasts.ImportCellCleaningFirst | app/services/message_blast_service.py:112-116 | the corrected import of one cell keeps the numbers distinct and fully patterned |
| MessageBlasts.CleaningFirstMatchesListCleaning | app/services/message_blast_service.py:112-116 | the corrected import accepts every cell whose cleaned form is valid, as the list cleaning does, and agrees with the code whenever the code accepts |
| MessageBlasts.CreateBlastError | app/services/message_blast_service.py:27-61 | a request is accepted exactly when its raw number list holds 1 to 1000 entries, before any cleaning, and it has a batch size in 1-50, an interval in 1-30 and a connected sender of the workspace; otherwise the first failing check's message |
| MessageBlasts.Processed | app/services/message_blast_service.py:383-459 | a processed target keeps its blast, number and batch, and is sent or failed as the send went |
| MessageBlasts.Count | app/services/message_blast_service.py:203-219 | no more targets counted than there are |
| MessageBlasts.CountAppend | app/services/message_blast_service.py:203-219 | counts add over concatenation |
| MessageBlasts.CountUpdate | app/services/message_blast_service.py:383-459 | replacing one target changes a count by at most that target |
| MessageBlasts.CountNone | app/services/message_blast_service.py:203-219 | a blast without targets counts 0 |
| MessageBlasts.CountZero | app/services/message_blast_service.py:203-219 | a count is 0 exactly when no target matches |
| MessageBlasts.CountByStatus | app/services/message_blast_service.py:215-219 | the per-status counts add up to the total |
| MessageBlasts.WithoutBlast | app/services/message_blast_service.py:186-189 | only targets of other blasts are kept |
| MessageBlasts.CountWithoutBlast | app/services/message_blast_service.py:186-189 | deleting a blast's targets leaves every other blast's counts unchanged |
| MessageBlasts.NewTargets | app/services/message_blast_service.py:496-516 | one target per number |
| MessageBlasts.CountNewTargets | app/services/message_blast_service.py:496-516 | the new targets are all pending, for the new blast |
| MessageBlasts.PendingIndices | app/services/message_blast_service.py:347-350 | exactly the pending targets of the blast, in stored order |
| MessageBlasts.Limit | app/services/message_blast_service.py:350 | a prefix, non-empty for a non-empty input |
| MessageBlasts.SendTargets | app/services/message_blast_service.py:369-463 | sending never adds or removes targets |
| MessageBlasts.SendTargetsSpec | app/services/message_blast_service.py:369-463 | exactly the batch's targets are processed, each once, the others untouched |
| MessageBlasts.SendTargetsPending | app/services/message_blast_service.py:369-463 | a batch of distinct pending targets lowers the pending count by its size |
| MessageBlasts.PendingBeforeSend | app/services/message_blast_service.py:369-463 | the next target of the batch is still untouched |
| MessageBlasts.Dispatched | app/services/message_blast_service.py:334-367 | sending to every pending target keeps the targets' number |
| MessageBlasts.HistoryStep | app/services/message_blast_service.py:339-358 | one batch of distinct pending targets extends the send history |
| MessageBlasts.HistoryComplete | app/services/message_blast_service.py:352-355 | once no target is pending, every target that was pending has been sent to |
| MessageBlasts.BatchOfPending | app/services/message_blast_service.py:347-350 | the batch taken holds distinct pending targets, at most the batch size and at least one while any is pending |
| MessageBlasts.CountsPerStatus | app/services/message_blast_service.py:203-219 | targets with the same per-status counts account for the same blasts |
| MessageBlasts.ConsistentCreate | app/services/message_blast_service.py:44-75 | a new blast with zero counters and its numbers as pending targets keeps every blast's counters in line with its targets |
| MessageBlasts.CountAfterCreate | app/services/message_blast_service.py:44-75 | creating a blast leaves other blasts' counts unchanged |
| MessageBlasts.ConsistentDelete | app/services/message_blast_service.py:176-191 | removing a blast with its targets keeps the state consistent |
| MessageBlasts.ConsistentRecord | app/services/message_blast_service.py:154-174 | a change that keeps a blast's counters keeps the state consistent |
| MessageBlasts.ConsistentSend | app/services/message_blast_service.py:383-459 | one pending target sent, with its blast's counter moved, keeps the state consistent and lowers the pending count by one |
| MessageBlasts.UpdateTwice | app/services/message_blast_service.py:383-459 | two updates of one key are the last one |
| MessageBlasts.BlastService.constructor | app/services/message_blast_service.py:20-25 | no blasts and no targets |
| MessageBlasts.BlastService.CreateBlastTargets | app/services/message_blast_service.py:496-516 | one pending target per number is appended, five to a batch number, and nothing else changes |
| MessageBlasts.BlastService.CreateBlast | app/services/message_blast_service.py:27-81 | a refused request changes nothing; an accepted one stores the blast, with zero counters and its cleaned numbers as pending targets |
| MessageBlasts.BlastService.UpdateBlast | app/services/message_blast_service.py:154-174 | only a draft or scheduled blast changes, in every field given; otherwise nothing changes |
| MessageBlasts.BlastService.DeleteBlast | app/services/message_blast_service.py:176-191 | refused for active and scheduled blasts; otherwise its targets go first, then the blast |
| MessageBlasts.BlastService.StartBlast | app/services/message_blast_service.py:256-284 | an unknown blast and any status but scheduled are refused unchanged; a scheduled blast becomes active |
| MessageBlasts.BlastService.SetStatusIf | app/services/message_blast_service.py:286-332 | the status changes exactly when the blast exists in one of the given statuses |
| MessageBlasts.BlastService.PauseBlast | app/services/message_blast_service.py:286-298 | exactly an active blast becomes paused |
| MessageBlasts.BlastService.ResumeBlast | app/services/message_blast_service.py:300-317 | exactly a paused blast becomes active |
| MessageBlasts.BlastService.CancelBlast | app/services/message_blast_service.py:319-332 | exactly an active, scheduled or paused blast becomes cancelled |
| MessageBlasts.BlastService.SendOne | app/services/message_blast_service.py:383-459 | the target becomes sent or failed, and exactly one of the blast's two counters goes up by one |
| MessageBlasts.BlastService.SendBatch | app/services/message_blast_service.py:369-463 | the batch's targets are processed and only the blast's counters change |
| MessageBlasts.BlastService.ProcessBlastBatches | app/services/message_blast_service.py:334-367 | a blast that is not active is left alone; an active one with a sender has every pending target sent to and becomes completed; without a sender it becomes failed |
| MessageBlasts.NextStatus | app/services/message_blast_service.py:256-332 | a command can only lead to active, paused or cancelled |
| MessageBlasts.NextStatusSpec | app/services/message_blast_service.py:256-332 | only start from scheduled and resume from paused make a blast active; draft, completed, cancelled and failed blasts accept no command; a command always changes the status |
| MessageBlasts.PercentageBounds | app/services/message_blast_service.py:222 | the percentage lies in [0, 100] and is 100 exactly when targets exist and all are processed |
| MessageBlasts.BatchesNeeded | app/services/message_blast_service.py:225 | the ceiling division is the number of batches needed |
| MessageBlasts.ProgressCounts | app/services/message_blast_service.py:193-254 | progress is reported and the per-status counts add up to the total |
| MessageBlasts.ProgressPercentage | app/services/message_blast_service.py:222 | the percentage lies in [0, 100] and is 100 exactly when targets exist and none is pending |
| MessageBlasts.ProgressBatches | app/services/message_blast_service.py:224-233 | the batch count is the ceiling of targets over batch size, the current batch never exceeds it, and an estimate exists exactly for an active blast with pending targets |
| QueueService.MessageId | app/services/message_queue.py:62 | the id starts with `msg_`, the time stamp and an underscore |
| QueueService.NewRecord | app/services/message_queue.py:66-78 | the new record is pending, with no retries, an empty error log, no processing or completion time, and type `text` unless one is given |
| QueueService.IncomingError | app/services/message_queue.py:150-158 | a message missing its phone number, sender or text fails with the missing-field error; otherwise the outcome is the chat handling's |
| QueueService.StatusUpdatedSpec | app/services/message_queue.py:268-295 | an update sets the status and only the fields given, and sets the completion time exactly for completion |
| QueueService.AfterFailureSpec | app/services/message_queue.py:221-266 | a failure logs one entry numbered after the attempts so far, then a record with fewer than three retries is retried with its count up by one, and any other record is failed |
| QueueService.RetriesBounded | app/services/message_queue.py:241-266 | after n failures a fresh record logs n entries numbered 1 to n; it waits for a retry after up to three failures and is failed for good after the fourth |
| QueueService.CompletedCount | app/services/message_queue.py:349 | never more than the records |
| QueueService.AllCompleted | app/services/message_queue.py:349-352 | the completed count is the length exactly when every record is completed |
| QueueService.SuccessRateBounds | app/services/message_queue.py:344-352 | the rate lies in [0, 100], is 0 without records, and is 100 exactly when all are completed |
| QueueService.MessageQueue.constructor | app/services/message_queue.py:26-30 | no records and an empty work list |
| QueueService.MessageQueue.Enqueue | app/services/message_queue.py:55-97 | the id is the message id of the stamp and sender; an id not yet stored gets the new record and its entry pushed at the push end of the work list; an id already stored (the unique index of app/database.py:86) is refused, leaving the records and the work list as they were |
| QueueService.MessageQueue.EnqueueUnique | app/services/message_queue.py:55-97 | as intended: the id starts with the message id and is new, so every message gets its own record, every earlier record is kept, and its entry is pushed |
| QueueService.SameSecondIdsCollide | app/services/message_queue.py:62 | two different messages from one sender in the same second get the same id |
| QueueService.MessageQueue.Pop | app/services/message_queue.py:109 | the oldest entry leaves the work list; an empty list yields nothing |
| QueueService.MessageQueue.UpdateMessageStatus | app/services/message_queue.py:268-295 | the record with that id is updated and an unknown id changes nothing |
| QueueService.MessageQueue.HandleMessageFailure | app/services/message_queue.py:221-266 | an unknown id is ignored; otherwise the record takes the failure, and the entry goes back on the work list while retries remain |
| QueueService.MessageQueue.ProcessSingleMessage | app/services/message_queue.py:119-148 | the record goes to processing, then either to completed with the elapsed time or through the failure handling |
| QueueService.MessageQueue.CleanupOldMessages | app/services/message_queue.py:354-368 | exactly the completed or failed records older than the cutoff are removed, and the others stay as they were |
| Monitoring.SystemHealth | app/routes/monitoring.py:31-50 | the status and the issues are those the health checks settle on |
| Monitoring.HealthClassification | app/routes/monitoring.py:31-50 | error exactly when the database or the scheduler is down; healthy exactly when no issue is raised; warning otherwise; an issue is listed exactly when its check fires |
| Monitoring.MissingQueueStatsAreQuiet | app/routes/monitoring.py:36-42 | missing queue figures raise no queue issue, so the status depends on the database and the scheduler alone |
| Monitoring.RetryableIds | app/routes/monitoring.py:180-194 | exactly the listed records that are failed with fewer than three retries |
| Monitoring.RetryFailedMessages | app/routes/monitoring.py:165-228 | every retryable record is reset to pending with no retries and an empty log, and pushed back on the work list; the other records are unchanged; the count and message report how many |
| Monitoring.PushResubmitted | app/routes/monitoring.py:206-220 | one entry per selected record is pushed, and no record changes |
| Monitoring.ExhaustedNotRetryable | app/routes/monitoring.py:181-184 | a record the queue gives up on after its retries is never selected for a retry |
| Monitoring.RetryRefusal | app/routes/monitoring.py:165-234 | as written, a caller passes only when the user object has an `is_admin` attribute that is true; every other caller gets the 500 of the catch-all |
| Monitoring.RetryAlwaysRefused | app/routes/monitoring.py:172 | the stored user has no `is_admin` attribute, so every caller, administrators included, is refused with a 500 |
| Monitoring.RetryRefusalIntended | app/routes/monitoring.py:171-176 | a non-administrator gets the 403 with its own detail, and an administrator passes |
| Monitoring.Grouped | app/routes/monitoring.py:289-298 | the table has an hour exactly when some result falls in it |
| Monitoring.RowsBelow | app/routes/monitoring.py:300-306 | every row's hour is below the bound |
| Monitoring.HourlyMessageStats | app/routes/monitoring.py:266-307 | the rows are the grouped table listed by hour |
| Monitoring.RowsSorted | app/routes/monitoring.py:305 | the rows are in strictly increasing hour order |
| Monitoring.RowsFromTable | app/routes/monitoring.py:300-306 | each row carries an hour of the table with that hour's counts |
| Monitoring.RowsCoverTable | app/routes/monitoring.py:300-306 | every hour of the table has its row |
| Monitoring.HourlyRowsSpec | app/routes/monitoring.py:266-307 | sorted by hour, with a row for an hour exactly when some result falls in it |
| Monitoring.RowsCoverResults | app/routes/monitoring.py:289-306 | every result's hour and status appear in the rows with the last count given |
| Monitoring.RowsOnlyResults | app/routes/monitoring.py:289-306 | every count in the rows comes from a result of that hour and status |
| Monitoring.AiUsageBounds | app/routes/monitoring.py:358 | 0 without outgoing messages, and within [0, 100] when the assistant's messages are among them |
| OpenAI.EmbeddingInput | app/services/openai_service.py:176-183 | nothing for a trimmed text under 3 characters; otherwise a prefix of the trimmed text of 3 to 8000 characters, the whole of it when it fits |
| OpenAI.GenerateEmbedding | app/services/openai_service.py:173-197 | a too-short text gives no vector; a vector returned is the provider's answer on the prepared text; a failed call gives no vector |
| OpenAI.ShortTextSkipsProvider | app/services/openai_service.py:176-178 | without a usable text the provider is not consulted |
| OpenAI.AppendedRender | app/services/openai_service.py:267-339 | appending a present part renders one more section |
| OpenAI.FoldRender | app/services/openai_service.py:267-339 | appending the parts one by one gives the base and the rendered sections |
| OpenAI.SystemPromptFold | app/services/openai_service.py:267-339 | the written-out prompt is the fold over the twelve ranks |
| OpenAI.StyleRanks | app/services/openai_service.py:313-323 | ranks 6 to 9 are the four style preferences |
| OpenAI.ExtraRanks | app/services/openai_service.py:325-337 | ranks 10 to 12 are the custom instructions, the workflow and the knowledge base |
| OpenAI.SystemPromptSections | app/services/openai_service.py:267-339 | the prompt is the base prompt followed by the present sections in rank order |
| OpenAI.BuildSystemPrompt | app/services/openai_service.py:267-339 | the method builds the prompt the sections describe |
| OpenAI.AddContext | app/services/openai_service.py:275-309 | business, tone, length and language parts, in that order |
| OpenAI.AddStyle | app/services/openai_service.py:312-337 | style, custom, workflow and knowledge parts, in that order |
| OpenAI.AddBusinessContext | app/services/openai_service.py:275-283 | the business part, then the description part |
| OpenAI.AddTone | app/services/openai_service.py:286-295 | the tone part, `polite` by default and nothing for an unknown tone |
| OpenAI.AddLength | app/services/openai_service.py:297-304 | the length part, `short` by default and nothing for an unknown length |
| OpenAI.AddLanguage | app/services/openai_service.py:306-309 | the language part, absent for English |
| OpenAI.AddStylePreferences | app/services/openai_service.py:312-323 | the four style flags, in order |
| OpenAI.AddCustomInstructions | app/services/openai_service.py:325-327 | the custom part when there are instructions |
| OpenAI.AddWorkflowContext | app/services/openai_service.py:329-332 | the workflow part when there is a workflow |
| OpenAI.AddKnowledge | app/services/openai_service.py:334-337 | the header and one line per document when there are documents |
| OpenAI.ChainInOrder | app/services/openai_service.py:267-339 | the parts come in strictly increasing rank |
| OpenAI.ChainHas | app/services/openai_service.py:267-339 | a rank is present exactly when its part is |
| OpenAI.SectionsInOrder | app/services/openai_service.py:267-339 | business, description, tone, length, language, emojis, formal, friendly, detailed, custom, workflow, knowledge, in that order |
| OpenAI.SectionPresent | app/services/openai_service.py:267-339 | a section is present exactly when its part is |
| OpenAI.SectionsPresence | app/services/openai_service.py:267-339 | each section is present exactly when the settings call for it |
| OpenAI.PartCalledFor | app/services/openai_service.py:267-339 | a part exists exactly when the settings call for it |
| OpenAI.SystemPromptStart | app/services/openai_service.py:274 | the prompt opens with the configured system prompt, or the default one |
| OpenAI.KeptAll | app/services/openai_service.py:43-48 | every usable message is kept |
| OpenAI.KeptOnly | app/services/openai_service.py:43-48 | nothing but usable messages is kept |
| OpenAI.KeptSpec | app/services/openai_service.py:43-48 | exactly the usable messages, stripped; none is kept exactly when none is usable |
| OpenAI.ClampUnit | app/services/openai_service.py:62 | the value clamped into [0, 1] |
| OpenAI.BuildConversation | app/services/openai_service.py:40-48 | the system turn, then the kept messages |
| OpenAI.RequestFor | app/services/openai_service.py:58-63 | the temperature lies in [0, 1], 0.7 by default, and the token budget is 150 by default |
| OpenAI.GenerateResponse | app/services/openai_service.py:20-78 | the reply is the one the conversation, the settings and the provider determine |
| OpenAI.AnswerOrFallback | app/services/openai_service.py:66-78 | the provider's answer, or a fallback for a blank answer or a failed call |
| OpenAI.GreetingNotBlank | app/services/openai_service.py:31 | the greeting is not blank |
| OpenAI.FallbackNotBlank | app/services/openai_service.py:78 | the default fallback is not blank |
| OpenAI.ResponseGreets | app/services/openai_service.py:30-52 | without a usable message the greeting comes back whatever the provider says |
| OpenAI.ReplyNotBlank | app/services/openai_service.py:66-78 | a reply is never blank unless the configured fallback is |
| OpenAI.ReplySource | app/services/openai_service.py:66-78 | a reply is the default fallback, the configured one, or the provider's answer |
| OpenAI.ResponseNotBlank | app/services/openai_service.py:20-78 | the reply to a chat is never blank unless the configured fallback is |
| OpenAI.ResponseSource | app/services/openai_service.py:20-78 | any other reply is a fallback or the provider's answer to the chat's request |
| OpenAI.PreviewLength | app/services/openai_service.py:452-461 | 500 exactly for a spreadsheet whose first 500 characters mention WORKSHEET, otherwise 300 |
| OpenAI.ContextLine | app/services/openai_service.py:452-461 | the title, the Excel tag for spreadsheets, then the preview |
| OpenAI.FormatContextDocuments | app/services/openai_service.py:445-462 | the method computes the formatted context |
| OpenAI.ContextLinesStart | app/services/openai_service.py:450-462 | the lines open with the first title |
| OpenAI.FormatContextSpec | app/services/openai_service.py:445-462 | the placeholder exactly when there are no documents; otherwise the first title opens the context |
| OpenAI.MaxTokens | app/services/openai_service.py:464-472 | 100, 300 and 500 for short, medium and long, and 200 for anything else |
| OpenAI.FirstIndexOf | app/services/openai_service.py:411 | the first position of the character from the start given, if any |
| OpenAI.JsonSpan | app/services/openai_service.py:411 | a span from a '{' to a '}'; none exactly when no '{' comes before a '}' |
| OpenAI.ParseWorkflowAnalysisSpec | app/services/openai_service.py:401-443 | the confidence lies in [0, 1]; without JSON, completed exactly when the lowered text says so, confidence 0.5 and the next step after the current one unless it is the last |
| OpenAI.WithEmbeddings | app/services/openai_service.py:213 | exactly the documents with an embedding |
| OpenAI.ScoredAll | app/services/openai_service.py:219-226 | each document with its own similarity, in order |
| OpenAI.SearchDocuments | app/services/openai_service.py:199-234 | the top documents for the query's embedding (see the `TopDocuments` lemmas for their members, size and order) |
| OpenAI.RankedCandidates | app/services/openai_service.py:228-229 | the ranking is descending and holds each candidate once with its similarity |
| OpenAI.TopDocumentsMembers | app/services/openai_service.py:208-230 | only documents with an embedding, at most `limit`; an empty query embedding gives nothing |
| OpenAI.TopDocumentsSize | app/services/openai_service.py:208-230 | with a query embedding the result holds min(`limit`, number of documents with an embedding) documents, and with a large enough limit every such document |
| OpenAI.TopDocumentsOrdered | app/services/openai_service.py:228-230 | the documents come in descending similarity |
| OpenAI.TopDocumentsAreTop | app/services/openai_service.py:228-230 | no document left out is more similar than the last one returned |
| OpenAI.BelowTheCut | app/services/openai_service.py:230 | a document below the cut scores no higher than the last one kept |
| PhoneRoutes.CleanPhone | app/routes/phones.py:67-69 | the stored form starts with '+' and is no shorter than the trimmed input |
| PhoneRoutes.CleanPhoneIdempotent | app/routes/phones.py:393-395 | a stored number cleans to itself, so the delete by number finds it under its own text |
| PhoneRoutes.PhonesOfInsert | app/routes/phones.py:79-95 | inserting a phone adds its key to its own workspace's set only |
| PhoneRoutes.PhonesOfRemove | app/routes/phones.py:317 | removing a phone never adds to a workspace's set |
| PhoneRoutes.PhonesOkInsert | app/routes/phones.py:60-95 | inserting a long enough, new number under its workspace's cap of two keeps the registry rules |
| PhoneRoutes.PhonesOkRemove | app/routes/phones.py:317 | removing a phone keeps the registry rules |
| PhoneRoutes.PhoneRegistry.constructor | app/routes/phones.py:39-97 | an empty registry over the given workspaces |
| PhoneRoutes.PhoneRegistry.AddPhone | app/routes/phones.py:39-97 | a non-admin gets 403; a trimmed number under 10 characters gets 400; a stored number gets 400; a third phone gets 400; otherwise the cleaned number is stored under a new id with the trimmed display name and the form's status, which is disconnected unless the form names another |
| PhoneRoutes.PhoneRegistry.DeletePhone | app/routes/phones.py:258-368 | an unknown id gets 404 and a non-admin 403; otherwise the removal's outcome |
| PhoneRoutes.PhoneRegistry.RemovePhone | app/routes/phones.py:290-353 | a connected phone is disconnected first; an open chat on the number refuses with 400, the disconnect kept; otherwise the chats on it are flagged, the phone removed and an audit entry appended |
| PhoneRoutes.PhoneRegistry.DeletePhoneByNumber | app/routes/phones.py:370-425 | blank inputs get 400; a non-admin 403; a cleaned number not stored for the workspace 404; otherwise the delete of the phone found |
| PhoneRoutes.RegistryRules | app/routes/phones.py:71-85 | a workspace never holds more than two phones, and no number is stored twice |
| PhoneRoutes.FlagChatsSpec | app/routes/phones.py:311-314 | only the chats on that number are flagged, and every chat keeps its status |
| PhoneRoutes.OpenChatBlocks | app/routes/phones.py:298-308 | an active or qualified chat on the number refuses the delete |
| Workflows.StepCount | app/services/workflow_service.py:19-21 | never more than the stored steps |
| Workflows.RequiredSteps | app/services/workflow_service.py:167 | exactly the numbers of the workspace's required steps |
| Workflows.CompletedRequired | app/services/workflow_service.py:168 | exactly the completed steps that are required, never more than the completed steps |
| Workflows.PatchSpec | app/services/workflow_service.py:143-171 | the score becomes the confidence; a completed step records its answer and moves on to a truthy next step; help is flagged for a confidence under 0.5 or a request for clarification; qualification follows the 80% rule on the steps completed before the update, and always holds without required steps; no flag is cleared |
| Workflows.PushSpec | app/services/workflow_service.py:148-150 | appending as meant keeps the completed steps free of repeats and adds exactly the current step when it was completed |
| Workflows.FindStep | app/services/workflow_service.py:192 | the first stored step of the workspace with that number; none exactly when there is no such step |
| Workflows.AnalyzeUnknownStep | app/services/workflow_service.py:194-202 | an unknown step gives an incomplete step with no confidence and no next step, asking for clarification |
| Workflows.WorkflowService.constructor | app/services/workflow_service.py:14-33 | no steps and no progress records |
| Workflows.WorkflowService.CreateWorkflowStep | app/services/workflow_service.py:14-33 | the step is numbered one past the workspace's step count and appended; progress is unchanged |
| Workflows.WorkflowService.UpdateChatWorkflowProgress | app/services/workflow_service.py:112-178 | as written: a chat without progress gets a fresh record; when a newly completed step would be appended the update is refused and the record stays; otherwise the update is written and the completed steps never change |
| Workflows.WorkflowService.UpdateChatWorkflowProgressIntended | app/services/workflow_service.py:112-178 | the same update with the append done as a push: the record becomes the patched one, and a completed step is among the completed steps |
| Workflows.NumberedAfterCreate | app/services/workflow_service.py:19-25 | creating steps one after another keeps every workspace numbered 1, 2, ... without gaps or repeats |
| Workflows.NumberedDistinct | app/services/workflow_service.py:19-25 | two steps of one workspace never share a number |
| Workflows.StepCountGrows | app/services/workflow_service.py:19-21 | counting over a longer prefix that takes in one more of the workspace's steps gives more |
| WorkspaceRoutes.Without | app/routes/workspaces.py:196 | every occurrence removed and the rest kept, so the value is absent afterwards |
| WorkspaceRoutes.WithoutAbsent | app/routes/workspaces.py:268-275 | pulling a value that is not there changes nothing |
| WorkspaceRoutes.PullAfterPush | app/routes/workspaces.py:236-275 | pushing a value and pulling it again restores a list that did not hold it |
| WorkspaceRoutes.DropOwnedSpec | app/routes/workspaces.py:189-191 | the delete keeps exactly the records of other workspaces, unchanged |
| WorkspaceRoutes.PullAll | app/routes/workspaces.py:194-197 | one entry per user |
| WorkspaceRoutes.FindById | app/routes/workspaces.py:236-245 | the position of a user with that id; none exactly when there is none |
| WorkspaceRoutes.UpdateLinks | app/routes/workspaces.py:241-245 | one entry per user |
| WorkspaceRoutes.ReassignOk | app/routes/workspaces.py:51 | handing every workspace to the caller keeps the workspace rules |
| WorkspaceRoutes.ReplaceOk | app/routes/workspaces.py:156-162 | replacing a workspace with distinct members keeps the workspace rules |
| WorkspaceRoutes.InsertOk | app/routes/workspaces.py:59-68 | inserting a workspace with distinct members under a fresh key keeps the workspace rules |
| WorkspaceRoutes.RemoveOk | app/routes/workspaces.py:186 | removing a workspace keeps the workspace rules |
| WorkspaceRoutes.LinksOk | app/routes/workspaces.py:241-245 | updating one user's links keeps the user rules |
| WorkspaceRoutes.PullAllOk | app/routes/workspaces.py:194-197 | pulling a key from every user keeps the user rules |
| WorkspaceRoutes.WorkspaceRegistry.constructor | app/database.py:14-29 | a freshly connected database: no workspaces, users, chats, documents, phones or chunks, and ids from 0 |
| WorkspaceRoutes.WorkspaceRegistry.Fetch | app/routes/workspaces.py:97-120 | a workspace exactly when the id is stored |
| WorkspaceRoutes.WorkspaceRegistry.CreateWorkspace | app/routes/workspaces.py:37-73 | a caller whose `is_admin` reading is not true is refused with nothing changed; past the gate every workspace goes to the caller; a name under 2 characters is then refused; otherwise the workspace is stored with its trimmed name and description, the form's status (active unless the form names another), the caller as admin and no members, and is linked to the caller |
| WorkspaceRoutes.WorkspaceRegistry.MakeAdmin | app/routes/workspaces.py:75-95 | past the gate every workspace goes to the caller, and the count is how many changed hands |
| WorkspaceRoutes.WorkspaceRegistry.UpdateWorkspace | app/routes/workspaces.py:134-170 | a non-admin gets 403; otherwise the present fields and the time are written, and a write that changes nothing answers 404 |
| WorkspaceRoutes.WorkspaceRegistry.DeleteWorkspace | app/routes/workspaces.py:172-199 | a non-admin gets 403; otherwise the workspace, its chats, documents and phones go and every user drops it; chunks stay |
| WorkspaceRoutes.WorkspaceRegistry.AddMember | app/routes/workspaces.py:201-247 | a non-admin gets 403; an unknown email 404; an existing member 400; otherwise both sides get the link |
| WorkspaceRoutes.WorkspaceRegistry.RemoveMember | app/routes/workspaces.py:249-277 | a non-admin gets 403; otherwise the link is pulled from both sides |
| WorkspaceRoutes.DistinctAppend | app/routes/workspaces.py:228-239 | appending a new member keeps the list free of repeats |
| WorkspaceRoutes.DistinctWithout | app/routes/workspaces.py:266-269 | pulling keeps the list free of repeats |
| WorkspaceRoutes.UpdateLinksKeepsIds | app/routes/workspaces.py:241-245 | updating one user's links keeps every user id |
| WorkspaceRoutes.CallerAdministersAll | app/routes/workspaces.py:51 | after the reassignment the caller administers every workspace, with the members kept |
| WorkspaceRoutes.BadNameStillReassigns | app/routes/workspaces.py:51-57 | a create that fails on the name has still taken over every workspace another user administered |
| WorkspaceRoutes.RemoveUndoesAdd | app/routes/workspaces.py:236-275 | removing a member just added restores both lists |
| WorkspaceRoutes.DeleteOrphansChunks | app/routes/workspaces.py:189-191 | a chunk of a document of the deleted workspace is left pointing at a removed document |
| WorkspaceRoutes.PullAllAt | app/routes/workspaces.py:194-197 | each user after the pull is the same record with the key pulled from its list |
| WorkspaceRoutes.DeleteUnlinksUsers | app/routes/workspaces.py:194-197 | after a delete no user lists the workspace, and each keeps the rest of their list and their id |
| Ranking.Insert | app/services/openai_service.py:229 | one element more, and the elements are those of the input plus the new one |
| Ranking.InsertSorted | app/services/openai_service.py:229 | inserting into a descending sequence keeps it descending |
| Ranking.SortDesc | app/services/openai_service.py:229 | the sort keeps the length and the elements |
| Ranking.InsertWithKey | app/services/document_service.py:483 | an inserted element goes ahead of every element with its own key, and leaves the order of the others |
| Ranking.SortDescStable | app/services/document_service.py:483 | the sort is stable: for every key, the elements with that key come out in their input order |
| Ranking.SortDescSorted | app/services/document_service.py:483 | `sort(key=..., reverse=True)` gives a descending permutation of its input |
| Ranking.PermutationMembers | app/services/document_service.py:483 | a re-ordering holds only elements it was given |
| Ranking.Take | app/services/openai_service.py:230 | the length of `s[:n]`, negative `n` included |
| Ranking.TakeOfSorted | app/services/openai_service.py:230 | the first `n` of a descending sequence are descending and no smaller than the rest |
| Ranking.TakeIsPrefix | app/services/document_service.py:476 | `s[:n]` is a prefix of `s` |
| Text.Strip | app/services/document_service.py:229 | never longer than the input, and neither end of a non-empty result is a space |
| Text.StripSlice | app/services/document_service.py:229 | the strip is the slice after the leading spaces |
| Text.StripEmpty | app/services/document_service.py:56 | the strip is empty exactly for a blank string |
| Text.StripIdempotent | app/services/document_service.py:250 | stripping twice is stripping once |
| Text.StripOfTrimmed | app/services/document_service.py:250 | a string with non-space ends is its own strip |
| Text.Lower | app/services/document_service.py:640 | same length, each character lowered |
| Text.TitleAfter | app/services/excel_report_service.py:158 | same length, letters where the input has letters |
| Text.Title | app/services/excel_report_service.py:158 | same length as the input |
| Text.Words | app/services/document_service.py:188 | no more words than characters, each non-empty and starting with a non-space |
| Text.WordsBlank | app/services/document_service.py:188 | no words exactly when the string is blank |
| Text.RFind | app/services/document_service.py:238-246 | -1 or an index within the window |
| Text.RFindSpec | app/services/document_service.py:238-246 | the index found holds the character, and none lies after it in the window |
| Text.JoinAppend | app/services/excel_processor.py:156 | joining one more part appends the separator and that part |
| Text.JoinFirst | app/services/excel_processor.py:156 | a join starts with its first part |
| Text.FindFrom | app/services/excel_processor.py:320 | the first occurrence of the separator at or after the start, if any |
| Text.Split | app/services/excel_processor.py:320 | at least one part |
| Text.JoinSplit | app/services/excel_processor.py:320-327 | joining the parts of a split on the same separator gives the string back |
| Text.SplitPartsFree | app/services/excel_processor.py:320-327 | no part of a split holds the separator |
| Text.StripNameChars | app/services/email_notification_service.py:441 | stripping a string of name characters leaves name characters |
| Text.KeepNameChars | app/services/email_notification_service.py:441 | never longer; only name characters; a string of name characters is kept whole |
| Text.ReplaceChar | app/services/email_notification_service.py:442 | same length, each occurrence of the character replaced and the rest kept |

## Left out

- Text extraction from PDF, DOCX and TXT files, temp-file handling, and workbook loading through openpyxl, pandas and xlrd are I/O. A worksheet is modelled as a grid of cells that have already been read.
- Cosine similarity, embeddings and every chat-completion call are foreign code. They enter the model as function parameters, and an embedding may be empty.
- MongoDB is modelled as maps and sequences, and an aggregation pipeline as the filter it computes. The sort of the message view is not modelled: a query keeps the collection's order.
- The Redis list, the `brpop` loop, `asyncio.sleep`, `create_task` and thread pools are concurrency and I/O. The work list is a sequence. The retry delay is not modelled, and neither is the timestamp of the next retry.
- SMTP, writing and formatting spreadsheets, and the clean-up of old files are I/O. Whether the spreadsheet step raised, and whether the e-mail went out, are parameters.
- The scheduler wrappers are timing glue:
  - the APScheduler jobs;
  - the blast scheduler;
  - the export scheduler;
  - the e-mail scheduler.
- The WhatsApp transport and the webhooks are HTTP plumbing. A send is an oracle with the outcomes sent or failed.
- The chat service is orchestration of the AI, the workflow and WhatsApp, and is not part of this model.
- bcrypt hashing and JWT encoding are foreign libraries. The password check is an oracle, and a token is its claims plus its expiry.
- `_process_xls_file` (app/services/excel_processor.py:71-100), the legacy `.xls` reader, is not modelled: it reads every sheet through xlrd, joins the sheets' texts with a blank line and skips a sheet that fails to read, which is workbook I/O.
- `extract_key_value_pairs` in the spreadsheet helpers depends on greedy regular-expression matching, so it is not modelled.
- These parts of timestamps are not modelled:
  - wall-clock times, which are integer seconds passed in by the caller;
  - the IST conversion;
  - `strftime` formatting;
  - generated file names;
  - the moment the export stamps: the source reads the clock again after building and sending the file (app/services/excel_export_service.py:116 and 303), while ExcelExport.ExportLog.ExportWorkspace uses the one `now` for the window and the stamp.
- The export service's `manual_export` calls a method that does not exist, and `get_export_statistics` only reads the log. Neither is modelled.
- These routes only check access and then read records or delegate to a service operation that is modelled, so they are not modelled themselves:
  - the listings of workspaces, members, phones, blasts, targets, e-mail configurations and e-mail logs;
  - the blast get, update, delete, progress, start, pause, resume and cancel routes, which delegate to the blast service;
  - the document get, delete, stats, upload, search and suggestions routes, which delegate to the document service;
  - login, `me`, `check-admin` and logout, which delegate to the authentication rules;
  - the e-mail statistics route, which delegates to the notification statistics.
- These routes are not modelled:
  - the phone connect, disconnect, status and update routes, which are WhatsApp transport behind the admin check;
  - the test e-mail and the e-mail system status;
  - the system-status, queue-statistics and performance routes, apart from the health classifier, the hourly breakdown and the AI-usage percentage.
- Python's `float` printing and `round(x, 2)` are not modelled. Percentages and scores are exact `real` values.
- `lower`, `title` and `isalnum`, and the regular-expression classes `\d` and `\b`, are modelled on ASCII letters and digits only; Python's `re` matches Unicode digits and word characters. `isspace` is modelled with Python's full set of white-space characters.
- The logging in the services is not modelled. Where a service returns only a log summary, the summary is returned as a value.
- The FastAPI 422 error for a query parameter out of bounds is modelled by its status code, not by its JSON detail.
- MessageBlasts.ProgressPercentage: the percentage is the exact ratio, not `round(..., 2)`. With rounding, a blast with 99999 of 100000 targets processed would also show 100.
- QueueService.SuccessRateBounds: the rate is the exact ratio, not `round(..., 2)`. With rounding, a rate above 99.995 would also show 100.
- BlastRoutes.StatisticsBounds: the success rate is the exact ratio, not `round(..., 2)` (app/routes/message_blasts.py:493). With rounding, 1000000 sent and 1 failed would also show 100, so the "100 exactly when none failed" clause holds only of the exact ratio.
- Monitoring.AiUsageBounds: the usage is the exact ratio, not rounded to two decimals.
- MessageBlasts.ProgressBatches: only whether there is an estimate of the remaining minutes is stated, not its value.
- QueueService.MessageId: only the prefix up to the sender is stated. The time stamp is a parameter, and its `strftime` format is not modelled.
- MessageBlasts.BlastService.ProcessBlastBatches: the sender lookup is a flag. The sender's number goes only to the send oracle.
- OpenAI.ResponseGreets: the reply is the greeting when no message is usable. The converse is not claimed, because the provider may itself answer with the greeting's text.
- Workflows.WorkflowService.UpdateChatWorkflowProgress: the re-read of the record after the write is taken to be the record written.
- EnhancedDocuments.EnhancedProcessDocumentChunks, EnhancedDocuments.ProcessExcelChunks and EnhancedDocuments.StoreExcelChunks model only the intended spreadsheet ingestion. As written, `enhanced_document_service.py` cannot get past its first step:
  - it calls `self.get_database()` (line 27), which neither the class nor its base defines, and the error is re-raised (lines 43-45);
  - it uses `ObjectId` and `openai_service` (lines 30, 84, 99 and 118), which the module never imports (lines 6-11).
  So every call raises before anything is stored. The model does not capture this failure.
- A path id that is not a well-formed ObjectId makes `ObjectId(...)` raise `InvalidId`, so the route answers 500 before any 404 check (for example app/routes/workspaces.py:110). The model looks records up by their id whatever its form and answers 404 for an id it does not hold, so it does not capture this 500.

## Findings

| source | as written | input that shows it | evidently intended | confidence | as-written member | corrected member |
|---|---|---|---|---|---|---|
| app/services/document_service.py:194 | a chunk stores `document_id` as a string, but the search's `$lookup` (lines 369-377) joins it against the documents' ObjectId `_id` | any workspace with ready, embedded documents and any query: no chunk finds its document, so the search answers `[]` | join on the document's ObjectId, so that matching chunks are grouped into results | high, not executed | DocumentSearch.SearchAsWrittenIsEmpty | DocumentSearch.SearchFindsResults |
| app/services/enhanced_document_service.py:201-202 | `_calculate_excel_relevance` calls `chunk.get` on chunk models, which have no `get`; the exception is caught and the search answers `[]` | any spreadsheet search whose base search returns a result with chunks | read each chunk's metadata field, then re-rank by the spreadsheet relevance | high, not executed | EnhancedDocuments.SearchExcelAsWrittenIsEmpty | EnhancedDocuments.SearchExcelFindsResults |
| app/utils/excel_helpers.py:103 | `has_formulas` holds whenever the content contains `=`, and every rendered worksheet's title line `=== WORKSHEET n: ... ===` does | a worksheet titled `Sheet1` with no formula at all | report formulas only for a `Formula:` annotation | high, not executed | ExcelHelpers.FormulasAsWrittenOnEveryWorksheet | ExcelHelpers.DetectDataTypesSpec |
| app/services/message_blast_service.py:112-116 | a number imported from a sheet is checked against the strict pattern before it is cleaned, so a valid number written with a space is dropped | the cell `+91 9876543210` | clean first, then check, as `_clean_phone_numbers` does; the cell then gives `+919876543210` | high, not executed | MessageBlasts.ImportDropsSpacedNumbers | MessageBlasts.CleaningFirstMatchesListCleaning |
| app/routes/message_blasts.py:113-115 | a blast whose start time is not in the future is started at once, but a new blast is a draft and `start_blast` accepts only scheduled blasts (message_blast_service.py:263-264), so the route answers 500 after storing it | any valid form with a start time in the past | start the new blast, which becomes active | high, not executed | BlastRoutes.CreateBlastRoute | BlastRoutes.CreateBlastRouteIntended |
| app/routes/message_blasts.py:448 | the statistics route uses `timedelta`, which the module never imports (line 11) | any call by a user with access to the workspace | answer the statistics folded from the status groups | high, not executed | BlastRoutes.StatisticsRoute | BlastRoutes.StatisticsRouteIntended |
| app/routes/monitoring.py:172 | `current_user.is_admin` is not a field of the user model (app/models/user.py:31-35); the error is caught and every caller gets 500 | a stored global administrator calling retry-failed | refuse non-administrators with 403 and let administrators through | high, not executed | Monitoring.RetryAlwaysRefused | Monitoring.RetryRefusalIntended |
| app/services/workflow_service.py:150 | the append of a completed step is written as a `$push` key inside the `$set` document (line 175), a field name the database refuses, so the whole update fails | an analysis that completes a step not yet in the completed list | push the step beside the `$set`, so the step is recorded and the rest is written | medium, not executed | Workflows.WorkflowService.UpdateChatWorkflowProgress | Workflows.PushSpec |
| app/routes/workspaces.py:44 | the global-admin gate reads `current_user.is_admin`, which the user model drops, so creating a workspace and make-admin answer 500 to every caller | a stored global administrator creating a workspace | admit exactly the users stored as global administrators | high, not executed | AuthHandler.AdminGateAsWritten | AuthHandler.AdminGateFixed |
| app/routes/email_notifications.py:289 | the manual trigger uses `timedelta`, which the module never imports (line 12) | an administrator with an active configuration and hours = 24 | send the notification covering the last `hours` hours | high, not executed | EmailConfigRoutes.ManualTriggerAlwaysFails | EmailConfigRoutes.ManualReportsLastHours |
| app/services/excel_export_service.py:107-123 | the result of `send_email_with_attachment`, which reports a failure as `False` (app/services/email_service.py:51-53), is ignored, so a failed e-mail still moves the export timestamp and reports success | a workspace with new messages whose e-mail fails to send | move the timestamp and report success only when the e-mail went out | high, not executed | ExcelExport.FailedEmailCountsAsExported | ExcelExport.FailedExportKeepsWindow |
| app/services/message_queue.py:62 | the message id is `msg_`, the time stamp to the second and the sender; the unique index on `message_id` (app/database.py:86) makes `insert_one` refuse a second message from one sender in the same second, and the error is re-raised (lines 94-96), so that message is never queued | two messages from +919876543210 within one second | a unique id per message (the comment at line 61), so every message is stored and queued | high, not executed | QueueService.SameSecondIdsCollide | QueueService.MessageQueue.EnqueueUnique |
| app/routes/documents.py:19 | `limit` has an upper bound of 100 but no lower bound, and a negative limit makes the slice end count from the back | `limit = -1` and `offset = 0` with three matching documents: two are listed | refuse a negative limit, so a page never holds more than the limit | high, not executed | DocumentRoutes.NegativeLimitListsMore | DocumentRoutes.ListDocumentsIntended |
