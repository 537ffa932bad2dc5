# zettelkasten core, modelled in Dafny

This project models the back end of a note-taking service in the Zettelkasten style. It covers:

- the message bus, which dispatches domain events and commands to their handlers, breadth first;
- the event logger, which writes a redacted copy of every event to the database;
- the value objects (names, titles, colours) and their column converters;
- the CORS middleware;
- the query paginator;
- the Redis token-bucket rate limiter;
- the account, session and content services:
  - registration, login and session refresh;
  - password changes, by token or by current password;
  - folder creation and update, and note update;
  - note-to-note relations.

Each repository is a class. It holds the rows its database session sees as a `seq` of value rows, and it answers `one_or_none` queries through `Domain.Lookup`. That lookup gives the row's position, `None`, or `MultipleResultsFound`. A service is a class whose `events` field collects what `get_events` returns. Each service method is proved against a pure function of the old state. Lemmas about those functions state the service's promises:

- single use of a token;
- one active session per device;
- emails that stay unique;
- the new password logs in.

Inputs the code draws from outside are parameters of the calls that use them:

- the clock (`now`, in whole seconds);
- every fresh `uuid4()` and `token_hex`;
- the bcrypt salt;
- the repository encoders;
- the JWT signer.

Handlers, password hashing and encoders are caller-supplied functions.

## Model

| member | source | states |
|---|---|---|
| MessageBus.EventHandler.constructor | src/message_bus/event_handlers/base.py:8-9 | a handler starts with an empty emission buffer |
| MessageBus.EventHandler.EmitMessage | src/message_bus/event_handlers/base.py:28-29 | `emmit` appends the message to the buffer, which is never cleared |
| MessageBus.EventHandler.Phases | src/message_bus/event_handlers/base.py:15-20 | the before-hook always runs; the core logic and the after-hook run exactly when it succeeds, the after-hook last and once |
| MessageBus.EventHandler.Emissions | src/message_bus/event_handlers/base.py:15-20 | a failing before-hook emits nothing |
| MessageBus.EventHandler.HandleResult | src/message_bus/event_handlers/base.py:15-20 | `handle` returns (with `None`) iff the before-hook, the core and the after-hook all succeed |
| MessageBus.EventHandler.Handle | src/message_bus/event_handlers/base.py:15-26 | the phases run, the buffer grows by the handler's emissions, and the outcome is `HandleResult` |
| MessageBus.CommandHandler.constructor | src/message_bus/command_handlers/base.py:8-9 | a command handler starts with an empty buffer |
| MessageBus.CommandHandler.EmitMessage | src/message_bus/command_handlers/base.py:15-16 | appends to the command handler's buffer |
| MessageBus.CommandHandler.Handle | src/message_bus/command_handlers/base.py:11-13 | the buffer grows by what the core emits, and the outcome is the core's |
| MessageBus.Bus.constructor | src/message_bus/message_bus.py:40-55 | the bus holds the given event and command registries |
| MessageBus.Bus.SetEventHandlers | src/message_bus/message_bus.py:57-62 | replaces one event type's handler list and leaves commands alone |
| MessageBus.Bus.SetCommandHandler | src/message_bus/message_bus.py:64-69 | replaces one command type's handler and leaves events alone |
| MessageBus.Bus.Handle | src/message_bus/message_bus.py:71-87 | the queue loop computes exactly the specification `Run`: outcome, results and handler buffers |
| MessageBus.Bus.HandleEvent | src/message_bus/message_bus.py:89-112 | one event runs its registered handlers in order, as `DispatchEvent` describes |
| MessageBus.Bus.CallHandler | src/message_bus/message_bus.py:100-110 | one handler call either records its result and enqueues its buffer, or, when it raises, changes neither |
| MessageBus.Bus.HandleCommand | src/message_bus/message_bus.py:114-134 | one command either records its result and enqueues its buffer, or aborts `handle` |
| MessageBus.Bus.BatchHandle | src/message_bus/message_bus.py:34-36 | `batch_handle` runs `handle` on each message in turn, as `RunBatch` describes |
| MessageBusProperties.ResultOf | src/message_bus/message_bus.py:100-104 | a stateful event handler contributes `None` to the results |
| MessageBusProperties.ResultsOf | src/message_bus/message_bus.py:100-104 | one result per handler, in registration order |
| MessageBusProperties.DispatchEventAppends | src/message_bus/message_bus.py:100-110 | dispatching an event only appends, to the queue and to the results |
| MessageBusProperties.DispatchEventSplit | src/message_bus/message_bus.py:99-110 | handlers `a + b` run as `a`, then `b` |
| MessageBusProperties.StepIsFifo | src/message_bus/message_bus.py:73-80 | each step takes the head, and the rest of the queue stays in order in front of what it enqueues |
| MessageBusProperties.AllReturnAllRecorded | src/message_bus/message_bus.py:99-110 | handlers that all return add exactly their results, in order |
| MessageBusProperties.ReturningHandlerRecords | src/message_bus/message_bus.py:100-107 | a handler that returns appends exactly its own result |
| MessageBusProperties.EventContributesOneResultPerHandler | src/message_bus/message_bus.py:89-112 | an event whose n handlers all return adds exactly n results |
| MessageBusProperties.RaisingHandlerIsSkipped | src/message_bus/message_bus.py:106-110 | a raising handler adds no result and enqueues nothing, and the later handlers still run |
| MessageBusProperties.RegisteredEventNeverAborts | src/message_bus/message_bus.py:89-112 | a registered event never makes `handle` raise, whatever its handlers do |
| MessageBusProperties.EmptyHandlerListIsNoOp | src/message_bus/message_bus.py:97-99 | an event type registered with no handlers only dequeues |
| MessageBusProperties.FatalConditions | src/message_bus/message_bus.py:78-87 | an unregistered event type, a missing command handler and a non-message end `handle` with an error |
| MessageBusProperties.CommandContributesOneResultOrFails | src/message_bus/message_bus.py:114-134 | a command adds exactly one result, or it aborts and the rest of the queue is dropped |
| MessageBusProperties.SecondCallReenqueues | src/message_bus/message_bus.py:101-103 | the buffer is never cleared, so a second call enqueues again everything the first one emitted |
| MessageBusProperties.BreadthFirst | src/message_bus/message_bus.py:73-76 | with `[E, E2]` queued, the messages `E` emits are queued after `E2` |
| MessageBusProperties.BatchStopsAtFirstFailure | src/message_bus/message_bus.py:34-36 | a batch completes iff every message's `handle` finishes, each starting from the buffers the previous calls left, and then ends with those buffers; a batch that stops, stops at the first message whose `handle` did not finish: every earlier message finished, and the stopping call ran with the buffers they left |
| MessageBusProperties.FinishedThrough | src/message_bus/message_bus.py:34-36 | the buffers after `handle` has run on a stretch of the batch, each call starting from the previous one's buffers, or nothing when one of them did not finish |
| MessageBus.CallEventHandler | src/message_bus/message_bus.py:97-110 | one handler call only appends: to the queue, and at most one result |
| MessageBus.DispatchEvent | src/message_bus/message_bus.py:89-112 | an event's handlers add between none and one result each |
| MessageBus.CallCommandHandler | src/message_bus/message_bus.py:122-134 | a command that returns appends exactly one result and only appends to the queue; one that raises aborts with the command's error |
| MessageBus.Step | src/message_bus/message_bus.py:75-85 | an event aborts only when its type is unregistered, with that type's error; a non-message always aborts and changes no buffer |
| MessageBus.Run | src/message_bus/message_bus.py:71-87 | running out of fuel leaves messages pending, and a non-empty queue with no fuel is out of fuel |
| MessageBus.RunBatch | src/message_bus/message_bus.py:34-36 | a stopped batch names a message of the batch whose `handle` did not finish |
| EventsLogger.Get | src/message_bus/event_handlers/events_loger.py:32-38 | `kwargs.get`: the value iff the key is present |
| EventsLogger.Redact | src/message_bus/event_handlers/events_loger.py:24-30 | the logged copy keeps every field, masks only `password` and `token`, and keeps the event type |
| EventsLogger.MakeLogRow | src/message_bus/event_handlers/events_loger.py:32-38 | the row holds the redacted event and the user id and meta; `object_id` is the truthy kwarg, else the event's `id` |
| EventsLogger.SyncLogger.constructor | src/message_bus/event_handlers/events_loger.py:13-18 | a new logger holds no session |
| EventsLogger.SyncLogger.Handle | src/message_bus/event_handlers/events_loger.py:20-47 | without `db_session`, it raises before anything is written; otherwise it adds one row, commits it unless the commit raises (which `handle` then raises), and closes the session either way |
| EventsLogger.AsyncLogger.constructor | src/message_bus/event_handlers/events_loger.py:51-56 | a new async logger holds no session factory |
| EventsLogger.AsyncLogger.Handle | src/message_bus/event_handlers/events_loger.py:58-92 | without `db_sessionmaker`, it raises at once; otherwise it opens one session, commits one row unless the commit raises, and closes the session either way |
| EventsLogger.RedactOnlyMasksSecrets | src/message_bus/event_handlers/events_loger.py:26-30 | a logged field differs from the event's only when it is `password` or `token` |
| EventsLogger.RedactIdempotent | src/message_bus/event_handlers/events_loger.py:26-30 | redacting twice is redacting once |
| Primitives.NewlineInNoClass | src/models/primitives/user.py:10 | no character class admits a newline |
| Primitives.ClassRun | src/models/primitives/user.py:10 | the greedy run is the longest prefix inside the class |
| Primitives.MatchRepeatCorrect | src/models/primitives/user.py:22-25 | the greedy matcher decides exactly "lo to hi class characters, then `$`" |
| Primitives.MatchRepeat | src/models/primitives/user.py:10-25 | a match has between `lo` and `hi + 1` characters, and a `hi + 1`-th one is the newline `$` admits |
| Primitives.PatternTestCorrect | src/models/primitives/folder.py:75-78 | within the length bounds, the pattern accepts exactly the `Acceptable` strings |
| Primitives.MatchColor | src/models/primitives/folder.py:66-78 | an accepted colour starts with `#` and has 3 or 6 digits, plus at most one trailing newline |
| Primitives.PatternTest | src/models/primitives/folder.py:75-78 | an accepted string is within the class's length bounds, or one longer and ending in a newline |
| Primitives.New | src/models/primitives/user.py:13-31 | the constructor succeeds iff the input is a string `Acceptable` for its class, and stores it; `None` is a `TypeError` exactly for the classes without a `None` guard |
| Primitives.CheckOrder | src/models/primitives/folder.py:13-28 | each guard's error in guard order: empty, too short, too long, pattern |
| Primitives.TrailingNewlineAccepted | src/models/primitives/user.py:10 | `$` lets one trailing newline through: `"ab\n"` is a first name and `"#abc\n"` a colour |
| Primitives.ColorNeedsThreeOrSixDigits | src/models/primitives/folder.py:66-78 | `#abcd` passes both length guards and fails the pattern |
| Primitives.TagClassIsNarrower | src/models/primitives/tag.py:13-28 | a tag refuses a space and a hyphen, which a note title allows |
| Primitives.EqualIffSameClassAndValue | src/models/primitives/folder.py:86-88 | `__eq__` holds iff the other side is an object of exactly the same class with an equal string |
| Primitives.EqualIsEquivalence | src/models/primitives/folder.py:86-88 | value-object equality is reflexive, symmetric and transitive |
| Primitives.BindNullable | src/models/primitives/folder.py:106-110 | an object binds as its string, and `None` as `NULL` |
| Primitives.ResultNullable | src/models/primitives/folder.py:112-116 | a non-empty string is validated, and an empty string or `NULL` reads as `None` |
| Primitives.NullableRoundTrip | src/models/primitives/folder.py:106-116 | storing a name or colour and reading it back gives it back, `None` included |
| Primitives.NullableColumnRoundTrip | src/models/primitives/folder.py:106-116 | reading a stored valid string and writing it back stores the same string |
| Primitives.BindTitle | src/models/primitives/folder.py:56-57 | a title binds as its string, and `None` raises `AttributeError` |
| Primitives.ResultTitle | src/models/primitives/folder.py:59-60 | reading always constructs, so `NULL` raises "cannot be None" |
| Primitives.TitleRoundTrip | src/models/primitives/folder.py:56-60 | storing a title and reading it back gives it back |
| Cors.AsSet | src/entrypoints/web/middleware/cors_middleware.py:46-56 | a single string becomes a one-element set; an iterable becomes the set of its items |
| Cors.Join | src/entrypoints/web/middleware/cors_middleware.py:58-60 | joining nothing gives `""`, joining one item gives that item, and joining several starts with the first item followed by the separator |
| Cors.JoinAppend | src/entrypoints/web/middleware/cors_middleware.py:58-60 | joining one more item appends the separator and that item, so `", ".join` puts `", "` between every two neighbours |
| Cors.NewConfig | src/entrypoints/web/middleware/cors_middleware.py:40-73 | `__init__` fails iff `*` appears in a list of origins; otherwise the origins are any origin for `*` and the set of the given origins otherwise, credentials are none by default, any origin for `*` and the given set otherwise, and exposed headers are the given string or the list joined with `", "` |
| Cors.SuffixMatchMeaning | src/entrypoints/web/middleware/cors_middleware.py:124-131 | an entry matches the origin itself and every origin ending with it; an empty entry matches only the empty origin |
| Cors.SuffixMatchIgnoresLabels | src/entrypoints/web/middleware/cors_middleware.py:90-98 | `evil.com` admits `notevil.com` but not `evil.co` |
| Cors.Process | src/entrypoints/web/middleware/cors_middleware.py:75-122 | no or a refused `Origin` leaves the headers alone; otherwise the allow-origin, credential, expose and preflight headers are set as the policy says, and no other header changes |
| Cors.ProcessIdempotent | src/entrypoints/web/middleware/cors_middleware.py:75-122 | processing a response twice is processing it once |
| Cors.Response.constructor | src/entrypoints/web/middleware/cors_middleware.py:75-122 | a response holds its headers |
| Cors.Response.SetHeader | src/entrypoints/web/middleware/cors_middleware.py:100-105 | sets one header |
| Cors.Response.DeleteHeader | src/entrypoints/web/middleware/cors_middleware.py:100-105 | removes one header |
| Cors.MatchAny | src/entrypoints/web/middleware/cors_middleware.py:124-131 | the early-exit loop answers whether some entry suffix-matches |
| Cors.ProcessRequest | src/entrypoints/web/middleware/cors_middleware.py:75-122 | the in-place updates leave exactly the headers `Process` describes |
| Pagination.TotalPages | src/lib/pagination.py:25-27 | at least one page; with rows, the last page is the one holding the last row |
| Pagination.CeilingBounds | src/lib/pagination.py:25-27 | the integer ceiling lies between the neighbouring multiples of the page size |
| Pagination.PageSlice | src/lib/pagination.py:56-59 | a page holds at most `page_size` rows, in order, starting at `(page - 1) * page_size`, and it is full where rows remain |
| Pagination.Paginate | src/lib/pagination.py:56-59 | a page below 1 is refused (negative offset); otherwise the result is the page's slice |
| Pagination.PagesUpToIsPrefix | src/lib/pagination.py:56-59 | pages 1 to k together are the first k pages' worth of rows |
| Pagination.PagesCoverRows | src/lib/pagination.py:25-59 | pages 1 to `total_pages`, read in order, give back every row exactly once |
| Pagination.PagesDisjoint | src/lib/pagination.py:56-59 | an earlier page's rows all come before a later page's rows |
| Pagination.PagesWithinTotalAreFilled | src/lib/pagination.py:25-59 | every page before the last is full, and no page within the total is empty when rows exist |
| Pagination.SAPagination.constructor | src/lib/pagination.py:31-36 | nothing is counted or fetched yet |
| Pagination.SAPagination.Total | src/lib/pagination.py:38-42 | a missing or zero total is counted again; a truthy one is kept |
| Pagination.SAPagination.Items | src/lib/pagination.py:44-54 | a non-empty cached page is kept; otherwise the page is corrected to 1 when beyond the total and fetched |
| Pagination.AsyncSAPagination.constructor | src/lib/pagination.py:63-67 | nothing is counted or fetched yet |
| Pagination.AsyncSAPagination.Create | src/lib/pagination.py:69-77 | counts, moves a page beyond the total to 1, then fetches that page's slice |
| RateLimiter.KeysSeparateTokens | src/lib/rate_limiter.py:17-18 | different tokens never share a key, and the counter key is never a reset-time key |
| RateLimiter.Decide | src/lib/rate_limiter.py:16-38 | the answer and the store: outside the window (or with no counter), the counter is reset and the call allowed; inside, the call is allowed iff the counter is positive, which it decrements; only the token's two keys change |
| RateLimiter.OtherTokensUntouched | src/lib/rate_limiter.py:16-38 | a call leaves every other token's keys as they were |
| RateLimiter.AtMostCounterInWindow | src/lib/rate_limiter.py:30-38 | inside one window, at most the counter's value of calls are allowed |
| RateLimiter.AtMostMaxPerWindow | src/lib/rate_limiter.py:24-38 | the call that opens a window is allowed, and at most `max(max_requests, 1)` calls are allowed in that window |
| RateLimiter.TokenBucketLimiter.constructor | src/lib/rate_limiter.py:13-14 | the limiter holds the store |
| RateLimiter.TokenBucketLimiter.GetLastResetTime | src/lib/rate_limiter.py:40-46 | a missing reset time reads as 0 |
| RateLimiter.TokenBucketLimiter.ResetCounter | src/lib/rate_limiter.py:48-50 | both keys are written, or the store refuses a non-positive expiry and nothing changes |
| RateLimiter.TokenBucketLimiter.RateLimit | src/lib/rate_limiter.py:16-38 | the answer and the new store are exactly `Decide`'s |
| Domain.Matching | src/repositories/users.py:45-57 | the ascending positions of exactly the rows the query's filter accepts |
| Domain.OneOrNone | src/repositories/users.py:45-57 | `one_or_none`: no match gives `None`, one gives it, more give `MultipleResultsFound` |
| Domain.Lookup | src/repositories/users.py:45-57 | a found row satisfies the filter and is the only one; `None` iff no row does |
| Domain.SingleMatch | src/repositories/users.py:45-57 | the first match satisfies the filter, and when it is the only match no other row does |
| Domain.RemoveAtIndex | src/repositories/auth_sessions.py:70-76 | deleting one row shifts the later rows down by one |
| Domain.OnlyMatch | src/repositories/users.py:45-57 | when one row alone satisfies the filter, the lookup finds it |
| Domain.FindOne | src/repositories/users.py:45-57 | the scan returns exactly `Lookup` |
| Domain.Accepted | src/services/folders/updater.py:68-71 | the fields set are exactly the data keys that are attributes of the object, with the data's values |
| Domain.Entity.constructor | src/services/folders/updater.py:51 | an entity holds its attributes |
| Domain.Entity.ApplyFields | src/services/folders/updater.py:68-71 | the `hasattr`/`setattr` loop updates exactly the accepted fields and reports them |
| Domain.AcceptedKeepsAttributes | src/services/folders/updater.py:68-71 | updating adds no attribute, overwrites only the given ones, and keeps the rest |
| Domain.AcceptedIdempotent | src/services/folders/updater.py:68-71 | applying the same data twice is applying it once |
| Users.UserByEmail | src/repositories/users.py:45-57 | the user with that email, live only unless `with_deleted`; `None` iff there is none |
| Users.UserById | src/repositories/users.py:59-71 | the user with that id, live only unless `with_deleted`; `None` iff there is none |
| Users.UsersRepo.constructor | src/repositories/users.py:35-37 | the repository sees the given rows |
| Users.UsersRepo.GetByEmail | src/repositories/users.py:45-57 | the query returns `UserByEmail` |
| Users.UsersRepo.Get | src/repositories/users.py:59-71 | the query returns `UserById` |
| Users.UsersRepo.Add | src/repositories/users.py:42-43 | adds the row |
| Registration.Registered | src/services/registration.py:54-80 | succeeds iff no user, deleted or not, has the email and a password is given; the new user holds the names, the email and the hash, and is live and not an admin |
| Registration.EmailTakenAfterRegister | src/services/registration.py:76-80 | registering the same email again fails with `UserCreationError` |
| Registration.RegisterKeepsEmailsUnique | src/models/user.py:22 | registration keeps emails unique |
| Registration.RegisteredUserAuthenticates | src/services/registration.py:54-74 | a newly registered user logs in with the registration password |
| Registration.RegistrationService.constructor | src/services/registration.py:47-52 | no events yet |
| Registration.RegistrationService.Register | src/services/registration.py:54-74 | the result is `Registered`; on success the row is added and `UserCreated` recorded, and on failure nothing changes |
| Registration.RegistrationService.CheckUserDoesntExist | src/services/registration.py:76-80 | passes iff no user, deleted or not, has the email |
| FolderServices.Found | src/repositories/folders.py:35-47 | the live folder with that id owned by the user; `None` iff there is none |
| FolderServices.FoldersRepo.constructor | src/repositories/folders.py:28-30 | the repository sees the given rows |
| FolderServices.FoldersRepo.Get | src/repositories/folders.py:35-47 | the query returns `Found` |
| FolderServices.FoldersRepo.Add | src/repositories/folders.py:49-50 | adds the row |
| FolderServices.CreateFolder | src/services/folders/creator.py:55-87 | with no parent it succeeds; with a parent it succeeds iff the lookup finds the user's live parent, fails with `FolderCreationError` when it finds none and with `MultipleResultsFound` when the lookup raises; the folder holds the input |
| FolderServices.CreatedFolderIsFound | src/services/folders/creator.py:69-78 | a created folder, once added, is what the repository finds for its id and user |
| FolderServices.FolderCreator.constructor | src/services/folders/creator.py:47-53 | no events yet |
| FolderServices.FolderCreator.Create | src/services/folders/creator.py:55-87 | the result is `CreateFolder`; on success the row is added and `FolderCreated` recorded |
| FolderServices.Relink | src/services/folders/updater.py:55-71 | a truthy link id must name the user's live folder or the update fails; otherwise the link is set and the other fields are updated and reported |
| FolderServices.RelinkCannotClear | src/services/folders/updater.py:55-66 | a falsy link id leaves the link as it was |
| FolderServices.RelinkIdempotent | src/services/folders/updater.py:55-71 | applying an update twice is applying it once |
| FolderServices.RelinkEntity | src/services/folders/updater.py:51-71 | the object is updated as `Relink` says, or not at all |
| FolderServices.UpdateFolderReportsChanges | src/services/folders/updater.py:45-81 | the event names the folder and reports exactly the fields set; a missing parent gives the parent-not-found error |
| FolderServices.UpdateFolder | src/services/folders/updater.py:45-81 | the update fails iff a truthy `parent_id` does not name the user's live folder; on success the object keeps every attribute it had |
| FolderServices.FolderUpdater.constructor | src/services/folders/updater.py:37-43 | no events yet |
| FolderServices.FolderUpdater.Update | src/services/folders/updater.py:45-81 | the object and the events are exactly what `UpdateFolder` says |
| NoteServices.LastWith | src/services/notes/relation_creator.py:57 | the dictionary keeps the last relation with each child |
| NoteServices.FindChild | src/services/notes/relation_creator.py:57-59 | the loop finds exactly `LastWith` |
| NoteServices.Link | src/services/notes/relation_creator.py:57-71 | afterwards the child is related with that description; an existing relation is updated in place, otherwise one is appended, and no other relation changes |
| NoteServices.Unlink | src/services/notes/relation_remover.py:46-53 | removes one relation iff the child is related, and otherwise changes nothing |
| NoteServices.LinkAgainAddsNothing | src/services/notes/relation_creator.py:59-62 | creating the same relation again adds nothing and keeps children unique |
| NoteServices.UnlinkUndoesLink | src/services/notes/relation_remover.py:46-53 | removing a just-created relation restores the list |
| NoteServices.UnlinkKeepsNoDuplicates | src/services/notes/relation_remover.py:46-53 | removal keeps children unique |
| NoteServices.UnlinkRemovesChild | src/services/notes/relation_remover.py:46-53 | removal takes out exactly that child |
| NoteServices.NoteRelationCreator.constructor | src/services/notes/relation_creator.py:42-45 | no events yet |
| NoteServices.NoteRelationCreator.Create | src/services/notes/relation_creator.py:47-81 | a wrong user is refused with nothing changed; otherwise the relations become `Link`, and `NoteRelationCreated` is recorded only for a new child |
| NoteServices.NoteRelationRemover.constructor | src/services/notes/relation_remover.py:35-38 | no events yet |
| NoteServices.NoteRelationRemover.Remove | src/services/notes/relation_remover.py:40-63 | the relations become `Unlink`, and `NoteRelationRemoved` is recorded only when the child was related |
| NoteServices.AsWrittenFailsWithoutFolder | src/services/notes/updater.py:65-80 | as written, an update without a truthy `folder_id` sets the fields and then raises `AttributeError` |
| NoteServices.AsWrittenRenameRaises | src/services/notes/updater.py:74-80 | as written, renaming a note that is in no folder changes its title and raises |
| NoteServices.AsWrittenEventNamesFolder | src/services/notes/updater.py:74-80 | as written, a successful update's event carries the folder's id, not the note's |
| NoteServices.UpdateNoteAsWritten | src/services/notes/updater.py:46-82 | as written, the update succeeds iff a truthy `folder_id` names the user's live folder, and its event then carries the folder's id |
| NoteServices.UpdateNoteNamesNote | src/services/notes/updater.py:46-82 | as intended, the update fails only on the folder lookup, and then changes nothing; its event names the note and reports exactly the fields set |
| NoteServices.UpdateNote | src/services/notes/updater.py:46-82 | as intended, the update fails iff a truthy `folder_id` does not name the user's live folder, and then changes nothing; its event names the note |
| NoteServices.NoteUpdater.constructor | src/services/notes/updater.py:38-44 | no events yet |
| NoteServices.NoteUpdater.UpdateAsWritten | src/services/notes/updater.py:46-82 | the note and the events are exactly what `UpdateNoteAsWritten` says |
| NoteServices.NoteUpdater.Update | src/services/notes/updater.py:46-82 | the note and the events are exactly what the corrected `UpdateNote` says |
| Auth.SessionByToken | src/repositories/auth_sessions.py:54-65 | the one active session holding the token's hash; `None` iff there is none |
| Auth.SessionByUserDevice | src/repositories/auth_sessions.py:78-88 | the one active session of the user and device; `None` iff there is none |
| Auth.SoftDeleteWhere | src/repositories/auth_sessions.py:107-119 | every matching session is stamped deleted and never active again, and nothing else changes |
| Auth.StampedAll | src/repositories/auth_sessions.py:107-119 | a loop that has stamped every position has produced `SoftDeleteWhere` |
| Auth.AfterRemove | src/repositories/auth_sessions.py:70-76 | the session found is deleted outright and the others stay; the token then resolves to nothing, at that time or later |
| Auth.NoneLeftAfterRemove | src/repositories/auth_sessions.py:70-76 | once the only matching session is gone, the token matches nothing, at that time or later |
| Auth.AuthSessionsRepo.constructor | src/repositories/auth_sessions.py:42-49 | the repository sees the given rows and encoder |
| Auth.AuthSessionsRepo.Get | src/repositories/auth_sessions.py:54-65 | the query returns `SessionByToken` of the encoded token |
| Auth.AuthSessionsRepo.Add | src/repositories/auth_sessions.py:67-68 | adds the row |
| Auth.AuthSessionsRepo.Remove | src/repositories/auth_sessions.py:70-76 | the rows become `AfterRemove`, and the removed session is returned |
| Auth.AuthSessionsRepo.GetByUserDevice | src/repositories/auth_sessions.py:78-88 | the query returns `SessionByUserDevice` |
| Auth.AuthSessionsRepo.RemoveByUserDevice | src/repositories/auth_sessions.py:90-105 | every active session of the pair is soft-deleted; one of them is returned, or `None` iff there was none |
| Auth.AuthSessionsRepo.RemoveAllByUser | src/repositories/auth_sessions.py:107-119 | every active session of the user is soft-deleted, and nothing else changes |
| Auth.MakeLeavesOneActive | src/services/auth.py:85-99 | after `make`, the new session is the one active session of its user and device until it expires |
| Auth.MadeSessionResolves | src/services/auth.py:85-99 | a fresh refresh token resolves to the stored session until it expires |
| Auth.NewSession | src/services/auth.py:85-96 | the new session holds the token's hash and is the active session of its user and device from now until `SESSION_LIFETIME` has passed, and not after |
| Auth.TokenSessionMaker.constructor | src/services/auth.py:62-70 | the maker holds its repository |
| Auth.TokenSessionMaker.Make | src/services/auth.py:72-104 | the device's sessions are soft-deleted, the new session is added, and the tokens returned are the signed claims and the refresh token |
| Auth.RefreshSession | src/services/auth.py:120-150 | an unknown token, a device mismatch or a missing user is `AuthSessionRefreshError`; it succeeds whenever the token names an active session of that device whose user exists, and then rotates the token and the expiry of exactly that session and signs the user's claims; an ambiguous lookup raises `MultipleResultsFound` |
| Auth.RefreshRotates | src/services/auth.py:134-136 | after a refresh the old token resolves to nothing and the new one to the same session |
| Auth.TokenSessionRefresher.constructor | src/services/auth.py:108-118 | the refresher holds its repositories |
| Auth.TokenSessionRefresher.Refresh | src/services/auth.py:120-150 | the result and the sessions are exactly what `RefreshSession` says |
| Auth.Authenticated | src/services/auth.py:170-186 | the live user with the email whose password checks, and that user whenever the password checks; `None` when there is no such user or the password fails; a user without a password hash raises `AttributeError`, an ambiguous lookup `MultipleResultsFound` |
| Auth.RehashedUserAuthenticates | src/services/auth.py:170-186 | after the password is rehashed, the user logs in with the new password |
| Auth.UserAuthenticator.constructor | src/services/auth.py:162-168 | the authenticator holds its encoder and repository |
| Auth.UserAuthenticator.Authenticate | src/services/auth.py:170-186 | returns exactly `Authenticated` |
| Auth.CloseSession | src/services/auth.py:189-190 | the session is removed as `remove` says |
| Auth.RevokeAccessTokens | src/services/auth.py:193-194 | only the user's credential version changes |
| PasswordChange.TokenByHash | src/repositories/password_change_tokens.py:42-56 | the one unexpired, unused, undeleted token with the hash; `None` iff there is none |
| PasswordChange.Superseded | src/repositories/password_change_tokens.py:27-38 | every live token of the user is stamped deleted; only `deleted` changes |
| PasswordChange.SupersededAll | src/repositories/password_change_tokens.py:27-38 | a loop that has superseded every position has produced `Superseded` |
| PasswordChange.PasswordChangeTokensRepo.constructor | src/repositories/password_change_tokens.py:18-24 | the repository sees the given rows and encoder |
| PasswordChange.PasswordChangeTokensRepo.Add | src/repositories/password_change_tokens.py:26-40 | the user's other tokens are superseded, then the new one is added |
| PasswordChange.PasswordChangeTokensRepo.Get | src/repositories/password_change_tokens.py:42-56 | the query returns `TokenByHash` of the encoded token |
| PasswordChange.MadeTokenResolves | src/services/password_change.py:35-58 | the new token is the only redeemable one of its user, and it resolves until it expires |
| PasswordChange.NewToken | src/services/password_change.py:35-45 | the new token is unspent, belongs to the user and is redeemable by its hash from now until `TOKEN_LIFETIME` has passed, and not after |
| PasswordChange.PasswordChangeTokenCreator.constructor | src/services/password_change.py:26-33 | no events yet |
| PasswordChange.PasswordChangeTokenCreator.Make | src/services/password_change.py:35-58 | returns the raw token, stores its hash after superseding the others, and records `PasswordChangeRequestCreated` |
| PasswordChange.ChangedByToken | src/services/password_change.py:95-117 | an unknown token or a missing user is an error, and it succeeds whenever the token resolves and its user exists; success marks the token used, rehashes the password, revokes access tokens, soft-deletes every session and records `UserPasswordChanged`; an ambiguous lookup raises `MultipleResultsFound` |
| PasswordChange.TokenSingleUse | src/services/password_change.py:108 | a used token never resolves again |
| PasswordChange.NoSessionSurvivesChange | src/services/password_change.py:110 | no session of the user is active after the change |
| PasswordChange.NewPasswordAuthenticates | src/services/password_change.py:106-107 | the user logs in with the new password under the new credential version |
| PasswordChange.Rehashed | src/services/password_change.py:106-107 | the user keeps id, email and deletion time, takes the new credential version, and the new hash checks against the new password |
| PasswordChange.ChangedByPassword | src/services/password_change.py:119-135 | a missing password raises, a wrong current password is refused, and success changes only that user's hash and records the event |
| PasswordChange.ChangedPasswordAuthenticates | src/services/password_change.py:119-135 | after the change the user logs in with the new password |
| PasswordChange.PasswordChanger.constructor | src/services/password_change.py:84-93 | no events yet |
| PasswordChange.PasswordChanger.ChangeByToken | src/services/password_change.py:95-117 | tokens, users, sessions and events are exactly what `ChangedByToken` says |
| PasswordChange.PasswordChanger.ChangeByPassword | src/services/password_change.py:119-135 | users and events are exactly what `ChangedByPassword` says |

## Left out

Outside systems and inputs:

- Network, Redis, database and web-framework I/O are left out. Repositories are `seq`s of rows, the Redis store is a `map<string, int>`, and a response is a header map.
- Time, `uuid4()`, `token_hex`, bcrypt salts, the encoders and the JWT signer are parameters. Hashing and signing are caller-supplied functions, not their algorithms.
- Async and sync variants share one model. Concurrency is not modelled.

Message bus:

- MessageBus.Bus.Handle: it takes a `fuel` bound on the number of dequeues. A message cycle that the Python loop would never leave ends with an out-of-fuel outcome instead.
- Plain callables registered as handlers return a value but have no emission buffer. The bus's `context` dictionary is not modelled.

Database behaviour:

- The ORM's identity map is not modelled: a returned object is its row's position. The model assumes autoflush, so queries see rows added in the same session. `flush` and `commit` are not modelled, apart from the event logger's commit and close.
- FolderServices.Found: the folder lookup is by id and owner. The repository's `get` at src/repositories/folders.py:35-47 takes no `user_id`, although the services pass one. The model follows the services' intent.
- A note relation carries a `description` and a note a `user_id`. src/models/note.py does not declare either column (line 54 leaves the description as a todo). The model follows the columns the end-to-end tests read, at tests/end_to_end/web/v1/test_notes.py:341-351.
- The event logger's database is counters of added rows, commits and closes. Its repository class is not part of this model.

Pagination:

- Pagination.TotalPages: the page size must be positive. Python's float division with `ceil` is modelled as exact integer ceiling.
- `.unique()` in the async fetch is the identity here, since rows carry no joined duplicates.

Password tokens and sessions:

- PasswordChange.PasswordChangeTokensRepo.Add: the `remove_others_user_tokens` flag is ignored, as the source ignores it.
- PasswordChange.PasswordChangeTokensRepo.Get: the `with_deleted` flag is unused in the source and is left out.
- Access-token expiry (`exp`) is only written into the claims. Its validation is in the JWT library, which is not part of this model.

Rate limiter:

- RateLimiter.Decide: one `now` serves both the window test and the stored reset time. The source reads the clock twice, at src/lib/rate_limiter.py:22 and :50, so the stored time may be a little later there.
- RateLimiter.Decide: the model does not promise that a refused call writes nothing. Inside a window with no counter and a `max_requests` of 0 or less, the reset is written and the call is still refused. This follows src/lib/rate_limiter.py:24-38.

Value objects:

- `.value` returns a deepcopy of an immutable string, so it is the string itself here.
- Email and password value objects are plain strings. Email validation is in a schema layer outside this model.

## Findings

| source | as written | input that shows it | evidently intended | confidence | as-written member | corrected member |
|---|---|---|---|---|---|---|
| src/services/notes/updater.py:74-80 | `NoteUpdated` is built from `folder.id`. It names the folder, not the note. When the note is in no folder, `folder` is `None` and the update raises `AttributeError` after the note's fields have been set. | A note `{"id": "n1", "title": "old"}` updated with `{"title": "new"}`, with no `folder_id` | the event names the updated note, and an update without a folder succeeds | not executed | NoteServices.UpdateNoteAsWritten (AsWrittenRenameRaises) | NoteServices.UpdateNote (UpdateNoteNamesNote) |
