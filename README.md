# NationStates API front-end: the sequential core, modelled in Dafny

The service sits between its users and the NationStates API. It queues
telegrams, dispatches and regional message board posts. It sends them
under the API's rate limits, and it keeps the credentials of the nations
it acts for. This project models the deterministic part underneath the
HTTP, SQL and channel plumbing, and proves what that part promises:

- **Rate limiters** (`sync_ratelimiter.dfy`, `utils_ratelimiter.dfy`, with the shared bucket in `bucket.dfy`).
  - The channel-driven `Receiver` computes a wait for each target as the largest of the limits that apply. It reserves a slot by stamping `now + wait`.
  - The older shared-bucket `Ratelimiter` sleeps until a request fits. Its invariant is the sliding-window guarantee: no window of `bucketLength` ever holds more than `maxRequests` admitted requests.
- **Work queues**.
  - The telegram worker and the telegram queue of the API state (`telegram_worker.dfy`, `core_telegram.dfy`) each keep a recruitment queue and a standard queue.
  - The dispatch and rmbpost workers (`dispatch_worker.dfy`, `rmbpost_worker.dfy`) each keep one queue.
  - All of them share the scan, remove-by-index and retain operations of `work_queue.dfy`.
- **Nation credential tables**: `ns_nation.dfy` and `sync_nations.dfy`.
- **Request records and codecs**.
  - The factbook category code table (`factbook.dfy`), used with 16-bit codes (`ns_dispatch.dfy`) and 32-bit codes (`types_ns.dfy`).
  - The dispatch, rmbpost and telegram request records (`ns_dispatch.dfy`, `types_ns.dfy`, `ns_rmbpost.dfy`, `ns_telegram.dfy`).
  - Command and mode names (`ns_types.dfy`).
  - The numeric character reference encoder (`encode.dfy`).
- **Registration guards** and token claims (`user.dfy`).

Modelling conventions:

- Instants are `nat` milliseconds, and every operation that reads the clock takes `now` as a parameter. The `duration_since` of an instant that lies in the future saturates at zero (`Bucket.Age`).
- A sleep advances the instant the operation is working at.
- The rate limiter's answer to a worker is a function parameter `wait: Target -> nat`.
- The HTTP delivery of a telegram is `deliver`, and the outcome of an rmbpost submission is `post`.
- Password hashing and the database insert of `register` are parameters too.
- A Rust panic (`unwrap` on `None`, a `Duration` subtraction that underflows) is the error `Errors.Panic`.

## Model

| member | source | states |
|---|---|---|
| Bucket.Cleaned | src/sync/ratelimiter.rs:117-127 | the clean loop never grows the bucket, and what it leaves starts with an entry that has not expired |
| Bucket.CleanedSuffix | src/sync/ratelimiter.rs:117-127 | the clean loop pops only from the front: it leaves a suffix of the bucket, and every popped entry was strictly older than the bucket length |
| Bucket.CleanedIdempotent | src/utils/ratelimiter.rs:42-48 | cleaning a second time at the same instant pops nothing more |
| Bucket.BoundaryEntryKept | src/sync/ratelimiter.rs:121 | an entry exactly `bucket_length` old is not expired and stops the loop, since the test is strict |
| Bucket.CleanedLater | src/utils/ratelimiter.rs:42-48 | cleaning earlier then later equals cleaning once later: what expired stays expired |
| Bucket.WindowCountAppend | src/utils/ratelimiter.rs:50-51 | the number of instants a window holds adds up over concatenated buckets |
| Bucket.WindowCountNone | src/utils/ratelimiter.rs:42-48 | a window that no entry lies in counts zero |
| Bucket.WindowCountAll | src/utils/ratelimiter.rs:50-53 | a window holding every entry counts all of them |
| Bucket.WindowCountAppendLater | src/utils/ratelimiter.rs:51 | pushing an instant later than a window's end does not change that window's count |
| SyncRatelimiter.CooldownWait | src/sync/ratelimiter.rs:160-206 | a cooldown peek is zero without a record or once the cooldown has elapsed, otherwise the cooldown minus the elapsed time; it never exceeds the cooldown |
| SyncRatelimiter.StandardWait | src/sync/ratelimiter.rs:208-217 | the bucket wait is zero iff fewer than `max_requests` entries survive cleaning (or the front entry is exactly a bucket length old); otherwise it completes the front entry's age to the bucket length, so it is at most the bucket length |
| SyncRatelimiter.PeekWait | src/sync/ratelimiter.rs:129-155 | the bucket wait applies to every target, so the reported wait is never below it, and for the standard target it is exactly that |
| SyncRatelimiter.PeekWaitIsMax | src/sync/ratelimiter.rs:129-155 | the reported wait is one of the waits that apply to the target and no smaller than any of them |
| SyncRatelimiter.PeekOrdering | src/sync/ratelimiter.rs:129-155 | for one sender at one instant, recruitment telegram >= telegram >= restricted >= standard |
| SyncRatelimiter.PeekBounded | src/sync/ratelimiter.rs:129-217 | no target ever waits longer than the longest configured cooldown or the bucket length |
| SyncRatelimiter.Stamped | src/sync/ratelimiter.rs:222-252 | a reservation appends exactly one instant to the bucket and restarts only the trackers of its target: Standard none, Restricted the sender's, Telegram also the telegram tracker, RecruitmentTelegram all three; other senders keep their records |
| SyncRatelimiter.Receiver.constructor | src/sync/ratelimiter.rs:94-115 | a new receiver keeps its limits and starts with an empty bucket and no records |
| SyncRatelimiter.Receiver.CleanBucket | src/sync/ratelimiter.rs:117-127 | the loop leaves exactly the cleaned bucket and changes no other field |
| SyncRatelimiter.Receiver.PeekRecruitment | src/sync/ratelimiter.rs:157-172 | at most the recruitment cooldown; zero exactly when there is no recruitment telegram yet or the cooldown has elapsed |
| SyncRatelimiter.Receiver.PeekTelegram | src/sync/ratelimiter.rs:174-189 | at most the telegram cooldown; zero exactly when there is no telegram yet or the cooldown has elapsed |
| SyncRatelimiter.Receiver.PeekRestricted | src/sync/ratelimiter.rs:191-206 | at most the restricted-action cooldown; zero exactly when the sender has no recorded action or the cooldown has elapsed |
| SyncRatelimiter.Receiver.PeekStandard | src/sync/ratelimiter.rs:208-217 | cleans the bucket and returns the bucket wait of the state before cleaning |
| SyncRatelimiter.Receiver.Peek | src/sync/ratelimiter.rs:129-155 | returns the maximum of the target's component waits; its only change is cleaning the bucket |
| SyncRatelimiter.Receiver.Stamp | src/sync/ratelimiter.rs:224-252 | the new trackers are exactly the stamped ones |
| SyncRatelimiter.Receiver.Acquire | src/sync/ratelimiter.rs:219-259 | the new state is the cleaned state stamped at `now + wait`; the result is Ok iff the wait is zero, otherwise Err(wait) |
| SyncRatelimiter.Receiver.Process | src/sync/ratelimiter.rs:261-267 | Peek answers the wait and only cleans; Acquire answers Ok iff the wait is zero, otherwise Err carrying that wait, with the acquire's new state; any other command answers Ok and changes nothing |
| SyncRatelimiter.StandardScenario | src/sync/ratelimiter.rs:328-341 | with room for two requests, two standard acquires go at once and the third peek waits the whole bucket length |
| SyncRatelimiter.TelegramScenario | src/sync/ratelimiter.rs:344-365 | right after a telegram acquire, the next telegram peek within a second waits at least 19 s, more than the 4 s the test asks, because the sender's 20 s restricted cooldown applies too |
| SyncRatelimiter.RecruitmentScenario | src/sync/ratelimiter.rs:368-384 | right after a recruitment acquire, the next recruitment peek within a second waits at least 19 s, more than the 14 s the test asks, for the same reason |
| SyncRatelimiter.RestrictedScenario | src/sync/ratelimiter.rs:387-402 | after a restricted acquire with a 20 s cooldown, a peek within a second waits at least 19 s |
| UtilsRatelimiter.CleanedAtZero | src/utils/ratelimiter.rs:42-48 | at instant zero nothing is old enough to pop |
| UtilsRatelimiter.PoppedOutsideWindows | src/utils/ratelimiter.rs:42-48 | the popped entries lie in no window ending at or after the cleaning instant |
| UtilsRatelimiter.KeptInsideWindow | src/utils/ratelimiter.rs:42-48 | the entries kept lie in the window ending at the cleaning instant |
| UtilsRatelimiter.CleanKeepsInv | src/utils/ratelimiter.rs:42-48 | cleaning preserves the sliding-window invariant |
| UtilsRatelimiter.AdmitKeepsInv | src/utils/ratelimiter.rs:50-52 | pushing `now` into a cleaned bucket with room preserves the sliding-window invariant |
| UtilsRatelimiter.Ratelimiter.constructor | src/utils/ratelimiter.rs:20-35 | a new limiter has an empty bucket and no telegram records, and satisfies the invariant |
| UtilsRatelimiter.Ratelimiter.CleanBucket | src/utils/ratelimiter.rs:42-48 | the loop leaves exactly the cleaned bucket |
| UtilsRatelimiter.Ratelimiter.TryAdmit | src/utils/ratelimiter.rs:39-53 | one pass admits `now` iff the cleaned bucket has fewer than `max_requests` entries; then the bucket is the cleaned one plus `now`, otherwise just the cleaned one; the invariant holds |
| UtilsRatelimiter.Ratelimiter.Acquire | src/utils/ratelimiter.rs:37-61 | returns the admission instant (never before `now`), which joins the cleaned bucket; admission is immediate when there was room; when the bucket was full, admission comes only after the front entry has left the window; the window bound is kept |
| UtilsRatelimiter.Ratelimiter.AcquireForTelegram | src/utils/ratelimiter.rs:63-91 | the instant returned is never before `now` and at least the telegram cooldown after the previous telegram; it becomes the last telegram instant and joins the cleaned bucket; when the cooldown has already elapsed (inclusive, or no telegram yet) and the bucket has room, it is `now` itself |
| UtilsRatelimiter.Ratelimiter.AcquireForRecruitmentTelegram | src/utils/ratelimiter.rs:93-122 | the instant is never before `now`, at least the recruitment cooldown after the previous recruitment telegram and the telegram cooldown after the previous telegram; both records become it and it joins the cleaned bucket; when both cooldowns have already elapsed (inclusive) and the bucket has room, it is `now` itself |
| UtilsRatelimiter.FiftyFirstAcquireWaits | src/utils/ratelimiter.rs:147-163 | with 50 requests per 10 s, the 51st acquire at the same instant is admitted more than 10 s later |
| UtilsRatelimiter.TelegramsSpacedByCooldown | src/utils/ratelimiter.rs:165-179 | two telegram acquires are at least 10 s apart |
| UtilsRatelimiter.TelegramAtCooldownBoundary | src/utils/ratelimiter.rs:66-81 | the cooldown test is inclusive: a telegram asked for exactly 10 s after the previous one goes at that instant |
| UtilsRatelimiter.RecruitmentSpacedByCooldown | src/utils/ratelimiter.rs:181-198 | after a recruitment telegram, a telegram waits at least 10 s and the next recruitment at least 30 s |
| WorkQueue.FirstEligible | src/workers/dispatch.rs:39-47 | the index found is in range and ready, and every earlier element is not ready; None iff no element is ready |
| WorkQueue.FindFirst | src/workers/dispatch.rs:40-46 | the enumerate loop returns exactly the first ready index |
| WorkQueue.RemoveAt | src/workers/dispatch.rs:42 | removal by index drops that element and keeps every other in its order |
| WorkQueue.RemoveAtMultiset | src/workers/rmbpost.rs:40 | removal by index takes out exactly one occurrence of the removed element |
| WorkQueue.Retain | src/workers/telegram.rs:74-80 | retain keeps exactly the elements passing the test, and only elements of the queue |
| WorkQueue.RetainAppend | src/core/telegram.rs:57-69 | retain works element by element, so the survivors keep their order |
| WorkQueue.RetainCounts | src/workers/telegram.rs:74-80 | every kept element keeps all its occurrences, and every other element loses all of them |
| WorkQueue.RetainIdempotent | src/workers/telegram.rs:74-80 | a second delete with the same header removes nothing more |
| WorkQueue.RetainAllKept | src/workers/telegram.rs:74-80 | when every element passes, retain changes nothing |
| TelegramWorker.FromParams | src/workers/telegram.rs:65-72 | the queued telegram carries the client key, the sender, the type, and the header of the parameters |
| TelegramWorker.SendTarget | src/workers/telegram.rs:142-150 | a recruitment telegram is limited as RecruitmentTelegram and a standard one as Telegram, each with its own sender |
| TelegramWorker.Listing | src/workers/telegram.rs:82-102 | one (recipient, telegram id) entry per queued telegram, in queue order |
| TelegramWorker.ListingPushBack | src/workers/telegram.rs:65-102 | queueing a telegram adds its entry at the back of the listing |
| TelegramWorker.Client.constructor | src/workers/telegram.rs:27-45 | a new client has the key and two empty queues |
| TelegramWorker.Client.Queue | src/workers/telegram.rs:65-72 | the telegram goes to the back of the standard queue when its type is Standard, else to the back of the recruitment queue; the other queue is unchanged |
| TelegramWorker.Client.Delete | src/workers/telegram.rs:74-80 | both queues lose exactly the telegrams with that header, and the others keep their order |
| TelegramWorker.Client.ListQueues | src/workers/telegram.rs:82-102 | exactly the keys "recruitment" and "standard", each listing its queue in order |
| TelegramWorker.Client.ProcessCommand | src/workers/telegram.rs:47-63 | Queue and Delete are answered Ok with their effect; List is answered with the listing and changes nothing |
| TelegramWorker.Client.GetTelegram | src/workers/telegram.rs:112-140 | removes and returns the first recruitment telegram whose wait is at most 100 ms; only if there is none does it take the first such standard telegram; with none in either, both queues are unchanged; the telegram returned may go within 100 ms under its send target |
| NsTelegram.LowerChar | src/ns/telegram.rs:28 | upper-case ASCII letters are lowered and every other character is kept |
| NsTelegram.Lowercase | src/ns/telegram.rs:28 | lowercasing works character by character and keeps the length |
| NsTelegram.ReplaceSpaces | src/ns/telegram.rs:28 | every space becomes '_', and nothing else changes |
| NsTelegram.NormalizeRecipient | src/ns/telegram.rs:28 | a normalised recipient has no space and no upper-case letter, and keeps its length |
| NsTelegram.NormalizedChars | src/ns/telegram.rs:28 | character by character: space to '_', a letter to its lower case, anything else unchanged |
| NsTelegram.NormalizeIdempotent | src/ns/telegram.rs:28 | normalising a normalised recipient changes nothing |
| NsTelegram.FromParams | src/ns/telegram.rs:24-32 | action "sendTG", the client key given, id and secret key copied, recipient normalised |
| NsTelegram.Display | src/ns/telegram.rs:17-21 | the telegram id, then ':', then the recipient, and nothing else; ParseDisplay is its inverse |
| NsTelegram.ParseDisplay | src/ns/telegram.rs:17-21 | splitting at the first colon, the inverse of the rendering |
| NsTelegram.DisplayRoundTrip | src/ns/telegram.rs:17-21 | "telegram_id:recipient" gives back the id (when it has no colon) and the recipient |
| NsTelegram.SplitAtFirstColon | src/ns/telegram.rs:19 | text without a colon, a colon, then anything: the split recovers both parts |
| NsTelegram.SerializeType | src/ns/telegram.rs:41-51 | the wire name of a telegram type deserialises back to that type |
| NsTelegram.DeserializeType | src/ns/telegram.rs:53-66 | exactly "recruitment" and "standard" are accepted; anything else fails with "invalid telegram type" |
| NsTelegram.DeserializeSerializes | src/ns/telegram.rs:41-66 | an accepted name serialises back to itself |
| CoreTelegram.Listing | src/core/telegram.rs:71-95 | one (recipient, telegram id) entry per queued telegram, in queue order |
| CoreTelegram.SentOutcome | src/core/telegram.rs:122-124 | a delivered telegram gives Ok(true); a failed delivery passes its error on |
| CoreTelegram.Telegrammer.constructor | src/core/telegram.rs:22-42 | a new telegrammer has the client key, the limiter, and two empty queues |
| CoreTelegram.Telegrammer.QueueTelegram | src/core/telegram.rs:44-55 | the request built from the parameters goes to the back of the queue of its type; the other queue is unchanged |
| CoreTelegram.Telegrammer.DeleteTelegram | src/core/telegram.rs:57-69 | both queues keep, in order, exactly the telegrams not matching both recipient and id |
| CoreTelegram.Telegrammer.ListTelegrams | src/core/telegram.rs:71-95 | exactly the keys "recruitment" and "standard", each listing its queue in order |
| CoreTelegram.Telegrammer.TrySendRecruitmentTelegram | src/core/telegram.rs:106-141 | the front is popped, acquired for and delivered iff the queue is non-empty and either no recruitment telegram was sent or more than the cooldown difference has elapsed; the limiter then shows a recruitment-telegram acquire started at `now` (admitted instant, bucket, both records, both spacings, no wait when both gates are open and there is room); otherwise the queue and the limiter are unchanged and the answer is false; a cooldown difference that underflows panics |
| CoreTelegram.Telegrammer.TrySendStandardTelegram | src/core/telegram.rs:143-156 | pops, acquires for and delivers the front telegram iff the standard queue is non-empty; the limiter then shows a telegram acquire started at `now` (admitted instant, bucket, telegram record and spacing, no wait when the gate is open and there is room) with the recruitment record unchanged; an empty queue answers false and changes nothing |
| CoreTelegram.Telegrammer.Send | src/core/telegram.rs:97-104 | a standard telegram is attempted only when no recruitment telegram was sent; errors are passed on; the limiter shows the recruitment-telegram acquire, the telegram acquire, or no change, according to which telegram (if any) went |
| CoreTelegram.RecruitmentDue | src/core/telegram.rs:107-117 | due only with a non-empty queue, always with a non-empty queue and no recruitment telegram yet; when a previous one exists, by the end of the telegram cooldown the recruitment cooldown will have elapsed too |
| CoreTelegram.DeleteIdempotent | src/core/telegram.rs:57-69 | a second delete with the same header removes nothing more |
| CoreTelegram.DeleteExactly | src/core/telegram.rs:57-69 | every telegram matching recipient and id disappears entirely, and every other keeps all its occurrences |
| DispatchWorker.PostTarget | src/workers/dispatch.rs:49-64 | a new dispatch is a restricted action of its nation; edits and removals are standard requests |
| DispatchWorker.DispatchClient.constructor | src/workers/dispatch.rs:21-28 | a new client has an empty queue |
| DispatchWorker.DispatchClient.Enqueue | src/workers/dispatch.rs:78-84 | the job joins the back of the queue and the sender is answered Success |
| DispatchWorker.DispatchClient.GetAction | src/workers/dispatch.rs:39-47 | removes and returns the first job in queue order whose wait is at most one period, keeping the rest in order; None iff no job qualifies, and then the queue is unchanged |
| RmbpostWorker.PostTarget | src/workers/rmbpost.rs:30-35 | every post is a restricted action of its nation |
| RmbpostWorker.Outcome | src/workers/rmbpost.rs:75-81 | a posted id gives ("success", Some(id), None), a failure gives ("error", None, Some(message)); the error is set iff the status is "error" |
| RmbpostWorker.RmbPostClient.constructor | src/workers/rmbpost.rs:21-28 | a new client has an empty queue |
| RmbpostWorker.RmbPostClient.Enqueue | src/workers/rmbpost.rs:97-104 | the job joins the back of the queue and the sender is answered Success |
| RmbpostWorker.RmbPostClient.TryGetRmbpost | src/workers/rmbpost.rs:37-45 | removes and returns the first post whose restricted wait is at most one period; otherwise None and the queue is unchanged |
| RmbpostWorker.RmbPostClient.TryPost | src/workers/rmbpost.rs:69-85 | exactly one job update, keyed by the removed post's job id and carrying its outcome; no eligible post means no update |
| Factbook.ToTuple | src/ns/dispatch.rs:12-50 | the category code is 1, 3, 5 or 8, and the subcategory code lies in that category's hundred |
| Factbook.TryFrom | src/ns/dispatch.rs:53-102 | every refusal is InvalidFactbookCategory |
| Factbook.TryFromToTuple | src/ns/dispatch.rs:12-102 | decoding the codes of any category gives that category back |
| Factbook.ToTupleTryFrom | src/ns/dispatch.rs:53-102 | only pairs of the table decode, each to the category whose codes they are |
| Factbook.ToTupleInjective | src/ns/dispatch.rs:12-50 | distinct categories have distinct codes |
| Factbook.CategoryCodes | src/ns/dispatch.rs:12-50 | the category code is 1 exactly for Factbook, 3 for Bulletin, 5 for Account and 8 for Meta |
| Factbook.WrongCategoryRefused | src/ns/dispatch.rs:53-102 | a valid subcategory under the wrong category is refused |
| NsTypes.SerializeCommand | src/ns/types.rs:10-20 | "dispatch" or "rmbpost", a different name for each command |
| NsTypes.SerializeMode | src/ns/types.rs:28-38 | "prepare" or "execute", a different name for each mode |
| NsTypes.SerializationInjective | src/ns/types.rs:5-38 | distinct commands and distinct modes serialise to distinct strings, and no command name is a mode name |
| NsDispatch.Codes | src/ns/dispatch.rs:12-50 | the 16-bit codes are those of the table |
| NsDispatch.TryFromCodes | src/ns/dispatch.rs:53-102 | every refusal of a 16-bit pair is InvalidFactbookCategory |
| NsDispatch.CodesRoundTrip | src/ns/dispatch.rs:12-102 | every category survives the trip through its 16-bit codes |
| NsDispatch.OnlyTableCodes | src/ns/dispatch.rs:53-102 | only 16-bit pairs of the table decode, each to the category whose codes they are |
| NsDispatch.AddAction | src/ns/dispatch.rs:204-211 | fails iff the code pair is not in the table; on success it is an Add with the parameters and that category |
| NsDispatch.EditAction | src/ns/dispatch.rs:213-221 | fails iff the code pair is not in the table; on success it is an Edit with the id, the nation, the parameters and that category |
| NsDispatch.RemoveAction | src/ns/dispatch.rs:223-225 | always a Remove with the id and the nation |
| NsDispatch.ActionName | src/ns/dispatch.rs:260-311 | "add", "edit" or "remove", one per kind of action |
| NsDispatch.Dispatch.FromAction | src/ns/dispatch.rs:260-311 | Add has no id; Edit and Remove carry theirs; Remove has no title, text or codes; Add and Edit carry title, text and the codes of their category; always mode Prepare and no token |
| NsDispatch.Dispatch.SetMode | src/ns/dispatch.rs:251-253 | the mode is the one given, and no other field changes |
| NsDispatch.Dispatch.SetToken | src/ns/dispatch.rs:255-257 | the token is the one given, and no other field changes |
| TypesNs.Codes | src/types/ns.rs:14-61 | the 32-bit codes are those of the table |
| TypesNs.TryFromCodes | src/types/ns.rs:63-117 | every refusal of a 32-bit pair is InvalidFactbookCategory |
| TypesNs.CodesRoundTrip | src/types/ns.rs:14-117 | every category survives the trip through its 32-bit codes |
| TypesNs.OnlyTableCodes | src/types/ns.rs:63-117 | only 32-bit pairs of the table decode, each to the category whose codes they are |
| TypesNs.CommandDisplay | src/types/ns.rs:161-172 | the command displays as "dispatch", the same name as the private command |
| TypesNs.ActionDisplay | src/types/ns.rs:181-189 | "add", "edit" or "remove", each for exactly one kind of action |
| TypesNs.ActionDisplayKinds | src/types/ns.rs:174-189 | two actions display alike exactly when they are of the same kind; the id never shows |
| TypesNs.ActionId | src/types/ns.rs:237-241 | an id exactly for Edit and Remove, the action's own |
| TypesNs.DispatchRequest.constructor | src/types/ns.rs:229-264 | the id of Edit and Remove, the display strings, both codes or neither, mode "prepare" and no token |
| TypesNs.DispatchRequest.SetMode | src/types/ns.rs:266-268 | stores the mode's display string, nothing else changes |
| TypesNs.DispatchRequest.SetToken | src/types/ns.rs:270-272 | stores the token, nothing else changes |
| TypesNs.TryFromNewParams | src/types/ns.rs:274-285 | fails iff the code pair is invalid; on success "add", no id, the title, text and codes given, command "dispatch", mode "prepare" and no token |
| TypesNs.TryFromEditParams | src/types/ns.rs:287-298 | fails iff the code pair is invalid; on success "edit", the id, the title, text and codes given, command "dispatch", mode "prepare" and no token |
| TypesNs.FromRemoveParams | src/types/ns.rs:300-309 | "remove" with the id and no title, text or codes, command "dispatch", mode "prepare" and no token |
| NsRmbpost.NewIntermediate | src/ns/rmbpost.rs:23-30 | job id, nation, region and text stored verbatim |
| NsRmbpost.New | src/ns/rmbpost.rs:52-63 | command "rmbpost", mode Prepare, no token, Unprepared |
| NsRmbpost.Prepare | src/ns/rmbpost.rs:65-75 | command, nation, region and text kept; mode Execute, the token, Prepared |
| NsRmbpost.FromIntermediate | src/ns/rmbpost.rs:78-82 | a fresh request with the job's nation, region and text |
| NsRmbpost.Nation | src/ns/rmbpost.rs:46-50 | the nation the request posts as, in either state; NationStable shows it is the job's before and after preparing |
| NsRmbpost.NationStable | src/ns/rmbpost.rs:46-50 | the request's nation is the job's, before and after preparing |
| NsRmbpost.JobIdDiscarded | src/ns/rmbpost.rs:78-82 | jobs differing only in their id give the same request |
| NsNation.NewNation | src/ns/nation.rs:15-21 | a new nation has the name and password given and no pin |
| NsNation.Split | src/ns/nation.rs:75-77 | at least one piece, and no piece contains the separator |
| NsNation.SplitJoin | src/ns/nation.rs:75-77 | splitting loses nothing: joining the pieces gives the text back |
| NsNation.ParseEntry | src/ns/nation.rs:76-81 | a segment fails (panics) iff it has no ':'; otherwise the key is the text before the first ':' and the password the text up to the next ':' |
| NsNation.ParseEntries | src/ns/nation.rs:74-81 | succeeds iff every segment has a ':', entry by entry in order |
| NsNation.Collect | src/ns/nation.rs:82 | every entry's key is in the map, and every key's value is some entry's with that key |
| NsNation.CollectLastWins | src/ns/nation.rs:82 | a key's value is that of its last entry |
| NsNation.CreateNationsMap | src/ns/nation.rs:73-83 | fails (panics) iff some comma-separated segment has no ':' |
| NsNation.CreatedEntries | src/ns/nation.rs:73-83 | each segment's name is a key, and the last segment with that name gives the password, with no pin |
| NsNation.CreatedKeys | src/ns/nation.rs:73-83 | every key comes from a segment, names itself, and has no pin |
| NsNation.NationList.constructor | src/ns/nation.rs:37-39 | a list holds the map given |
| NsNation.NationList.ContainsNation | src/ns/nation.rs:41-43 | true iff the name is a key |
| NsNation.NationList.GetPassword | src/ns/nation.rs:45-50 | the stored password for a known name, InvalidNation otherwise |
| NsNation.NationList.GetPin | src/ns/nation.rs:52-60 | the pin, "" for a known nation without one, InvalidNation for an unknown name |
| NsNation.NationList.SetPin | src/ns/nation.rs:62-70 | a known nation's pin is set, and get-pin then returns it; an unknown name is InvalidNation and the map is unchanged; every other entry is unchanged |
| SyncNations.Reply | src/sync/nations.rs:150-177 | get-password answers the password iff the nation is present; get-pin answers the stored pin of a present nation and None otherwise; set-pin answers Ok |
| SyncNations.Updated | src/sync/nations.rs:150-177 | the keys, names and passwords stay; only a set-pin on a present nation changes anything, and only its pin |
| SyncNations.Receiver.constructor | src/sync/nations.rs:143-148 | a receiver starts with an empty table |
| SyncNations.Receiver.Process | src/sync/nations.rs:150-180 | answers the command's reply and applies its update |
| SyncNations.SenderGetPassword | src/sync/nations.rs:48-79 | a lost message is Internal; a password is returned; a missing password is InvalidNation; any other reply panics |
| SyncNations.ReadsDoNotModify | src/sync/nations.rs:152-169 | get-password and get-pin leave the table unchanged |
| SyncNations.GetPasswordEndToEnd | src/sync/nations.rs:48-79 | a password request answered by the receiver yields the password of a known nation and InvalidNation otherwise, never a panic |
| SyncNations.SetThenGetPin | src/sync/nations.rs:161-176 | a pin set on a present nation is the next pin answered for it |
| SyncNations.SetPinAbsent | src/sync/nations.rs:170-176 | set-pin on an absent nation leaves the table as it was, yet is answered Ok |
| SyncNations.PinReplyAmbiguous | src/sync/nations.rs:161-169 | the pin reply cannot tell an absent nation from a present one without a pin |
| Encode.Digit | src/utils/encode.rs:10-14 | a digit character with that value |
| Encode.Decimal | src/utils/encode.rs:10-14 | a non-empty numeral of decimal digits, without a leading zero |
| Encode.DecimalRoundTrip | src/utils/encode.rs:10-14 | reading the numeral back gives the number |
| Encode.EncodeChar | src/utils/encode.rs:6-17 | an ASCII character is itself; any other is "&#", its code point in decimal, ";" — and the code point can be read back; the result is ASCII |
| Encode.EncodeCharInjective | src/utils/encode.rs:6-17 | distinct characters have distinct encodings |
| Encode.Encode | src/utils/encode.rs:3-20 | the output is ASCII-only and no shorter than the input |
| Encode.EncodeAppend | src/utils/encode.rs:4-19 | encode(a + b) = encode(a) + encode(b) |
| Encode.EncodeAsciiUnchanged | src/utils/encode.rs:7-8 | ASCII text is returned unchanged |
| Encode.EncodeNonAsciiGrows | src/utils/encode.rs:9-16 | a text with a non-ASCII character grows by at least three characters |
| Encode.Decimal233 | src/utils/encode.rs:10-14 | the numeral of 233 is "233" |
| Encode.EncodeNotInjective | src/utils/encode.rs:7-8 | '&' passes through, so the literal "&#233;" and the letter U+00E9 encode alike |
| User.Utf8Width | src/controllers/user.rs:97 | one to four bytes per character, one exactly for ASCII |
| User.Utf8Length | src/controllers/user.rs:97 | the byte length lies between the character count and four times it |
| User.Utf8LengthAscii | src/controllers/user.rs:97 | for ASCII text the byte length is the character count |
| User.ClaimsFor | src/controllers/user.rs:156-168 | issued now, expiring one day (86400 s) later, for this user, from "https://api.europeia.dev" |
| User.Register | src/controllers/user.rs:88-131 | a username outside `^[a-zA-Z0-9_-]{3,20}$` is InvalidUsername before the password is looked at; a password under 8 bytes is InvalidPassword; success iff hashing and the insert succeed, giving the inserted id, the hash and no claims; a hashing failure is Bcrypt with its message; a unique violation is UserAlreadyExists; any other insert error is Sql with its message |
| User.PasswordGuardCountsBytes | src/controllers/user.rs:97-101 | four two-byte letters pass the guard, seven ASCII letters do not |
| User.ValidUsername | src/controllers/user.rs:39 | `^[a-zA-Z0-9_-]{3,20}$` on the whole name; a valid name is plain ASCII |
| User.UsernameBytes | src/controllers/user.rs:39 | a valid username has 3 to 20 bytes |
| User.UsernameSamples | src/controllers/user.rs:39 | the length bounds are inclusive, and '.' and ' ' are refused |

## Left out

- HTTP calls are not modelled. This covers the telegram `send`/`send_telegram` requests, the dispatch `post`, the rmbpost submission and the whole prepare/execute exchange of the API client. Their outcomes are the parameters `deliver` and `post`.
- The SQL `update_job` is not modelled: `TryPost` returns its arguments instead.
- `register`'s database insert and bcrypt hashing are parameters, and JWT signing is not modelled; `ClaimsFor` gives the claims that would be signed.
- The channel plumbing is not modelled: the `Sender` halves of the limiter, the `run` loops with `try_recv`, `Arc`/`Mutex`/`RwLock` and async scheduling.
  - The receiving branch of each worker's `run` is `Enqueue`.
  - The nation receiver's `run` never calls `process` (src/sync/nations.rs:192-194); only `process` is modelled.
  - The `unwrap` on its reply send is not modelled.
  - The `Sender::get_pin` and `Sender::set_pin` mappings are not modelled.
- Concurrency is not modelled: each method is one sequential step, so interleavings of the shared limiter and queues are not captured.
- The `Ratelimiter` getters (`get_last_*_timestamp`, `*_cooldown`) are read as fields.
- SyncRatelimiter.Receiver.constructor: requires `maxRequests > 0`, because with zero the first peek unwraps the front of an empty bucket and panics.
- UtilsRatelimiter.Ratelimiter.Acquire: requires `maxRequests > 0`, because with zero `front().unwrap()` panics on an empty bucket; the sleep is modelled as waking strictly after its deadline (`late >= 1`), since with an exact wake-up the strict expiry test would keep the front entry.
- UtilsRatelimiter.Ratelimiter.AcquireForTelegram: the instant recorded as the last telegram is the admission instant; the source reads the clock again just after `acquire`. Each pass of the cooldown loop also uses one instant, while the source reads the clock a second time before `telegram_cooldown - elapsed` (src/utils/ratelimiter.rs:84-88). If the cooldown ends between the two reads, that subtraction underflows and panics; the model cannot reach that panic.
- UtilsRatelimiter.Ratelimiter.AcquireForRecruitmentTelegram: the same holds for its loop: one instant per pass, so the panic of `recruitment_telegram_cooldown - elapsed` after a second clock read (src/utils/ratelimiter.rs:115-119) is not modelled; the last recruitment instant is the admission instant, not a later clock read.
- SyncRatelimiter.Receiver.Peek: one `now` serves every component; the source reads the clock once per component.
- SyncRatelimiter.Receiver.Acquire: the stamp is `now + wait` with the `now` of the peek; the source reads the clock again after `peek` (src/sync/ratelimiter.rs:222), so its stamp can be later by the time the peek took.
- TelegramWorker.Client.GetTelegram, DispatchWorker.DispatchClient.GetAction, RmbpostWorker.RmbPostClient.TryGetRmbpost: the limiter's answers are a fixed function during a scan. The source awaits the limiter once per element, and time passes between them.
- TelegramWorker: the worker's `Telegram` (sender, type, `header()`) and `from_params` are not part of this model. Their shape is taken from how src/workers/telegram.rs uses them: the header is (recipient, telegram id).
- DispatchWorker.PostTarget and RmbpostWorker.PostTarget: the workers import a `Target` and call `peek_ratelimit` from src/utils/ratelimiter.rs, which defines neither; both are read as the channel limiter's `SyncRatelimiter.Target` and its peek, given to the workers as the parameter `wait`.
- DispatchWorker.IntermediateDispatch: its definition is not part of this model; it is a nation with a dispatch action.
- NsTelegram.Lowercase: lowercases ASCII letters only; Rust's Unicode `to_lowercase`, which can change the length, is not modelled.
- NsDispatch.Dispatch.SetMode: the `Mode` enum of src/ns/dispatch.rs:147-163 is the same as that of src/ns/types.rs:22-38 and is modelled once, as `NsTypes.Mode`.
- CoreTelegram.Telegrammer.TrySendRecruitmentTelegram: the underflowing `Duration` subtraction is reported as `Failure(Panic)` instead of aborting.
- NsNation.CreateNationsMap: the `unwrap` panic on a segment without ':' is `Failure(Panic)`.
- User.ClaimsFor: the instant is a `nat` of seconds; the cast of a negative timestamp to `usize` is not modelled.
- User.Register: the token signing that follows a successful insert is not modelled, and neither is its possible failure.
- RmbpostWorker.JobUpdate: job ids are unbounded integers, not `i32`.
- Encode.EncodeChar: the `htmlentity` library is foreign; it is modelled by what it produces for one character, a decimal numeric character reference of its code point.
