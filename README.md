# pushover-bot, modelled in Dafny

This project models a Telegram bot that sends Pushover emergency alarms. It
also models aiogram-broadcast, the broadcast library the bot ships with. Each
part is written in Dafny and the properties its source promises are proved.

The library part covers these parts of `aiogram_broadcast`:

- The broadcast service (`service.py`). It is a single-flight loop with a
  retry budget. The sender is an oracle that answers
  `(recipient, attempt)` with an outcome. Sleeps and progress calls go to an
  effect log.
- The `BroadcastResult`, `Subscriber` and `BroadcastTask` records, with
  their dict encodings (`models.py`).
- The subscriber registry:
  - the Redis hash, as a map from id to record;
  - the derived operations of the base storage;
  - a fault oracle for failing Redis commands (`storage/`).
- The scheduler (`scheduler.py`). It keeps a pending-task table beside a
  backend job store, and firing a job is an explicit call.
- The subscription middlewares (`middleware.py`).
- The broadcast menu:
  - the text and button tables (`ui/texts.py`);
  - the keyboards: the URL-button parser and the paginator (`ui/keyboards.py`);
  - the helpers: `validate_url`, `validate_datetime`, `DataStorage`, the
    send and delete wrappers (`ui/utils.py`);
  - the manager's windows and actions (`ui/manager.py`);
  - the per-state handlers and their registration (`ui/handlers.py`).

The bot part covers:

- the settings (`src/config.py`);
- the SQL repositories, as in-memory tables (`src/db/repositories/`);
- the migration runner (`src/db/database.py`);
- the notification service, with the Pushover client as an outcome oracle
  (`src/services/notification.py`);
- the group and private handlers and their keyboards;
- the throttling and archive middlewares;
- the locale loader (`src/i18n/loader.py`);
- the HTML helpers and grouping logic of `scripts/export_archive.py`.

Every file is one Dafny module named after the component it models. The
exception is `common.dfy`, which holds the Python built-ins the model needs:
`str.split`, `strip`, `lower`, `int`, `str` and `str.format`. Where the
source mutates an object, the model is a class with `modifies` clauses, and
each method's contract ties its new state to a specification function. The
properties of those functions are proved as lemmas. Pure code is modelled
as functions and lemmas.

## Model

| member | source | states |
|---|---|---|
| Models.StateFromText | libs/aiogram-broadcast/aiogram_broadcast/models.py:11-14 | SubscriberState(text) yields the member whose value is the text, and fails for any text other than "member" and "kicked" |
| Models.NewSubscriberIsActive | libs/aiogram-broadcast/aiogram_broadcast/models.py:30-37 | a subscriber built with the defaults is a MEMBER, hence active, and keeps exactly the fields it was given |
| Models.IsActiveIffMember | libs/aiogram-broadcast/aiogram_broadcast/models.py:52-55 | is_active holds exactly when the state is not KICKED |
| Models.SubscriberToDict | libs/aiogram-broadcast/aiogram_broadcast/models.py:39-43 | to_dict has exactly the six dataclass fields, with the state stored as its string value |
| Models.SubscriberFromDict | libs/aiogram-broadcast/aiogram_broadcast/models.py:45-50 | from_dict fails when the state string is unknown; a built subscriber has only known fields and its id is the dict's id |
| Models.SubscriberRoundTrip | libs/aiogram-broadcast/aiogram_broadcast/models.py:39-50 | from_dict(to_dict(s)) == s, whatever the clock says |
| Models.SubscriberFromDictRewritesArgument | libs/aiogram-broadcast/aiogram_broadcast/models.py:48-49 | from_dict mutates the dict it is given: the stored state string becomes the enum member |
| Models.EncodedIsRecord | libs/aiogram-broadcast/aiogram_broadcast/models.py:35-43 | every to_dict image is a well-formed record whose stored subscribed_at wins over the default clock |
| Models.FailureOverwritesError | libs/aiogram-broadcast/aiogram_broadcast/models.py:80-85 | two failures for one user count twice, the later error message wins and each blocked failure appends the id |
| Models.BroadcastResult.constructor | libs/aiogram-broadcast/aiogram_broadcast/models.py:70-74 | a new result is all zeros with no blocked users and no errors |
| Models.BroadcastResult.SetTotal | libs/aiogram-broadcast/aiogram_broadcast/models.py:70 | setting total changes only total |
| Models.BroadcastResult.AddSuccess | libs/aiogram-broadcast/aiogram_broadcast/models.py:76-78 | add_success adds one to successful and touches nothing else |
| Models.BroadcastResult.AddFailure | libs/aiogram-broadcast/aiogram_broadcast/models.py:80-85 | add_failure adds one to failed, sets errors[user_id] and appends the id to blocked_users exactly when blocked |
| Models.BroadcastResult.SuccessRate | libs/aiogram-broadcast/aiogram_broadcast/models.py:87-92 | 0 for an empty broadcast, otherwise the rate times total equals successful times 100 |
| Models.TaskToDict | libs/aiogram-broadcast/aiogram_broadcast/models.py:115-124 | to_dict has exactly the six keys, with both datetimes stored as their isoformat text |
| Models.TaskFromDict | libs/aiogram-broadcast/aiogram_broadcast/models.py:126-134 | a decoded task has the dict's id and the datetime that the scheduled_at text parses to |
| Models.TaskRoundTrip | libs/aiogram-broadcast/aiogram_broadcast/models.py:115-134 | from_dict(to_dict(t)) == t |
| Entries.Values | libs/aiogram-broadcast/aiogram_broadcast/scheduler.py:280-287 | list(d.values()) has one value per entry |
| Entries.Keys | libs/aiogram-broadcast/aiogram_broadcast/scheduler.py:280-287 | list(d.keys()) has one key per entry |
| Entries.GetPut | libs/aiogram-broadcast/aiogram_broadcast/scheduler.py:144 | after d[k] = v, d.get(k) is v and every other key reads as before |
| Entries.GetRemove | libs/aiogram-broadcast/aiogram_broadcast/scheduler.py:274 | after d.pop(k, None), d.get(k) is None and every other key reads as before |
| Entries.RemoveAbsent | libs/aiogram-broadcast/aiogram_broadcast/scheduler.py:312 | popping an absent key leaves the dict unchanged |
| Entries.PutUnique | libs/aiogram-broadcast/aiogram_broadcast/scheduler.py:144 | assignment keeps the keys unique |
| Entries.RemoveUnique | libs/aiogram-broadcast/aiogram_broadcast/scheduler.py:274 | popping keeps the keys unique |
| Entries.PutOrder | libs/aiogram-broadcast/aiogram_broadcast/scheduler.py:144 | assigning to a present key keeps every pair's position; assigning to an absent key appends the pair at the end |
| Entries.ValuesListed | libs/aiogram-broadcast/aiogram_broadcast/scheduler.py:287 | every stored value appears in the values listing |
| Entries.KeysListed | libs/aiogram-broadcast/aiogram_broadcast/scheduler.py:299 | a key reads as present exactly when it is listed among the keys |
| Storage.WithState | libs/aiogram-broadcast/aiogram_broadcast/storage/base.py:163-169 | after update_subscriber_state only that record's state moves; every other record and the key set stay as they were |
| Storage.WithStateIdempotent | libs/aiogram-broadcast/aiogram_broadcast/storage/base.py:163-169 | setting the same state twice stores the same record as setting it once |
| Storage.RedisStorage.constructor | libs/aiogram-broadcast/aiogram_broadcast/storage/redis.py:25-39 | a new store is empty, keeps its prefix and uses the hash key prefix + ":subscribers" |
| Storage.RedisStorage.SubscriberIds | libs/aiogram-broadcast/aiogram_broadcast/storage/redis.py:72-75 | the unfiltered selection is every stored id |
| Storage.RedisStorage.OrderIsKeys | libs/aiogram-broadcast/aiogram_broadcast/storage/redis.py:105-111 | the scan order lists exactly the hash's ids |
| Storage.RedisStorage.AddSubscriber | libs/aiogram-broadcast/aiogram_broadcast/storage/redis.py:46-49 | HSET of the encoded record inserts or overwrites the entry for the subscriber's id; a failed command changes nothing |
| Storage.RedisStorage.UpdateSubscriber | libs/aiogram-broadcast/aiogram_broadcast/storage/redis.py:58-60 | the same write as add_subscriber, so an absent id is inserted too |
| Storage.RedisStorage.GetSubscriber | libs/aiogram-broadcast/aiogram_broadcast/storage/redis.py:51-56 | None for an absent id, otherwise the last record stored for it |
| Storage.RedisStorage.DeleteSubscriber | libs/aiogram-broadcast/aiogram_broadcast/storage/redis.py:62-65 | True exactly when the entry existed; afterwards the id is absent |
| Storage.RedisStorage.IterSubscribers | libs/aiogram-broadcast/aiogram_broadcast/storage/redis.py:97-117 | yields only stored subscribers the state filter selects, yields every selected one, and yields no id twice |
| Storage.RedisStorage.GetAllSubscriberIds | libs/aiogram-broadcast/aiogram_broadcast/storage/redis.py:67-81 | the ids of the selection, without repetitions and with nothing missing |
| Storage.RedisStorage.GetSubscribersCount | libs/aiogram-broadcast/aiogram_broadcast/storage/redis.py:83-95 | the size of the selection, from HLEN or from a counting pass |
| Storage.RedisStorage.GetActiveSubscriberIds | libs/aiogram-broadcast/aiogram_broadcast/storage/redis.py:119-126 | exactly the ids of MEMBER subscribers, without repetitions |
| Storage.RedisStorage.GetOrCreateSubscriber | libs/aiogram-broadcast/aiogram_broadcast/storage/base.py:116-146 | an existing record is returned untouched with created = False; otherwise a new MEMBER record with the given fields is written and returned with created = True |
| Storage.RedisStorage.UpdateSubscriberState | libs/aiogram-broadcast/aiogram_broadcast/storage/base.py:148-169 | False with no write for an absent id; otherwise only that record's state changes and the answer is True; a failing read changes nothing |
| Storage.RedisStorage.MarkAsBlocked | libs/aiogram-broadcast/aiogram_broadcast/storage/redis.py:128-140 | update_subscriber_state(id, KICKED) |
| Service.Record | libs/aiogram-broadcast/aiogram_broadcast/service.py:426-467 | one recipient's verdict moves at most one of successful and failed, by one, never total; the id joins blocked_users exactly when the failure is a block; a failure records its error |
| Service.SendNoProgress | libs/aiogram-broadcast/aiogram_broadcast/service.py:426-469 | the attempts for one recipient never call the progress callback |
| Service.SendCallCount | libs/aiogram-broadcast/aiogram_broadcast/service.py:426-469 | the sender is called at most once per remaining attempt, and never once max_retries is used up |
| Service.SendFirstCalls | libs/aiogram-broadcast/aiogram_broadcast/service.py:426-428 | only attempt 0 counts as a first call: the recipient's id, once, when max_retries > 0 |
| Service.DeliveredSettles | libs/aiogram-broadcast/aiogram_broadcast/service.py:427-430 | a send that goes through settles the recipient as a success after one call and no sleep |
| Service.AllRetryAfter | libs/aiogram-broadcast/aiogram_broadcast/service.py:446-451 | a recipient that answers every attempt with RetryAfter is counted neither as success nor as failure, after one call per attempt |
| Service.ForbiddenNotRetried | libs/aiogram-broadcast/aiogram_broadcast/service.py:432-444 | a Forbidden error ends the attempts after one call, with a failure carrying its text that is a block exactly when the text mentions "blocked" or "kicked" |
| Service.ApiErrorRetried | libs/aiogram-broadcast/aiogram_broadcast/service.py:453-457 | a generic API error before the last attempt sleeps retry_delay * (attempt + 1) and tries again |
| Service.ApiErrorsFail | libs/aiogram-broadcast/aiogram_broadcast/service.py:453-461 | a recipient that fails every attempt with a generic API error records one failure, with the last attempt's message, not blocked |
| Service.ApiErrorsExhaust | libs/aiogram-broadcast/aiogram_broadcast/service.py:426-457 | such a recipient is tried on every attempt |
| Service.ApiErrorsBackoff | libs/aiogram-broadcast/aiogram_broadcast/service.py:455-456 | between its attempts such a recipient sleeps retry_delay * 1, retry_delay * 2, and so on |
| Service.AttemptsFor | libs/aiogram-broadcast/aiogram_broadcast/service.py:390-391 | one plan of attempts per snapshot id |
| Service.KickAll | libs/aiogram-broadcast/aiogram_broadcast/service.py:438-442 | marking ids KICKED keeps the key set of the registry |
| Service.KickAllEffect | libs/aiogram-broadcast/aiogram_broadcast/service.py:438-442 | after the marks, exactly the marked records differ, each only in its state, now KICKED |
| Service.TensAreMultiples | libs/aiogram-broadcast/aiogram_broadcast/service.py:394 | the progress indices are 10, 20, ... up to n: n / 10 of them, increasing |
| Service.RunTally | libs/aiogram-broadcast/aiogram_broadcast/service.py:386-402 | after n recipients, total is the snapshot's length, successful + failed is at most n, the KICKED marks are exactly blocked_users, and every blocked or failed id is among the first n |
| Service.PlanViews | libs/aiogram-broadcast/aiogram_broadcast/service.py:426-469 | for each planned recipient: one first attempt when max_retries > 0, at most max_retries calls and no progress report |
| Service.RunFirstCalls | libs/aiogram-broadcast/aiogram_broadcast/service.py:390-391 | recipients are first tried once each, in snapshot order |
| Service.RunCallCount | libs/aiogram-broadcast/aiogram_broadcast/service.py:390-391 | the sender is called at most max_retries times per recipient |
| Service.RunProgress | libs/aiogram-broadcast/aiogram_broadcast/service.py:394-398 | the progress callback sees exactly the multiples of 10 up to n, when there is one |
| Service.BroadcastLog | libs/aiogram-broadcast/aiogram_broadcast/service.py:385-402 | over a whole run every recipient is first tried once, in snapshot order (nobody when max_retries <= 0), the sender is called at most max_retries times per recipient and progress is reported at every tenth |
| Service.BroadcastTally | libs/aiogram-broadcast/aiogram_broadcast/service.py:380-409 | over a whole run total is the snapshot's length, at most one success or failure per recipient, blocked_users is exactly the ids marked KICKED and only snapshot ids are recorded |
| Service.RequestFor | libs/aiogram-broadcast/aiogram_broadcast/service.py:117-127 | the request a wrapper's sender issues is for that chat, with the wrapper's content and options |
| Service.RequestsPerRecipient | libs/aiogram-broadcast/aiogram_broadcast/service.py:88-326 | two recipients' requests differ only in the chat id, and each wrapper uses its own API method |
| Service.BroadcastService.constructor | libs/aiogram-broadcast/aiogram_broadcast/service.py:47-71 | a new service keeps its storage and settings and is not broadcasting |
| Service.BroadcastService.IsBroadcasting | libs/aiogram-broadcast/aiogram_broadcast/service.py:83-86 | is_broadcasting is exactly the in-progress flag |
| Service.BroadcastService.SendWithRetry | libs/aiogram-broadcast/aiogram_broadcast/service.py:414-469 | the attempts and verdict for one recipient are those SendFrom describes, recorded in the result; a KICKED mark is written exactly for a block, and a storage error while writing it propagates |
| Service.BroadcastService.VisitRecipient | libs/aiogram-broadcast/aiogram_broadcast/service.py:390-402 | one loop pass: the attempts, the progress callback at every tenth position, the rate-limit pause after a success |
| Service.BroadcastService.Broadcast | libs/aiogram-broadcast/aiogram_broadcast/service.py:359-412 | BroadcastInProgressError before any storage access while a run is in progress; otherwise the flag is held for the run and cleared however it ends, and a finished run is RunOver over a duplicate-free snapshot of the selected ids |
| Service.BroadcastService.Dispatch | libs/aiogram-broadcast/aiogram_broadcast/service.py:382-409 | the ids are read once and each is tried once in that order; the result, the log and the registry are those of RunOver over the snapshot; a storage error ends the run |
| Service.BroadcastService.SendAll | libs/aiogram-broadcast/aiogram_broadcast/service.py:390-402 | the loop over the snapshot: when it completes, the result, the log and the registry are those of RunOver |
| Service.BroadcastService.GetSubscriberCount | libs/aiogram-broadcast/aiogram_broadcast/service.py:471-482 | the number of subscribers the only_active filter selects |
| Middleware.StateFor | libs/aiogram-broadcast/aiogram_broadcast/middleware.py:124-128 | the new state is MEMBER exactly when the status is MEMBER or ADMINISTRATOR, KICKED otherwise |
| Middleware.RefreshedSettles | libs/aiogram-broadcast/aiogram_broadcast/middleware.py:83-103 | refreshing keeps the id and subscribed_at, takes the user's current fields, always leaves the subscriber active, is idempotent, and changes nothing exactly when the fields already match and the state is MEMBER |
| Middleware.BroadcastMiddleware.constructor | libs/aiogram-broadcast/aiogram_broadcast/middleware.py:33-49 | a new middleware keeps its storage and data keys and has run no handler |
| Middleware.BroadcastMiddleware.Call | libs/aiogram-broadcast/aiogram_broadcast/middleware.py:51-77 | storage is always injected; only a private chat with a user reads or writes storage; the handler runs exactly once with the subscriber, None for untracked updates |
| Middleware.BroadcastMiddleware.GetOrUpdateSubscriber | libs/aiogram-broadcast/aiogram_broadcast/middleware.py:79-114 | a known subscriber is refreshed and written back only when that changed something; an unknown user is added as a new MEMBER |
| Middleware.BroadcastMiddleware.HandleChatMemberUpdate | libs/aiogram-broadcast/aiogram_broadcast/middleware.py:116-149 | the record, created if absent, always gets the new state and the user's current fields and is always written |
| Middleware.Flipped | libs/aiogram-broadcast/aiogram_broadcast/middleware.py:206-227 | the stored record keeps the known id (or takes the user's) and is active exactly when the new status is a membership |
| Middleware.BroadcastChatMemberMiddleware.constructor | libs/aiogram-broadcast/aiogram_broadcast/middleware.py:163-179 | a new middleware keeps its storage and callbacks and has run no handler |
| Middleware.BroadcastChatMemberMiddleware.Call | libs/aiogram-broadcast/aiogram_broadcast/middleware.py:181-233 | storage is touched only when the update flips membership in a private chat; then the record is stored with the new state and exactly the callback for that direction, if set, hears of it; the handler runs once |
| UiTexts.NewTexts | libs/aiogram-broadcast/aiogram_broadcast/ui/texts.py:194-205 | a supported, non-empty language code is kept; anything else gives "en" |
| UiTexts.Get | libs/aiogram-broadcast/aiogram_broadcast/ui/texts.py:207-226 | formats only when keyword arguments are given; a KeyError keeps the unformatted text; any other formatting error propagates |
| UiTexts.KeyNamesRead | libs/aiogram-broadcast/aiogram_broadcast/ui/texts.py:8-190 | every text key reads back from its name, so no two keys share a name |
| UiTexts.LookupFallback | libs/aiogram-broadcast/aiogram_broadcast/ui/texts.py:218-220 | a non-empty text of the chosen language wins, an empty one falls back to English, and an unknown key reads as "[key]" |
| UiTexts.LookupUnsupported | libs/aiogram-broadcast/aiogram_broadcast/ui/texts.py:202-205 | an unsupported language reads the English table |
| UiTexts.GetPlain | libs/aiogram-broadcast/aiogram_broadcast/ui/texts.py:221-226 | a text without replacement fields comes back unchanged, whatever the keyword arguments |
| UiUtils.FsmContext.UpdateData | libs/aiogram-broadcast/aiogram_broadcast/ui/utils.py:98 | update_data merges the given keys into the state data and leaves the FSM state alone |
| UiUtils.FsmContext.SetData | libs/aiogram-broadcast/aiogram_broadcast/ui/utils.py:130 | set_data replaces the state data and leaves the FSM state alone |
| UiUtils.StoredAfterSet | libs/aiogram-broadcast/aiogram_broadcast/ui/utils.py:90-118 | after set(key, v), get(key) returns v, every other key reads as before, and an absent key reads as the default |
| UiUtils.DataStorage.Set | libs/aiogram-broadcast/aiogram_broadcast/ui/utils.py:90-98 | set is one write of the encoded value under the key, read back as the value |
| UiUtils.DataStorage.Get | libs/aiogram-broadcast/aiogram_broadcast/ui/utils.py:100-118 | get returns the decoded value under the key, or the default when it is absent or undecodable |
| UiUtils.DataStorage.Delete | libs/aiogram-broadcast/aiogram_broadcast/ui/utils.py:120-130 | delete drops only that key and writes back only when the key was there |
| UiUtils.UrlAtShape | libs/aiogram-broadcast/aiogram_broadcast/ui/utils.py:42-43 | a match found at i is a piece of the text starting at i that satisfies the pattern |
| UiUtils.UrlMatchFound | libs/aiogram-broadcast/aiogram_broadcast/ui/utils.py:42-43 | any piece of the text that satisfies the pattern directly is exactly what the pattern finds at its start |
| UiUtils.UrlStartSpec | libs/aiogram-broadcast/aiogram_broadcast/ui/utils.py:43 | the scan stops at the first position where the pattern matches, and at the end when there is none |
| UiUtils.NoMatchBefore | libs/aiogram-broadcast/aiogram_broadcast/ui/utils.py:43-44 | no match starts before the position the scan stops at |
| UiUtils.ValidateUrlNone | libs/aiogram-broadcast/aiogram_broadcast/ui/utils.py:32-44 | validate_url gives None exactly when no piece of the text matches https?://\S+ or www\.\S+ |
| UiUtils.ValidateUrl | libs/aiogram-broadcast/aiogram_broadcast/ui/utils.py:32-44 | validate_url; ValidateUrlNone and ValidateUrlLeftmost prove it finds the leftmost match, and None exactly when there is none |
| UiUtils.ValidateUrlLeftmost | libs/aiogram-broadcast/aiogram_broadcast/ui/utils.py:32-44 | otherwise it gives the leftmost match, a whitespace-free piece that begins with one of the prefixes and runs to the next whitespace or the end |
| UiUtils.NumberField | libs/aiogram-broadcast/aiogram_broadcast/ui/utils.py:58 | a %m, %H or %M field of one or two digits is accepted only when its value lies in range |
| UiUtils.DayField | libs/aiogram-broadcast/aiogram_broadcast/ui/utils.py:58 | a %d field gives a day from 1 to 31 |
| UiUtils.ParseClock | libs/aiogram-broadcast/aiogram_broadcast/ui/utils.py:58 | the " %H:%M" tail gives an hour up to 23 and a minute up to 59 |
| UiUtils.ParseStamp | libs/aiogram-broadcast/aiogram_broadcast/ui/utils.py:58 | whatever strptime accepts is a real date and time: a month 1-12, a day that exists in that month and year, an hour and a minute in range |
| UiUtils.ValidateDatetime | libs/aiogram-broadcast/aiogram_broadcast/ui/utils.py:47-60 | a ValueError becomes None, and any accepted text is a valid date and time |
| UiUtils.ValidateFormatted | libs/aiogram-broadcast/aiogram_broadcast/ui/utils.py:47-60 | the text strftime("%Y-%m-%d %H:%M") writes for a time with a four-digit year is read back by validate_datetime as that very time |
| UiUtils.SendMessageCopySpec | libs/aiogram-broadcast/aiogram_broadcast/ui/utils.py:133-166 | send_message_copy sleeps out every flood wait before the first attempt that settles, and returns True exactly when that attempt went through |
| UiUtils.Suppressed | libs/aiogram-broadcast/aiogram_broadcast/ui/utils.py:169-204 | a delete under suppress(TelegramBadRequest) gives True on success and False on a bad request; any other error goes up |
| UiKeyboards.NewKeyboards | libs/aiogram-broadcast/aiogram_broadcast/ui/keyboards.py:49-60 | a supported language code is kept; None, "" or anything else gives "en" |
| UiKeyboards.ButtonText | libs/aiogram-broadcast/aiogram_broadcast/ui/keyboards.py:62-66 | the language's label, else the English one, else the key itself |
| UiKeyboards.ButtonTablesAgree | libs/aiogram-broadcast/aiogram_broadcast/ui/keyboards.py:22-45 | both tables label the same nine buttons, so a supported language never falls back |
| UiKeyboards.NonBlank | libs/aiogram-broadcast/aiogram_broadcast/ui/keyboards.py:168 | keeping only the non-blank stripped parts never lengthens the list |
| UiKeyboards.ParseDefinition | libs/aiogram-broadcast/aiogram_broadcast/ui/keyboards.py:176-193 | one definition is checked and turned into a button, as ParseButton describes |
| UiKeyboards.ParseButton | libs/aiogram-broadcast/aiogram_broadcast/ui/keyboards.py:176-193 | one definition, a text and a URL separated by a bar; ParseRowGood proves an accepted one has non-blank text and an http(s) URL |
| UiKeyboards.ParseRowDefinitions | libs/aiogram-broadcast/aiogram_broadcast/ui/keyboards.py:172-196 | the inner loop gives one row's buttons, or None at the first invalid definition |
| UiKeyboards.BuildUrlButtons | libs/aiogram-broadcast/aiogram_broadcast/ui/keyboards.py:147-201 | the loops over rows and definitions compute exactly UrlButtons, None at the first invalid definition |
| UiKeyboards.ParseRowGood | libs/aiogram-broadcast/aiogram_broadcast/ui/keyboards.py:175-193 | a parsed row has one button per definition, each with non-blank text and an http:// or https:// URL |
| UiKeyboards.ParseRowsGood | libs/aiogram-broadcast/aiogram_broadcast/ui/keyboards.py:171-196 | parsed rows are never empty and number at most the input lines |
| UiKeyboards.ParseRows | libs/aiogram-broadcast/aiogram_broadcast/ui/keyboards.py:171-196 | the keyboard of the given rows; ParseRowsGood proves its rows are non-empty and no more than the lines |
| UiKeyboards.UrlButtons | libs/aiogram-broadcast/aiogram_broadcast/ui/keyboards.py:148-201 | build_url_buttons; UrlButtonsGood, UrlButtonsRejects and UrlButtonsRender state when it succeeds and that it reads back a written keyboard |
| UiKeyboards.UrlButtonsGood | libs/aiogram-broadcast/aiogram_broadcast/ui/keyboards.py:164-198 | any keyboard returned has a row, no empty row, and only URL buttons with non-blank text and an http:// or https:// URL (a "www." URL having been given "https://") |
| UiKeyboards.UrlButtonsRejects | libs/aiogram-broadcast/aiogram_broadcast/ui/keyboards.py:164-178 | blank input gives None, and so does a definition without its bar |
| UiKeyboards.RowRendered | libs/aiogram-broadcast/aiogram_broadcast/ui/keyboards.py:173-196 | one row written in the input format splits back into its definitions and parses back into its buttons |
| UiKeyboards.RenderedLines | libs/aiogram-broadcast/aiogram_broadcast/ui/keyboards.py:168 | the written text is already stripped and splits on new lines into the written rows |
| UiKeyboards.UrlButtonsRender | libs/aiogram-broadcast/aiogram_broadcast/ui/keyboards.py:147-201 | writing a keyboard of plain absolute URL buttons in the input format and parsing it again gives back the same keyboard |
| UiKeyboards.AddPages | libs/aiogram-broadcast/aiogram_broadcast/ui/keyboards.py:264-265 | the range loop writes each page's own number under it |
| UiKeyboards.EmitButtons | libs/aiogram-broadcast/aiogram_broadcast/ui/keyboards.py:299-300 | the emitting loop gives one "page:n" button per dict entry in ascending key order |
| UiKeyboards.NavigationBuilder | libs/aiogram-broadcast/aiogram_broadcast/ui/keyboards.py:257-303 | _navigation_builder gives exactly the buttons NavButtons describes |
| UiKeyboards.NavButtons | libs/aiogram-broadcast/aiogram_broadcast/ui/keyboards.py:257-303 | the navigation buttons; NavButtonsShape and NavWindow state their labels, order and window |
| UiKeyboards.WithPagesAt | libs/aiogram-broadcast/aiogram_broadcast/ui/keyboards.py:264-265 | every page written by the range loop reads as its own number; other keys are untouched |
| UiKeyboards.SortedItemsSpec | libs/aiogram-broadcast/aiogram_broadcast/ui/keyboards.py:299 | sorted(d.items()) is strictly ascending, pairs each key with its own value and lists every key |
| UiKeyboards.NavMapKeys | libs/aiogram-broadcast/aiogram_broadcast/ui/keyboards.py:260-297 | every key lies between min(1, current) and max(total, current); with more than one page the current page is labelled "· n ·"; with one page the dict is empty |
| UiKeyboards.NavMapHas | libs/aiogram-broadcast/aiogram_broadcast/ui/keyboards.py:262-297 | which pages keyboard_dict holds, for each of the four branches |
| UiKeyboards.NavWindow | libs/aiogram-broadcast/aiogram_broadcast/ui/keyboards.py:257-303 | no buttons for one page, every page for up to five, otherwise exactly five: 1-4 and last, first and the last four, or first, the neighbours of the current page and last |
| UiKeyboards.NavButtonsShape | libs/aiogram-broadcast/aiogram_broadcast/ui/keyboards.py:295-300 | each navigation button carries "page:n" and keyboard_dict's label for n, in ascending order; the current page is shown as "· n ·" whenever there is more than one page; with more than five pages the row starts at page 1 and ends at the last page |
| UiKeyboards.RowsSpec | libs/aiogram-broadcast/aiogram_broadcast/ui/keyboards.py:254 | adjust(w) keeps the buttons and their order and makes no row empty or wider than w |
| UiKeyboards.MarkupLayout | libs/aiogram-broadcast/aiogram_broadcast/ui/keyboards.py:305-320 | the final keyboard holds the "before" buttons, one button per item in order, the navigation buttons and the "after" buttons, in that order, and the item rows, right after the "before" rows, are at most row_width wide |
| Scheduler.JobStore.constructor | libs/aiogram-broadcast/aiogram_broadcast/scheduler.py:65 | a new job store holds no jobs |
| Scheduler.JobStore.AddJob | libs/aiogram-broadcast/aiogram_broadcast/scheduler.py:135-142 | add_job succeeds exactly when replace_existing is set or the id is new, and then stores the job under its id |
| Scheduler.JobStore.RemoveJob | libs/aiogram-broadcast/aiogram_broadcast/scheduler.py:273 | remove_job succeeds exactly when a job has that id, and the id is gone afterwards |
| Scheduler.TaskIdShape | libs/aiogram-broadcast/aiogram_broadcast/scheduler.py:92-94 | a task id is "broadcast_" followed by eight hex digits (18 characters), and two ids are equal exactly when their hex draws are |
| Scheduler.ScheduledCallsReady | libs/aiogram-broadcast/aiogram_broadcast/scheduler.py:301-339 | every task a schedule_* method builds reaches its broadcast_* wrapper with the content under its keyword (a copy's two ids under theirs) and every stored keyword passed on unchanged |
| Scheduler.KeyedGet | libs/aiogram-broadcast/aiogram_broadcast/scheduler.py:289-299 | a pending task found under an id carries that id |
| Scheduler.KeyedPut | libs/aiogram-broadcast/aiogram_broadcast/scheduler.py:144 | storing a task under its own id keeps every pending entry keyed by its task's id |
| Scheduler.KeyedRemove | libs/aiogram-broadcast/aiogram_broadcast/scheduler.py:274 | popping keeps every pending entry keyed by its task's id |
| Scheduler.BroadcastScheduler.constructor | libs/aiogram-broadcast/aiogram_broadcast/scheduler.py:48-68 | a new scheduler has no pending tasks and no callback reports, and keeps the service, backend and callbacks it was given |
| Scheduler.BroadcastScheduler.GetPendingTasks | libs/aiogram-broadcast/aiogram_broadcast/scheduler.py:280-287 | get_pending_tasks lists one task per pending entry |
| Scheduler.BroadcastScheduler.GetTask | libs/aiogram-broadcast/aiogram_broadcast/scheduler.py:289-299 | get_task returns a listed task with that id, and None exactly when no pending entry has the id |
| Scheduler.BroadcastScheduler.Enqueue | libs/aiogram-broadcast/aiogram_broadcast/scheduler.py:135-144 | a date job stored under the task's id, replacing any earlier job, then the pending entry under the same id |
| Scheduler.BroadcastScheduler.ScheduleText | libs/aiogram-broadcast/aiogram_broadcast/scheduler.py:96-146 | SchedulerNotConfiguredError with nothing changed when there is no backend; otherwise it returns the new id, under which the job and the text task are both stored |
| Scheduler.BroadcastScheduler.SchedulePhoto | libs/aiogram-broadcast/aiogram_broadcast/scheduler.py:148-201 | as schedule_text, for a photo task with its caption |
| Scheduler.BroadcastScheduler.ScheduleCopy | libs/aiogram-broadcast/aiogram_broadcast/scheduler.py:203-258 | as schedule_text, for a copy task whose content records the source chat and message |
| Scheduler.BroadcastScheduler.Cancel | libs/aiogram-broadcast/aiogram_broadcast/scheduler.py:260-278 | SchedulerNotConfiguredError without a backend; otherwise True exactly when the backend had the job, in which case both the job and the pending entry are gone |
| Scheduler.BroadcastScheduler.HandleCompletion | libs/aiogram-broadcast/aiogram_broadcast/scheduler.py:341-350 | on_complete, when set, receives the task id and the result; its own failure is swallowed |
| Scheduler.BroadcastScheduler.HandleError | libs/aiogram-broadcast/aiogram_broadcast/scheduler.py:352-360 | on_error, when set, receives the task id and the failure; its own failure is swallowed |
| Scheduler.BroadcastScheduler.Fire | libs/aiogram-broadcast/aiogram_broadcast/scheduler.py:301-339 | a fired job runs its wrapper, then exactly one of the completion and error paths, and in all cases drops the pending entry |
| Scheduler.CancelForgets | libs/aiogram-broadcast/aiogram_broadcast/scheduler.py:260-278 | after a successful cancel the id is unknown to both tables, so a second cancel answers False, and every other pending entry is untouched |
| Scheduler.ScheduleThenGet | libs/aiogram-broadcast/aiogram_broadcast/scheduler.py:135-146 | a scheduled task can be got back under its id, and scheduling again under the same id replaces both the task and the job |
| UiManager.SortByTimeSpec | libs/aiogram-broadcast/aiogram_broadcast/ui/manager.py:170-177 | sorted(items, key=time) is in time order and holds exactly the entries it was given |
| UiManager.JobItemsSpec | libs/aiogram-broadcast/aiogram_broadcast/ui/manager.py:168-175 | every job with a run date is listed under its formatted time and "job:<id>", and every entry comes from such a job |
| UiManager.TotalPagesSpec | libs/aiogram-broadcast/aiogram_broadcast/ui/manager.py:181 | there is always a page, one for an empty list, and otherwise the last page holds the last entry |
| UiManager.PageItemsFrom | libs/aiogram-broadcast/aiogram_broadcast/ui/manager.py:180 | page p >= 1 is the run of at most five entries that starts at (p - 1) * 5 |
| UiManager.PagesCoverList | libs/aiogram-broadcast/aiogram_broadcast/ui/manager.py:180-181 | read page by page up to total_pages, the list shows every entry once, in order |
| UiManager.PageZero | libs/aiogram-broadcast/aiogram_broadcast/ui/manager.py:180 | page 0 shows nothing |
| UiManager.PageShowsJobs | libs/aiogram-broadcast/aiogram_broadcast/ui/manager.py:168-180 | a page of the list shows only scheduled jobs that have a run date, under their own time |
| UiManager.ListScreen | libs/aiogram-broadcast/aiogram_broadcast/ui/manager.py:160-191 | the list window shows the subscriber count in its text and the page's entries with page navigation; it fails exactly when the stored page or subscriber list has a kind the slicing or len() rejects |
| UiManager.JobPreview | libs/aiogram-broadcast/aiogram_broadcast/ui/manager.py:195-204 | a preview is sent only with a configured scheduler, a truthy job_id, such a job and truthy message data, and it is that job's message_data |
| UiManager.MarkupValue | libs/aiogram-broadcast/aiogram_broadcast/ui/manager.py:334-337 | the stored reply_markup is None exactly when no markup is given |
| UiManager.WithButtons | libs/aiogram-broadcast/aiogram_broadcast/ui/manager.py:333-338 | only the message's reply_markup entry is set; every other entry is kept |
| UiManager.WithButtonsTwice | libs/aiogram-broadcast/aiogram_broadcast/ui/manager.py:323-338 | setting the buttons twice keeps only the second, and skipping clears them |
| UiManager.FirstHung | libs/aiogram-broadcast/aiogram_broadcast/ui/manager.py:442-447 | the first copy that never settles is the first position whose every attempt is told to wait |
| UiManager.CountsSplit | libs/aiogram-broadcast/aiogram_broadcast/ui/manager.py:442-447 | every settled copy counts as either successful or failed |
| UiManager.RunCounts | libs/aiogram-broadcast/aiogram_broadcast/ui/manager.py:421-457 | a finished run attempted every recipient once, and its successful and failed counts are the copies that went through and those that gave False, adding up to len(subscriber_ids) |
| UiManager.MenuDataSpec | libs/aiogram-broadcast/aiogram_broadcast/ui/manager.py:140-142 | after open_menu's writes the list is on page 1, counts the ids it was given and reads back the return callback; nothing else in the data changes |
| UiManager.BroadcastUiManager.constructor | libs/aiogram-broadcast/aiogram_broadcast/ui/manager.py:71-106 | the user's language code, or "en" when missing or empty, picks the texts and keyboards unless they are given |
| UiManager.BroadcastUiManager.UpdateLanguage | libs/aiogram-broadcast/aiogram_broadcast/ui/manager.py:108-117 | new texts and keyboards for the code, and the code kept in the FSM data |
| UiManager.BroadcastUiManager.DeletePreviousMessage | libs/aiogram-broadcast/aiogram_broadcast/ui/manager.py:483-507 | the previous window is deleted exactly when ui_message_id is set and truthy |
| UiManager.BroadcastUiManager.SendScreen | libs/aiogram-broadcast/aiogram_broadcast/ui/manager.py:459-481 | the window is sent, the previous one deleted and the new id remembered; the FSM state is untouched |
| UiManager.BroadcastUiManager.OpenBroadcastsList | libs/aiogram-broadcast/aiogram_broadcast/ui/manager.py:160-191 | it raises, with nothing sent, exactly when ListScreen fails; otherwise it sends the list window and moves to broadcasts_list |
| UiManager.BroadcastUiManager.OpenBroadcastView | libs/aiogram-broadcast/aiogram_broadcast/ui/manager.py:193-211 | the job's message is previewed when JobPreview finds one; then the view window with Back and Delete, in broadcast_view |
| UiManager.BroadcastUiManager.OpenBroadcastDelete | libs/aiogram-broadcast/aiogram_broadcast/ui/manager.py:213-220 | the delete confirmation window with Back and Confirm, in broadcast_delete |
| UiManager.BroadcastUiManager.OpenSendMessage | libs/aiogram-broadcast/aiogram_broadcast/ui/manager.py:222-229 | the message prompt with Back, in send_message |
| UiManager.BroadcastUiManager.OpenSendButtons | libs/aiogram-broadcast/aiogram_broadcast/ui/manager.py:231-246 | a non-empty error text replaces the prompt; Back and Skip, in send_buttons |
| UiManager.BroadcastUiManager.OpenMessagePreview | libs/aiogram-broadcast/aiogram_broadcast/ui/manager.py:248-260 | a copy of the stored message when there is one, then the preview window with Back and Next, in message_preview |
| UiManager.BroadcastUiManager.OpenChooseOptions | libs/aiogram-broadcast/aiogram_broadcast/ui/manager.py:262-269 | the options window with Now, Later and Back, in choose_options |
| UiManager.BroadcastUiManager.OpenConfirmationNow | libs/aiogram-broadcast/aiogram_broadcast/ui/manager.py:271-278 | the confirmation window with Back and Confirm, in confirmation_now |
| UiManager.BroadcastUiManager.OpenSendDatetime | libs/aiogram-broadcast/aiogram_broadcast/ui/manager.py:280-298 | the prompt shows the current time formatted "%Y-%m-%d %H:%M"; a non-empty error text replaces it; Back, in send_datetime |
| UiManager.BroadcastUiManager.OpenConfirmationLater | libs/aiogram-broadcast/aiogram_broadcast/ui/manager.py:300-307 | the confirmation window with Back and Confirm, in confirmation_later |
| UiManager.BroadcastUiManager.OpenMenu | libs/aiogram-broadcast/aiogram_broadcast/ui/manager.py:123-143 | the return callback, when given, and the ids are stored, the list goes back to page 1 and is shown, and with a list of ids the list window cannot fail |
| UiManager.BroadcastUiManager.ReturnToCaller | libs/aiogram-broadcast/aiogram_broadcast/ui/manager.py:145-154 | the stored callback is awaited exactly when truthy, then the FSM state is cleared and the data kept |
| UiManager.BroadcastUiManager.StoreMessage | libs/aiogram-broadcast/aiogram_broadcast/ui/manager.py:313-321 | the message's dump is stored under message_data and reads back as itself |
| UiManager.BroadcastUiManager.StoreDatetime | libs/aiogram-broadcast/aiogram_broadcast/ui/manager.py:340-347 | the datetime is stored under scheduled_datetime and reads back as itself |
| UiManager.BroadcastUiManager.UpdateMessageButtons | libs/aiogram-broadcast/aiogram_broadcast/ui/manager.py:323-338 | only stored message data changes, and only its reply_markup entry; message data that is not a dict raises TypeError |
| UiManager.BroadcastUiManager.ExecuteBroadcastNow | libs/aiogram-broadcast/aiogram_broadcast/ui/manager.py:349-361 | a broadcast is launched exactly when there are subscriber ids and a stored message, with those two |
| UiManager.BroadcastUiManager.ScheduleBroadcast | libs/aiogram-broadcast/aiogram_broadcast/ui/manager.py:363-396 | nothing is scheduled without a configured scheduler, ids, a message and a time; otherwise a date job running _run_broadcast with the stored ids and message is added under a new id, or add_job's own errors propagate |
| UiManager.BroadcastUiManager.DeleteScheduledBroadcastAsWritten | libs/aiogram-broadcast/aiogram_broadcast/ui/manager.py:398-415 | True exactly when the scheduler is configured and had the job, which is then gone; the BroadcastScheduler's pending table is left as it was |
| UiManager.BroadcastUiManager.DeleteScheduledBroadcast | libs/aiogram-broadcast/aiogram_broadcast/ui/manager.py:398-415 | as written for the job, and the pending task of a successfully deleted id goes too |
| UiManager.BroadcastUiManager.RunBroadcast | libs/aiogram-broadcast/aiogram_broadcast/ui/manager.py:421-457 | the start notice, one copy per id in order, then the completion notice with total, successful and failed |
| UiManager.BroadcastUiManager.CopyToAll | libs/aiogram-broadcast/aiogram_broadcast/ui/manager.py:442-447 | each id in order gets its copy until one never settles; the counts are the copies that went through and those that gave False |
| UiManager.BroadcastUiManager.DeleteUserMessage | libs/aiogram-broadcast/aiogram_broadcast/ui/manager.py:509-517 | the delete is attempted once; only a bad request is swallowed |
| UiManager.FirstHungAt | libs/aiogram-broadcast/aiogram_broadcast/ui/manager.py:442-447 | the first copy that never settles is the first one the loop meets |
| UiManager.ScheduledListed | libs/aiogram-broadcast/aiogram_broadcast/ui/manager.py:363-396 | a broadcast scheduled from the menu shows up in the list under its time |
| UiManager.ScheduledPreviewed | libs/aiogram-broadcast/aiogram_broadcast/ui/manager.py:363-396 | opening a broadcast scheduled from the menu previews the message it will send |
| UiManager.DeleteLeavesPendingTask | libs/aiogram-broadcast/aiogram_broadcast/ui/manager.py:398-415 | a task the BroadcastScheduler scheduled and the menu then deleted has no job left, yet get_task still reports it |
| UiManager.SortByTime | libs/aiogram-broadcast/aiogram_broadcast/ui/manager.py:170-177 | sorting by time keeps exactly the entries it was given, each as often |
| UiManager.BroadcastUiManager.Open | libs/aiogram-broadcast/aiogram_broadcast/ui/manager.py:222-228 | opening a window sends it and moves the FSM to that window's state with one state write |
| UiHandlers.SplitHasTwo | libs/aiogram-broadcast/aiogram_broadcast/ui/handlers.py:49 | split(":") of callback data that holds a colon has a second field, so the [1] index is defined |
| UiHandlers.PrefixColon | libs/aiogram-broadcast/aiogram_broadcast/ui/handlers.py:48 | data that starts with "page:" or "job:" holds a colon |
| UiHandlers.FieldAfterPrefix | libs/aiogram-broadcast/aiogram_broadcast/ui/handlers.py:53 | for "job:<id>" with a colon-free id, split(":")[1] is exactly the id |
| UiHandlers.ColonFree | libs/aiogram-broadcast/aiogram_broadcast/ui/handlers.py:49 | the decimal text of a page number holds no colon, so the page field survives split(":") whole |
| UiHandlers.IndexOfAbsent | libs/aiogram-broadcast/aiogram_broadcast/ui/handlers.py:49 | the first-occurrence search used by split finds no position before the end when the separator is absent |
| UiHandlers.BackUndoes | libs/aiogram-broadcast/aiogram_broadcast/ui/handlers.py:37-342 | in every state, after any button or message that moves the menu on to a window other than the list, "back" in the new window returns to the state it came from |
| UiHandlers.BackToParent | libs/aiogram-broadcast/aiogram_broadcast/ui/handlers.py:43-327 | "back" in the list leaves the menu, and in every other state opens that state's parent window |
| UiHandlers.ForwardPress | libs/aiogram-broadcast/aiogram_broadcast/ui/handlers.py:37-334 | every non-"back" button that opens a window other than the list opens a child of the current state |
| UiHandlers.ForwardPost | libs/aiogram-broadcast/aiogram_broadcast/ui/handlers.py:137-314 | every message that moves the menu on lands in a child of the current state |
| UiHandlers.BackStaysInMenu | libs/aiogram-broadcast/aiogram_broadcast/ui/handlers.py:43-327 | "back" stays inside the menu in every state except the list, where it alone leaves |
| UiHandlers.ScheduleWalk | libs/aiogram-broadcast/aiogram_broadcast/ui/handlers.py:46-332 | "add", any message, "skip", "next", "later", a parseable time and "confirm" lead from the list through the scheduling windows back to the list |
| UiHandlers.WalkCons | libs/aiogram-broadcast/aiogram_broadcast/ui/handlers.py:37-342 | a walk of updates is its first step followed by the walk of the rest |
| UiHandlers.ComposeSteps | libs/aiogram-broadcast/aiogram_broadcast/ui/handlers.py:46-204 | "add", a message, "skip" and "next" lead from the list to the send-time choice |
| UiHandlers.LaterSteps | libs/aiogram-broadcast/aiogram_broadcast/ui/handlers.py:230-332 | "later" opens the time prompt and "confirm" in the scheduled confirmation returns to the list |
| UiHandlers.WindowButtonsHandled | libs/aiogram-broadcast/aiogram_broadcast/ui/handlers.py:37-334 | every button of every window carries callback data that the handler of the window's own state acts on |
| UiHandlers.PageButtonHandled | libs/aiogram-broadcast/aiogram_broadcast/ui/handlers.py:48-51 | a navigation button "page:n" makes the list handler go to page n |
| UiHandlers.JobButtonHandled | libs/aiogram-broadcast/aiogram_broadcast/ui/handlers.py:52-55 | a list entry "job:<id>" with a colon-free id makes the list handler open that job's view |
| UiHandlers.ShowWindow | libs/aiogram-broadcast/aiogram_broadcast/ui/handlers.py:43-332 | opening a window by a button sets the state to that window and sends one more window; only the list can raise, leaving state and windows as they were |
| UiHandlers.PressLeave | libs/aiogram-broadcast/aiogram_broadcast/ui/handlers.py:43-45 | "back" in the list runs the caller's callback when one is stored, clears the state and deletes the menu window |
| UiHandlers.PressViewJob | libs/aiogram-broadcast/aiogram_broadcast/ui/handlers.py:52-55 | "job:<id>" stores the id under job_id and opens the broadcast view |
| UiHandlers.PressPage | libs/aiogram-broadcast/aiogram_broadcast/ui/handlers.py:48-51 | "page:<n>" stores the page and shows the list again, answering exactly when the list can be rendered |
| UiHandlers.PressConfirmDelete | libs/aiogram-broadcast/aiogram_broadcast/ui/handlers.py:104-109 | "confirm" in the delete window removes the stored job when there is one, and then shows the list; the scheduler's pending table loses exactly that job's entry when the job existed, and is otherwise unchanged |
| UiHandlers.PressStartNow | libs/aiogram-broadcast/aiogram_broadcast/ui/handlers.py:255-259 | "confirm" for an immediate broadcast launches it exactly when subscriber ids and a message are stored, and then shows the list |
| UiHandlers.PressSchedule | libs/aiogram-broadcast/aiogram_broadcast/ui/handlers.py:328-332 | "confirm" for a scheduled broadcast either leaves the jobs as they were or adds one job at the stored time, and then shows the list |
| UiHandlers.PressSkip | libs/aiogram-broadcast/aiogram_broadcast/ui/handlers.py:161-164 | "skip" removes the stored message's buttons and opens the preview, and raises exactly when the stored message is set but is not a dict |
| UiHandlers.RunPress | libs/aiogram-broadcast/aiogram_broadcast/ui/handlers.py:37-334 | each callback branch, run against the manager, ends in the state the transition table names; a branch that cannot raise always answers, and an ignored press changes nothing |
| UiHandlers.HandleCallback | libs/aiogram-broadcast/aiogram_broadcast/ui/handlers.py:37-334 | the callback handler for a state takes the branch its data selects, lands in the state the table names, and answers the query unless that branch raised |
| UiHandlers.PostMessage | libs/aiogram-broadcast/aiogram_broadcast/ui/handlers.py:137-145 | a message in send_message is stored as message_data and the buttons prompt opens |
| UiHandlers.PostButtons | libs/aiogram-broadcast/aiogram_broadcast/ui/handlers.py:174-179 | parsed buttons go into the stored message and the preview opens, raising exactly when the stored message is set but is not a dict |
| UiHandlers.PostTime | libs/aiogram-broadcast/aiogram_broadcast/ui/handlers.py:292-296 | a time that parses is stored as scheduled_datetime and the scheduled confirmation opens |
| UiHandlers.RunPost | libs/aiogram-broadcast/aiogram_broadcast/ui/handlers.py:137-314 | each message branch, run against the manager, ends in the state the table names; a discarded message changes nothing |
| UiHandlers.HandleMessage | libs/aiogram-broadcast/aiogram_broadcast/ui/handlers.py:60-342 | the message handler for a state takes the branch the message selects and deletes the user's message afterwards, unless that branch raised |
| UiHandlers.Router.constructor | libs/aiogram-broadcast/aiogram_broadcast/ui/handlers.py:468 | a new router has no handlers and no chat-type filter |
| UiHandlers.RegisterOnRouter | libs/aiogram-broadcast/aiogram_broadcast/ui/handlers.py:348-457 | register_on_router sets the private-chat filters and appends one callback and one message handler per menu state, in declaration order |
| UiHandlers.FirstFor | libs/aiogram-broadcast/aiogram_broadcast/ui/handlers.py:360-457 | the handler chosen for a state is the first one registered for it, or none when there is none |
| UiHandlers.MenuStatesOnce | libs/aiogram-broadcast/aiogram_broadcast/ui/handlers.py:360-457 | each menu state is registered exactly once, at its own position |
| UiHandlers.FirstForAt | libs/aiogram-broadcast/aiogram_broadcast/ui/handlers.py:360-457 | in a registration list without earlier duplicates, the first handler for the k-th state is the k-th |
| UiHandlers.RoutedToOwnHandler | libs/aiogram-broadcast/aiogram_broadcast/ui/handlers.py:355-457 | on the menu's router, an update reaches a handler exactly when it comes from a private chat of a user in a menu state, and that handler is the one registered for the user's state |
| Config.DigitPieces | src/config.py:57 | the comprehension keeps at most one id per comma-separated piece |
| Config.AdminIdsList | src/config.py:52-57 | an empty setting gives no admin ids, and otherwise there are at most as many ids as comma-separated pieces |
| Config.JunkDropped | src/config.py:57 | a piece that is not all digits once stripped (a negative id, a name, an empty piece) contributes no id and leaves the others in place |
| Config.DecimalTexts | src/config.py:57 | each id's decimal text, one per id, in order |
| Config.DigitPiecesOfTexts | src/config.py:57 | decimal texts of non-negative ids pass the isdigit filter and int() reads each back as its id |
| Config.AdminIdsRoundTrip | src/config.py:52-57 | writing non-negative ids comma-separated and parsing the setting gives back the same ids in the same order |
| Config.RedisUrl | src/config.py:46-50 | the Redis URL starts with "redis://" and ends with host:port/db |
| Config.RedisUrlCredentials | src/config.py:48-49 | the URL carries ":{password}@" right after the scheme exactly when a non-empty password is set |
| Config.DatabaseUrl | src/config.py:42-44 | the database URL starts with "postgresql://" |
| Config.DatabaseUrlRoundTrip | src/config.py:42-44 | the database URL gives back the user, password, host and "{port}/{name}" it was built from, when the user and host hold no ':' and the password no '@' |
| I18n.LoadedLanguages | src/i18n/loader.py:8-15 | after loading, a language has a table exactly when it had one before or some locale file has it as its stem |
| I18n.Translate | src/i18n/loader.py:23-32 | without keyword arguments the lookup always yields a text |
| I18n.UnknownLanguageUsesEnglish | src/i18n/loader.py:23-24 | a language without a locale reads the English table |
| I18n.MissingKeyGivesKey | src/i18n/loader.py:24-28 | a key missing from the locale comes back as the key itself |
| I18n.KeyErrorKeepsText | src/i18n/loader.py:26-30 | a template naming a field the keyword arguments lack comes back unformatted |
| I18n.Catalog.constructor | src/i18n/loader.py:5 | the catalogue starts empty over the given locale files |
| I18n.Catalog.LoadLocales | src/i18n/loader.py:8-15 | every file's table goes in under its stem, in directory order, so a later file with the same stem wins |
| I18n.Catalog.GetText | src/i18n/loader.py:18-32 | the tables are loaded first only when empty, and the result is the lookup in the loaded tables |
| Common.Format | src/i18n/loader.py:28 | a template without braces formats to itself |
| Common.FormatField | src/i18n/loader.py:28 | a plain named field with a keyword argument is replaced by that argument, and brace-free text around it is kept |
| Common.Split | libs/aiogram-broadcast/aiogram_broadcast/ui/keyboards.py:168 | str.split with one separator character; JoinSplit and SplitJoin prove that joining the pieces gives back the text and that splitting separator-free pieces joined by the separator gives back the pieces |
| Common.JoinSplit | libs/aiogram-broadcast/aiogram_broadcast/ui/keyboards.py:168 | joining the pieces of a split with the separator gives back the text |
| Common.SplitJoin | src/config.py:57 | splitting separator-free pieces joined by the separator gives back the pieces |
| Common.Strip | libs/aiogram-broadcast/aiogram_broadcast/ui/keyboards.py:168 | str.strip(); StripSpec proves the result is no longer than the text, empty exactly for an all-whitespace text, and otherwise neither starts nor ends with whitespace |
| Common.StripSpec | libs/aiogram-broadcast/aiogram_broadcast/ui/keyboards.py:180-181 | strip() never lengthens, is empty exactly for blank text, and leaves no whitespace at either end |
| Common.SplitOnce | src/bot/handlers/group.py:55 | split(maxsplit=1): at most two pieces, none for blank text, a first word with no whitespace, and a remainder that starts without whitespace; SplitOnceWords proves a word, blanks and a rest split into the word and the rest |
| Common.SplitOnceWords | src/bot/handlers/group.py:73 | a word, some whitespace and a rest that starts without whitespace split into the word and the rest |
| Common.ParseInt | libs/aiogram-broadcast/aiogram_broadcast/ui/handlers.py:49 | int() over ASCII text; IntToStringParses proves every integer's decimal text reads back as that integer |
| Common.IntToStringParses | libs/aiogram-broadcast/aiogram_broadcast/ui/handlers.py:49 | int(str(i)) == i for every integer |
| Common.FormatMissingKey | src/i18n/loader.py:27-30 | a field with no keyword argument is the KeyError that get_text catches |
| Db.SortedNamesSpec | src/db/database.py:61 | sorted() lists every migration file name once, in ascending order |
| Db.PendingMembers | src/db/database.py:61-62 | the files a run applies are exactly the directory's files not yet recorded in schema_migrations |
| Db.SecondRunIdle | src/db/database.py:57-68 | a run that records each file it applies leaves nothing for the next run to apply |
| Db.Database.constructor | src/db/database.py:14-15 | a new database handle has empty tables and no schema_migrations table |
| Db.Database.EnsureDatabase | src/db/database.py:17-34 | CREATE DATABASE is issued only when the server does not hold the name, and afterwards it does |
| Db.Database.RunMigrations | src/db/database.py:48-69 | schema_migrations exists afterwards; every pending file is executed once, in sorted name order, and recorded right after it runs |
| UserRepository.Get | src/db/repositories/user.py:6-11 | the user row under the id, and None exactly when there is none |
| UserRepository.Upserted | src/db/repositories/user.py:15-19 | upsert adds or updates exactly the given id and leaves every other user alone |
| UserRepository.UpsertedRow | src/db/repositories/user.py:13-25 | an existing user keeps its key and language and its username unless a new one is given; a new user gets the given username and language and no key |
| UserRepository.UpsertIdempotent | src/db/repositories/user.py:13-25 | repeating an upsert with the same arguments changes nothing more |
| UserRepository.Upsert | src/db/repositories/user.py:13-25 | the table becomes the upserted table and the returned user is the row now stored under the id |
| UserRepository.GetByUsername | src/db/repositories/user.py:27-35 | the user returned is stored and its username equals the given one ignoring case, and None comes back exactly when no user's does |
| UserRepository.MatchIgnoresCase | src/db/repositories/user.py:30 | a stored username is found under any case spelling of it |
| UserRepository.WithKey | src/db/repositories/user.py:37-46 | UPDATE sets an existing user's key and touches nothing else, creating no row |
| UserRepository.WithLanguage | src/db/repositories/user.py:48-57 | UPDATE sets an existing user's language and touches nothing else, creating no row |
| UserRepository.SetPushoverKey | src/db/repositories/user.py:37-46 | the users table becomes the table with that key set |
| UserRepository.SetLanguage | src/db/repositories/user.py:48-57 | the users table becomes the table with that language set |
| UserRepository.GetLanguage | src/db/repositories/user.py:59-62 | the language is never empty: the stored one when non-empty, "ru" otherwise |
| UserRepository.LanguageRoundTrip | src/db/repositories/user.py:48-62 | a non-empty language set on an existing user is what get_language reads back, and other users read as before |
| UserRepository.NewUserLanguage | src/db/repositories/user.py:13-62 | a user created by upsert reads back its given language, or "ru" when that was empty |
| GroupRepository.Get | src/db/repositories/group.py:6-11 | the group row under the id, and None exactly when there is none |
| GroupRepository.Upserted | src/db/repositories/group.py:13-27 | upsert adds or updates exactly the given id, leaves every other group alone and marks the group active |
| GroupRepository.UpsertedRow | src/db/repositories/group.py:17-21 | a NULL title never erases a stored one, and the admin-only flag and language survive the update |
| GroupRepository.Upsert | src/db/repositories/group.py:13-27 | the table becomes the upserted table and the returned group is the row now stored |
| GroupRepository.IsOnlyAdmin | src/db/repositories/group.py:42-45 | the flag reads False for a group that does not exist |
| GroupRepository.Toggled | src/db/repositories/group.py:33-36 | the UPDATE touches only the given group and creates no row |
| GroupRepository.ToggleOnlyAdmin | src/db/repositories/group.py:29-40 | the returned value is the flag is_only_admin reads afterwards, the negation of the old flag for an existing group |
| GroupRepository.ToggleTwice | src/db/repositories/group.py:29-40 | toggling twice restores the table |
| GroupRepository.ToggleFlips | src/db/repositories/group.py:29-45 | toggling flips what is_only_admin reads for an existing group and leaves it False for a missing one |
| GroupRepository.WithLanguage | src/db/repositories/group.py:50-53 | set_language adds or updates exactly the given group |
| GroupRepository.SetLanguage | src/db/repositories/group.py:47-57 | the groups table becomes the table with that language set |
| GroupRepository.GetLanguage | src/db/repositories/group.py:59-63 | the language is never empty, and a missing group reads "en" |
| GroupRepository.LanguageRoundTrip | src/db/repositories/group.py:47-63 | a non-empty language set on any group, existing or not, is what get_language reads back, and other groups read as before |
| GroupRepository.WithBotActive | src/db/repositories/group.py:68-72 | an existing group's bot_active flag is set, nothing else changes and no row is created |
| GroupRepository.SetBotActive | src/db/repositories/group.py:65-75 | the groups table becomes the table with that flag set |
| SubscriptionRepository.Row | src/db/repositories/subscription.py:30-39 | the row for (user, group) is a stored row with that key, and None means no row has it |
| SubscriptionRepository.Enabled | src/db/repositories/subscription.py:9-12 | enable either updates in place or appends one enabled row for the pair |
| SubscriptionRepository.Disabled | src/db/repositories/subscription.py:21-23 | disable inserts no row |
| SubscriptionRepository.EnableThenEnabled | src/db/repositories/subscription.py:7-39 | after enable(u, g), is_enabled(u, g) holds, and every other pair reads as before |
| SubscriptionRepository.DisableThenDisabled | src/db/repositories/subscription.py:18-39 | after disable(u, g), is_enabled(u, g) is False, and every other pair reads as before |
| SubscriptionRepository.DisableAbsent | src/db/repositories/subscription.py:18-27 | disabling a pair without a row leaves the table as it is |
| SubscriptionRepository.EnableIdempotent | src/db/repositories/subscription.py:7-16 | enabling twice is enabling once |
| SubscriptionRepository.UpdatesKeepKeys | src/db/repositories/subscription.py:12 | enable and disable keep (user_id, group_id) unique |
| SubscriptionRepository.SamePairs | src/db/repositories/subscription.py:12 | enable keeps every row's key, and appends only for a pair that had no row |
| SubscriptionRepository.Enable | src/db/repositories/subscription.py:7-16 | the subscriptions table becomes the table with the pair enabled |
| SubscriptionRepository.Disable | src/db/repositories/subscription.py:18-27 | the subscriptions table becomes the table with the pair disabled |
| SubscriptionRepository.EnabledUsersWithKeys | src/db/repositories/subscription.py:66-78 | each listed pair is a stored user with exactly that Pushover key |
| SubscriptionRepository.EnabledUsersListed | src/db/repositories/subscription.py:71-74 | a user is listed exactly when it has an enabled subscription to the group and a key |
| SubscriptionRepository.EnabledUsersInGroup | src/db/repositories/subscription.py:41-53 | the ids of get_enabled_users_with_keys, with the same filter and in the same order |
| SubscriptionRepository.UserWithKey | src/db/repositories/subscription.py:55-64 | (id, key) exactly when the user exists and has a key |
| SubscriptionRepository.UserGroups | src/db/repositories/subscription.py:80-95 | each listed triple is a stored group with its own title and bot_active flag |
| SubscriptionRepository.ActiveSubscriptionCount | src/db/repositories/subscription.py:97-107 | the count never exceeds the number of rows |
| SubscriptionRepository.ActiveCountPositive | src/db/repositories/subscription.py:97-107 | the count is positive exactly when the user has some enabled row |
| SubscriptionRepository.EnableCounts | src/db/repositories/subscription.py:7-107 | enabling a group the user had not enabled adds one to the user's count |
| SubscriptionRepository.EnabledUserByUsername | src/db/repositories/subscription.py:109-129 | a found user is a stored user with that key and a username equal to the given one ignoring case |
| SubscriptionRepository.UsernameNotFound | src/db/repositories/subscription.py:114-129 | None comes back exactly when no enabled subscriber of the group with a key has that username |
| NotificationLogRepository.Log | src/db/repositories/notification_log.py:5-26 | one notification_logs row with the given fields is appended |
| NotificationLogRepository.RecordGmCall | src/db/repositories/notification_log.py:41-47 | one gm_history row for the group and user is appended |
| NotificationLogRepository.GmCallsInWindow | src/db/repositories/notification_log.py:31-38 | the count never exceeds the number of rows |
| NotificationLogRepository.CheckGmRateLimit | src/db/repositories/notification_log.py:28-39 | a non-positive max_calls always refuses, and an empty history allows exactly when max_calls is positive |
| NotificationLogRepository.RecordCounts | src/db/repositories/notification_log.py:33-44 | a recorded call counts once in its own group's window while it is inside it, and nowhere else |
| NotificationLogRepository.FullWindowBlocks | src/db/repositories/notification_log.py:28-39 | max_calls calls of the group recorded inside the window make the next check refuse |
| NotificationLogRepository.CallsCounted | src/db/repositories/notification_log.py:33-34 | calls of the group inside the window each add one to the count |
| NotificationLogRepository.OldCallsIgnored | src/db/repositories/notification_log.py:34 | calls at or before now minus the window do not count |
| NotificationLogRepository.TestAlarmsInWindow | src/db/repositories/notification_log.py:54-63 | the count never exceeds the number of rows |
| NotificationLogRepository.CheckTestAlarmRateLimit | src/db/repositories/notification_log.py:49-64 | a non-positive max_calls always refuses |
| NotificationLogRepository.LogCounts | src/db/repositories/notification_log.py:56-59 | a logged row counts for the test-alarm check only when it is the user's own test alarm inside the window |
| Notification.Outcome | src/services/pushover.py:15-56 | a send reports an error message exactly when it was not delivered |
| Notification.PushoverClient.constructor | src/services/pushover.py:12-13 | a new client has sent nothing |
| Notification.PushoverClient.SendEmergency | src/services/pushover.py:15-56 | one POST with the key, message and title is made, and its outcome is returned |
| Notification.GmText | src/services/notification.py:25-26 | the custom message when given, otherwise "Wake up! {sender_name} is calling!" |
| Notification.FanOutRows | src/services/notification.py:33-43 | the k-th send goes to the k-th recipient's key, and the k-th log row records that send's outcome for that recipient as "gm" in the group |
| Notification.FanOutStep | src/services/notification.py:33-48 | one more recipient adds one send, one log row and one delivery when its send succeeded |
| Notification.DeliveredCount | src/services/notification.py:45-48 | at most every send is delivered |
| Notification.DeliveredLogged | src/services/notification.py:36-48 | the success count equals the number of successful rows the fan-out logs |
| Notification.SendAndLog | src/services/notification.py:34-43 | one recipient: the alarm is sent to its key, then one "gm" row with that send's outcome is logged |
| Notification.FanOut | src/services/notification.py:33-48 | one send and one log row per recipient in query order; success counts the deliveries and success + fail is the number of recipients |
| Notification.SendGmToAll | src/services/notification.py:14-60 | one send and one log row per enabled subscriber with a key, then exactly one gm call recorded, even when nobody was reachable |
| Notification.SendGmToUser | src/services/notification.py:62-100 | a user without a key, or one who has not enabled the group, gets nothing and nothing is logged or recorded; otherwise one send, one "gm_single" row and one gm call, returning the send's outcome |
| Notification.SendTestAlarm | src/services/notification.py:102-131 | no key means no send and the "No Pushover key configured" error; otherwise one send titled "TEST ALARM" and one "test_alarm" row without a group, and no gm call |
| Notification.TestAlarmCountsOnce | src/services/notification.py:122-129 | a test alarm counts once against the sender's own test-alarm window |
| GroupHandlers.Classify | src/bot/handlers/group.py:55-93 | the classification cmd_gm dispatches on never raises; "@" with nothing after it addresses nobody |
| GroupHandlers.ClassifyAsWritten | src/bot/handlers/group.py:55-93 | cmd_gm's classification as written; GmAtAloneRaises shows it raises IndexError on "/gm @", and ClassifyAgrees that it agrees with Classify everywhere else |
| GroupHandlers.GmAtAloneRaises | src/bot/handlers/group.py:64-66 | as written, "/gm @" takes parts[0] of an empty split and raises IndexError |
| GroupHandlers.ClassifyAgrees | src/bot/handlers/group.py:55-93 | the corrected classification equals the written one on every text the written one accepts, and differs exactly on the texts where it raises |
| GroupHandlers.BareGmAddressesEveryone | src/bot/handlers/group.py:55-59 | "/gm" with no argument, or only blanks after it, addresses everyone with the default text |
| GroupHandlers.ArgumentDecides | src/bot/handlers/group.py:55-61 | after a command and one space, a stripped non-blank argument alone decides the target |
| GroupHandlers.AtUsernameWithText | src/bot/handlers/group.py:64-67 | "/gm @name text" addresses that username with that text |
| GroupHandlers.AtNameText | src/bot/handlers/group.py:65-67 | after the '@', the first word is the username and the rest the custom text |
| GroupHandlers.IdWithText | src/bot/handlers/group.py:73-82 | "/gm 123 text" addresses user 123 with that text |
| GroupHandlers.IdText | src/bot/handlers/group.py:73-82 | an argument made of an id's decimal text, a space and some text addresses that id with that text |
| GroupHandlers.DigitsText | src/bot/handlers/group.py:73-82 | an all-digit first word is read as a user id, and the rest of the argument is the custom text |
| GroupHandlers.Chat.constructor | src/bot/handlers/group.py:43 | a chat starts with no replies |
| GroupHandlers.Chat.Reply | src/bot/handlers/group.py:47 | a reply is appended to the chat's replies |
| GroupHandlers.SendToAll | src/bot/handlers/group.py:96-124 | with nobody reachable, gm_no_users and nothing sent or recorded; otherwise gm_sending, one send per reachable subscriber, one gm call recorded, then gm_sent when every send was delivered or the statistics |
| GroupHandlers.SendToUser | src/bot/handlers/group.py:127-151 | gm_sending, then exactly one send to the target's key when it has a key and has enabled the group (and nothing sent or stored otherwise), then gm_user_sent or gm_user_failed |
| GroupHandlers.SingleSend | src/bot/handlers/group.py:127-151 | a single-user /gm sends at most one push: to the target's key with the GM text, exactly when the target has a key and has enabled the group |
| GroupHandlers.ResolveAndSendToUser | src/bot/handlers/group.py:154-173 | an unknown username replies gm_user_not_found and sends and stores nothing; a known one goes on as a send to that user |
| GroupHandlers.CmdGm | src/bot/handlers/group.py:42-93 | in an admin-only group a non-admin gets gm_admin_only and nothing is sent. Otherwise a bare /gm, or an unknown first word, fans out to every reachable subscriber, the unknown word's whole argument being the text. "@name", a numeric id, or a first word naming a reachable subscriber sends exactly the one push SingleSend gives to that user, and an unknown "@name" gets gm_user_not_found and sends nothing |
| GroupHandlers.CmdOnlyAdmin | src/bot/handlers/group.py:176-187 | a non-admin gets only_admin_permission and the table is unchanged; an admin toggles the flag and hears its new value |
| PrivateHandlers.StrippedKeyPattern | src/bot/handlers/private.py:47-50 | on stripped text the key pattern accepts exactly thirty ASCII letters and digits; the final-newline case of `$` cannot arise after strip() |
| PrivateHandlers.SavedKeyCounts | src/bot/handlers/private.py:61 | a saved well-formed key is stored as the user's key, so the user counts as having one |
| PrivateHandlers.WellFormedKeyAccepted | src/bot/handlers/private.py:47-50 | a well-formed key sent without surrounding blanks passes the format check unchanged |
| PrivateHandlers.KeySavedAnswer | src/bot/handlers/private.py:64-69 | the reply is key_updated_existing with the count exactly when the user has active subscriptions, and key_saved otherwise |
| PrivateHandlers.KeyValidator.constructor | src/services/pushover.py:58-71 | a validator has not been asked anything yet |
| PrivateHandlers.KeyValidator.Validate | src/services/pushover.py:58-71 | each validation asks the Pushover API about exactly that key once and returns its verdict |
| PrivateHandlers.PrivateChat.constructor | src/bot/handlers/private.py:23-24 | a private chat starts outside the key dialogue, with no answers and no command menu installed |
| PrivateHandlers.PrivateChat.Answer | src/bot/handlers/private.py:36 | an answer is appended to the chat's answers |
| PrivateHandlers.CmdKey | src/bot/handlers/private.py:27-36 | /key enters the key dialogue and prompts for the key |
| PrivateHandlers.CancelKey | src/bot/handlers/private.py:39-42 | cancelling leaves the key dialogue and answers key_cancelled |
| PrivateHandlers.ProcessKey | src/bot/handlers/private.py:45-69 | a badly formed key answers key_invalid without asking the API; a key the API rejects answers key_validation_failed; only a key that passes both is stored, and only then does the dialogue end, with the answer depending on the active-subscription count |
| PrivateHandlers.ShownTitle | src/bot/handlers/private.py:90 | the shown title is never empty: a non-empty title is kept, and a NULL or empty one becomes "ID: " followed by the id |
| PrivateHandlers.NormalizedGroups | src/bot/handlers/private.py:89-92 | normalisation keeps every group's id, flag and position and gives each a non-empty title |
| PrivateHandlers.CmdList | src/bot/handlers/private.py:80-97 | list_empty when the user has no enabled group; otherwise list_header with one button per normalised group, in order |
| PrivateHandlers.MenuFor | src/bot/handlers/private.py:116-118 | the language's menu, or the English one for an unknown language, followed by the administrator commands exactly for an administrator |
| PrivateHandlers.AdminMenuOnlyForAdmins | src/bot/handlers/private.py:116-118 | the broadcast command is in a user's menu exactly when the user is an administrator, and the menu starts with the same six commands in every language |
| PrivateHandlers.ProcessLanguage | src/bot/handlers/private.py:105-129 | the language after "lang:" is stored, that language's menu is installed in the user's chat and the answer is given in the new language |
| PrivateHandlers.PickerChoiceStored | src/bot/handlers/private.py:105-109 | choosing a language from the picker stores the button's language, which get_language reads back, and that language has a menu |
| BotCommands.Names | src/bot/commands.py:7-32 | the names of a menu's commands, one per command, in order |
| BotCommands.SameCommandsInEveryLanguage | src/bot/commands.py:7-32 | every language offers the same commands in the same order |
| BotCommands.AdminCommandsNotInMenu | src/bot/commands.py:66-69 | no administrator command already appears in a private menu |
| InlineKeyboards.LanguageKeyboard | src/bot/keyboards/inline.py:4-13 | one row of three buttons whose callback data is "lang:" followed by ru, uk and en |
| InlineKeyboards.LanguageButtonsSelect | src/bot/keyboards/inline.py:4-13 | every picker button carries "lang:" and selects exactly the language it shows |
| InlineKeyboards.CancelKeyboard | src/bot/keyboards/inline.py:16-21 | a single button with the given text and the callback data "cancel" |
| InlineKeyboards.GroupButton | src/bot/keyboards/inline.py:35-41 | the button shows the title followed by the status mark and carries callback data, not a URL |
| InlineKeyboards.GroupCallbackNamesGroup | src/bot/keyboards/inline.py:40 | a group button's callback data is "group:" followed by an id that parses back to the group's id |
| InlineKeyboards.GroupButtonShowsStatus | src/bot/keyboards/inline.py:35-36 | the button ends with the check mark exactly when the bot is active in the group |
| InlineKeyboards.GroupsKeyboard | src/bot/keyboards/inline.py:24-43 | one row per group, in the given order, each holding that group's button |
| Throttling.Decide | src/bot/middlewares/throttling.py:14-49 | the handler runs exactly when neither window is full; a full group /gm window replies rate_limit_gm and a full /test_alarm window replies rate_limit_test |
| Throttling.PrefixesExclusive | src/bot/middlewares/throttling.py:26-38 | no text starts with both "/gm" and "/test_alarm", so at most one window applies |
| Throttling.OtherTextPasses | src/bot/middlewares/throttling.py:20-49 | a text message that is neither command, in any letter case, always reaches its handler |
| Throttling.CaseInsensitive | src/bot/middlewares/throttling.py:23 | the decision is the same for a text and its lower-case form |
| Throttling.FullGmWindowRefuses | src/bot/middlewares/throttling.py:26-35 | once a group's window holds gm_rate_limit recorded calls, the next /gm there is refused |
| Throttling.DefaultGmLimit | src/config.py:33-34 | with the default limits, a group's first /gm passes and its fourth within 300 seconds is refused |
| Archive.LastIndexOf | src/bot/middlewares/archive.py:199 | the position of the last occurrence of a character, or -1 when it does not occur |
| Archive.LastIndexOfConcat | src/bot/middlewares/archive.py:199 | in a + [c] + b, with no c in b, the last c is the one between them |
| Archive.LastComponent | src/bot/middlewares/archive.py:199 | the last path component kept is one of the parts, and never "." |
| Archive.BaseName | src/bot/middlewares/archive.py:183 | a path's name holds no '/' and is not "." |
| Archive.Suffix | src/bot/middlewares/archive.py:183 | a suffix is empty or a dot followed by at least one character, holding no other dot and no '/', at the end of the name |
| Archive.SplitLast | src/bot/middlewares/archive.py:188 | the last piece of a split is what follows the last separator |
| Archive.NameAfterFolder | src/bot/middlewares/archive.py:189 | a file name placed in a folder is the resulting path's name |
| Archive.GetExtension | src/bot/middlewares/archive.py:196-214 | the server path's suffix when it has one, otherwise the type's default, and "" for an unknown type |
| Archive.Extension | src/bot/middlewares/archive.py:182-185 | the original name's suffix when it has one, otherwise the type's extension, always empty or suffix-shaped; a document without a suffix anywhere gets "" |
| Archive.DefaultsShaped | src/bot/middlewares/archive.py:204-213 | every default extension is empty or suffix-shaped |
| Archive.NoSeparatorInNumber | src/bot/middlewares/archive.py:188 | the decimal text of an id holds no '_', '.' or '/' |
| Archive.FileNameNamesMessage | src/bot/middlewares/archive.py:188 | the text of the file name before its first '_' parses back to the message id |
| Archive.FileName | src/bot/middlewares/archive.py:188 | "{message_id}_{media_type}{ext}"; FileNameNamesMessage proves the message id reads back from it |
| Archive.StoredPath | src/bot/middlewares/archive.py:175-189 | media_path / group id / file name; StoredFileKeepsExtension proves its name is the file name and its suffix the extension |
| Archive.StoredFileKeepsExtension | src/bot/middlewares/archive.py:175-189 | the stored file's name is "{message_id}_{media_type}{ext}" and its suffix is exactly the chosen extension |
| Archive.Recorded | src/bot/middlewares/archive.py:63-105 | the recorded medium has the kind, file id and size of the attachment |
| Archive.MediaPrecedence | src/bot/middlewares/archive.py:63-105 | the medium recorded is the first kind in photo, video, document, audio, voice, video_note, sticker, animation order that is attached |
| Archive.FirstAttached | src/bot/middlewares/archive.py:63-105 | the first kind in the given order that the message carries; MediaPrecedence and NoMediaWhenNoneAttached state which kind that is |
| Archive.NoMediaWhenNoneAttached | src/bot/middlewares/archive.py:55-105 | no medium is recorded exactly when none of the kinds is attached |
| Archive.PhotoUsesLastSize | src/bot/middlewares/archive.py:63-68 | a photo is recorded by its last, largest size, whatever else is attached |
| Archive.ClassifyMedia | src/bot/middlewares/archive.py:55-105 | the if/elif chain records the first attached kind by precedence |
| Archive.DownloadedPath | src/bot/middlewares/archive.py:107-114 | a local path is recorded only with a bot whose fetch succeeded, and it is the stored path built from the group, the message, the type and the extension |
| Archive.Inserted | src/bot/middlewares/archive.py:130-141 | ON CONFLICT DO NOTHING: the row's key is present afterwards and an existing row under it is kept |
| Archive.InsertIdempotent | src/bot/middlewares/archive.py:141 | archiving the same message again changes nothing |
| Archive.FailedDownloadStillArchived | src/bot/middlewares/archive.py:107-114 | a failed download still archives the message with its medium and without a local path |
| Archive.ArchiveMiddleware.constructor | src/bot/middlewares/archive.py:21-24 | a new middleware holds the setting and media path and has archived nothing |
| Archive.ArchiveMiddleware.ArchiveMessage | src/bot/middlewares/archive.py:45-162 | exactly the row built from the message is inserted |
| Archive.RowOf | src/bot/middlewares/archive.py:45-161 | the row _archive_message inserts: the first attached medium and its downloaded path; ArchiveMessage inserts exactly it, and FailedDownloadStillArchived shows a failed fetch keeps the medium without a path |
| Archive.RowWith | src/bot/middlewares/archive.py:130-161 | the inserted columns: the message's fields, its sender's, its forward origin's, the medium and the path; RowOf and ArchiveMessage both build the row with it |
| Archive.ArchiveMiddleware.Call | src/bot/middlewares/archive.py:26-43 | the handler runs exactly once; a group message is archived when archiving is enabled and the insert succeeds, and otherwise nothing is stored |
| ExportArchive.EscapedShape | scripts/export_archive.py:56 | the escaped text holds no quote and no line break and is never shorter than the text |
| ExportArchive.EscapeHtmlReadsBack | scripts/export_archive.py:52-56 | escape_html gives "" exactly for a missing or empty text, holds no quote or line break, and reads back as the original text |
| ExportArchive.EscapeHtml | scripts/export_archive.py:52-56 | escape_html; EscapeHtmlReadsBack and EscapeRoundTrip prove it is "" exactly for a falsy text and reads back as the original |
| ExportArchive.EscapeRoundTrip | scripts/export_archive.py:56 | html.escape followed by the "<br>" replacement loses nothing: unescaping gives the original text back |
| ExportArchive.DayLabel | scripts/export_archive.py:150 | the separator reads "Unknown date" exactly for a message without a date |
| ExportArchive.TimeText | scripts/export_archive.py:154 | the time is empty exactly for a message without a date |
| ExportArchive.DisplayNameShows | scripts/export_archive.py:66-79 | the shown name starts with the first name, else the last name, else "Unknown", joins both names with a space, and ends with " (@username)" when there is a username |
| ExportArchive.DisplayName | scripts/export_archive.py:66-79 | get_user_display_name; DisplayNameShows states its parts, the "Unknown" fallback and the username suffix |
| ExportArchive.MediaViewOf | scripts/export_archive.py:82-107 | no view without a media type; a placeholder naming the type when the file was not downloaded; otherwise a view of the kind the type selects, linked as the media folder plus the stored file's name |
| ExportArchive.ArchivedMediaLinked | scripts/export_archive.py:94-96 | a medium the archive downloaded is linked by the file name the archive gave it, inside the export's media folder, and shown as its kind |
| ExportArchive.MediaViewKinds | scripts/export_archive.py:98-107 | a photo shows as an image, video and animation as video, audio and voice as audio, a sticker as a sticker image, and anything else as a link |
| ExportArchive.KindOfFirstAttached | scripts/export_archive.py:84-87 | the media type the export reads is one of the kinds the archive records |
| ExportArchive.NotDownloadedShowsPlaceholder | scripts/export_archive.py:91-92 | a medium archived without a bot to download it shows as a placeholder naming its kind |
| ExportArchive.GroupMessages | scripts/export_archive.py:113-119 | the dict's keys in insertion order are the chats in order of first appearance, and each chat maps to the list of its own rows |
| ExportArchive.FirstAppearancesDistinct | scripts/export_archive.py:117 | no chat is listed twice |
| ExportArchive.FirstAppearancesCover | scripts/export_archive.py:113-119 | a chat is listed exactly when some row belongs to it |
| ExportArchive.OfGroupExact | scripts/export_archive.py:119 | a chat's list holds only its own rows, and every row of the chat is in it |
| ExportArchive.SidebarItemOf | scripts/export_archive.py:124-126 | a sidebar entry keeps the group's id and count, and its title is never empty and reads back as the title or "Group {gid}" |
| ExportArchive.Sidebar | scripts/export_archive.py:122-132 | one sidebar entry per group row, in order |
| ExportArchive.ListedTitleFirst | scripts/export_archive.py:139 | the first group row with the chat's id decides the header, whatever rows follow it |
| ExportArchive.ListedTitleAbsent | scripts/export_archive.py:139 | the "Group {gid}" fallback is used exactly when no group row has the chat's id |
| ExportArchive.HeaderTitle | scripts/export_archive.py:139 | the group header's title: the first listed row's title, or "Group {gid}"; ListedTitleFirst and ListedTitleAbsent say when each applies |
| ExportArchive.MessageShows | scripts/export_archive.py:153-167 | a message shows its text, else its caption; a reply mark only for a truthy reply id, and then with that id; a forward mark exactly when a forward id is truthy |
| ExportArchive.ShownOf | scripts/export_archive.py:153-167 | what one message block shows; MessageShows states its text, reply and forward marks |
| ExportArchive.RenderGroups | scripts/export_archive.py:135-183 | for each chat, a header, then each message preceded by a separator whenever its day differs from current_date, with current_date reset after every chat |
| ExportArchive.BodyAdvance | scripts/export_archive.py:144-180 | each message appends the separator it needs and its block, and the rest continues from its day |
| ExportArchive.SectionsAdvance | scripts/export_archive.py:138-183 | each chat appends its finished section, and the later chats follow |
| ExportArchive.SeparatorsFollowDays | scripts/export_archive.py:136-151 | a separator comes before a chat's message exactly when its day differs from that of the previous message of the same chat, and before the chat's first message exactly when that message has a date |
| ExportArchive.GenerateHtml | scripts/export_archive.py:110-183 | the chats in order of first appearance, one sidebar entry per group, and the message blocks of every chat rendered in order |

## Left out

- Network and Telegram I/O are outcome oracles or recorded requests, not calls:
  - the Bot API, the Pushover HTTP client and the Redis and asyncpg clients;
  - request bodies, such as Pushover's priority, retry and expire fields, are not modelled.
- Concurrency is not modelled. `asyncio.create_task` in the menu's immediate broadcast runs as a plain call, and APScheduler's event loop is replaced by an explicit firing call.
- Time: the waits are not modelled.
  - `asyncio.sleep` calls are recorded with their durations in an effect log.
  - `datetime.now()` and the database's `NOW()` are parameters.
- Serialisation is abstract:
  - pickle plus hex in `DataStorage` is an injective value wrapper;
  - the Redis hash stores each record's `to_dict` form, and JSON text is not modelled;
  - `uuid4().hex[:8]` is a parameter.
- The text `datetime.isoformat` writes is an abstract value that `fromisoformat` reads back exactly. Its characters are not modelled.
- Storage.RedisStorage.IterSubscribers: the HSCAN cursor and its batch size are modelled as one pass over the hash in some order of its keys. The batching itself is not modelled. HSCAN may return an element more than once while the hash is being rehashed, so "no id twice" holds of the model only.
- Python strings:
  - `str.lower()` is modelled for ASCII letters only;
  - `int()` accepts ASCII sign and digits only, so underscores and non-ASCII digits are not modelled;
  - whitespace is the ASCII set plus the common Unicode spaces `IsSpace` lists.
- Config.AdminIdsList: `str.isdigit` is taken to accept ASCII digits only. The non-ASCII digits that `isdigit` accepts and `int()` then rejects with ValueError are not modelled.
- UiUtils.ValidateFormatted: the round trip holds for four-digit years. `strftime` writes years below 1000 without padding on some platforms, and those years are not modelled.
- UiUtils.ValidateDatetime: strptime's `\d` is taken as ASCII digits, so Unicode decimal digits are not modelled.
- Models.BroadcastResult.SuccessRate is stated over reals. Floating-point rounding is not modelled.
- UiManager.BroadcastUiManager.DeletePreviousMessage records the delete request only. Two behaviours are not modelled, because both depend on Telegram's error text:
  - the fallback that edits an undeletable window to the "outdated" text;
  - the re-raise of unexpected edit errors.
- The bot's own replies are recorded by localisation key. The HTML parse mode Telegram applies to them is not modelled.
- ExportArchive: these parts are not modelled:
  - the HTML/CSS/JS template and the indentation of the f-string blocks;
  - `format_datetime`, which `generate_html` never calls;
  - the `get_groups` and `get_messages` queries;
  - `copy_media_files` and `main`.
  `generate_html` works on rows as they come from those queries.
- ExportArchive.MediaViewOf: the media link is built from the stored path's final component. The file copy that puts it there (`copy_media_files`) is not modelled.
- Archive.ArchiveMiddleware.ArchiveMessage:
  - the forward fields and sender fields are carried through unchanged;
  - the actual download and the `mkdir` calls are a fetch oracle.
- GroupHandlers: the following are not part of this model:
  - `cmd_enable`, `cmd_disable`, `cmd_language_group` and `process_group_language`, which only forward to the repositories;
  - the `set_my_commands` calls.
- PrivateHandlers:
  - `cmd_language` only shows the language keyboard;
  - the photo-or-text choice for the key prompt, which depends on a file on disk, is not modelled.
- I18n: locale files are given as already-parsed tables, and YAML parsing is not modelled.
- The following are not part of this model:
  - `src/bot/middlewares/i18n.py`, which reads a setting `src/config.py` never declares;
  - `src/bot/middlewares/user.py` and `fsm_cancel.py`;
  - the chat-type filters;
  - `src/bot/handlers/common.py`, `events.py` and `admin.py`;
  - `src/main.py`, `src/services/broadcast.py` and `aiogram_broadcast/ui/middleware.py`;
  - `aiogram_broadcast/exceptions.py` and `ui/states.py`, which appear only as datatypes;
  - package re-exports.
- Db.Database: connection pooling, `connect`, `disconnect` and the execute and fetch wrappers are not modelled, and the tables are in-memory values.

- GroupHandlers.CmdGm: dispatches on the corrected classifier. For "/gm @" it replies gm_user_not_found, where group.py:64-66 raises IndexError and sends no reply. GroupHandlers.GmAtAloneRaises records the as-written behaviour.
- UiHandlers.PressConfirmDelete: deletes through the corrected delete, which also drops the BroadcastScheduler's pending entry. As written, handlers.py:104-109 reaches manager.py:412, which leaves that entry in place. UiManager.BroadcastUiManager.DeleteScheduledBroadcastAsWritten and UiManager.DeleteLeavesPendingTask record the as-written behaviour.
- Common.Format: conversions and format specs (`{x!r}`, `{x:>5}`), attribute and index fields (`{a.b}`, `{a[0]}`) and positional fields give Malformed, where str.format accepts them. The locale and UI texts use only plain named fields.
- Models.SubscriberFromDict: wrongly typed fields are rejected, where the dataclass constructor accepts any value. Records written by to_dict are never affected.
- Models.TaskFromDict: wrongly typed fields are rejected, where the dataclass constructor accepts any value. Records written by to_dict are never affected.
- Archive.StoredPath: joins the parts with "/" as strings. pathlib's normalisation of a media path such as "./m/" or "m//x" is not modelled; the default "archive/media" is unaffected.
- ExportArchive.DayLabel: pads years below 1000 to four digits, which glibc's `%Y` does not.

## Findings

| source | as written | input that shows it | evidently intended | confidence | as-written member | corrected member |
|---|---|---|---|---|---|---|
| libs/aiogram-broadcast/aiogram_broadcast/ui/manager.py:398-415 | the menu deletes a scheduled broadcast by removing the job straight from the APScheduler instance, bypassing BroadcastScheduler.cancel | a task scheduled with schedule_text, schedule_photo or schedule_copy, then "confirm" in the menu's delete window | the task also leaves the BroadcastScheduler's pending table, so get_task and get_pending_tasks stop reporting a broadcast that can no longer fire | not executed | UiManager.DeleteLeavesPendingTask | UiManager.BroadcastUiManager.DeleteScheduledBroadcast |
| src/bot/handlers/group.py:64-66 | "@" with nothing after it: `rest[1:].split(maxsplit=1)` is empty and `parts[0]` raises IndexError | the message "/gm @" | reply that no such user was found, as for an unknown username | not executed | GroupHandlers.GmAtAloneRaises | GroupHandlers.ClassifyAgrees |
