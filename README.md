# never-expires, modelled in Dafny

never-expires is the backend of an app that tracks when stored food and other items expire. It has two HTTP servers. The identity server handles registration, login, sessions, JWTs, password rules and account mail. The reminder server handles the item and storage lists, and sends "items are expiring" push notifications through APNs. Around them sit an email queue on RabbitMQ with its sending worker, a user-deletion fan-out, a retry helper, and the shared HTTP plumbing: method checks, middleware composition, error-to-status classification and request metrics.

This project models the decision logic of those parts:

- the mail pipeline: the queue envelope, the consumer's ack/reject/requeue rules and the worker's decode-then-send;
- the retry loop;
- the push pipeline: token classification, notification building, attempt counters and the bad-token cleanup;
- the device-token SQL helpers;
- the deletion notifier;
- the reminder domain: item model, item and storage services, query filters and request validation;
- the identity domain: password validation and generation, confirmation tokens, email parsing, the user and authentication services, OAuth claims, and token reading;
- the mail builder;
- the HTTP helpers, and the two servers' error classifiers with their result builder, response writer and request-counter labels.

Everything the code asks of the outside world enters as a parameter:

- repository answers;
- broker, SMTP, Redis and APNs results;
- random draws;
- bcrypt and JWT results;
- the template engine's output;
- the current time.

A service's calls to its collaborators are recorded, in order, as a sequence of call values. The contracts can therefore state which calls happen, in which order, and which never do.

Go errors are modelled as a tree of sentinel kinds (`Errors.Error`):

- a leaf for a sentinel or an error type;
- a wrapping node for `fmt.Errorf("…: %w")`;
- a join node for `errors.Join`.

`errors.Is` asks whether a kind occurs in the tree. A classifier such as `handleResponseErrors` is a first-match chain over the set of kinds present. Instants are nanosecond counts, with their own RFC 3339 formatter and a parser of the strict RFC 3339 form. Go's fixed-width integers are written out where they wrap, as the `time.Duration` product does in `ItemModel.WrapInt64`.

One behaviour worth knowing is stated as written: `DeletionNotifier.UserDeletionNotifier.DeleteAll` never ends when no deleter is registered. In that case `deleteBatch` returns nil without popping anything, and the loop runs `for err == nil`.

## Model

| member | source | states |
|---|---|---|
| Consumer.RetryCount | internal/id/mailing/rabbitmq/consumer.go:83 | a missing `x-retry-count` header, or one that is not an int32, reads as 0; an int32 value reads as itself |
| Consumer.Rejection | internal/id/mailing/rabbitmq/consumer.go:67-92 | a failed job on a delivery without a header table panics at the count write (a nil table reads the count as 0 and always tries to raise it); otherwise it is rejected, and requeued exactly when the count is below 3, the table then holding count + 1 with every other header unchanged; at the limit the table is left as it was |
| Consumer.JobResult | internal/id/mailing/rabbitmq/consumer.go:59-65 | a successful job makes only `Ack(false)` and keeps the table; a failed job on a nil table panics before any broker call; any other failed job makes the rejection first, then the ack, which is then the last call |
| Consumer.HandleRejectOnJobError | internal/id/mailing/rabbitmq/consumer.go:67-92 | on a nil table it reports the panic and makes no call; otherwise the delivery receives exactly the rejection `Rejection` computes and its table becomes the one it computes |
| Consumer.HandleAcknowledgment | internal/id/mailing/rabbitmq/consumer.go:94-97 | one `Ack(false)` is appended and the headers do not change |
| Consumer.HandleJobResult | internal/id/mailing/rabbitmq/consumer.go:59-65 | the calls made on the delivery, its new table and whether it panicked are those `JobResult` gives |
| Consumer.HeaderlessFailurePanics | internal/id/mailing/rabbitmq/consumer.go:83-89 | as written, the first failed job on a delivery without a header table panics and makes no broker call |
| Consumer.RejectionCreatingTable | internal/id/mailing/rabbitmq/consumer.go:83-91 | with the table created first, every failed job is rejected; one without a table is requeued carrying count 1; one with a table is handled as `Rejection` handles it |
| Consumer.Handled | internal/id/mailing/rabbitmq/consumer.go:43-56 | counts the events taken before the first one that ends consume (a done context, a failed reconnect, or a delivery whose failed job meets a nil table), each delivery judged by the job's answer at its own position; none of those stops it and the next one does |
| Consumer.ConsumeOutcome | internal/id/mailing/rabbitmq/consumer.go:32-56 | an initial connection error is returned as is; when no event stops the loop, consume is still waiting; a done context returns the context's error and a failed reconnect returns the reconnect error; it ends in a panic exactly when the stopping event is a delivery whose failed job meets a nil table |
| Consumer.ConsumeNeverReturnsNil | internal/id/mailing/rabbitmq/consumer.go:43-56 | consume returns an error, panics, or keeps waiting; it can only keep waiting when no event stops it |
| Consumer.Consume | internal/id/mailing/rabbitmq/consumer.go:32-56 | the result is `ConsumeOutcome`; each delivery taken before the stopping event gets exactly the calls and table of `JobResult` for the job's answer at that delivery's position, so a redelivered message can fail once and succeed later; the delivery whose failed job meets a nil table, and every later one, is not touched |
| Consumer.MakeChannel | internal/id/mailing/rabbitmq/consumer.go:99-113 | `Consumer.makeChannel` as written, which consume never calls: the channel opens exactly when both broker calls succeed, and then with prefetch count 1; otherwise the first error is returned |
| Consumer.NthDeliveryHeadersAsWritten | internal/id/mailing/rabbitmq/consumer.go:83-91 | the headers of the n-th redelivery when the raised count stays in the local copy (as written) |
| Consumer.RequeuedForeverAsWritten | internal/id/mailing/rabbitmq/consumer.go:83-91 | as written, a message whose job always fails and whose count starts below 3 comes back with the same headers on every delivery and is requeued every time |
| Consumer.NthDeliveryCount | internal/id/mailing/rabbitmq/consumer.go:83-91 | when the raised count travels with the message, the n-th delivery carries the original count plus n |
| Consumer.DroppedAfterRetries | internal/id/mailing/rabbitmq/consumer.go:83-91 | when the raised count travels with the message, it is requeued on each of the first 3 - count deliveries and dropped on the next one, for any int32 count (a negative one means more requeues); with a count of at least 0 that is at most three requeues |
| MailQueue.DecodeEncode | internal/id/mailing/mailqueue/queue.go:27-32 | decoding an encoded envelope gives back the same recipient and email |
| MailQueue.Add | internal/id/mailing/mailqueue/queue.go:26-38 | an encoding error is returned and nothing is published; otherwise exactly one payload is published, it decodes to the envelope of the given recipient and message, and the publisher's error is returned unchanged |
| MailSender.Deadline | internal/id/mailing/mailsender/worker.go:46 | the deadline of `context.WithTimeout` is now plus the timeout or the parent's deadline, whichever is sooner |
| MailSender.SendEmail | internal/id/mailing/mailsender/worker.go:38-50 | a malformed body returns the decode error and the client is never called; otherwise the client is called once, with the same message ID, the decoded envelope and a deadline at most two minutes away, and its error is the result |
| MailSender.QueuedEmailIsSent | internal/id/mailing/mailqueue/queue.go:26-38 | an envelope that Add published reaches the mail client unchanged, with a two-minute deadline |
| MailSender.DoWork | internal/id/mailing/mailsender/worker.go:33-36 | running the worker is consume with `sendEmail` as the job: each handled delivery is acknowledged or rejected according to the error sendEmail gives with the time and the mail server's answer at that delivery, so each redelivery has its own deadline and answer |
| Try.Retry | internal/shared/try/dowithattempts.go:24-40 | the waiting loop never makes fewer calls than it has already made |
| Try.GetWithAttemptsSpec | internal/shared/try/dowithattempts.go:18-41 | a first call that succeeds returns its result with no error after one call, without waiting |
| Try.RetryProperties | internal/shared/try/dowithattempts.go:24-40 | `f` is called once per tick and only while every earlier call failed; a success returns that call's result and a nil error; a cancellation returns the last result and the context error joined with the last error |
| Try.GetWithAttemptsProperties | internal/shared/try/dowithattempts.go:18-41 | the same promises for the whole call: every call before the last failed; success returns the last call's result; a cancellation joins the context error with the last call's error |
| Try.GetWithAttempts | internal/shared/try/dowithattempts.go:18-41 | the loop's outcome equals `GetWithAttemptsSpec` |
| Try.DoWithAttempts | internal/shared/try/dowithattempts.go:9-16 | returns exactly the error of GetWithAttempts run over the same calls |
| ApnToken.IsTokenInactiveCases | internal/reminder/apn/checktoken.go:9-17 | a nil response is not inactive; status 410 is inactive whatever the reason; status 400 is inactive exactly when the reason is "BadDeviceToken"; every other status is not inactive; an inactive response was never a sent one |
| ApnSender.PayloadArguments | internal/reminder/apn/sendingservice.go:18-22 | the payload is the fixed JSON text with the closest item's name verbatim in `title-loc-args` and the count, as decimal text that reads back as the count, in `loc-args` |
| ApnSender.MakeNotification | internal/reminder/apn/sendingservice.go:140-152 | collapse id "items_expiring", priority 10, alert push type, expiry now plus 25 hours, the row's device token, the service's bundle id as topic, and the payload of the row |
| ApnSender.StoredTokensCameFromFailures | internal/reminder/apn/sendingservice.go:154-159 | a token is stored only after a failed push, a sent push never stores one, a 410 answer always stores one and a failure without a response never does |
| ApnSender.SenderService.Notify | internal/reminder/apn/sendingservice.go:140-163 | exactly one push of the row's notification; the success counter grows by one exactly when the push succeeded, the failure counter otherwise; the token is stored exactly when the push failed and the response marks the token inactive |
| ApnSender.SenderService.NotifyAll | internal/reminder/apn/sendingservice.go:96-147 | every row taken before the context ends is pushed once, in order; row `i` is taken at its own instant `clock(i)`, and its notification's expiry and its push deadline (`PushDeadline`) are counted from that instant; the success counter grows by the pushes that succeed and the failure counter by the rest; the tokens stored as inactive are those of the failed pushes judged inactive, in push order; the result is the context's error or the "finished all job" error |
| ApnSender.DeadTokensFromFailedPushes | internal/reminder/apn/sendingservice.go:154-159 | no more tokens are stored than pushes failed, and each stored token is the device token of a push whose failure was judged inactive |
| ApnSender.PushDeadline | internal/reminder/apn/sendingservice.go:114-133 | each push runs under a deadline at most ten seconds away and never later than the parent's deadline |
| ApnSender.NotifiedRows | internal/reminder/apn/sendingservice.go:124-137 | the workers take at most all the rows, and all of them when the context does not end |
| ApnSender.FinishError | internal/reminder/apn/sendingservice.go:106-111 | the context's error when it ended, otherwise the non-nil "apns sender is shutdown after it finished all job" error |
| ApnCleanup.InactiveTokensDeletingService.DeleteBatch | internal/reminder/apn/deletingserivce.go:66-87 | a pop error is returned and nothing else happens; otherwise at most `size` tokens are popped from the front; an empty pop gives "no saved bad tokens left" without calling remove; the popped tokens go unchanged to one remove call, whose error is returned, and on success those devices are gone |
| ApnCleanup.InactiveTokensDeletingService.RunWithCtx | internal/reminder/apn/deletingserivce.go:34-83 | batches of 100 are deleted while they succeed; the loop stops at the first error, or when the context is done with the context's error; a failed pop returns the pop's error; an empty pop returns "no saved bad tokens left"; a failed removal returns the removal's error as `HandleQueryErr` wraps it; with no failures every saved token is removed; never nil |
| ApnRepository.PlaceholdersCount | internal/reminder/apn/postgresqlrepository.go:107-129 | the placeholder list for n parameters holds exactly n '$' characters |
| ApnRepository.PlaceholdersShape | internal/reminder/apn/postgresqlrepository.go:107-129 | the list is empty exactly for 0; it starts with "$1"; for n >= 2 it is the list for n - 1 followed by ", $n" |
| ApnRepository.MakePlaceholder | internal/reminder/apn/postgresqlrepository.go:107-129 | the builder loop produces `Placeholders(n)`: "$1, $2, ..., $n" |
| ApnRepository.MakeArgs | internal/reminder/apn/postgresqlrepository.go:131-139 | the arguments keep the length and order of the input, element by element |
| ApnRepository.RemoveDeviceTokens | internal/reminder/apn/postgresqlrepository.go:88-105 | an empty list runs no statement and returns nil; otherwise one DELETE with one placeholder per token and the tokens as arguments in order, and its error mapped by HandleQueryErr |
| ApnRepository.ScannedPrefix | internal/reminder/apn/postgresqlrepository.go:64-74 | the rows before the first scan failure, in scan order, and that failure if there is one |
| ApnRepository.Notifications | internal/reminder/apn/postgresqlrepository.go:59-75 | a query error sends nothing; otherwise the scanned rows are sent in order up to the first scan error, which ends the call |
| DeletionNotifier.Deletions | internal/id/usr/deletionnotifier/notifier.go:68-83 | one call per registered deleter, each with the same batch of ids |
| DeletionNotifier.UserDeletionNotifier.RegisterSubscriber | internal/id/usr/deletionnotifier/notifier.go:32-34 | the subscriber is appended after the earlier ones; nothing else changes |
| DeletionNotifier.UserDeletionNotifier.DeleteBatch | internal/id/usr/deletionnotifier/notifier.go:50-66 | with no deleters nil is returned and nothing is popped; a pop error is returned as is; an empty pop gives "nothing left to delete"; otherwise up to the batch size of ids are popped from the front and every deleter receives that same batch |
| DeletionNotifier.UserDeletionNotifier.DoDeletions | internal/id/usr/deletionnotifier/notifier.go:68-83 | every registered deleter is called once with the whole batch |
| DeletionNotifier.UserDeletionNotifier.DeleteAll | internal/id/usr/deletionnotifier/notifier.go:36-48 | batches of 100 are taken from the front until a batch returns an error; the error returned is that round's pop error, or "nothing left to delete" when the pop was empty; the calls made are each successful batch given to every deleter, in order; with no deleters nothing is ever popped and the loop does not end within any number of rounds; when the pops succeed and there are enough rounds, nothing is left pending and the result is "nothing left to delete" |
| DeletionNotifier.PoppedIsPrefix | internal/id/usr/deletionnotifier/notifier.go:36-66 | the batches taken one after another are the front of the pending ids, without a gap or a repeat |
| ItemModel.ToResponseFormat | internal/reminder/item/model.go:32-49 | zero hours after opening become absent, any other value is kept; the three times are their RFC 3339 texts in UTC; id, name, opened flag and note are copied |
| ItemModel.FormatTruncates | internal/reminder/item/model.go:43-46 | the response text of an instant is that of the instant truncated to its second |
| ItemModel.ResponseTimesRoundTrip | internal/reminder/item/model.go:43-46 | each of the three response timestamps parses back to the item's instant truncated to its second, for years 0 to 9999 |
| ItemModel.IsEqualIgnoresDates | internal/reminder/item/model.go:51-58 | two items are equal exactly when they agree once the expiration date and the date added are disregarded |
| ItemModel.WrapInt64 | internal/reminder/item/model.go:72 | the `time.Duration` product wraps to a 64-bit two's-complement value congruent to the exact one |
| ItemModel.TimeAfterOpening | internal/reminder/item/model.go:71-75 | now plus the item's hours after opening, whenever that number of hours fits in a `time.Duration` |
| ItemModel.UpdateExpirationDate | internal/reminder/item/model.go:60-69 | a closed item expires at its best-before date; a newly opened one at now plus its hours after opening; one that stays open keeps the old expiration; no other field changes |
| ItemModel.NewFromItem | internal/reminder/item/model.go:88-99 | every field of the entity is present and holds the item's value |
| ItemModel.EntityItem | internal/reminder/item/model.go:101-135 | each present field is copied and each absent one takes the zero value of `Item{}` |
| ItemModel.EntityRoundTrip | internal/reminder/item/model.go:88-135 | an entity made from an item turns back into the same item |
| ItemModel.ItemRoundTrip | internal/reminder/item/model.go:88-135 | an entity with every field present survives the trip through an item |
| ItemModel.ItemsToResponseFormat | internal/reminder/item/model.go:139-146 | the response list has the items' length and order, each element being that item's response form; an empty list gives an empty one |
| ItemService.ByID | internal/reminder/item/service.go:48-60 | a user id that does not decode is returned before any repository call; a no-rows answer becomes ErrItemNotExists; any other error is passed through; a found item is returned |
| ItemService.Add | internal/reminder/item/service.go:71-92 | after the user id decodes, the item's id is made valid before the single repository call; a repository error is returned; a missing storage gives ErrStorageNotExists before a duplicate is looked at; an insert that did not happen gives the duplicate-of-unique error |
| ItemService.Update | internal/reminder/item/service.go:94-118 | the stored item is read first; no rows gives ErrItemNotExists; an item equal to the stored one returns it without calling update; otherwise the saved item has the updated expiration date and the stored date added, and the update's error is returned with it |
| ItemService.ScannedById | internal/reminder/item/postgersqlrepository.go:21-49 | the item byID reads has the zero uuid for its id and every other column of the stored item |
| ItemService.UpdateAsWrittenAlwaysUpdates | internal/reminder/item/service.go:94-118 | with the stored item read as byID reads it, an update with a valid path id always reaches the update call, and its error is the result |
| ItemService.UpdateKeepsStoredDateAdded | internal/reminder/item/service.go:109-117 | whatever the request carried, the item Update returns keeps the stored date added and no field that isEqual compares differs from the request |
| ItemService.Copy | internal/reminder/item/service.go:130-151 | the new id is made valid before the single call; a missing original gives ErrItemNotExists; a copy that did not happen gives the duplicate-of-unique error |
| ItemService.SearchPattern | internal/reminder/item/service.go:153-161 | the pattern is "(^\|\s)", then the input verbatim, then "(.*)" |
| ItemService.SearchSavedNames | internal/reminder/item/service.go:153-163 | after the user id decodes, one search for that user with the limit, whose pattern is `(^\|\s)`, the input verbatim, then `(.*)`; the search's answer is returned |
| ItemService.CallsScopedToUser | internal/reminder/item/service.go:48-163 | every repository call of every item operation is made for the user id the context holds, and only when it holds a valid one; without one each operation returns "context do not contain userID" and makes no call |
| ItemFilter.FilterSql | internal/reminder/item/filter.go:13-35 | every filter fragment is non-empty and ends in the "$" of its placeholder |
| ItemFilter.FilterSqlPlaceholder | internal/reminder/item/filter.go:13-35 | each fragment holds exactly one "$" |
| ItemFilter.FilterRoundTrip | internal/reminder/item/filter.go:13-35 | the SQL fragment and the parameter of a filter together determine the filter: reading them back gives the same filter |
| ItemFilter.Fragments | internal/reminder/item/filter.go:41-43 | one fragment per filter, in filter order |
| ItemFilter.NumberedAppend | internal/reminder/item/filter.go:41-47 | appending a filter appends its fragment numbered with the next parameter index |
| ItemFilter.FilteringSqlPlaceholders | internal/reminder/item/filter.go:37-50 | the built SQL holds exactly one placeholder per filter |
| ItemFilter.MakeQueryFilteringPath | internal/reminder/item/filter.go:37-50 | the SQL is each fragment followed by consecutive indices starting at the given one, and the parameters are the filters' values in the same order |
| ItemFilter.NoFilters | internal/reminder/item/filter.go:37-50 | with no filters the SQL is empty |
| StorageService.ErrorIfStorageNotExists | internal/reminder/storage/service.go:197-203 | no error exactly when the storage exists, otherwise "storage not exists" |
| StorageService.ErrorIfStorageNameNotUnique | internal/reminder/storage/service.go:205-211 | no error exactly when the name is unique, otherwise "storage name not unique" |
| StorageService.CheckForStorageNotUniqueNameError | internal/reminder/storage/service.go:189-195 | a duplicate-of-unique error is also reported as a not-unique name; any other error is kept as is; every kind of the original stays visible |
| StorageService.FirstSettled | internal/reminder/storage/service.go:158-167 | the index of the first attempt that succeeds or fails, or the limit when none does |
| StorageService.RandomCalls | internal/reminder/storage/service.go:179-187 | the n repository inserts with the n drawn random names, in order |
| StorageService.TryAddWithRandomNames | internal/reminder/storage/service.go:158-167 | attempts stop at the first insert that is done or fails, whose result and error are returned; after all attempts clash, nothing is done and no error is returned |
| StorageService.AddWithId | internal/reminder/storage/service.go:67-96 | a user decode error is returned without any insert; the id is made valid once and used by every insert; a given name is inserted once; an empty name tries up to five random names and then one longer name with digits, whose clash gives "storage name not unique" |
| StorageService.Update | internal/reminder/storage/service.go:98-110 | a decode error stops before the repository; a repository error goes through the not-unique check; otherwise the result is returned with "not exists" when nothing was updated |
| StorageService.Clear | internal/reminder/storage/service.go:112-124 | a decode error stops before the repository; a repository error is returned; otherwise "not exists" when nothing was cleared |
| StorageService.Delete | internal/reminder/storage/service.go:126-143 | the forbidden check always comes first; its error or "deleting not allowed" stops before any delete; otherwise the delete's error is returned |
| StorageService.ForbiddenNeverDeleted | internal/reminder/storage/service.go:132-139 | a storage that is forbidden to delete, or whose check fails, is never deleted |
| GenUuid.MakeValidIfNeeded | internal/reminder/genuuid/generator.go:8-16 | the result is always valid; a valid id is kept and an invalid one gets fresh random bytes |
| GenUuid.MakeValidIdempotent | internal/reminder/genuuid/generator.go:8-16 | making an id valid twice is the same as making it valid once |
| UserCtx.Decode | internal/shared/usrctx/decodeid.go:14-21 | a user id exactly when the context holds a valid one (through `usr.ID`); that id is returned; otherwise the error is "context do not contain userID" |
| ReminderRequest.InvalidTimeFormatError | internal/reminder/api/request/inputerrors.go:29-32 | the error wraps "invalid time format" and no other kind; its text quotes the rejected input and the example layout as `%q` does |
| ReminderRequest.QuotedFormatExample | internal/reminder/api/request/inputerrors.go:31 | the example layout needs no escape, so the message shows it verbatim between double quotes |
| ReminderRequest.ToValidItem | internal/reminder/api/request/inputtypes.go:33-50 | an empty name or best-before date gives "missing required field"; an unparsable date gives the time-format error; otherwise exactly the given fields are copied, with the date parsed, and every other field is zero |
| ReminderRequest.ToValidItemWithAddedDateRequired | internal/reminder/api/request/inputtypes.go:52-69 | an empty added date gives "missing required field"; an error of the plain check is passed on; an unparsable added date gives the time-format error; otherwise the plain item with the parsed added date |
| ReminderRequest.CheckIsUuidValid | internal/reminder/api/request/inputtypes.go:111-121 | the zero id is a missing field, an invalid one is "invalid uuid in body", and no error exactly for a valid id |
| ReminderRequest.ToValidCopyData | internal/reminder/api/request/inputtypes.go:79-105 | the checks run in order: missing added date, the original id, then the date format; on success the original id and the parsed added date |
| ReminderRequest.FormattedBestBeforeIsValid | internal/reminder/api/request/inputtypes.go:33-50 | a best-before date written by the service's own format (a four-digit year) is always accepted and read back as that instant truncated to the second |
| ReminderRequest.StrToPgtype | internal/shared/uuidformat/topgtype.go:12-19 | an id is returned, valid, exactly when the text parses; otherwise the error is "invalid uuid" |
| ReminderRequest.StrToBool | internal/reminder/api/request/allitems.go:106-115 | only "true" and "false" are accepted, meaning what they say; anything else is "invalid query data" |
| ReminderRequest.CheckByStorageFilter | internal/reminder/api/request/allitems.go:61-71 | an absent storage id adds nothing; an invalid one is "invalid query data"; a valid one appends a storage filter |
| ReminderRequest.CheckByOpenedFilter | internal/reminder/api/request/allitems.go:73-83 | an absent opened status adds nothing; one other than "true" or "false" is "invalid query data"; otherwise an opened-status filter is appended |
| ReminderRequest.CheckByDateFilter | internal/reminder/api/request/allitems.go:85-95 | an absent date adds nothing; an unparsable one is both "invalid query data" and a time-format error; otherwise a date filter is appended |
| ReminderRequest.CheckByNameFilter | internal/reminder/api/request/allitems.go:97-104 | a non-empty name prefix appends a name filter with the prefix and "%" |
| ReminderRequest.RequestedFiltersOrder | internal/reminder/api/request/allitems.go:39-59 | the filters are accepted exactly when the storage id, opened status and date are each absent or well-formed, and then they are storage, opened, date then name, each only when asked for |
| ReminderRequest.MatchOption | internal/reminder/api/request/deletestorage.go:49-61 | no option is a missing parameter, "delete" and "clear" select those actions and nothing else does, and any other option does not exist |
| ReminderRequest.IdFromPath | internal/reminder/api/request/idfrompath.go:11-18 | the id is what follows the route; an empty one is a missing parameter, otherwise it is parsed as a uuid |
| ReminderRequest.HandleDeleteStorage | internal/reminder/api/request/deletestorage.go:30-47 | the path id is checked before the option; the answer is "no content" exactly when both are valid and the chosen action succeeds, and then it names that action and id |
| PasswordValidation.Validate | internal/id/pw/inputvalidation.go:9-56 | a password shorter than 8 bytes is too short; then a character other than ASCII letters, digits and visible symbols is refused; then missing uppercase, lowercase or digit are reported in that order; no error exactly for a secure password, and every error is an insecure-password error |
| PasswordGenerator.RandRune | internal/id/pw/generator.go:70-74 | the character is within the given bounds |
| PasswordGenerator.RandSpecial | internal/id/pw/generator.go:60-68 | the character is one of the eight allowed specials |
| PasswordGenerator.ApplyOption | internal/id/pw/generator.go:76-89 | each option gives a character of its class: digit, lowercase, uppercase or special |
| PasswordGenerator.RandChar | internal/id/pw/generator.go:34-38 | a random character is always an allowed one |
| PasswordGenerator.Shuffle | internal/id/pw/generator.go:40-46 | the shuffled password is a permutation of the one before |
| PasswordGenerator.Generate | internal/id/pw/generator.go:16-32 | the password has the requested length, but at least 4; every character is allowed; it holds at least one digit, one lowercase, one uppercase and one special character |
| PasswordGenerator.KeptByPermutation | internal/id/pw/generator.go:16-32 | shuffling keeps the length, the allowed characters and one character of each class |
| ConfirmationTokens.InvalidityReason | internal/id/usr/confirmationtoken.go:30-39 | a used token is "already used" even when expired; an unused one past its expiration time is "expired"; any other is a reasonless invalid token; every reason is an invalid-token error |
| ConfirmationTokens.NewConfirmationToken | internal/id/usr/confirmationtoken.go:18-54 | a failed random read is wrapped as "unexpected error occurred while making random token"; otherwise the token is the encoded random bytes, unused, expiring one lifetime after now |
| ConfirmationTokens.FreshTokenReason | internal/id/usr/confirmationtoken.go:18-39 | a new token is not expired up to and including the end of its lifetime, and is expired from one nanosecond later |
| EmailParser.ParseName | internal/id/usr/emailparser.go:24-34 | the name is the text before the first "@", and an address without "@" is an invalid email |
| EmailParser.ParseAddress | internal/id/usr/emailparser.go:8-22 | a parser error or a parsed display name is passed on; an empty name is filled with the part of the address before "@", and an address without "@" is an invalid email |
| EmailParser.ParseNameOfAddress | internal/id/usr/emailparser.go:24-34 | the name of "local@domain" is local whenever local has no "@" |
| UserService.ID | internal/id/usr/context.go:15-21 | the user id is read exactly when the context holds a valid one; otherwise "unauthorized" |
| UserService.CheckIfTokenNotEmpty | internal/id/usr/service.go:306-312 | an error exactly for the empty token, "missing confirmation token" |
| UserService.NotFoundIfNoMatches | internal/id/usr/service.go:159-161 | a "no matches" error also reads as "user not found"; any other outcome is kept, and success stays success |
| UserService.Register | internal/id/usr/service.go:62-85 | an unparsable email is an invalid email and a weak password is wrapped as "invalid password", both before any call; a hash error is returned; otherwise the user is stored with the lower-cased email, the hashed password and, when no username was given, the name from the email |
| UserService.CheckPassword | internal/id/usr/service.go:119-135 | no user id is "unauthorized"; an empty password with no stored one is accepted; another repository error is returned; otherwise the stored hash is compared |
| UserService.UpdatePassword | internal/id/usr/service.go:143-164 | no user id is "unauthorized"; a weak password is refused before any call; a hash error is returned; otherwise the hash is written, and "no matches" also reads as "user not found" |
| UserService.UpdateEmail | internal/id/usr/service.go:166-183 | no user id is "unauthorized"; an unparsable email is an invalid email before any call; otherwise the lower-cased address is written, and "no matches" also reads as "user not found" |
| UserService.UpdateUsername | internal/id/usr/service.go:185-197 | no user id is "unauthorized"; otherwise the name is written, and "no matches" also reads as "user not found" |
| UserService.ConfirmEmail | internal/id/usr/service.go:199-209 | an empty token is refused before the repository; a repository error is refused too; every error is a "validation refused" |
| UserService.ResetPassword | internal/id/usr/service.go:211-232 | an empty token is refused before any call; otherwise a secure 12-character password is generated and hashed; a hash error is returned; a failed restore is "password reset refused"; otherwise the user is looked up by the lower-cased email the restore returned |
| UserService.GeneratedPasswordIsSecure | internal/id/usr/service.go:211-218 | a generated password of at least 8 characters always passes the strength rules |
| UserService.RevokeAllKinds | internal/id/usr/service.go:269-281 | the joined error has a kind exactly when the listing error or one of the revocations has it |
| UserService.RevokeAllNone | internal/id/usr/service.go:269-281 | the result is success exactly when the listing and every revocation succeed |
| UserService.TryRevokeAppleAccount | internal/id/usr/service.go:263-282 | no user id is "unauthorized"; otherwise the tokens are listed and each one is revoked once, in order, and the errors are joined |
| AuthService.CheckIfEmailAlreadyRegistered | internal/id/authservice/service.go:272-283 | the email is free exactly when the lookup reports "no matches"; another lookup error is returned; a found user is "already registered" |
| AuthService.Register | internal/id/authservice/service.go:227-240 | a taken email or a failed lookup stops before registering; otherwise the user is registered with the given email, password and username and its result is returned |
| AuthService.CreateSession | internal/id/authservice/service.go:151-187 | an invalid user id is wrong login data and an empty device is a missing device, both before any call; then the access token, the refresh token and the session are made in that order, the first error stops; on success the session belongs to that user and device and carries the refresh token |
| AuthService.Login | internal/id/authservice/service.go:119-135 | an empty device stops before any call; an unknown email or a wrong password is wrong login data; otherwise a session is created for the user |
| AuthService.LoginSuccessNeedsPassword | internal/id/authservice/service.go:119-135 | a login without error always had a device, a known email and a matching password, and stored a session |
| AuthService.LoginWithOAuth | internal/id/authservice/service.go:137-149 | an empty device stops before any call; a provider login error is returned; otherwise a session is created and the provider's result type is kept |
| AuthService.UpdateMail | internal/id/authservice/service.go:86-101 | the password check comes first and then deactivating all sessions, each error stopping; the email update's duplicate error also reads as "already registered" |
| AuthService.ChangePassword | internal/id/authservice/service.go:103-113 | the password check comes first and then deactivating all sessions, each error stopping; otherwise the password update's result |
| AuthService.ChangesFollowPasswordCheck | internal/id/authservice/service.go:86-113 | sessions are deactivated only after the password check passed, and the email or password is changed only after both passed |
| AuthService.DeleteUser | internal/id/authservice/service.go:77-84 | the account is deleted exactly when revoking the Apple account succeeded |
| AuthService.AllowRefreshingJWT | internal/id/authservice/service.go:193-199 | one session lookup; refreshing is allowed exactly when it succeeds; a failed lookup is unauthorized and keeps the lookup's error in its tree |
| AuthService.CheckIfUserExists | internal/id/authservice/service.go:246-252 | one lookup by address; no error exactly when it succeeds; any failure, a database error included, becomes "missing email address" |
| AuthService.ResetPassword | internal/id/authservice/service.go:209-221 | a failed reset returns its error with empty address and password and makes no deactivation; otherwise every session of the reset user is ended, and only when that succeeds are the user's address and the new password returned |
| AuthService.ResetEndsSessionsFirst | internal/id/authservice/service.go:209-221 | a reset without error always ended the sessions of exactly the reset user as its last call; any error hands out no address and no password |
| OAuthClaims.NewClaimsData | internal/id/usr/oauth/claims.go:15-49 | the claims fail exactly when "sub" or "email" is missing; otherwise those are copied, a missing "email_verified" is false and a missing "name" is empty |
| OAuthClaims.ParseBool | internal/id/usr/oauth/claims.go:85-88 | the six spellings of true and the six of false are the only accepted texts |
| OAuthClaims.IsEmailVerified | internal/id/usr/oauth/claims.go:74-91 | a boolean claim is taken as is, a text claim is parsed as a boolean, anything else or an unparsable text is a wrong type casting |
| OAuthClaims.CastToUser | internal/id/usr/oauth/claims.go:51-72 | a user is built exactly when id, email and name are texts and the verified flag reads; the checks run in the order of claims.go and every failure is a wrong type casting |
| OAuthClaims.UpdateEmailToLower | internal/id/usr/oauth/model.go:28-30 | only the email changes, and it has no uppercase letter left |
| OAuthClaims.ClaimsRoundTrip | internal/id/usr/oauth/claims.go:15-72 | claims holding text id, email and name and a boolean flag give back the same user |
| OAuthClaims.MinimalClaims | internal/id/usr/oauth/claims.go:33-41 | claims with only "sub" and "email" give an unverified user with an empty name |
| TokenReader.CookieValue | internal/id/tkn/tokenreader.go:65-76 | the cookie's value exactly when it is present; otherwise a missing-cookie error naming the cookie |
| TokenReader.ReadAuthorizationHeader | internal/id/tkn/tokenreader.go:78-99 | an empty header is refused; otherwise its value with one leading "Bearer " removed |
| TokenReader.ReadAccessToken | internal/id/tkn/tokenreader.go:52-63 | the header wins over the access cookie; with neither, both errors are joined and the result reads as a missing cookie |
| TokenReader.ReadRefreshToken | internal/id/tkn/tokenreader.go:44-50 | a token in the body wins over the refresh cookie |
| TokenReader.VerifyUserJWT | internal/id/tkn/tokenreader.go:35-42 | a missing access token is joined with "unauthorized"; otherwise the token is parsed |
| TokenReader.VerifierCases | internal/id/tkn/verifiers.go:18-26 | a missing cookie is never an invalid token nor a change of owner; any other error is an invalid token; equal owners never differ |
| TokenReader.VerifyRefreshJWT | internal/id/tkn/tokenreader.go:12-33 | a missing refresh token is unauthorized, an invalid one returns its parse error; an invalid access token is unauthorized; a valid access token of another user is forbidden; otherwise the refresh token and its owner |
| TokenReader.RefreshWithoutAccessToken | internal/id/tkn/tokenreader.go:12-33 | a valid refresh token is accepted when no access token is sent at all |
| TokenReader.DifferentUsersForbidden | internal/id/tkn/tokenreader.go:23-30 | valid access and refresh tokens of two different users are forbidden |
| TokenReader.BearerStripped | internal/id/tkn/tokenreader.go:78-88 | "Bearer " followed by a token reads as that token |
| MailBuilder.BuildEmailMessage | internal/id/mailing/mailbuilder/emailbuilder.go:128-138 | the message is the header (recipient, subject, HTML content type, blank line) followed by the body, it starts with "To: " and the recipient and ends with the unchanged body, and no error is reported |
| MailBuilder.HeaderIsText | internal/id/mailing/mailbuilder/emailbuilder.go:129-134 | the header bytes are the UTF-8 encoding of the single header text written piece by piece |
| MailBuilder.HeaderEndsWithBlankLine | internal/id/mailing/mailbuilder/emailbuilder.go:134 | the header always ends with CR LF CR LF, so the body starts after an empty line |
| MailBuilder.MessageLength | internal/id/mailing/mailbuilder/emailbuilder.go:128-138 | the message is as long as the header text in bytes plus the body |
| MailBuilder.MessageBody | internal/id/mailing/mailbuilder/emailbuilder.go:119-126 | an executed template is the body; a failed one is joined with "failed to execute template" |
| MailBuilder.MakeEmailFromTemplate | internal/id/mailing/mailbuilder/emailbuilder.go:110-117 | a template error is returned with "failed to execute template"; otherwise the header followed by the executed body |
| MailBuilder.RequestedOrDefaultValue | internal/id/mailing/mailbuilder/languages.go:7-19 | the requested language wins, then "en"; it fails exactly when both are missing, with "missing default locale" |
| EndpointUrl.SplitJoin | internal/shared/httpmux/endpointurl.go:35-37 | splitting labels joined by a separator they do not contain gives the labels back |
| EndpointUrl.RemoveSubdomainShape | internal/shared/httpmux/endpointurl.go:31-41 | a host of one or two labels is kept; a longer one loses exactly its first label and dot, so the result is a suffix of the host with one label less |
| MethodChecking.IsInvalid | internal/shared/httpmux/methodckecingmiddleware.go:94-102 | a method is invalid exactly when it is none of GET, HEAD, POST, PUT, PATCH, DELETE, CONNECT, OPTIONS and TRACE |
| MethodChecking.ContainsInvalid | internal/shared/httpmux/methodckecingmiddleware.go:41-49 | no error exactly when every allowed method is valid; otherwise the error names the first invalid one |
| MethodChecking.ContainsAskedMethod | internal/shared/httpmux/methodckecingmiddleware.go:51-59 | true exactly when the asked method is in the allowed list |
| MethodChecking.CheckMethod | internal/shared/httpmux/methodckecingmiddleware.go:61-92 | the checks run in order: empty allowed list, first invalid allowed method, invalid requested method, a method not allowed (with the Allow header listing the allowed ones); the next handler runs and its result is returned exactly when all pass |
| MethodChecking.AllowedStringOfTwo | internal/shared/httpmux/methodckecingmiddleware.go:37-39 | the Allow header lists the methods separated by ", " |
| Middleware.ApplyMiddlewares | internal/shared/httpmux/middleware.go:15-21 | the handler wrapped from the last middleware to the first, so the first listed is outermost |
| Middleware.ComposedSmall | internal/shared/httpmux/middleware.go:15-21 | no middleware leaves the handler unchanged and one middleware wraps it once |
| Middleware.ComposedAppend | internal/shared/httpmux/middleware.go:15-21 | a middleware added last is the innermost, the first to wrap the handler |
| Middleware.ComposedConcat | internal/shared/httpmux/middleware.go:15-21 | applying two lists one after the other is applying the outer list to the handler the inner list made |
| HttpResults.RequestingResultBuilder.AddResponseMessage | internal/shared/httpmux/errorhandling.go:65-68 | only the response message changes |
| HttpResults.RequestingResultBuilder.SetType | internal/shared/httpmux/errorhandling.go:70-73 | only the result type changes |
| HttpResults.RequestingResultBuilder.AddStatusCode | internal/shared/httpmux/errorhandling.go:75-78 | only the status code changes |
| HttpResults.RequestingResultBuilder.AddInternalErrorCode | internal/shared/httpmux/errorhandling.go:80-83 | only the internal error code changes |
| HttpResults.RequestingResultBuilder.AddError | internal/shared/httpmux/errorhandling.go:85-88 | only the error changes |
| HttpResults.RequestingResultBuilder.WithoutResponse | internal/shared/httpmux/errorhandling.go:90-93 | only the should-respond flag changes, to false |
| HttpResults.ResponseCodes | internal/shared/httpmux/errorhandling.go:43-49 | a result that is not written counts as 200 with no internal code; otherwise its own codes |
| HttpResults.FallbackText | internal/shared/httpmux/errorhandling.go:118-123 | the fallback text is "Error writing response. Status code was " followed by the code in decimal, which reads back as the code |
| HttpResults.FallbackTextAsWritten | internal/shared/httpmux/errorhandling.go:122 | with `%q` the code is written as one quoted character, three characters after the prefix |
| HttpResults.FallbackAsWrittenHidesCode | internal/shared/httpmux/errorhandling.go:122 | for any code of 174 to 767, which holds every status this program writes, the text as written holds no digit at all and differs from the intended one |
| HttpResults.AddToRespond | internal/shared/httpmux/errorhandling.go:30-41 | built on the corrected `FallbackText` (see Findings): nothing is written unless the result should respond; without a message only the status; otherwise the message as JSON, and a failed encoding adds the fallback text with status 200 replaced by 500 |
| HttpResults.FirstInsecureReason | internal/id/api/errorhandler.go:192-200 | a reason is found exactly when the error holds an insecure-password error |
| HttpResults.Apply | internal/shared/httpmux/errorhandling.go:55-97 | the built result carries the error, the codes, the respond flag, the type and the message of the chosen outcome |
| HttpResults.BuildOutcome | internal/shared/httpmux/errorhandling.go:55-97 | building through the builder's setters gives the same result as the outcome applied at once |
| IdErrorHandler.HandleResponseErrors | internal/id/api/errorhandler.go:29-271 | no error gives 200 with a success message that is not written; any error is carried in the result |
| IdErrorHandler.ErrorResultShape | internal/id/api/errorhandler.go:29-271 | every error maps to one of 401, 405, 408, 422, 499, 500 and 503; exactly the 422 answers carry an internal code, a documented one, echoed in the error message; other statuses carry no message; only the missing logout session is Info, a silent 401 |
| IdErrorHandler.TimeoutIs408 | internal/id/api/errorhandler.go:41-47 | a timeout, whatever else it holds, is a written 408 without a message |
| IdErrorHandler.CanceledIs499 | internal/id/api/errorhandler.go:49-56 | a cancelled request that did not time out is a 499 that is not written and counts as 200 |
| IdErrorHandler.TokenErrorsAre401 | internal/id/api/errorhandler.go:58-72 | forbidden and unauthorized, when not a timeout or cancellation, are a written 401 |
| IdErrorHandler.DomainSentinelCode | internal/id/api/errorhandler.go:74-220 | each domain error alone gives 422 with its own internal code and its message |
| IdErrorHandler.InsecurePasswordReason | internal/id/api/errorhandler.go:192-200 | an insecure password gives 422 with code 3002 and the reason as its message |
| IdErrorHandler.FirstMatchDecides | internal/id/api/errorhandler.go:41-200 | for any two errors joined, the first check that holds for the join is the earlier of the two parts' first checks, and the outcome is that part's |
| IdErrorHandler.EarlierCheckDecides | internal/id/api/errorhandler.go:41-200 | three instances of the first-match rule: "must confirm email" with "already registered" gives code 2001; "missing confirm token" with an insecure password gives 3002; a wrong password with a cancellation gives 499 |
| IdErrorHandler.ServerSideFailures | internal/id/api/errorhandler.go:239-264 | a mail sending or URL error is a silent 500 and an unavailable service a silent 503, when no client check matches |
| IdErrorHandler.UnrecognisedIs500 | internal/id/api/errorhandler.go:266-270 | any other error is a written 500 without a message |
| ReminderErrorHandler.HandleResponseErrors | internal/reminder/api/errorhandling.go:30-206 | no error gives 200 with a success message that is not written; any error is carried in the result |
| ReminderErrorHandler.ErrorResultShape | internal/reminder/api/errorhandling.go:30-206 | every error maps to one of 401, 405, 408, 422, 499 and 500, as an error and never with an internal code; exactly the 422 answers carry a message, with a documented body code; only 499 is not written |
| ReminderErrorHandler.TimeoutIs408 | internal/reminder/api/errorhandling.go:42-48 | a timeout or deadline, whatever else it holds, is a written 408 without a message |
| ReminderErrorHandler.CanceledIs499 | internal/reminder/api/errorhandling.go:50-57 | a cancellation that did not time out is a 499 that is not written and counts as 200 |
| ReminderErrorHandler.BodySentinelCode | internal/reminder/api/errorhandling.go:67-199 | each request or domain error alone gives 422 with its own body code and its message |
| ReminderErrorHandler.InvalidTimeFormatText | internal/reminder/api/errorhandling.go:129-136 | a time-format error is answered with code 1001 and the whole error's text, not only the sentinel's |
| ReminderErrorHandler.EarlierCheckDecides | internal/reminder/api/errorhandling.go:165-181 | "storage not exists" is checked before "item not exists" and decides when both hold |
| ReminderErrorHandler.UnrecognisedIs500 | internal/reminder/api/errorhandling.go:201-205 | any other error is a written 500 without a message |
| RequestCounter.RequestedEndpoint | internal/shared/prometheusexporter/requestcounter.go:44-50 | 405 is labelled "NOT ALLOWED"; any other status is labelled with the method, a space and the route |
| RequestCounter.InternalCodeLabel | internal/shared/prometheusexporter/requestcounter.go:35-38 | the internal code label is "n/a" exactly for code 0 |
| RequestCounter.LabelsDistinguishCodes | internal/shared/prometheusexporter/requestcounter.go:34-42 | two requests to the same endpoint get the same status label exactly when their statuses are equal, and the same internal code label exactly when their codes are |
| RequestCounter.Counter.Increment | internal/shared/prometheusexporter/requestcounter.go:34-42 | the counter of the request's labels grows by one and no other counter changes |
| Response.MakeMessageAsWrittenAlwaysSucceeds | internal/id/api/response/response.go:22 | the guard can never hold, so even a 404 is answered with a "success" body |
| Response.MakeMessage | internal/id/api/response/response.go:21-31 | an "error" body exactly outside 200-299 and a "success" body inside, carrying the raw message |
| Response.WriteJson | internal/shared/rwjson/rwjson.go:11-24 | an error exactly when encoding fails, and then it is "error forming response" and keeps the encoder's error |
| Response.WritingErrorText | internal/id/api/response/response.go:33-38 | the fallback text is "Error forming response, initial message was: " and the raw message, capitalised |
| Response.WriteMessage | internal/id/api/response/response.go:11-15 | built on the corrected `MakeMessage` (see Findings): the reply has the given status and the body `MakeMessage` gives, so an error status gets the error shape; a fallback text is written exactly when encoding fails |
| Errors.HandleQueryErr | internal/shared/postgresql/errors.go:16-22 | nil stays nil, and a database error is wrapped so that it keeps every sentinel it held |
| Errors.KindsOfTree | internal/id/api/errorhandler.go:41-264 | every `errors.Is` and `errors.As` test a classifier makes depends only on the set of sentinels in the error's tree |
| Rfc3339.ParseLayoutZ | internal/reminder/api/request/inputtypes.go:38 | a "Z" timestamp of a valid date and time with a four-digit year parses to that instant |
| Rfc3339.ParseFormat | internal/reminder/item/model.go:43-46 | the RFC 3339 text of an instant with a year from 0 to 9999 parses back to that instant truncated to its second |
| Text.QuoteRoundTrip | internal/reminder/api/request/inputerrors.go:31 | `%q` loses nothing: the text between the quotes reads back as the input |
| Text.ToLower | internal/id/usr/service.go:68 | the text keeps its length and each character is lower-cased one for one |
| HttpResults.RequestingResultBuilder.constructor | internal/shared/httpmux/errorhandling.go:55-63 | a new builder starts at status 200, internal code 0, no message and no error, responding, of type Info |

## Left out

- Network and I/O: AMQP connections and publishing, SMTP and TLS, Redis, the APNs client, HTTP key fetches and the SQL text of the repositories are not modelled. What the code gets back from them is a parameter of the modelled operation.
- Unbounded loops are observed over a finite input. `DeletionNotifier.UserDeletionNotifier.DeleteAll` runs for at most `rounds` batches. `Try.GetWithAttempts` follows a finite schedule of ticks and cancellations. `Consumer.Consume` consumes a finite list of events. `ApnCleanup.InactiveTokensDeletingService.RunWithCtx` runs until the context-done signal, which its `World` parameter fixes at each step. A loop that is still running when the input ends is reported as such (`Waiting`, or `None`), never as an end.
- Concurrency is modelled sequentially. The APNs worker goroutines, their channel and the WaitGroup of `notifyAll` become one loop over the rows, in order. The deleters of `doDeletions` are called one after another. Timeouts and deadlines are instants handed in, not clocks. In `ApnSender.SenderService.NotifyAll` each row has its own instant `clock(i)`; the start of runWorker's timeout and notify's `time.Now()` for the same row are taken as that one instant.
- The envelope serialisation in `MailQueue` is an own byte codec: the recipient, an end marker, then the email. It stands in for the JSON and base64 of `encoding/json`, and the mailmsg package is not part of this model.
- The Redis set of bad device tokens is a sequence. `SPOP` takes tokens from its front, so the order in which Redis returns members is not modelled.
- Foreign libraries are parameters: `uuid.New` and `uuid.Parse`, `mail.ParseAddress`, bcrypt hashing and comparison, JWT creation and `parseIfValid`, `crypto/rand` and `math/rand` draws, and `html/template` execution. Neither their algorithms nor their failure cases beyond "error or value" are modelled.
- Text.Quote: `%q` is modelled for printable ASCII. Go also escapes control and non-printable characters (`\n`, `\x..`, `\u....`), which the model keeps as they are.
- Try.GetWithAttempts: the delay between attempts is a schedule of ticks. `time.NewTicker(delay)` panics for a delay of zero or less once the first call has failed (dowithattempts.go:24); that panic is not modelled. Every caller passes a positive named constant (postgresql/pool.go:19, smtpclient.go:45 and :71, rabbitmq/client.go:55).
- `Text.ToLower` and `Text.Capitalized` are ASCII-only. Go's full Unicode case tables, and the Unicode letter and symbol classes used for password characters, are not modelled. `PasswordValidation.Validate` rejects every non-ASCII rune before it looks at classes, so for passwords this loses nothing. internal/shared/str/capitalizer.go is not part of this model.
- `GenUuid.MakeValidIfNeeded` and `ItemModel.UpdateExpirationDate` return the updated value. The Go code mutates through a pointer or a receiver, so aliasing of that pointer is not modelled.
- Logging through zap, the Prometheus registration in `NewRequestCounter`, and `url.JoinPath` in the endpoint helpers are not modelled. The counter itself is modelled by the labels it increments.
- `errors.As` on `SendingError`, `URLMakingError`, `IsUnavailableError`, `InvalidTokenError` and `InsecurePasswordError` is modelled by error kinds in the tree. Such an error carries at most its reason text, so none of their other fields are modelled.
- Operations of the modelled service files that only delegate are not modelled:
  - in the authentication service: `AuthorizedUser`, `ChangeUsername`, `Logout`, `DeactivateSession`, `ConfirmEmail`, `IsConfirmed`, `AddEmailConfirmationToken` and `AddPasswordResetToken` (which add only the token lifetime, 24 hours or one hour), and `IsDeviceNewWhenUserHadSessionsBefore`;
  - in the user service: `PublicDataByUserCtx` and `Delete` (which decode the user id first, as `UserService.ID` models), `AddEmailConfirmationToken` and `AddPasswordResetToken`.
- Small compositions are not modelled, each named with what it adds:
  - the authentication service's `Status` joins the user service's and the session service's pings with `errors.Join`;
  - the user service's `UserByEmail`, `Contains` and `IsConfirmed` lowercase the address (as `Text.ToLower` models) before the repository lookup;
  - the user service's OAuth logins lowercase the provider's address first; the Apple login then saves the Apple refresh token for the logged-in user and returns that save's error together with the user.
- HTTP handlers other than the storage deletion handler, the routers, the servers and every `main` are not modelled.
- MailSender.SendEmail: the deadline is stated as at most two minutes from now (the earlier of two minutes and the parent's deadline), not as a clock running out.
- ToValidItem: the best-before date is read by `Rfc3339.Parse`, which takes the strict RFC 3339 form only. Go's `time.Parse(time.RFC3339, …)` falls back to its layout parser, which also accepts a one-digit hour, a ',' before the fraction and a zone hour of 24 or minute of 60; such dates give the time-format error here.
- ToValidItemWithAddedDateRequired: the added date is parsed by the same strict `Rfc3339.Parse`, with the same gap.
- ToValidCopyData: the added date is parsed by the same strict `Rfc3339.Parse`, with the same gap.
- CheckByDateFilter: the date of the filter is parsed by the same strict `Rfc3339.Parse`, with the same gap.
- IsEqualIgnoresDates: instants carry no location. Go's `==` on `time.Time` also compares the `Location`, so two equal instants in different locations are unequal there and equal here. `ItemService.UpdateAsWrittenAlwaysUpdates` shows that the update runs whatever the dates hold.
- ItemService.All, ItemService.Delete, ItemService.Status, StorageService.All, StorageService.Add and StorageService.Status only delegate. `All` and `Delete` are modelled and hand the repository's answer back unchanged; beyond `ItemService.CallsScopedToUser` they promise nothing more. `StorageService.All` decodes the user id and returns the repository's answer. `StorageService.Add` is `AddWithID` with the zero uuid, which `StorageService.AddWithId` covers. The `Status` pings are not modelled.
- WriteMessage, AddToRespond: built on the corrected `Response.MakeMessage` and `HttpResults.FallbackText` (see Findings). The program as written answers every status in the success shape and writes the `%q` text; `Response.MakeMessageAsWrittenAlwaysSucceeds` and `HttpResults.FallbackAsWrittenHidesCode` state those.
- Consumer.MakeChannel is not reached by consume, which connects through the client's own `makeChannel`. That one sets no prefetch count, so the mail consumer runs without `Qos(1)`.
- Consumer.JobResult: a failed job makes `Reject` and then `Ack` on the same delivery tag. AMQP 0-9-1 treats the second as an unknown delivery tag and closes the channel; the model records both calls and does not model the channel error.
- ItemFilter.NumberedAppend: fragments are joined to the placeholder number with no space ("$1AND …"). Whether the server accepts that text depends on its SQL parser, which is not modelled.

## Findings

| source | as written | input that shows it | evidently intended | confidence | as-written member | corrected member |
|---|---|---|---|---|---|---|
| internal/id/mailing/rabbitmq/consumer.go:83-91 | the raised `x-retry-count` is stored in the handler's local copy of the headers, and `Reject(true)` requeues the message as it was published | a message carrying a header table without the count, whose job always fails: every delivery reads count 0 and is requeued again (the mail producer sends no table at all; see the next row) | the message is requeued with the raised count, so it is dropped after three retries | high, not executed | Consumer.RequeuedForeverAsWritten | Consumer.DroppedAfterRetries |
| internal/id/mailing/rabbitmq/consumer.go:89 | the raised count is written into `msg.Headers`, which is nil for every message the mail producer publishes (producer.go:75-80 sets no headers), so the write panics and the worker stops | any failed email job | the header table is created when missing, and the message is requeued with count 1 | high, not executed | Consumer.HeaderlessFailurePanics | Consumer.RejectionCreatingTable |
| internal/id/api/response/response.go:22 | the error shape is chosen when `statusCode < 200 && statusCode >= 300`, which no status satisfies | status 404: the message is written in the success shape | the error shape for every status outside 200-299 (`\|\|`) | high, not executed | Response.MakeMessageAsWrittenAlwaysSucceeds | Response.MakeMessage |
| internal/shared/httpmux/errorhandling.go:122 | the fallback text formats the status code with `%q`, which prints an int as a quoted character | status 500: the text holds `'Ǵ'` rather than `500` | the decimal status code (`%d`) | high, not executed | HttpResults.FallbackAsWrittenHidesCode | HttpResults.FallbackText |
| internal/reminder/item/service.go:109-111 | the unchanged-item branch compares the updated item with the one `byID` returns, which is scanned without its id (postgersqlrepository.go:48-49), while the updated item carries the path id, so the branch never fires and the update always runs | any item sent back unchanged to the update handler | an unchanged item is returned without an update | high, not executed | ItemService.UpdateAsWrittenAlwaysUpdates | ItemService.Update |
