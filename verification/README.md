# LinkTracker: a verified model

LinkTracker lets Telegram chats subscribe to GitHub and StackOverflow links. A scrapper polls the
links, writes an outbox row for each new event in the same transaction that moves the link's
`last_updated`, and a relay sends the rows to Kafka. This project models that system in Dafny and
proves what it keeps over every run.

| file | what it covers |
|---|---|
| `schema.dfy` | the subscription tables, their constraints, cascades, the orphan trigger, transactions |
| `grouping.dfy`, `joining.dfy` | reading subscriptions back: grouping loop and left join |
| `subscriptions.dfy`, `replies.dfy` | the subscription service, statement by statement, with every statement able to fail, and the exact condition of each reply |
| `caching.dfy`, `staleness.dfy` | the read-through cache: sequential refinement, and bounded staleness under concurrency |
| `outbox.dfy`, `delivery.dfy`, `relay.dfy` | the outbox table and relay: one pass, runs of one worker, any number of workers |
| `polling.dfy`, `convergence.dfy` | processing one link, and repeated polling |
| `endtoend.dfy` | one committed event, followed from the poll through the outbox to Kafka |
| `workerpool.dfy` | paging producer, bounded channel, workers |
| `ratelimiter.dfy` | token buckets per client with idle eviction |
| `retry.dfy` | retrying transport over the circuit breaker |
| `tags.dfy`, `dialog.dfy`, `answers.dfy` | the tag parser, the dialog state machine, and whole dialogs with their answers |
| `positions.dfy` | lists built by keeping some elements, by position |

Code that updates state is a class or a method with loops, proved equal to a specification function;
the properties are then lemmas about that function over all runs. Code whose point is concurrency
(the cache, the relay workers, the worker pool) is a system of atomic steps, and its lemmas quantify
over every sequence of steps.

## Assumptions

- A committed transaction is one atomic step. A commit that fails is a rollback. The id sequence is
  not rolled back, as in PostgreSQL.
- Errors of the database, the cache, Kafka, the network and the session store are inputs, so each
  property holds for every pattern of failures it does not exclude by name.
- Time is one global clock with discrete instants, except in the rate limiter, where time and tokens are
  exact reals and the two clock readings of one call may differ by a bounded skew. Buckets refill in
  time when rps * (ttl - skew) >= burst; with a skew of zero that is rps * ttl >= burst.
- Ids of links are never given out twice.
- No write of a relay worker that has crashed reaches the database after the worker has started again.
- Times are whole microseconds; the StackOverflow API takes whole seconds and includes its lower bound.
- The outbox is the Kafka-primary branch, where the notifier writes to the outbox within the
  caller's transaction. Rows are sent in order of creation; equal creation times do not occur.
- Serialising a payload is deterministic: it always works or never does.
- Batch size, number of fetchers and number of attempts are positive.

## Where the code falls short of what one would expect

- SENT and FAILED are final if and only if one worker relays the topic: `Relay.TerminalIffOneWorker`.
- Events are not sorted, so `last_updated` follows the last committed event and not the newest;
  `Convergence.ExactlyOnceIff` and `Polling.FailedEventRefetchedIff` give the exact conditions.
- StackOverflow comments are not filtered again locally, so a link with comments is never silent:
  `Convergence.RepliesFallSilentIff`.
- The poller can insert a link again that was deleted during its pass: `Subscriptions.PollSaveOrphansIff`.
- Removing a link during a pass can make the walk miss another one: `WorkerPool.RemovalSkipsALink`
  is such a pass, and `WorkerPool.ProcessedIffNeverSkipped` says exactly which removals do it. Paging
  by `last_updated` misses links without any removal: `WorkerPool.PagingByTimeSkips`.
- A lost invalidation leaves a wrong list behind: `Caching.LostInvalidationWrong`; so does a slow
  reader that races with a writer: `Staleness.StaleForDelayPlusLifetime`.
- The tag skip does not survive printing and parsing: `Tags.PrintAndParse`.
- A failing existence check is dropped by AddLink; it has aborted the transaction by then, so the
  next statement reports the failure.
- The limiter's cleaner has no loop around its wait and sweeps at most once; the properties hold for
  any number of sweeps.

## Model

| member | source | states |
|---|---|---|
| `Schema.FireAllOrderFree` | migrations/002_delete_orphan_link_trigger.up.sql:1-18 | However the k deleted subscription rows of a cascade are ordered, firing the per-row trigger k times removes exactly the links of those rows that have no subscriber left |
| `Schema.CascadeIsUnsubscribed` | migrations/002_delete_orphan_link_trigger.up.sql:1-18 | Deleting a set of subscriptions with its tag cascade and all trigger firings, in any row order, has one and the same result |
| `Schema.UnsubscribedKeeps` | migrations/001_init_schema.up.sql:5-29 | Deleting any set of subscriptions keeps unique urls, both levels of foreign keys and the id sequence, and leaves no link without a subscriber if there was none before |
| `Schema.UpsertKeeps` | internal/scrapper/infrastructure/repository/sqlbuilder/link.go:25-49 | The upsert by url keeps every constraint, and keeps every link subscribed when the url was already stored |
| `Schema.Database.SaveLink` | internal/scrapper/infrastructure/repository/sqlbuilder/link.go:25-49 | Inserts the url or moves its last_updated, returns the id of that row, and changes no other table |
| `Schema.Database.LinkByUrl` | internal/scrapper/infrastructure/repository/sqlbuilder/link.go:78-103 | Finds the one link with the url, or none if there is none |
| `Schema.Database.DeleteSubscriptions` | internal/scrapper/infrastructure/repository/sqlbuilder/subscription.go:174-205 | The loop of row deletions and trigger firings ends in the order-free result: subscriptions, their tags and exactly the orphaned links gone |
| `Schema.Database.DeleteChat` | internal/scrapper/infrastructure/repository/sqlbuilder/chat.go:76-96 | Reports whether the chat existed; if so the chat, its subscriptions, their tags and the links it alone tracked are gone, otherwise nothing changes |
| `Schema.Database.Begin` | internal/scrapper/infrastructure/repository/sqlbuilder/transactor.go:29-53 | Opens a transaction that remembers the tables, or reports a failure and changes nothing |
| `Schema.Database.Commit` | internal/scrapper/infrastructure/repository/sqlbuilder/transactor.go:29-53 | Keeps the new tables, or on a failure restores all of them, the id sequence excepted |
| `Schema.Database.Rollback` | internal/scrapper/infrastructure/repository/sqlbuilder/transactor.go:29-53 | Restores all four tables to their content at the beginning of the transaction; the id sequence keeps its value |
| `Schema.Database.SubscriptionExists` | internal/scrapper/infrastructure/repository/sqlbuilder/subscription.go:96-118 | Finds the row; a failing statement reads as not found and aborts the transaction |
| `Schema.Database.InsertSubscription` | internal/scrapper/infrastructure/repository/sqlbuilder/subscription.go:25-54 | Inserts exactly when the transaction is not aborted, the statement does not fail and the row is new; otherwise the transaction is aborted |
| `Grouping.ScanSubscriptions` | internal/scrapper/infrastructure/repository/sqlbuilder/subscription.go:120-172 | The map-and-key-list loop yields one subscription per key in first-appearance order, each with its non-null tags in row order |
| `Grouping.FirstKeysAre` | internal/scrapper/infrastructure/repository/sqlbuilder/subscription.go:137-161 | The grouped keys are exactly the keys that occur in some row, each listed once |
| `Grouping.FirstKeysInOrder` | internal/scrapper/infrastructure/repository/sqlbuilder/subscription.go:137-161 | A key listed earlier has an earlier first row |
| `Grouping.KeyTagsAre` | internal/scrapper/infrastructure/repository/sqlbuilder/subscription.go:137-161 | The tags under a key are exactly the non-null tags of the rows of that key |
| `Grouping.JoinKeys` | internal/scrapper/infrastructure/repository/sqlbuilder/subscription.go:56-94 | Over the left join the groups are exactly the selected subscriptions, once each and ordered by key |
| `Grouping.JoinTags` | internal/scrapper/infrastructure/repository/sqlbuilder/subscription.go:56-94 | Over the left join each group holds exactly the stored tags of its subscription, none repeated; a null row means no tags |
| `Grouping.GroupingInvertsJoin` | internal/scrapper/infrastructure/repository/sqlbuilder/subscription.go:56-172 | Join then group is the identity: the i-th subscription returned is the i-th stored one in key order with exactly its stored tag set, whatever order the tags come in |
| `Joining.JoinExists` | internal/scrapper/infrastructure/repository/sqlbuilder/subscription.go:56-94 | Every valid store has join rows for each of the two queries, so the properties of such rows are never empty |
| `Joining.GroupInRowOrder` | internal/scrapper/infrastructure/repository/sqlbuilder/subscription.go:137-161 | The tags of a group are, by position, exactly the non-null tags of the rows of its key, in the order of the rows |
| `Subscriptions.StepKeepsValid` | internal/scrapper/application/subscription/service.go:48-197 | Every operation, committed or failed at any statement, keeps unique urls, both foreign keys, the tag width and the id sequence |
| `Subscriptions.ServiceKeepsNoOrphans` | internal/scrapper/application/subscription/service.go:48-197 | Every service operation, a chat deletion with its cascade included, keeps each link subscribed by someone |
| `Subscriptions.PollSaveOrphansIff` | internal/scrapper/application/scrapper_service.go:183-220 | The poller's save leaves a link without subscribers if and only if the url had been deleted during the pass |
| `Subscriptions.FailureRollsBack` | internal/scrapper/application/subscription/service.go:102-197 | An operation that reports an error leaves all four tables as they were |
| `Subscriptions.OtherChatsUntouched` | internal/scrapper/application/subscription/service.go:48-197 | No operation on one chat, no poll and no failed operation changes whether another chat is registered or the list it tracks, in spite of shared links, cascades and the trigger |
| `Subscriptions.AddThenRemove` | internal/scrapper/application/subscription/service.go:102-197 | After a successful AddLink, RemoveLink of the same url succeeds, and all four tables are restored if and only if the link was new or already had a subscriber |
| `Subscriptions.AddThenRemoveRestores` | internal/scrapper/application/subscription/service.go:102-197 | In every store without orphans a successful AddLink followed by RemoveLink restores all four tables exactly |
| `Subscriptions.AddedLinkListed` | internal/scrapper/application/subscription/service.go:102-160 | After a successful AddLink the chat's list is its old list plus exactly the link returned, with its tags |
| `Subscriptions.RemovedLinkUnlisted` | internal/scrapper/application/subscription/service.go:162-197 | After a successful RemoveLink the chat's list is its old list without exactly that url |
| `Subscriptions.DeletedChatForgets` | internal/scrapper/application/subscription/service.go:56-62 | A chat deleted and registered anew starts with an empty list |
| `Subscriptions.ListedIff` | internal/scrapper/application/subscription/service.go:64-100 | A link is in the chat's list if and only if the chat is subscribed to it, with its stored url and stored tags |
| `Subscriptions.ScannedSubscriptions` | internal/scrapper/application/subscription/service.go:64-100 | The subscriptions read through the join resolve, in order, to the chat's true list, and every link they name exists |
| `Replies.AddReplies` | internal/scrapper/application/subscription/service.go:102-160 | From every valid store AddLink succeeds if and only if the url is supported, the chat is registered, this very chat is not subscribed to it, the tags fit and no statement fails; UrlNotSupported, ChatNotRegistered, AlreadySubscribed and a database error each have their exact condition |
| `Replies.AddEffect` | internal/scrapper/application/subscription/service.go:113-158 | A successful AddLink uses the stored link row as it is or a new one with the current time, adds exactly one subscription and its tags, and answers with that link |
| `Replies.RemoveReplies` | internal/scrapper/application/subscription/service.go:162-197 | RemoveLink succeeds if and only if the chat is registered, tracks the url itself and no statement fails; ChatNotRegistered, LinkNotFound, NotSubscribed and a database error each have their exact condition |
| `Replies.RemoveEffect` | internal/scrapper/application/subscription/service.go:162-197 | A successful RemoveLink deletes exactly that subscription and its tags, and the link exactly if no other chat tracks it; the answer carries no tags |
| `Replies.RegisterReplies` | internal/scrapper/infrastructure/repository/sqlbuilder/chat.go:27-50 | A chat is registered exactly if it was not yet; a second registration and a failing statement have their own errors |
| `Replies.DeleteReplies` | internal/scrapper/infrastructure/repository/sqlbuilder/chat.go:76-96 | A registered chat goes with exactly its subscriptions and their tags; an unknown chat and a failing statement have their own errors |
| `Replies.DeletedLinks` | migrations/002_delete_orphan_link_trigger.up.sql:1-18 | A chat deletion removes exactly the links that nobody else tracks, and alters no other |
| `Replies.PollSaveEffect` | internal/scrapper/infrastructure/repository/sqlbuilder/link.go:25-49 | The poller's save moves the time of the url's row or adds one row under a new id, and changes nothing else |
| `Replies.ListReplies` | internal/scrapper/application/subscription/service.go:64-100 | GetTrackedLinks lists if and only if the chat is registered and no statement fails, each link lookup included; the list is exactly the chat's subscriptions, each once, in ascending order of id, with url and tags as stored |
| `Subscriptions.Service.RegisterChat` | internal/scrapper/application/subscription/service.go:48-54 | Run statement by statement, answers and changes the tables as the register operation of the specification |
| `Subscriptions.Service.DeleteChat` | internal/scrapper/application/subscription/service.go:56-62 | Run statement by statement, answers and changes the tables as the delete operation of the specification |
| `Subscriptions.Service.GetTrackedLinks` | internal/scrapper/application/subscription/service.go:64-100 | Changes nothing, and over valid tables returns the chat's true list or the error that the first failing statement causes |
| `Subscriptions.Service.ReadLinks` | internal/scrapper/application/subscription/service.go:76-93 | The reads within the transaction give the chat's true list, or fail exactly when some link lookup fails |
| `Subscriptions.Service.Resolve` | internal/scrapper/application/subscription/service.go:80-92 | Each subscription gets the url of its link, in order; the first failing or missing link ends the loop with its error |
| `Subscriptions.Service.AddLink` | internal/scrapper/application/subscription/service.go:102-160 | Run statement by statement with a rollback at every error, has exactly the all-or-nothing effect and reply of the specification |
| `Subscriptions.Service.SaveSubscription` | internal/scrapper/infrastructure/repository/sqlbuilder/subscription.go:25-54 | Succeeds exactly when the transaction is not aborted, the row is new and every tag is accepted, and then adds the row and its tags |
| `Subscriptions.Service.InsertTags` | internal/scrapper/infrastructure/repository/sqlbuilder/subscription.go:294-329 | Inserts exactly the tag rows given, and succeeds exactly when no insert fails, none is repeated and none is over 255 characters |
| `Subscriptions.Service.RemoveLink` | internal/scrapper/application/subscription/service.go:162-197 | Run statement by statement with a rollback at every error, has exactly the all-or-nothing effect and reply of the specification; the reply carries no tags |
| `Caching.CacheRefinesService` | internal/scrapper/application/subscription/caching_service.go:32-131 | For every run of calls on any chats, with entries expiring and cache reads, sets and invalidations failing at will, the tables are those of the bare service, and each call answers what it would answer, up to tag order, unless the list is served from an entry with a lost invalidation outstanding; a cached list may also hide a database failure, and a deletion whose invalidation is lost answers with that error |
| `Caching.RunKeepsCoherent` | internal/scrapper/application/subscription/caching_service.go:32-131 | In every run without a lost invalidation each entry present is the true list of a registered chat |
| `Caching.CachedStepKeepsEntry` | internal/scrapper/application/subscription/caching_service.go:32-131 | One call that loses no invalidation of a chat keeps that chat's entry true, or makes it so, although only the entry of the call's own chat is invalidated |
| `Caching.CachedStepStore` | internal/scrapper/application/subscription/caching_service.go:32-131 | The cache never changes what is stored, not even when its own calls fail |
| `Caching.ListIsCached` | internal/scrapper/application/subscription/caching_service.go:43-85 | A list that was read and set is served from then on, even if every database statement fails, until its entry goes or is set anew |
| `Caching.EntryIff` | internal/scrapper/application/subscription/caching_service.go:36-131 | An entry is there after a call if and only if the call read and set that chat's list, or it was there and neither expired nor was invalidated by a successful change of that chat |
| `Caching.LostInvalidationWrong` | internal/scrapper/application/subscription/caching_service.go:87-131 | From any state with a true entry, a successful change whose invalidation is lost makes every list wrong that is served from that entry before it goes, is set anew, or the chat changes again |
| `Caching.ChangeAltersList` | internal/scrapper/application/subscription/service.go:56-197 | Every successful AddLink, RemoveLink or chat deletion alters the chat's list or unregisters it |
| `Caching.CachingService.RegisterChat` | internal/scrapper/application/subscription/caching_service.go:32-34 | Acts on tables and entries as one step of the cached specification |
| `Caching.CachingService.DeleteChat` | internal/scrapper/application/subscription/caching_service.go:36-41 | Acts as one step of the cached specification; a lost invalidation is the reported error although the chat is gone |
| `Caching.CachingService.GetTrackedLinks` | internal/scrapper/application/subscription/caching_service.go:43-85 | Acts as one step of the cached specification: a readable live entry is served, anything else reads through and sets the entry |
| `Caching.CachingService.AddLink` | internal/scrapper/application/subscription/caching_service.go:87-108 | Acts as one step of the cached specification: invalidates after success only, and drops the invalidation's error |
| `Caching.CachingService.RemoveLink` | internal/scrapper/application/subscription/caching_service.go:110-131 | Acts as one step of the cached specification: invalidates after success only, and drops the invalidation's error |
| `Staleness.BoundedStaleness` | internal/scrapper/application/subscription/caching_service.go:43-107 | For every interleaving of readers and writers and any lost invalidations, each list served at t was the true list of the chat, then registered, at some instant no earlier than t minus the entry lifetime minus its read-to-set delay |
| `Staleness.NextKeepsSound` | internal/scrapper/infrastructure/adapter/out/cache/valkey/cache.go:61-135 | Each single read, set, hit, write, invalidation or tick keeps the invariant behind the bound |
| `Staleness.StaleForDelayPlusLifetime` | internal/scrapper/application/subscription/caching_service.go:56-84 | The bound is reached: a reader that reads before a change and sets after its invalidation makes the old list be served for any time short of delay plus lifetime, with no invalidation lost, and that list was true at the instant of the read and at no other |
| `Staleness.OrderlyHitsAreCurrent` | internal/scrapper/application/subscription/caching_service.go:43-131 | In every interleaving where no chat is changed between a reader's read and its set, and each change is invalidated before the chat's next hit, every hit serves the current list of a registered chat |
| `Outbox.Producer.Add` | internal/scrapper/infrastructure/repository/sqlbuilder/outbox.go:23-53 | Appends one pending row with no retries and leaves every other row alone |
| `Outbox.Producer.GetPending` | internal/scrapper/infrastructure/repository/sqlbuilder/outbox.go:55-104 | Returns the specified batch: the oldest pending rows of the topic, at most the limit |
| `Outbox.Producer.SendEvents` | internal/scrapper/infrastructure/adapter/out/notifier/kafka/producer.go:80-127 | The loop over pending events leaves exactly the rows and sends of one specified pass, for any failing sends, increments and status writes |
| `Outbox.Producer.UpdateStatus` | internal/scrapper/infrastructure/repository/sqlbuilder/outbox.go:110-127 | Changes the status of that row alone, or nothing if the write is lost |
| `Outbox.Producer.IncrementRetries` | internal/scrapper/infrastructure/adapter/out/notifier/kafka/producer.go:136-159 | Adds one retry when the increment is applied, also if its reply is lost, and gives the row up exactly when the reply arrives and the new count reaches maxRetries |
| `Outbox.BatchIff` | internal/scrapper/infrastructure/repository/sqlbuilder/outbox.go:55-104 | A row is in the batch if and only if it is queued with fewer than limit queued rows ahead of it, and no row is in it twice |
| `Outbox.PassRow` | internal/scrapper/infrastructure/adapter/out/notifier/kafka/producer.go:80-127 | One pass changes exactly the rows of its batch, each as the loop body does for it alone |
| `Outbox.HandleOutcome` | internal/scrapper/infrastructure/adapter/out/notifier/kafka/producer.go:88-177 | For every fate of an event: it is sent exactly if it can be serialised, one retry is counted exactly if a failed send's increment is applied, and the status changes only by a working write, to SENT after an acknowledgement and to FAILED when unserialisable or when the count that came back has reached maxRetries |
| `Outbox.AheadIs` | internal/scrapper/infrastructure/repository/sqlbuilder/outbox.go:55-104 | A row's place in the queue is the number of older pending rows of the topic |
| `Outbox.PassSendsInOrder` | internal/scrapper/infrastructure/adapter/out/notifier/kafka/producer.go:80-127 | A pass sends each serialisable row of its batch exactly once, in order of creation, and sends nothing else |
| `Delivery.RunsAreExact` | internal/scrapper/infrastructure/adapter/out/notifier/kafka/producer.go:88-177 | One worker, working writes, any failing sends, any enqueues in between: a SENT row has exactly one acknowledged send and any other row none, retries equals the failed sends, a FAILED row used up exactly max(1, maxRetries) tries or cannot be serialised |
| `Delivery.RowStaysExact` | internal/scrapper/infrastructure/adapter/out/notifier/kafka/producer.go:88-177 | The same for a single row of any outbox: once its own counts are exact no healthy turn makes them inexact, whatever befell the other rows |
| `Delivery.TerminalRowsStay` | internal/scrapper/infrastructure/adapter/out/notifier/kafka/producer.go:80-177 | A row that is SENT or FAILED is never changed again by any sequence of passes of one worker, not even if their writes fail |
| `Delivery.PassDrains` | internal/scrapper/infrastructure/adapter/out/notifier/kafka/producer.go:80-159 | From any outbox, the sum over pending rows of max(1, maxRetries - retries) falls on a pass with working writes by at least the size of its batch, and bounds the queue length |
| `Delivery.FrontLeaves` | internal/scrapper/infrastructure/adapter/out/notifier/kafka/producer.go:80-159 | From any outbox, a row among the first limit of the queue is in every batch and so leaves PENDING once its remaining tries are used up |
| `Delivery.DrainBound` | internal/scrapper/infrastructure/adapter/out/notifier/kafka/producer.go:80-159 | From any outbox, also one that crashes and lost writes have left behind, a row with p queued rows ahead leaves PENDING within (p / limit + 1) * max(1, maxRetries) passes with working writes, whatever sends fail and whatever is queued behind it |
| `Relay.OutboxSafety` | internal/scrapper/infrastructure/adapter/out/notifier/kafka/producer.go:80-177 | For any number of workers, crashes and lost writes: a SENT row has at least one acknowledged send, and a FAILED row cannot be serialised or really failed at least maxRetries times |
| `Relay.RowsPersist` | internal/scrapper/infrastructure/adapter/out/notifier/kafka/producer.go:80-177 | In every such run no row vanishes, no topic or payload changes and no send is forgotten |
| `Relay.NextKeepsOwing` | internal/scrapper/infrastructure/adapter/out/notifier/kafka/producer.go:136-159 | Each step keeps retries plus the failures not yet counted by any worker at most the failed sends of the row |
| `Relay.OneWorkerTerminalStays` | internal/scrapper/infrastructure/adapter/out/notifier/kafka/producer.go:80-177 | With one worker SENT and FAILED are absorbing, even across crashes in the middle of a pass and lost writes |
| `Relay.TwoWorkersOverwrite` | internal/scrapper/infrastructure/adapter/out/notifier/kafka/producer.go:80-177 | With two workers they are not: from an empty outbox there are runs in which a SENT row becomes FAILED and, in another order, a FAILED row becomes SENT, for every maxRetries |
| `Relay.TerminalIffOneWorker` | internal/scrapper/infrastructure/adapter/out/notifier/kafka/producer.go:80-177 | Over all runs from an empty outbox, with crashes, restarts and lost writes, SENT and FAILED are absorbing if and only if at most one worker ever relays the topic |
| `Relay.LogStaysWithin` | internal/scrapper/infrastructure/adapter/out/notifier/kafka/producer.go:80-127 | In every run only rows that exist are sent |
| `Relay.PassIsRun` | internal/scrapper/infrastructure/adapter/out/notifier/kafka/producer.go:80-127 | Each pass of SendEvents is the run of one worker that fetches the batch and takes, event after event, exactly the steps the fates prescribe, so the step system's safety covers the code's own loop |
| `Polling.Scrapper.ProcessLink` | internal/scrapper/application/scrapper_service.go:111-221 | From the database's answer to the query by link, the chat loop, the event loop and the two error notices change the tables and the outbox exactly as specified, for any failing lookup, fetch, notice and transactions |
| `Polling.ChatsAreSubscribers` | internal/scrapper/application/scrapper_service.go:111-124 | The chats an update goes to are exactly the link's subscribers in the tables, each once, in order of id |
| `Polling.Scrapper.ProcessEvent` | internal/scrapper/application/scrapper_service.go:183-220 | Outbox row and last_updated of one event commit together or not at all |
| `Polling.CommitAccounting` | internal/scrapper/application/scrapper_service.go:183-220 | For any pattern of failing transactions the outbox gains exactly one row per committed event, in order, none without subscribers; last_updated is the last committed event's time; no other link and no subscription is touched |
| `Polling.RowsGained` | internal/scrapper/application/scrapper_service.go:111-221 | In plain terms, what a pass adds to the outbox: for each event whose transaction goes through, in the order fetched, one row with the link's id and url, the event's author and description, and all subscribers; nothing without subscribers |
| `Polling.CommittedPositions` | internal/scrapper/application/scrapper_service.go:183-220 | The events that commit are exactly those whose transaction meets no fault, or only a failing send with nobody to send to, in order |
| `Polling.Notices` | internal/scrapper/application/scrapper_service.go:112-171 | When a pass sends a notice instead, with which url, text and chats: to the subscribers, if any, of a link that no fetcher handles, and after a failed fetch in any case; a failed lookup ends the pass |
| `Polling.FailedEventRefetchedIff` | internal/scrapper/application/scrapper_service.go:149-220 | An event of the source is fetched by the next pass if and only if it is later than the last committed event, or than the time stored before when none committed; there is no next pass exactly if the link was deleted and nothing committed |
| `Polling.Fetch` | internal/scrapper/infrastructure/adapter/out/http/github/client.go:46-82 | Returns the new pull requests and then the new plain issues, in API order |
| `Polling.FetchPullRequests` | internal/scrapper/infrastructure/adapter/out/http/github/client.go:119-131 | Keeps exactly the pull requests strictly later than since, in order |
| `Polling.FetchIssues` | internal/scrapper/infrastructure/adapter/out/http/github/client.go:173-189 | Keeps exactly the issues that are no pull requests and strictly later than since, in order |
| `Polling.FetchIsExact` | internal/scrapper/infrastructure/adapter/out/http/github/client.go:46-82 | Each pull request, and each issue that is none, is returned as often as it occurs later than since, and nothing else |
| `Polling.IssuePositions` | internal/scrapper/infrastructure/adapter/out/http/github/client.go:173-189 | By position in the API list, the issues returned are exactly those that are no pull requests and strictly later than since, in order |
| `Polling.FreshPositions` | internal/scrapper/infrastructure/adapter/out/http/github/client.go:119-131 | By position in the API list, the pull requests returned are exactly the strictly later ones, in order |
| `EndToEnd.CommittedEventQueued` | internal/scrapper/infrastructure/adapter/out/notifier/kafka/notifier.go:35-62 | The n-th event whose transaction commits is the n-th row the outbox gains, pending, and its encoded update goes to exactly the chats that were subscribed to the link when the pass looked them up |
| `EndToEnd.CommittedEventSettled` | internal/scrapper/infrastructure/adapter/out/notifier/kafka/producer.go:80-177 | End to end, from any outbox whose sends are of rows that exist, whatever crashes and lost writes it has been through, and for any failing transactions and sends from now on: within the drain bound each committed event's row, which carries its update to exactly the link's subscribers, has exactly one acknowledged send, or used up all its tries with none, or cannot be serialised and was never sent |
| `EndToEnd.TurnsKeepPayload` | internal/scrapper/infrastructure/adapter/out/notifier/kafka/producer.go:80-177 | No run of enqueues and passes changes the topic or payload of a row |
| `Convergence.FaultFreePass` | internal/scrapper/application/scrapper_service.go:183-220 | A pass of processLink without failures enqueues exactly the fetched events and stores the time of the last of them |
| `Convergence.RunIs` | internal/scrapper/application/scrapper_service.go:149-220 | A run of failure-free passes stores the time those passes lead to and, when every pass finds subscribers, adds exactly one outbox row for each event fetched, in order |
| `Convergence.NonEmptyPassRises` | internal/scrapper/application/scrapper_service.go:149-220 | last_updated strictly rises on each non-empty pass, whatever the order fetched, and at least one distinct time is used up |
| `Convergence.PollingFallsSilent` | internal/scrapper/application/scrapper_service.go:149-220 | In every run of failure-free passes over the pipeline, each fetching after the stored time, nothing in the tables or the outbox changes any more after as many passes as there are distinct later event times, whatever the order in each pass and whether or not anyone is subscribed |
| `Convergence.EnqueuedAtLeastOnce` | internal/scrapper/application/scrapper_service.go:183-220 | Over every such run with subscribers the outbox gains one row per fetched event, in order: at least one per occurrence of each later event, none for an earlier one |
| `Convergence.ExactlyOnceIff` | internal/scrapper/application/scrapper_service.go:183-220 | Over every such run with subscribers of two or more passes the outbox gains exactly one row per occurrence of each later event, and no other, if and only if the first pass ends with a newest event |
| `Convergence.SortedExactlyOnce` | internal/scrapper/application/scrapper_service.go:183-220 | Over every such run with subscribers a nondecreasing first pass gives exactly one outbox row per occurrence of each later event |
| `Convergence.RepliesFallSilentIff` | internal/scrapper/infrastructure/adapter/out/http/stackoverflow/client.go:52-230 | Polling a StackOverflow question over fixed answers and comments, in runs over the tables: after as many failure-free passes as there are distinct later answer times, nothing is left to fetch if and only if the inclusive bound let no comment through at the start; otherwise every pass fetches some comment again |
| `Convergence.CommentsNeverEnd` | internal/scrapper/infrastructure/adapter/out/http/stackoverflow/client.go:185-230 | Once a comment is let through, one is after any number of passes, whatever the answers do |
| `WorkerPool.PoolIsSafe` | internal/scrapper/application/scrapper_service.go:62-105 | Every run keeps the buffer bounded, nothing sent after close, nothing closed twice, and each enqueued link buffered, in the hands of one worker, or processed by it |
| `WorkerPool.EveryLinkProcessedOnce` | internal/scrapper/application/scrapper_service.go:62-105 | On every exit path the channel made is closed exactly once, and when the workers are gone each enqueued link was taken once and processed, also after an error or cancellation |
| `WorkerPool.ErrorsHaveCauses` | internal/scrapper/application/scrapper_service.go:55-105 | GetUpdates returns an error only if a query failed or the context was cancelled |
| `WorkerPool.CancelledAtStart` | internal/scrapper/application/scrapper_service.go:56-58 | A call cancelled before it begins starts no worker and makes no query |
| `WorkerPool.PoolProgresses` | internal/scrapper/application/scrapper_service.go:62-105 | No deadlock: in every reachable state some step of producer or worker is possible until all have finished |
| `WorkerPool.PoolTerminates` | internal/scrapper/application/scrapper_service.go:62-105 | Every step of the pool lowers a measure that is never negative |
| `WorkerPool.OnlyNewLinksAddSteps` | internal/scrapper/application/scrapper_service.go:62-105 | Writes to rows that exist, a cancellation and removals do not raise that measure; only new rows do, among them a worker's save of a url that was removed meanwhile. So GetUpdates and its workers end once no more rows arrive |
| `WorkerPool.Completes` | internal/scrapper/application/scrapper_service.go:62-105 | From every reachable state of a pass that is neither cancelled nor failed, GetUpdates can still return nil |
| `WorkerPool.ProcessedIffNeverSkipped` | internal/scrapper/application/scrapper_service.go:74-105 | While last_updated values change, links with new ids arrive and links are removed anywhere, a GetUpdates returning nil has processed a link that was there throughout if and only if no removal below the next query's offset ever happened while that link stood right at that offset |
| `WorkerPool.SkippedNeverTaken` | internal/scrapper/application/scrapper_service.go:74-105 | After such a removal the link is never handed to a worker, however the pass goes on and ends |
| `WorkerPool.NoLinkTakenTwice` | internal/scrapper/application/scrapper_service.go:74-105 | Whatever is removed meanwhile, no link is handed to the workers twice |
| `WorkerPool.WalkProcessesAll` | internal/scrapper/application/scrapper_service.go:74-105 | While last_updated values change and links with new ids arrive, and none is removed, a GetUpdates returning nil has processed each link present at its start, and no link twice |
| `WorkerPool.RemovalSkipsALink` | internal/scrapper/infrastructure/repository/sqlbuilder/link.go:127-161 | For every table longer than a page there is a pass that returns nil with a single removal, within the page just read, and never processes the link behind that page |
| `WorkerPool.PagingByTimeSkips` | internal/scrapper/infrastructure/repository/sql/link.go:107-139 | Paging by last_updated is unsafe against the workers' own writes: there is a pass that returns nil with a single write to the first link, misses the link behind the first page and takes the first link twice |
| `RateLimiter.IPRateLimiter.Allow` | internal/resilience/ratelimit.go:59-72 | Creates a full bucket for an unknown client, answers by that client's bucket and changes no other entry |
| `RateLimiter.IPRateLimiter.Clean` | internal/resilience/ratelimit.go:82-88 | The sweep loop deletes exactly the entries idle longer than the lifetime |
| `RateLimiter.RequestEffect` | internal/resilience/ratelimit.go:59-72 | A request is let through exactly if a whole token is available, a whole burst for an unknown client, and then takes one; the client was last seen now and no other client is touched |
| `RateLimiter.SweepEffect` | internal/resilience/ratelimit.go:82-88 | A sweep forgets exactly the clients not seen for longer than the lifetime and alters no other entry |
| `RateLimiter.EvictionInvisible` | internal/resilience/ratelimit.go:59-93 | If buckets refill in time, every request of every trace with any sweeps is answered as if nothing were ever evicted |
| `RateLimiter.EvictionInvisibleIff` | internal/resilience/ratelimit.go:59-93 | Eviction is invisible in every trace if and only if buckets refill in time, for any bound on the time between the two clock readings of a call |
| `RateLimiter.RefillsInTimeMeans` | internal/resilience/ratelimit.go:59-93 | When at most one token refills between the two readings, buckets refill in time if and only if rps * (ttl - skew) >= burst |
| `RateLimiter.RequestKeepsRefill` | internal/resilience/ratelimit.go:59-72 | If so, each request leaves its bucket such that it will be full a lifetime after the client was last seen |
| `RateLimiter.TwoBurstsAllowed` | internal/resilience/ratelimit.go:59-93 | A client forgotten by a sweep is allowed a whole second burst just after the lifetime |
| `RateLimiter.WindowBound` | internal/resilience/ratelimit.go:59-72 | Under that condition at most burst + rps * (t - s) requests of a client are allowed in any interval, whatever others do and whenever the cleaner sweeps |
| `RateLimiter.WindowBoundIff` | internal/resilience/ratelimit.go:59-93 | That bound holds for every trace, client and interval if and only if buckets refill in time |
| `RateLimiter.PlainWindowBound` | internal/resilience/ratelimit.go:59-72 | The same bound without eviction, for any lifetime |
| `RateLimiter.AnswerByLevel` | internal/resilience/ratelimit.go:59-72 | An answer depends on nothing but the client's own token level: allowed exactly if one token has been refilled |
| `RateLimiter.SweepLevel` | internal/resilience/ratelimit.go:82-88 | A sweep changes no client's level, given that every bucket is full a lifetime after its client was last seen |
| `Retry.RoundTrip` | internal/resilience/http.go:118-158 | Attempts stop at the first that decides and number at most maxRetries; the reply is the last attempt's response or an error; every body obtained is closed except the one returned |
| `Retry.LastAttemptIff` | internal/resilience/http.go:118-158 | An attempt is the last if and only if all before it went on and it does not, or it is the last allowed; attempts go on after a network error, too many requests at the breaker, a cancellation only the breaker saw or a retryable status, and after nothing else |
| `Retry.AnsweredIff` | internal/resilience/http.go:118-158 | The reply is the response with that status to attempt n if and only if n is the last attempt, it reaches the network and the network answered so; otherwise the request fails |
| `Retry.GoodResponseReturned` | internal/resilience/http.go:149-155 | A response that need not be retried is returned as soon as it comes |
| `Retry.WireCallsAre` | internal/resilience/http.go:118-158 | The network calls counted are the attempts that neither the context, the body nor the breaker refuses |
| `Retry.BreakerRoundTrip` | internal/resilience/http.go:213-240 | The base answers with a status if and only if nothing refuses the call and the network answered with it, and with the open error exactly when the breaker is open; a server error is handed on with its body closed, any other response with its body open |
| `Retry.NothingAfterRefusal` | internal/resilience/http.go:118-158 | Once an attempt sees the context cancelled, before or behind the breaker's gate, or the breaker open, no call reaches the network then or later, and at most one more attempt is made; a cancellation seen behind the gate is taken to last |
| `Retry.WireCallsBounded` | internal/resilience/http.go:118-158 | At most one network call an attempt |
| `Retry.FailureMeans` | internal/resilience/http.go:118-158 | Each attempt before the last ended in a retryable error or status, and a last attempt failing with an ordinary error was the last one allowed |
| `Tags.ParseTags` | internal/bot/application/dialog_service.go:98-120 | The trimming and splitting loop computes the specified tag list |
| `Tags.ParseYieldsTags` | internal/bot/application/dialog_service.go:98-120 | Every parsed tag is non-empty, trimmed and free of commas |
| `Tags.ParseIs` | internal/bot/application/dialog_service.go:98-120 | For every text, given as pieces between commas, the parser yields the pieces' trimmed texts in order and without the empty ones, or no tags exactly when the only piece is the word skip in any mixture of cases |
| `Tags.PiecesOf` | internal/bot/application/dialog_service.go:98-120 | Every text is such a list of pieces |
| `Tags.TrimSpaceOf` | internal/bot/application/dialog_service.go:77-84 | Trimming takes off exactly the white space at both ends |
| `Tags.JoinConcat` | internal/bot/application/commands/list.go:95 | Printing puts a comma and a blank between neighbours, and nothing else |
| `Tags.PrintAndParse` | internal/bot/application/commands/list.go:95 | Printing tags joined by a comma and a blank and parsing them again changes nothing, if and only if they are not the single tag skip in any case |
| `Tags.ParsePrintParse` | internal/bot/application/dialog_service.go:98-120 | The same for every list that parsing any text can yield |
| `Tags.SkipCanBeATag` | internal/bot/application/dialog_service.go:98-120 | The exception is reachable: skip followed by a comma parses to the tag skip |
| `Dialog.Bot.HandleMessage` | internal/bot/application/dialog_service.go:52-74 | Dispatches on the stored state and acts, with every session read, save and remote call able to fail, as the specified step; an unknown state is reset |
| `Dialog.OtherSessionsUntouched` | internal/bot/application/dialog_service.go:52-177 | One event leaves the session of every other chat alone |
| `Dialog.StateComesFrom` | internal/bot/application/commands/track.go:38-56 | A session waits for a url only by a saved /track or by nothing having ended that dialog, and for tags only by a text that answered it |
| `Dialog.UrlExactlyWhileWaitingForTags` | internal/bot/domain/session.go:27-30 | After every interleaving of commands, texts, failures and chat deletions the stored url is non-empty exactly in the state that waits for tags, and no state is unknown |
| `Dialog.AddLinkProvenance` | internal/bot/application/dialog_service.go:98-142 | Every AddLink of every run carries the parsed tags of the text that caused it and the non-empty trimmed text whose save answered the url question of the chat's latest saved /track, with no saved /untrack, successful /cancel or chat deletion in between |
| `Dialog.CallsMade` | internal/bot/application/dialog_service.go:98-177 | An event makes at most one remote call, and exactly the one that the chat's stored state and text determine |
| `Answers.TrackDialog` | internal/bot/application/commands/track.go:38-56 | A registered chat, whatever dialog it was in, that sends /track, an url and its tags makes exactly one remote call, for the trimmed url and the parsed tags; acceptance ends the dialog, anything else lets the chat send other tags for the same url |
| `Answers.UntrackDialog` | internal/bot/application/commands/untrack.go:38-56 | /untrack and an url make exactly one remote call, for the trimmed url; the dialog stays open until one is accepted |
| `Answers.CancelDialog` | internal/bot/application/commands/cancel.go:40-57 | After a /cancel the next text is taken for small talk and makes no call |
| `Answers.CancelAnswers` | internal/bot/application/commands/cancel.go:40-57 | /cancel says that it cancelled exactly if a dialog was open, and leaves no session unless it fails |
| `Answers.UrlAnswers` | internal/bot/application/dialog_service.go:76-96 | A text that answers the url question is stored, trimmed, exactly if it is not blank and the save works; each answer has its condition |
| `Answers.TagsAnswers` | internal/bot/application/dialog_service.go:98-142 | Each answer to the tags has its exact condition on the scrapper's reply and the save; every other reply leaves the dialog open |
| `Answers.UntrackUrlAnswers` | internal/bot/application/dialog_service.go:144-177 | Each answer to the url to untrack has its exact condition on the scrapper's reply and the save |
| `Answers.IdleAnswers` | internal/bot/application/dialog_service.go:52-74 | Without an open dialog a text gets the hint and makes no call |

## Left out

- Goroutines, channels and locks as such: the worker pool, the relay workers and the concurrent cache are step systems on values, so memory-level interleaving within one step is not captured.
- Convergence.RepliesFallSilentIff: whether the StackOverflow API includes its lower bound is not visible in the code; it is taken to, as the assumptions say.
- Caching.CacheRefinesService: compares tags as sets, because the join does not order them.
- Retry.RoundTrip: does not model zero attempts, which the retry library reads as unlimited, nor the delays between attempts and the body obtained for a rewound request.
- Nested transactions: WithinTransaction called inside another one does not occur in the modelled operations.
- Columns of bounded width other than the tag: identifiers are unbounded integers, and the truncation of trailing blanks in over-long tags is not modelled.
- AddTags, GetTags and DeleteTags of the subscription repository and the delete of the link repository: nothing modelled calls them.
- The direct-notifier fallback branch, where a send inside a transaction is not rolled back.
- The agent's copy of the relay, which is the same code.
- The `sql` repositories, except for their paging order.
- Kafka, PostgreSQL, Valkey, Telegram, GitHub, StackOverflow and Gemini as I/O; JSON, Avro and protobuf codecs; the internals of the breaker, of the retry library and of the backoff delay.
- Client-side caching in Valkey and isolation levels weaker than atomic transactions.
- Servers, error-code mapping, configuration, wiring, logging, the wording of messages, list formatting and filters: easy members only.
- Lower-casing beyond the letters of the word skip: no other character maps to one of them.
