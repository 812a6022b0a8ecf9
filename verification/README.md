# Codex Bridge: a verified model

Codex Bridge moves a globally ordered event journal from a private service to a browser panel,
through bounded and lossy stages that must not lose anything silently.  This project models that
pipeline and the step-by-step protocols around it in Dafny, and proves what each of them promises
over whole runs.  `dafny verify dfyconfig.toml` checks everything.

## How the project is organised

- `Common`: bytes, options, results, prefixes and suffixes
- `Payload`, `PayloadStability`: the node-budgeted bounding of event payloads, and bounding twice
- `BrokerModel`: the event broker as values: subscriptions, history, and the consumer loop cut at its awaits
- `BrokerFilter`, `BrokerPages`: what a filter selects, and what one answer of the service does
- `BrokerControl`: what every run of the broker keeps, whatever the service answers
- `BrokerJournal`, `BrokerInvariant`, `BrokerRuns`, `BrokerTheorems`: what a subscriber is owed, what every step of an honest run keeps, and the theorems about runs
- `EventBroker`: the classes `EventSubscription` and `Broker`, whose methods update fields in place and are proved against `BrokerModel`
- `PanelStream`: the panel's parser, sort-and-dedupe, push path and polling path
- `EndToEnd`, `EventForwarding`: filters, compatibility projections and the forwarding loop, joining broker and panel
- `PromptSubmission`, `SnapshotGuards`: the panel's idempotent sends and its epoch guards
- `AutomationModel`, `AutomationTheorems`, `AutomationScheduler`: the automation timers as values, the theorems, and the class
- `Ustar`, `UstarRefusals`: the strict single-member archive reader, a writer for it, and what it refuses
- `PublishRelease`: bounded tag peeling and racing publishers
- `AtomicReplace`: multi-file replacement with rollback
- `Disposition`: the attachment header printer and checker

An asynchronous method becomes the segments between its awaits; a run is any sequence of segments,
so every interleaving is covered.  A step that is not enabled changes nothing.  Fields described as
history (`delivered`, `dropped`, `log`, `installs`, `attempts`, ...) are never read by a step.

## What the theorems assume

- Broker runs that are compared with the journal (`HonestRun`): the journal is numbered
  1, 2, 3, ...; pages hold journal events, and a page with events ends at its last one; a stored
  cursor that is loaded jumps over no subscriber already registered.  None of this is implied by the checks in the code
  (`PageEndAboveLastEventLosesAnEvent`, `LateLoadLosesAnEvent`), and `PageEndIsExact` and `EarlySubscriberIsExact` say
  exactly when a run that breaks them still loses nothing.  What does not
  mention the journal (cursors, counters, limits, endings, self-stop, restart) is proved for every run.
- A subscription counts as possibly behind while a jump over a hole waits for its save, and while the
  broker is shutting down; then only the prefix property holds, until the announcement.
- The saves of the cursor are always treated as points where others may run, also when the code
  skips the store.
- End to end: events meet the panel's smaller bounds (120-character types, safe integers), have
  distinct ids, none has a control type, and the panel subscribes at its own cursor.
- Prompt submission: request ids come from a generator that does not repeat.
- Automation: the clock never goes back and a timer fires no earlier than the time it was set for.
- Publication: nobody moves or deletes tags; tag objects are content-addressed.
- Replacement: a failed rename changes nothing, and unlinking works.

The broker's three publishing loops differ only in what they offer, so one loop over a `Signal`
stands for them.  The models follow the code also where that may surprise: a refresh that was waiting
when the scheduler closed still arms its timers, and their claims are then refused; a page may move
the cursor past its last event without telling anybody.

## Model

| member | source | states |
|---|---|---|
| `Payload.BoundValue` | custom_components/codex_bridge/event_broker.py:59-91 | the recursion over one shared, mutable budget cell returns the value, and leaves the budget, of the definition in which the budget is threaded |
| `Payload.BoundMapping` | custom_components/codex_bridge/event_broker.py:80-85 | the loop over at most 64 entries, later entries overwriting earlier ones with the same cut key, agrees with the threaded definition |
| `Payload.BoundList` | custom_components/codex_bridge/event_broker.py:86-90 | the loop over at most 64 items agrees with the threaded definition |
| `Payload.SafeIsBounded` | custom_components/codex_bridge/event_broker.py:59-91 | the nodes paid for plus the budget left never exceed the budget given; all nodes, free nulls included, are at most one more than 64 for each unit spent; and every depth, width, text, key and number limit holds of the result |
| `PayloadStability.EnoughBudget` | custom_components/codex_bridge/event_broker.py:59-91 | with enough budget the result is that of bounding by depth, width and length alone, and one unit is spent for each node visited |
| `PayloadStability.BudgetLeft` | custom_components/codex_bridge/event_broker.py:69-71 | for every value and budget, what is left is the budget less the visits, or nothing |
| `PayloadStability.TwiceExactly` | custom_components/codex_bridge/event_broker.py:59-91 | when the budget covers the visits, a second pass never changes the value, and spends the same exactly when no two string keys among the first 64 entries of a mapping at depth 3 or less share their first 128 characters |
| `PayloadStability.SafeTwice` | custom_components/codex_bridge/event_broker.py:59-91 | under that condition on keys a second pass returns the same value and spends the same, for every budget, exhausted or not |
| `PayloadStability.BoundedPayloadIsStable` | custom_components/codex_bridge/event_broker.py:140-142 | a stored payload has at most 1024 nodes that were paid for and 65,537 nodes in all, keeps the limits, and is a fixed point of the bounding if no keys clash or the budget was not exhausted |
| `PayloadStability.ClashChangesTheBudget` | custom_components/codex_bridge/event_broker.py:80-85 | a clash of two small entries: the second pass spends less than the first |
| `PayloadStability.ClashChangesTheValue` | custom_components/codex_bridge/event_broker.py:80-90 | a clash with the budget exhausted: bounding the stored payload again changes it, although both passes leave nothing |
| `PayloadStability.CleanDataIsKept` | custom_components/codex_bridge/event_broker.py:59-91 | data within every limit goes through untouched while the budget lasts |
| `PayloadStability.WhatIsCut` | custom_components/codex_bridge/event_broker.py:69-91 | texts are cut at 4096 characters; numbers that do not fit, anything foreign, everything below depth 4 and everything without budget become null |
| `PayloadStability.RestIsIgnored` | custom_components/codex_bridge/event_broker.py:80-90 | only the first 64 entries of a list or mapping count |
| `PayloadStability.KeysAreCut` | custom_components/codex_bridge/event_broker.py:80-85 | an entry without a string key is as good as absent, and a longer key counts by its first 128 characters |
| `PayloadStability.StoredPayload` | custom_components/codex_bridge/event_broker.py:140-142 | a mapping within every limit is stored as it is, and anything but a mapping as an empty one |
| `BrokerModel.Clamped` | custom_components/codex_bridge/event_broker.py:346-349 | each configured size is kept when it lies within its limits (256, 1024 and 64 MiB above) and otherwise becomes the nearer limit |
| `BrokerModel.SnapshotFor` | custom_components/codex_bridge/event_broker.py:515-538 | the envelope for one subscriber asks for a snapshot at the given cursor with the given reason, narrowed to a scope exactly when the filter has one, and to a thread exactly when that scope is threads and the filter has one thread |
| `BrokerModel.SnapshotCoversFilter` | custom_components/codex_bridge/event_broker.py:525-538 | however far its scope and thread are narrowed, it covers every event the subscriber asked for |
| `BrokerModel.SnapshotForProblem` | custom_components/codex_bridge/event_broker.py:515-538 | the envelope for a compaction asks for a snapshot at the given cursor, with the scope and thread of the problem or globally |
| `BrokerJournal.OwedIsExact` | custom_components/codex_bridge/event_broker.py:249-258 | what a subscriber is owed is exactly the set of matching journal events in (after, cursor], in strictly increasing order |
| `BrokerJournal.NothingOwedYet` | custom_components/codex_bridge/event_broker.py:250-251 | nothing at or below `after` is owed |
| `BrokerJournal.OwedByRun` | custom_components/codex_bridge/event_broker.py:477-490 | selecting from a run of journal events extends what is owed by exactly that run |
| `BrokerFilter.RestrictionsAreIndependent` | custom_components/codex_bridge/event_broker.py:249-258 | scopes and threads restrict independently, and without either everything above `after` is selected |
| `BrokerFilter.ScopesUnite` | custom_components/codex_bridge/event_broker.py:249-258 | a set of scopes selects what its members select, and the empty set nothing |
| `BrokerFilter.OneScope` | custom_components/codex_bridge/event_broker.py:249-258 | one scope selects exactly its own events above `after` |
| `BrokerFilter.ThreadsUnite` | custom_components/codex_bridge/event_broker.py:249-258 | a set of threads selects what its members select |
| `BrokerFilter.OneThread` | custom_components/codex_bridge/event_broker.py:249-258 | one thread selects, among thread events, exactly its own |
| `BrokerFilter.ThreadsSpareTheRest` | custom_components/codex_bridge/event_broker.py:249-258 | a set of threads never filters out an event that belongs to no thread |
| `BrokerFilter.OwedOfScopes` | custom_components/codex_bridge/event_broker.py:249-258 | what is owed to a filter of scopes is exactly the journal's events of those scopes in (after, cursor] |
| `BrokerFilter.OwedOfThreads` | custom_components/codex_bridge/event_broker.py:249-258 | what is owed to a filter of threads is exactly their events, and those of the other scopes asked for |
| `BrokerFilter.OwedOfEverything` | custom_components/codex_bridge/event_broker.py:249-258 | what is owed to an empty filter is all of the journal in (after, cursor] |
| `BrokerFilter.RefusedFilters` | custom_components/codex_bridge/event_broker.py:433-450 | a filter is refused exactly for a cursor out of range, an empty set, more than 64 threads, or threads without the thread scope |
| `BrokerFilter.RefusedSubscriptions` | custom_components/codex_bridge/event_broker.py:431-463 | a subscription is refused exactly when the broker is closed, the filter is refused or 32 are registered, and then nothing changes |
| `BrokerInvariant.PutKeeps` | custom_components/codex_bridge/event_broker.py:287-298 | queueing appends one envelope to the subscriber's stream and keeps the byte counter exact and both bounds |
| `BrokerInvariant.CutKeeps` | custom_components/codex_bridge/event_broker.py:300-308 | cutting keeps what was delivered a prefix of what is owed, with one terminal envelope at or above all that is dropped or refused; it always fits |
| `BrokerInvariant.CutNamesTheCursor` | custom_components/codex_bridge/event_broker.py:508-538 | an envelope that cuts a subscriber carries the broker cursor of that moment; what was queued and the event that found no room are on record, and what was delivered is untouched |
| `BrokerInvariant.DeliverKeeps` | custom_components/codex_bridge/event_broker.py:554-564 | offering the next journal event to a subscriber in step leaves it in step one further, or cut |
| `BrokerInvariant.GetConserves` | custom_components/codex_bridge/event_broker.py:260-273 | `get` changes neither the content nor the order of delivered followed by queued envelopes |
| `BrokerInvariant.CloseKeeps` | custom_components/codex_bridge/event_broker.py:310-317 | closing by the owner leaves a prefix and nothing queued |
| `BrokerInvariant.PutAllKeeps` | custom_components/codex_bridge/event_broker.py:483-490 | replaying in order completes the stream up to the cursor or cuts the subscriber |
| `BrokerInvariant.NewSubKeeps` | custom_components/codex_bridge/event_broker.py:465-490 | a new subscriber starts in step with the cursor or cut, and is cut whenever it is older than the cache |
| `BrokerInvariant.NewSubServedExactly` | custom_components/codex_bridge/event_broker.py:465-490 | replay serves a new subscriber exactly when the cache reaches back far enough and what it is owed fits |
| `BrokerControl.AppendOk` | custom_components/codex_bridge/event_broker.py:496-506 | appending any newer event keeps the byte counter exact, both limits, and the cache above the point the broker started from |
| `BrokerControl.ReactKeepsShape` | custom_components/codex_bridge/event_broker.py:554-579 | whatever is signalled, a live subscription keeps exact bounded queues and becomes at most cut, with one terminal envelope |
| `BrokerControl.GetShape` | custom_components/codex_bridge/event_broker.py:260-273 | `get` keeps that shape, and ends a cut subscription with its terminal envelope last |
| `BrokerControl.NewShape` | custom_components/codex_bridge/event_broker.py:465-490 | a new subscription has that shape whatever the cache holds |
| `BrokerControl.TerminateOk` | custom_components/codex_bridge/event_broker.py:577-579 | a terminal broadcast cuts every registered subscriber with that envelope and empties the set, in any run |
| `BrokerControl.FeedOk` | custom_components/codex_bridge/event_broker.py:606-618 | any page of increasing events keeps the invariant of every run |
| `BrokerControl.HaltOk` | custom_components/codex_bridge/event_broker.py:673-736 | stopping with a terminal state leaves nobody registered and everybody cut with that status |
| `BrokerControl.RespondOk` | custom_components/codex_bridge/event_broker.py:673-736 | whatever the service answers keeps the invariant of every run, and an answer that stops the loop leaves nobody waiting |
| `BrokerControl.FinishStartOk` | custom_components/codex_bridge/event_broker.py:385-406 | whatever is loaded keeps the invariant of every run, and the cache then holds only what comes after |
| `BrokerControl.StepOk` | custom_components/codex_bridge/event_broker.py:226-736 | every step, honest or not, keeps the invariant of every run and never moves the cursor back |
| `BrokerControl.ReachableOk` | custom_components/codex_bridge/event_broker.py:226-736 | every reachable state, honest or not: exact counters, all limits, registered exactly while live, no terminal status while running, and at most one terminal envelope, as the last thing a subscriber gets |
| `BrokerPages.HoleIsExact` | custom_components/codex_bridge/event_broker.py:583-614 | a page has no hole exactly when its unseen events follow on from the cursor, or there are none and it does not end above it |
| `BrokerPages.GapIsExact` | custom_components/codex_bridge/event_broker.py:581-619 | for every accepted page: a gap is announced exactly when some cursor up to the page's end has no event in it; the broker moves to the page's end either way |
| `BrokerPages.PageServesExactly` | custom_components/codex_bridge/event_broker.py:606-617 | a page without a hole keeps a subscriber exactly when what it wants of the page fits, and queues exactly that, in order |
| `BrokerPages.RoomIsCounted` | custom_components/codex_bridge/event_broker.py:275-298 | room is counted as 64 bytes more than an event's estimate and 512 for everything else |
| `BrokerPages.OfferServes` | custom_components/codex_bridge/event_broker.py:566-575 | an offered envelope is queued last when there is room, and otherwise costs the subscriber its place |
| `BrokerPages.StatusServes` | custom_components/codex_bridge/event_broker.py:642-671 | a status reaches the subscribers exactly when it is to be announced and has changed |
| `BrokerPages.HeartbeatIsDelivered` | custom_components/codex_bridge/event_broker.py:591-594 | a heartbeat page at the cursor moves nothing and cuts nobody with room; each gets exactly one heartbeat, and behind it the news of a reconnection if there is any |
| `BrokerPages.AppendKeepsAsMuchAsFits` | custom_components/codex_bridge/event_broker.py:496-506 | the newest event is kept unless it alone is too large, and with it as many older ones as both limits allow |
| `BrokerPages.SavesTheCursor` | custom_components/codex_bridge/event_broker.py:543-552 | a save that is due and works leaves the cursor in the store and remembers it; one that fails is remembered as not saved |
| `BrokerPages.AnswersAreSorted` | custom_components/codex_bridge/event_broker.py:673-736 | every answer stops the loop in its own state, or is retried with one more retry, or is consumed and saved |
| `BrokerPages.RecoveryJumps` | custom_components/codex_bridge/event_broker.py:631-636 | a compaction moves the broker to the largest of its own cursor and the two it was told |
| `BrokerPages.BadPages` | custom_components/codex_bridge/event_broker.py:200-222 | what makes a page unacceptable |
| `BrokerPages.SaveGoesOn` | custom_components/codex_bridge/event_broker.py:601-622 | after the save the loop goes on, replaying while there is more, with retries reset; a gap or compaction first cuts everybody with its own reason |
| `BrokerPages.ReconnectIsReported` | custom_components/codex_bridge/event_broker.py:708-726 | a lost connection is reported to everybody with room, unless that is the status already |
| `BrokerPages.CloseEndsEverything` | custom_components/codex_bridge/event_broker.py:408-422 | shutting down closes everybody, forces the save and stops |
| `BrokerPages.ShutdownBegins` | custom_components/codex_bridge/event_broker.py:408-418 | closing begins at once and waits only for a load |
| `BrokerPages.LoadIsTakenOver` | custom_components/codex_bridge/event_broker.py:383-406 | a usable stored cursor is taken over, also when a close came first; any other is ignored |
| `BrokerPages.CloseIsAtOnce` | custom_components/codex_bridge/event_broker.py:310-317 | closing a subscription ends it at once, also a cut one, and touches no other |
| `BrokerRuns.InvIsControlled` | custom_components/codex_bridge/event_broker.py:226-736 | the invariant of honest runs implies that of every run |
| `BrokerControl.EvictKeeps` | custom_components/codex_bridge/event_broker.py:500-504 | eviction drops oldest events only, keeps the byte counter exact and makes room within both limits |
| `BrokerControl.EvictsNoMore` | custom_components/codex_bridge/event_broker.py:500-504 | eviction stops as soon as it can: keeping one event more would break a limit |
| `BrokerRuns.AppendKeepsCache` | custom_components/codex_bridge/event_broker.py:496-506 | appending the next journal event keeps the cache a consecutive run ending at the cursor, also when the event alone is too large |
| `BrokerControl.FreshIsSuffix` | custom_components/codex_bridge/event_broker.py:583-585 | the unseen events of an ordered page are a suffix of it |
| `BrokerRuns.OfferKeeps` | custom_components/codex_bridge/event_broker.py:566-575 | heartbeats and plain statuses leave every surviving subscriber in step |
| `BrokerRuns.TerminateKeeps` | custom_components/codex_bridge/event_broker.py:577-579 | a terminal broadcast cuts every registered subscriber with that very envelope and empties the set |
| `BrokerRuns.IngestKeeps` | custom_components/codex_bridge/event_broker.py:615-617 | cursor, cache and all subscribers advance by one journal event together |
| `BrokerRuns.FeedKeeps` | custom_components/codex_bridge/event_broker.py:606-618 | a whole page keeps the invariant, or stops at the first gap with the gap marked as unannounced |
| `BrokerRuns.JumpKeeps` | custom_components/codex_bridge/event_broker.py:597-600 | jumping over a hole empties the cache and keeps every subscriber's prefix |
| `BrokerRuns.BeginPageKeeps` | custom_components/codex_bridge/event_broker.py:581-619 | consuming an accepted page up to its save keeps the invariant |
| `BrokerRuns.StatusKeeps` | custom_components/codex_bridge/event_broker.py:642-671 | a status change leaves everyone alone, offers it or cuts everyone, and touches nothing else |
| `BrokerRuns.HaltCutsEveryone` | custom_components/codex_bridge/event_broker.py:673-736 | stopping with a terminal state cuts every registered subscriber with that status at the current cursor |
| `BrokerRuns.ReconnectKeeps` | custom_components/codex_bridge/event_broker.py:708-726 | reconnecting moves no cursor and loses nothing |
| `BrokerRuns.ResumeKeeps` | custom_components/codex_bridge/event_broker.py:601-622 | what follows the save, including the announcement of a gap or compaction, keeps the invariant |
| `BrokerRuns.PersistKeeps` | custom_components/codex_bridge/event_broker.py:543-552 | a save, whether it works, fails or fails after writing, changes only the saved cursors |
| `BrokerRuns.BeginRecoveryKeeps` | custom_components/codex_bridge/event_broker.py:624-637 | compaction recovery never moves the cursor back; an unusable problem stops the loop |
| `BrokerRuns.RespondKeeps` | custom_components/codex_bridge/event_broker.py:673-736 | every way a fetch can end keeps the invariant and never moves the cursor back |
| `BrokerRuns.SubscribeKeeps` | custom_components/codex_bridge/event_broker.py:424-463 | subscribing, at any await and with any filter, keeps the invariant |
| `BrokerRuns.CloseOneKeeps` | custom_components/codex_bridge/event_broker.py:310-317 | closing one subscription keeps the invariant of all |
| `BrokerRuns.CloseAllKeeps` | custom_components/codex_bridge/event_broker.py:408-422 | shutting down keeps the invariant |
| `BrokerRuns.StartKeeps` | custom_components/codex_bridge/event_broker.py:374-385 | starting keeps the invariant up to the load of the stored cursor |
| `BrokerRuns.FinishStartKeeps` | custom_components/codex_bridge/event_broker.py:385-406 | adopting a stored cursor is safe when it jumps over no subscriber or a close came during the load, and every later cache lies above it |
| `BrokerRuns.StepKeeps` | custom_components/codex_bridge/event_broker.py:226-736 | every honest step of the broker keeps the invariant that ties it to the journal |
| `BrokerTheorems.RunKeeps` | custom_components/codex_bridge/event_broker.py:226-736 | every honest run keeps the invariant and never moves the cursor back |
| `BrokerTheorems.NoSilentGap` | custom_components/codex_bridge/event_broker.py:249-317 | in every honest run a live subscription's delivered and then queued events are exactly what it is owed up to the cursor; a cut one has a prefix and one terminal envelope at or above all it lost; an ended one got a prefix and at most that envelope, and has nothing left |
| `BrokerTheorems.PendingGapIsAnnounced` | custom_components/codex_bridge/event_broker.py:597-614 | in every run, honest or not, a hole jumped over is announced to every registered subscriber as soon as the save returns, whether or not it worked |
| `BrokerTheorems.FenceHolds` | custom_components/codex_bridge/event_broker.py:300-308 | what was dropped lies at or below the terminal envelope's cursor and above everything delivered |
| `BrokerTheorems.SnapshotFence` | custom_components/codex_bridge/event_broker.py:508-538 | in every honest run that fence holds of every cut subscription, before and after its terminal envelope is handed out, for all it had queued and for the events that found no room |
| `BrokerTheorems.RefusedEventIsFenced` | custom_components/codex_bridge/event_broker.py:554-564 | an event that finds no room is on record as lost, and the envelope that cuts the subscriber names its cursor |
| `BrokerTheorems.CachesAgree` | custom_components/codex_bridge/event_broker.py:492-506 | in every reachable state, honest or not, all byte counters are exact and all limits hold; in honest runs the cache is a run of journal events ending at the cursor |
| `BrokerTheorems.ClampNeverClips` | custom_components/codex_bridge/event_broker.py:269-269 | in every reachable state the clamp in `get` never clips, its result is the size of what stays queued, and a replacement always fits |
| `BrokerTheorems.ServedExactly` | custom_components/codex_bridge/event_broker.py:451-490 | in every honest run a subscriber is taken on exactly when the cache reaches back to its `after` and all it is owed so far fits its queue in number and bytes |
| `BrokerTheorems.DeliveryCutsExactly` | custom_components/codex_bridge/event_broker.py:554-564 | an event costs a registered subscriber its place exactly when it matches and the queue has no room for it |
| `BrokerTheorems.EndedStaysEnded` | custom_components/codex_bridge/event_broker.py:260-317 | no step, honest or not, changes a closed subscription |
| `BrokerTheorems.NothingFollowsTheEnd` | custom_components/codex_bridge/event_broker.py:260-317 | in every run, honest or not, nothing is delivered after the terminal envelope or the owner's close |
| `BrokerTheorems.CursorNeverDecreases` | custom_components/codex_bridge/event_broker.py:543-640 | over any pages, compactions, failures and failing saves, honest or not, the cursor never goes back and no saved cursor is ahead of it |
| `BrokerTheorems.SelfStopLeavesNobodyWaiting` | custom_components/codex_bridge/event_broker.py:673-736 | in every run, honest or not: whenever the loop stops by itself, everyone registered is cut with a terminal status at that cursor and the set is empty |
| `BrokerTheorems.RestartCutsOlderSubscribers` | custom_components/codex_bridge/event_broker.py:383-391 | in every run after a restart from the store, honest or not, every subscriber older than the restored cursor is cut with a snapshot, however many events have been consumed since |
| `BrokerTheorems.OldFilterIsCut` | custom_components/codex_bridge/event_broker.py:465-476 | a subscriber older than everything the cache can hold is cut at the current cursor |
| `BrokerTheorems.OwedUnchangedExactly` | custom_components/codex_bridge/event_broker.py:249-258 | what is owed does not grow over a range exactly when nothing in it matches |
| `BrokerTheorems.PageEndIsExact` | custom_components/codex_bridge/event_broker.py:606-618 | a page whose unseen events are consecutive and that ends above its last event keeps a subscriber complete exactly when nothing it asked for lies between, and keeps the cache a run exactly when it ends at its last event or the cache is empty |
| `BrokerTheorems.EarlySubscriberIsExact` | custom_components/codex_bridge/event_broker.py:383-391 | a subscriber taken before the stored cursor is loaded stays complete exactly when nothing it asked for lies at or below that cursor |
| `BrokerTheorems.LateLoadLosesAnEvent` | custom_components/codex_bridge/event_broker.py:383-391 | a concrete run in which a subscriber that came before the load is missing an event and nobody was told |
| `BrokerTheorems.PageEndAboveLastEventLosesAnEvent` | custom_components/codex_bridge/event_broker.py:618-618 | a concrete accepted page after which a live subscriber is missing an event and nobody was told |
| `EventBroker.EventSubscription.Get` | custom_components/codex_bridge/event_broker.py:260-273 | hands out the head of the queue, if any, and becomes what the specification says |
| `EventBroker.EventSubscription.Drain` | custom_components/codex_bridge/event_broker.py:282-285 | empties the queue and its byte counter |
| `EventBroker.EventSubscription.Put` | custom_components/codex_bridge/event_broker.py:287-298 | succeeds exactly when the subscription is live and both bounds allow it, and otherwise changes nothing |
| `EventBroker.EventSubscription.ReplaceThenClose` | custom_components/codex_bridge/event_broker.py:300-308 | only a live subscription is cut and unregistered |
| `EventBroker.EventSubscription.Close` | custom_components/codex_bridge/event_broker.py:310-317 | closes and unregisters once; a second call changes nothing |
| `EventBroker.Broker.constructor` | custom_components/codex_bridge/event_broker.py:336-364 | a new broker is the specified initial state |
| `EventBroker.Broker.Publish` | custom_components/codex_bridge/event_broker.py:554-579 | the fan-out loops over a changing set reach every registered subscriber once and unregister exactly those newly cut |
| `EventBroker.Broker.SetStatus` | custom_components/codex_bridge/event_broker.py:642-671 | in-place status change agrees with the specification |
| `EventBroker.Broker.AppendHistory` | custom_components/codex_bridge/event_broker.py:496-506 | the eviction loop leaves exactly the specified cache and counter |
| `EventBroker.Broker.ReplayHistory` | custom_components/codex_bridge/event_broker.py:465-490 | the replay loop, with its early exit on overflow, agrees with the specification |
| `EventBroker.Broker.Subscribe` | custom_components/codex_bridge/event_broker.py:424-463 | refuses exactly the inadmissible requests, changing nothing, and otherwise registers a new subscription replayed from the cache |
| `EventBroker.Broker.FeedEach` | custom_components/codex_bridge/event_broker.py:606-619 | the page loop with its early return on a gap agrees with the specification |
| `EventBroker.Broker.BeginPage` | custom_components/codex_bridge/event_broker.py:581-619 | `_consume` up to its save agrees with the specification |
| `EventBroker.Broker.BeginRecovery` | custom_components/codex_bridge/event_broker.py:624-637 | `_recover_snapshot` up to its save agrees with the specification |
| `EventBroker.Broker.PersistCursor` | custom_components/codex_bridge/event_broker.py:543-552 | saves only when a store is set and the cursor is new or forced |
| `EventBroker.Broker.Resume` | custom_components/codex_bridge/event_broker.py:601-622 | the continuation after the save agrees with the specification |
| `EventBroker.Broker.Respond` | custom_components/codex_bridge/event_broker.py:673-736 | the loop body for every kind of answer agrees with the specification |
| `EventBroker.Broker.Start` | custom_components/codex_bridge/event_broker.py:374-385 | start up to its load agrees with the specification |
| `EventBroker.Broker.FinishStart` | custom_components/codex_bridge/event_broker.py:386-406 | start after its load, also when a close came first, agrees with the specification |
| `EventBroker.Broker.CloseAll` | custom_components/codex_bridge/event_broker.py:419-422 | the closing loop closes every registered subscription and empties the set |
| `EventBroker.Broker.TakeFrom` | custom_components/codex_bridge/event_broker.py:260-273 | `get` on an issued subscription takes the whole broker to the model's next state |
| `EventBroker.Broker.Release` | custom_components/codex_bridge/event_broker.py:310-317 | `close` on an issued subscription takes the whole broker to the model's next state |
| `EventBroker.Broker.Shutdown` | custom_components/codex_bridge/event_broker.py:408-418 | the first part of `async_close`, also during a load |
| `EventBroker.Broker.Perform` | custom_components/codex_bridge/event_broker.py:226-736 | every step of the model but a subscription is performed by the objects and takes them to the model's next state |
| `PanelStream.SanitizeIdIsIdentity` | frontend/src/safe-dom.js:51-56 | sanitising is the identity on identifiers the parser lets through |
| `PanelStream.ParsedIsValid` | frontend/src/protocol.js:33-49 | whatever is parsed satisfies every bound of the parser |
| `PanelStream.ParseAgain` | frontend/src/protocol.js:33-49 | parsing a parsed event returns it unchanged |
| `PanelStream.ParseEach` | frontend/src/protocol.js:61-65 | the first loop keeps exactly what parses, in order |
| `PanelStream.DedupeEach` | frontend/src/protocol.js:67-72 | the second loop drops exactly the repeated sequences and ids |
| `PanelStream.NormalizeEvents` | frontend/src/protocol.js:57-75 | the two loops around the sort compute the specified window |
| `PanelStream.NormalizeIsWindow` | frontend/src/protocol.js:57-75 | for any input the window is strictly increasing, has distinct ids, is valid and bounded, is the newest part of the events left after dropping repeats, and a valid event dropped before that repeats the sequence or id of one that is not later |
| `PanelStream.FirstOfTwinsIsKept` | frontend/src/protocol.js:66-71 | of two events with one sequence the first to arrive is kept |
| `PanelStream.NormalizePermutation` | frontend/src/protocol.js:57-75 | any permutation of valid, distinct events is put in sequence order with nothing lost |
| `PanelStream.AcceptAppends` | frontend/src/event-stream.js:13-56 | accepting an event is append-and-drop-oldest; every run keeps the window ordered, distinct, bounded and at or below the cursor; a rejection changes nothing |
| `PanelStream.AcceptKeepsNewest` | frontend/src/event-stream.js:50-55 | after an accepted event that event is the last of the window, the window is the end of what was held and the event, and whatever fell out is older than all of it |
| `PanelStream.AcceptSorts` | frontend/src/event-stream.js:13-56 | an old sequence is a replay, a control event is a boundary with its error text, nothing plain is taken in after a boundary, a held id is a duplicate, and everything else is accepted |
| `PanelStream.CreateStarts` | frontend/src/event-stream.js:3-11 | a new stream keeps a valid cursor and limit, and is empty and not at a boundary |
| `PanelStream.FrozenAtBoundary` | frontend/src/event-stream.js:19-45 | after a replay boundary the window is frozen and only control events move the cursor |
| `PanelStream.AcceptEvents` | frontend/src/event-stream.js:58-77 | the polling loop computes the fold over the normalised events up to the first accepted control event |
| `PanelStream.PollingStops` | frontend/src/event-stream.js:58-77 | that fold is pushing, one by one, exactly the events up to and including the first accepted control event |
| `PanelStream.PollingMatchesPushing` | frontend/src/event-stream.js:13-77 | polling any permutation of at most 10,000 valid events with distinct sequences and ids ends in the state of pushing them in sequence order up to that event |
| `PanelStream.PushAppends` | frontend/src/event-stream.js:13-56 | pushing ordered events with new ids accepts all of them, and the window is the newest `maxEvents` of what was held and pushed: some older part followed by the window gives all of it |
| `EndToEnd.ThreadRequestSelectsThread` | custom_components/codex_bridge/websocket_api.py:1004-1024 | the panel's request subscribes to exactly its thread's events above `after` |
| `EndToEnd.SystemRequestSelectsSystem` | custom_components/codex_bridge/websocket_api.py:1004-1024 | the system request subscribes to exactly the auth and runtime events, and is owed all of them |
| `EndToEnd.ScopedThreadRequest` | custom_components/codex_bridge/websocket_api.py:1004-1024 | a compatibility request that names scopes keeps them, and must name the thread scope |
| `EndToEnd.OtherRequestsPass` | custom_components/codex_bridge/websocket_api.py:1004-1024 | other requests pass as they are, conflicting or scopeless thread filters are refused |
| `EndToEnd.ShownTellsApart` | custom_components/codex_bridge/websocket_api.py:1027-1036 | events that differ in anything the projection carries are shown differently |
| `EndToEnd.ForwardedKinds` | custom_components/codex_bridge/websocket_api.py:786-815 | everything but heartbeats is forwarded; a snapshot request tells its scope and thread, a status its state |
| `EndToEnd.OpenPanelHoldsTail` | custom_components/codex_bridge/websocket_api.py:771-804 | while nothing terminal was sent, the panel holds the last `maxEvents` of what it held and every matching journal event up to its cursor |
| `EndToEnd.SnapshotIdIsValid` | custom_components/codex_bridge/websocket_api.py:1064-1078 | the identifier made for a snapshot passes the panel's parser |
| `EndToEnd.SnapshotAcceptedExactly` | custom_components/codex_bridge/websocket_api.py:786-804 | a forwarded snapshot request is accepted exactly when it is above the panel's cursor, and then only moves the cursor and marks the stream |
| `EndToEnd.TerminalStory` | custom_components/codex_bridge/websocket_api.py:786-815 | after the terminal envelope the panel asks for a snapshot, unless it has everything up to that cursor |
| `EndToEnd.PanelNeverMissesSilently` | custom_components/codex_bridge/websocket_api.py:771-815 | in every honest run of journal, broker, forwarding and panel: until it needs a snapshot the panel holds the exact tail; it needs one only because one was requested; whenever anything was lost the request is accepted |
| `EventForwarding.ReceiveIsPanel` | custom_components/codex_bridge/websocket_api.py:771-815 | what a compatibility panel becomes depends only on the envelopes handed out, in order |
| `EventForwarding.FullModeSendsEverything` | custom_components/codex_bridge/websocket_api.py:781-785 | without the compatibility mode every envelope goes out as it is, one message each, in order |
| `EventForwarding.Forward` | custom_components/codex_bridge/websocket_api.py:771-825 | the forwarding loop, in either mode, sends on everything handed out, in order, until it would wait or the subscription has ended |
| `PromptSubmission.StepKeeps` | frontend/src/codex-bridge-panel.js:10021-10138 | every send, answer, failure, reconciliation, event and thread switch keeps: table and current record agree, ids are distinct, an unresolved submission is still its thread's |
| `PromptSubmission.RunKeeps` | frontend/src/codex-bridge-panel.js:10021-10138 | every interleaving keeps that invariant |
| `PromptSubmission.RetireKeeps` | frontend/src/codex-bridge-panel.js:9870-9883 | switching threads forgets no submission |
| `PromptSubmission.NewSendCarriesTheText` | frontend/src/codex-bridge-panel.js:10021-10049 | a send on a thread with no submission sends the typed text under the new id, once |
| `PromptSubmission.IdleSendDoesNothing` | frontend/src/codex-bridge-panel.js:10025-10031 | without a thread, without text for a new submission, or while one is under way, nothing is sent |
| `PromptSubmission.EveryCallWasTyped` | frontend/src/codex-bridge-panel.js:10021-10049 | in every interleaving each call carries the text and the new id of one send of that run, made while its thread was selected |
| `PromptSubmission.AcknowledgedFreesTheThread` | frontend/src/codex-bridge-panel.js:10050-10055 | an acknowledged submission leaves its thread free and touches no other |
| `PromptSubmission.SeenFreesTheThread` | frontend/src/codex-bridge-panel.js:10100-10129 | so does one whose message is seen, and no other message does |
| `PromptSubmission.SwitchShowsOwnSubmission` | frontend/src/codex-bridge-panel.js:9876-9879 | after a switch the panel holds the new thread's own submission, if any |
| `PromptSubmission.DropForgetsNothing` | frontend/src/codex-bridge-panel.js:9535-9535 | a refresh with nothing selected drops only the current pointer |
| `PromptSubmission.OneMessagePerSubmission` | frontend/src/codex-bridge-panel.js:10021-10090 | in every interleaving all sends with one request id carry the same text to the same thread, and two unresolved sends of a thread are the same submission |
| `PromptSubmission.FreshIdOnlyWhenResolved` | frontend/src/codex-bridge-panel.js:10024-10037 | a thread gets a new request id only after everything sent there was acknowledged or its `message.created` was seen |
| `PromptSubmission.FailedSubmissionIsRetried` | frontend/src/codex-bridge-panel.js:10064-10090 | a send that failed and whose message was not seen goes out again with the same text and id, whatever has been typed since |
| `PromptSubmission.ServerHoldsSubmissions` | frontend/src/codex-bridge-panel.js:10045-10049 | a server that deduplicates by request id and sees the sends in any order and number holds exactly one message for each, the one that was sent |
| `PromptSubmission.Composer.MutationForThread` | frontend/src/codex-bridge-panel.js:10131-10138 | reads the submission of a thread from the table or the current field |
| `PromptSubmission.Composer.Send` | frontend/src/codex-bridge-panel.js:10021-10049 | the fields after the synchronous part of a send |
| `PromptSubmission.Composer.Acknowledged` | frontend/src/codex-bridge-panel.js:10050-10055 | the fields after a successful answer |
| `PromptSubmission.Composer.Failed` | frontend/src/codex-bridge-panel.js:10064-10073 | the fields after a failed answer |
| `PromptSubmission.Composer.RefreshedAfterFailure` | frontend/src/codex-bridge-panel.js:10077-10084 | the fields after the refresh that follows a failure |
| `PromptSubmission.Composer.SettleMutation` | frontend/src/codex-bridge-panel.js:10109-10129 | the fields after a settling event |
| `PromptSubmission.Composer.RetireThread` | frontend/src/codex-bridge-panel.js:9876-9879 | the fields after a thread switch |
| `SnapshotGuards.StepKeeps` | frontend/src/codex-bridge-panel.js:9510-9563 | every select, adoption, issue, recheck and abandon keeps epochs distinct, installs in epoch order, and what is shown in the current selection on its thread |
| `SnapshotGuards.RunKeeps` | frontend/src/codex-bridge-panel.js:9510-9563 | every interleaving keeps that invariant |
| `SnapshotGuards.InstallIsCurrent` | frontend/src/codex-bridge-panel.js:11202-11259 | in every interleaving an installed record belongs to the selected thread and selection epoch, and to the refresh issued last |
| `SnapshotGuards.InstallsFollowIssueOrder` | frontend/src/codex-bridge-panel.js:11768-11806 | installs follow issue order, and what is shown, installed or adopted with a created or replacement thread, is of the selected thread unless the selection has moved on since |
| `SnapshotGuards.LastIssuedInstalls` | frontend/src/codex-bridge-panel.js:9510-9563 | a refresh of the selected thread that nothing overtakes does install its record |
| `SnapshotGuards.StaleTickDoesNothing` | frontend/src/codex-bridge-panel.js:11202-11220 | a poll tick neither begins nor installs anything once polling has stopped or restarted |
| `SnapshotGuards.SelectionsAndIssues` | frontend/src/codex-bridge-panel.js:9840-9856 | another or a forced selection is new and stops the polling, the same one is not; every refresh begun is the one issued last |
| `SnapshotGuards.OtherSteps` | frontend/src/codex-bridge-panel.js:9547-9563 | a recheck that is not the last installs nothing, abandoning just ends, adopting shows the thread |
| `SnapshotGuards.NothingSelectedShowsNothing` | frontend/src/codex-bridge-panel.js:9523-9538 | a full refresh with nothing selected clears what is shown |
| `SnapshotGuards.Refresher.SetSelectedThread` | frontend/src/codex-bridge-panel.js:9840-9856 | the fields after selecting a thread, and the epoch returned |
| `SnapshotGuards.Refresher.Show` | frontend/src/codex-bridge-panel.js:9983-9992 | the fields after a created thread is selected and shown |
| `SnapshotGuards.Refresher.Issue` | frontend/src/codex-bridge-panel.js:9516-9538 | the fields after issuing a refresh |
| `SnapshotGuards.Refresher.Continue` | frontend/src/codex-bridge-panel.js:9547-9563 | the fields after a recheck, with the installation when it was the last |
| `AutomationTheorems.LastEntryWins` | custom_components/codex_bridge/automation_scheduler.py:47-61 | exactly the automations with a valid entry are desired, each with its last valid entry |
| `AutomationModel.Order` | custom_components/codex_bridge/automation_scheduler.py:47-61 | the order of arming lists each desired automation exactly once |
| `AutomationTheorems.InstallArmsExactly` | custom_components/codex_bridge/automation_scheduler.py:62-83 | a refresh arms exactly the snapshot's automations, each by a live timer for its own firing, and begins no claim |
| `AutomationTheorems.OrderAppends` | custom_components/codex_bridge/automation_scheduler.py:47-66 | automations are armed in the order in which each first appears |
| `AutomationTheorems.InstallCancelsOld` | custom_components/codex_bridge/automation_scheduler.py:62-69 | a refresh cancels every callback that was stored |
| `AutomationTheorems.FiringBegins` | custom_components/codex_bridge/automation_scheduler.py:95-113 | a firing begins its claim with its own automation, revision, time and attempt, a reconciliation begins a refresh, and neither does once closed |
| `AutomationTheorems.CloseCancelsStored` | custom_components/codex_bridge/automation_scheduler.py:85-93 | after close no stored timer is live and nothing is stored |
| `AutomationTheorems.FiresKeeps` | custom_components/codex_bridge/automation_scheduler.py:95-113 | a timer that fires hands its place on to one claim |
| `AutomationTheorems.RetryKeeps` | custom_components/codex_bridge/automation_scheduler.py:128-141 | within the grace period a retry of that claim is pending, after it a reconciliation; no claim becomes the 23rd |
| `AutomationTheorems.ReconciliationKeeps` | custom_components/codex_bridge/automation_scheduler.py:143-166 | scheduling leaves exactly one reconciliation pending while open, five minutes ahead when it is new |
| `AutomationTheorems.StepKeeps` | custom_components/codex_bridge/automation_scheduler.py:40-166 | every step keeps stored callbacks live timers of their automations, the retry and reconciliation handles exactly the live timers of their kinds, and one carrier for each armed callback |
| `AutomationTheorems.RunKeeps` | custom_components/codex_bridge/automation_scheduler.py:40-166 | every run keeps that invariant |
| `AutomationTheorems.NeverSpins` | custom_components/codex_bridge/automation_scheduler.py:128-166 | in every run one armed firing makes at most 22 claims and at most one reconciliation is pending |
| `AutomationTheorems.TheBoundIsReached` | custom_components/codex_bridge/automation_scheduler.py:128-141 | some run makes 22 claims, so no smaller bound holds |
| `AutomationTheorems.HandlerLeavesAWayBack` | custom_components/codex_bridge/automation_scheduler.py:95-126 | a handler that ends while open leaves the snapshot armed exactly, the retry of its claim, or a reconciliation; if an exception escapes it, it only ends |
| `AutomationTheorems.NeverDark` | custom_components/codex_bridge/automation_scheduler.py:40-166 | in every run, while open and with no exception escaping, a task is under way, a retry or reconciliation is pending, or exactly the last snapshot is armed |
| `AutomationTheorems.RecoversAfterEscape` | custom_components/codex_bridge/automation_scheduler.py:95-166 | whatever escaped before, from a handler that ends properly on the same holds until another exception escapes |
| `AutomationTheorems.EscapeLeavesDark` | custom_components/codex_bridge/automation_scheduler.py:95-126 | a run in which an escaping exception leaves nothing armed, pending or under way |
| `AutomationTheorems.NoClaimAfterClose` | custom_components/codex_bridge/automation_scheduler.py:85-100 | in every run no claim begins after close, also when a refresh still arms timers |
| `AutomationScheduler.Scheduler.DesiredFirings` | custom_components/codex_bridge/automation_scheduler.py:47-61 | the snapshot loop finds the desired firings and their order |
| `AutomationScheduler.Scheduler.CancelUndesired` | custom_components/codex_bridge/automation_scheduler.py:62-65 | the loop cancels and forgets exactly the undesired callbacks |
| `AutomationScheduler.Scheduler.InstallSnapshot` | custom_components/codex_bridge/automation_scheduler.py:44-83 | the in-place refresh agrees with the specification |
| `AutomationScheduler.Scheduler.RetryLater` | custom_components/codex_bridge/automation_scheduler.py:128-141 | in-place retry scheduling agrees with the specification |
| `AutomationScheduler.Scheduler.Reconcile` | custom_components/codex_bridge/automation_scheduler.py:143-166 | in-place reconciliation scheduling agrees with the specification |
| `AutomationScheduler.Scheduler.TimerFired` | custom_components/codex_bridge/automation_scheduler.py:95-107 | the handlers up to their first await agree with the specification |
| `AutomationScheduler.Scheduler.ClaimAnswered` | custom_components/codex_bridge/automation_scheduler.py:110-124 | the handler after a claim agrees with the specification |
| `AutomationScheduler.Scheduler.RefreshAnswered` | custom_components/codex_bridge/automation_scheduler.py:123-126 | the handler after a refresh agrees with the specification |
| `AutomationScheduler.Scheduler.CloseAll` | custom_components/codex_bridge/automation_scheduler.py:85-93 | close cancels every tracked timer and forgets them all |
| `Ustar.PaddingSize` | scripts/update_codex_lock.py:634-634 | the padding is less than a block and completes the last one |
| `Ustar.BoundedReader.Read` | scripts/update_codex_lock.py:514-523 | fails only when the stream is longer than the bound, and otherwise returns the next bytes and counts them |
| `Ustar.ReadExact` | scripts/update_codex_lock.py:526-535 | returns exactly the next bytes for any chunking, and fails only on a short or overlong stream |
| `Ustar.ReadBody` | scripts/update_codex_lock.py:620-632 | writes exactly the announced body, and keeps its first 20 bytes, for any chunking |
| `Ustar.ReadTrailer` | scripts/update_codex_lock.py:640-647 | succeeds exactly when the rest of the stream is zeros within the bound |
| `Ustar.ReadRest` | scripts/update_codex_lock.py:634-649 | succeeds exactly on zero padding followed by at least 1024 zero bytes to the end |
| `Ustar.Extract` | scripts/update_codex_lock.py:606-649 | the guarded part, which reports whether the file is its own |
| `Ustar.ArchiveDetails` | scripts/update_codex_lock.py:606-662 | for every way of splitting reads: succeeds exactly on an acceptable stream with no file in the way, leaves exactly the body in the file, and on failure leaves the destination as it was |
| `Ustar.ChecksumFits` | scripts/update_codex_lock.py:551-554 | the checksum of any header fits six octal digits |
| `Ustar.FieldRoundTrip` | scripts/update_codex_lock.py:538-542 | an octal field with any padding reads back as the number written |
| `Ustar.HeaderRoundTrip` | scripts/update_codex_lock.py:545-575 | a written header reads back as the size it was written for |
| `Ustar.WriteIsAcceptable` | scripts/update_codex_lock.py:606-662 | what a single-member writer writes is accepted and its body comes back |
| `UstarRefusals.OneChangedByteIsRefused` | scripts/update_codex_lock.py:551-554 | an accepted header with any one byte outside its checksum field changed is refused |
| `UstarRefusals.OtherChecksumIsRefused` | scripts/update_codex_lock.py:551-554 | so is one whose checksum field says something else |
| `UstarRefusals.OtherFormsAreRefused` | scripts/update_codex_lock.py:547-562 | another length, type or magic, a link name or a path prefix is refused whatever the checksum |
| `UstarRefusals.OtherNamesAreRefused` | scripts/update_codex_lock.py:563-571 | the name field must spell the expected ASCII name and then end |
| `UstarRefusals.OtherFieldsAreRefused` | scripts/update_codex_lock.py:538-542 | a field with anything but octal digits and padding around them is refused |
| `UstarRefusals.PaddedFieldReads` | scripts/update_codex_lock.py:538-542 | a number in octal reads back through any padding on either side |
| `UstarRefusals.OtherSizesAreRefused` | scripts/update_codex_lock.py:572-574 | an unreadable, zero or excessive size is refused |
| `UstarRefusals.FittingHeaderIsAccepted` | scripts/update_codex_lock.py:545-575 | a header that fits in every respect is accepted, under either magic |
| `UstarRefusals.OneMachine` | scripts/update_codex_lock.py:578-588 | a binary's prefix is right for one machine only |
| `UstarRefusals.OtherPrefixesAreRefused` | scripts/update_codex_lock.py:578-588 | changing any byte that is looked at, or a prefix shorter than 20 bytes, is refused |
| `UstarRefusals.ChangedStreamIsRefused` | scripts/update_codex_lock.py:634-647 | nothing behind the body may be other than zero |
| `UstarRefusals.ShortStreamIsRefused` | scripts/update_codex_lock.py:634-649 | a stream cut short of its padding and 1024 bytes of trailer is refused |
| `UstarRefusals.LongerStreamIsExact` | scripts/update_codex_lock.py:611-647 | an acceptable stream may go on exactly with zeros, up to the bound |
| `PublishRelease.PeelTag` | scripts/publish_integration_release.py:132-152 | succeeds exactly when the chain reaches a commit through at most the given number of tag objects, and then returns that commit |
| `PublishRelease.PeelIsUnique` | scripts/publish_integration_release.py:134-152 | a tag peels to at most one commit, at one depth |
| `PublishRelease.PeelLaws` | scripts/publish_integration_release.py:132-152 | a commit is reached at once, a tag object through what it points at, and nothing through a malformed id or another kind |
| `PublishRelease.EightIsTheDepth` | scripts/publish_integration_release.py:116-152 | a tag resolves through up to eight tag objects and not through nine |
| `PublishRelease.WinnersPublished` | scripts/publish_integration_release.py:173-218 | a run that returns has its commit under the tag and the release published, so none returns over a foreign tag, a draft or a prerelease |
| `PublishRelease.RerunReturns` | scripts/publish_integration_release.py:241-268 | a rerun where tag and release are in place changes nothing and, undisturbed, returns |
| `PublishRelease.LagIsSurvived` | scripts/publish_integration_release.py:211-218 | reading back survives as many lagging reads as it has retries, and gives up at the next |
| `PublishRelease.ReadBackHasFourRetries` | scripts/publish_integration_release.py:198-216 | the readback after a create that was answered or refused has four retries |
| `PublishRelease.WhatRaises` | scripts/publish_integration_release.py:155-206 | a failing read, a release without its tag, a bad release and a lost create stop the run at once |
| `PublishRelease.WinnersAgree` | scripts/publish_integration_release.py:173-268 | for any interleaving of publishers, lagging reads, refused writes and lost answers, two runs that return normally expected the same commit |
| `PublishRelease.RemoteOnlyGrows` | scripts/publish_integration_release.py:185-268 | nothing is moved, repaired or deleted: the remote changes only by creating the missing tag at a publisher's own commit or the missing release |
| `PublishRelease.LonePublisherReturns` | scripts/publish_integration_release.py:237-268 | however an undisturbed publisher on an empty remote is scheduled, it never raises, and it has returned, with the tag at its commit and the release published, exactly when its seven steps are taken |
| `AtomicReplace.Stage` | scripts/sync_app_release.py:315-329 | a temporary is filled, or nothing of it is left |
| `AtomicReplace.StageAll` | scripts/sync_app_release.py:346-350 | staging touches no managed file; the temporaries are exactly those of the recorded paths, with their new bytes; success means all of them and every original kept |
| `AtomicReplace.CommitAll` | scripts/sync_app_release.py:351-353 | at any failing rename exactly the committed prefix of paths holds new bytes, and exactly the others are still staged |
| `AtomicReplace.Restore` | scripts/sync_app_release.py:358-366 | a file is restored or left alone, and no rollback temporary remains in either case; only a fault makes it fail |
| `AtomicReplace.RollBack` | scripts/sync_app_release.py:356-366 | the paths that still hold new bytes are exactly those reported, and the rollback leaves no temporary of its own under any fault; without further faults everything is restored |
| `AtomicReplace.UnlinkAll` | scripts/sync_app_release.py:368-369 | unlinking the recorded release temporaries leaves none |
| `AtomicReplace.Replace` | scripts/sync_app_release.py:310-376 | under any fault point: normal return means all new bytes, a plain failure means all original bytes, an incomplete rollback names exactly the paths still holding new bytes, and no release or rollback temporary remains; without faults it returns normally, and a single fault never leaves the rollback incomplete |
| `AtomicReplace.ReportIsExact` | scripts/sync_app_release.py:370-375 | a path whose bytes differ is named exactly when it still holds the new ones |
| `Disposition.Utf8RoundTrip` | custom_components/codex_bridge/http_streaming.py:201-202 | strict UTF-8 decoding inverts encoding |
| `Disposition.QuoteRoundTrip` | custom_components/codex_bridge/http_streaming.py:201-212 | percent-decoding inverts percent-encoding of any bytes |
| `Disposition.FallbackFacts` | custom_components/codex_bridge/http_streaming.py:230-232 | the printed fallback is never empty, never starts with a dot and fits the pattern |
| `Disposition.PrintedAnnouncesTheName` | custom_components/codex_bridge/http_streaming.py:218-236 | an acceptable name is printed as a header that decodes to that name, and any other as the default |
| `Disposition.AcceptableNames` | custom_components/codex_bridge/http_streaming.py:221-229 | names are refused for being empty, longer than 255 bytes, or holding a separator or control character anywhere; printable names are accepted |
| `Disposition.FallbackKeepsPlainNames` | custom_components/codex_bridge/http_streaming.py:230-232 | a plain name is its own fallback, and other characters become underscores |
| `Disposition.FallbackOfNothing` | custom_components/codex_bridge/http_streaming.py:230-232 | a name with nothing to keep falls back to a fixed word |
| `Disposition.QuoteIsCanonical` | custom_components/codex_bridge/http_streaming.py:212-235 | an unreserved byte is printed as itself, any other as a percent sign and two capital digits |
| `Disposition.Utf8Samples` | custom_components/codex_bridge/http_streaming.py:201-202 | encodings of each length, and the byte sequences strict decoding refuses |
| `Disposition.HeaderMatches` | custom_components/codex_bridge/http_streaming.py:43-46 | the header pattern reads back exactly the two printed parts |
| `Disposition.PrinterAndCheckerAgree` | custom_components/codex_bridge/http_streaming.py:190-236 | the checker returns the printed header unchanged exactly when the filename is neither "." nor ".." |
| `Disposition.CheckerPassesExactly` | custom_components/codex_bridge/http_streaming.py:190-215 | the checker returns a header other than the default exactly when it has a fitting fallback and the one canonical encoding of a safe filename of at most 255 bytes |
| `Disposition.OthersBecomeDefault` | custom_components/codex_bridge/http_streaming.py:190-215 | every other header becomes the default |

## Left out

- PayloadStability.SafeTwice: with clashing keys and the budget exhausted a second pass may or may not change the value or the budget left, depending on where the nulls fall; `ClashChangesTheValue` shows that it can, and the exact condition is given for budgets that are not exhausted.
- EndToEnd.PanelNeverMissesSilently: a terminal `stream_status` reaches the panel as a `bridge.error` without a sequence, which its parser rejects, so only the prefix property holds then; and a full refresh is a new starting state, because one page need not reach the cursor.
- AutomationTheorems.NeverDark: an exception the handlers do not catch ends its handler with nothing scheduled, as `EscapeLeavesDark` shows.
- SnapshotGuards.InstallsFollowIssueOrder: covers the three refresh paths and adoption; the thread settings update writes the active thread without an epoch check.
- AtomicReplace.Replace: an interruption between a rename and its bookkeeping is not a fault point.
- Field-by-field validation of event records, the identifier checks of `subscribe`, and the size estimate of a payload: records carry a size and are taken as validated.
- A task factory that fails when the broker starts; reconnect delays; the bound 2^63-1 on the cursor, which compaction recovery does not keep; progress of the replay loop.
- The message the forwarding loop sends when reading its subscription raises a bridge error.
- The automation timers a popped handle leaves live without being tracked; they do not affect what is proved.
- Draft text, error banners and rendering in the panel; `_pollInFlight`, which only removes interleavings.
- gzip, SHA-256, signatures, operating-system errors and file modes around the archive reader and the file replacement; release notes and version checks.
- The REST client, HTTP views, configuration, uploads, desktop features and the bridge service itself.
