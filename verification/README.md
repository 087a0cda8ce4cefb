# Verified models of the stateful cores of the iOS tree

This project models the parts of the iOS tree of Chromium that hold shared state,
run a protocol or do arithmetic that matters, and proves what they are for. The
concurrent parts are step systems in which every access to shared state is one
step, threads interleave freely, and a lock is part of the state. Beside each step
system stands a class with the original's fields and methods; each method, run
without interruption, is proved to be a run of the step system, so results about
all interleavings are results about that code. The sequential parts are classes
whose methods are proved against functions, about which the results are stated: the
x-callback results, for instance, are about `Returned`, which is what
`ExtractQueryParametersFromXCallbackURL` returns for the query that
`CreateXCallbackURLWithParameters` has built.

| files | subject |
|---|---|
| `DataSourceDeletion.dfy`, `DataSourceGuard.dfy`, `DataSourceManager.dfy` | deferred deletion of WebUI data sources |
| `WebThreadRegistry.dfy`, `WebThreadGlobals.dfy` | the registry of named threads, posting with an elided lock |
| `IoThreadDelegate.dfy` | the life of the IO sub-thread and its delegate |
| `CookieOrder.dfy`, `CookieSets.dfy`, `CookieCaching.dfy` | what a cookie cache update reports |
| `SamplingScheduler.dfy`, `ThreadProfiler.dfy` | periodic sampling windows and the collection cycle |
| `ChunkedUpload.dfy`, `ChunkedUploader.dfy` | the rendezvous of a chunked upload, with re-entrant callbacks |
| `PromoSessions.dfy`, `NotificationPromos.dfy` | what promos leave in the preferences |
| `QueryStrings.dfy`, `XCallbackUrl.dfy` | x-callback URLs, built and taken apart |
| `TimeSmoothing.dfy` | the timestamp smoother |
| `CertPolicies.dfy` | certificate exceptions per host |
| `HttpCacheClearing.dfy` | the callbacks of clearing the HTTP cache |
| `Options.dfy` | an option type |

`dafny verify dfyconfig.toml` checks everything.

## What the proofs found

Each of these is stated as a lemma, with a concrete input where something fails and
the exact condition under which it holds.

- **SendResponse's guard is enough exactly when it would stop the call, or the caller
  owns a reference.** The comment at web/webui/url_data_source_ios_impl.cc:31-41 says
  that the guard keeps a source with a zero count from being referenced again.
  `CallIsHarmlessIffSafe` proves that a call is harmless in every interleaving if and
  only if, when it is made, the caller owns a reference or the source is listed, or is
  about to be pushed by the owner of the lock; otherwise some interleaving revives the
  source. Runs in which every call is of that kind are safe as a whole
  (`SafeCallsNeverRevive`, `HoldingCallersNeverRevive`). `RevivalHasTwoCauses` says
  where a revival comes from: the source was unlisted at the look, or lost its last
  reference after it. `RevivalDestroysTwice` exhibits the double deletion.
- **The elided lock needs the order of shutdown.** It is sound while UI outlives IO;
  `DisorderedShutdownLosesTask` shows a post that returns true although UI has
  already shut down, when that order is broken.
- **An IO thread that was never registered** tells its delegate `CleanUp` without
  ever having told it `Init` (`UnregisteredThreadCleansUp`).
- **CookieCache::Update and its header disagree** when the new cookies hold two that
  agree on domain, path and name but not on the value: only the first is cached, so
  the update can return false although a new cookie is not in the cache
  (net/cookies/cookie_cache.h:36-40; `SecondValueGoesUnnoticed`,
  `DocumentationHoldsIffUnambiguous`).
- **A promo's second event in one session overwrites the first.** `HandleViewed` and
  `HandleClosed` write the preferences but do not update the promo's own fields, so
  of two views one is lost, and a view after a closing reopens the promo
  (`LastEventDecides`, `SecondEventOverwrites`, `SessionIsCountedExactlyWhen`). A promo whose ID is -1 writes
  but never loads: only its last session counts, two viewed sessions store one view,
  and views add up over every run if and only if the ID is not -1
  (`UnsetIdKeepsLastSession`, `UnsetIdCountsOnce`, `ViewsAddUpIffIdIsSet`).
- **Extraction unescapes values but not keys**, so parameters come back exactly when
  their keys need no escaping (`KeyComesBackEscaped`,
  `ComesBackIffKeysArePlain`).
- **The certificate test is not quite the subset test of its comment**
  (web/security/cert_policy.cc:15-16): the empty set of errors is a subset of every
  allowance and is never allowed (`CheckIsSubsetTest`).
- **The smoother's first output is off by one microsecond** when the first time is the
  null time, since both marks start there (`NullTimeIsMoved`, `ClosedForm`),
  and its first run lacks the low mark until some time falls outside it (`RunsHaveNoGaps`).
- **A split callback's second half is run exactly when the cache breaks its promise** to
  call back only after saying so, and only once (`FaultIffPromiseBroken`).

## Model

| member | source | states |
|---|---|---|
| DataSourceDeletion.NeverStranded | web/webui/url_data_manager_ios.cc:76-114 | In every interleaving of releases on any threads with posted and forced sweeps, a non-empty list implies a queued sweep, a sweep about to take the list, or a thread that has decided to post and has not yet done so, while UI accepts tasks. |
| DataSourceDeletion.ScheduledStep | web/webui/url_data_manager_ios.cc:99-113 | One step keeps that, across the window between the locked push and the unlocked post. |
| DataSourceDeletion.FirstPushPosts | web/webui/url_data_manager_ios.cc:106-109 | The list becomes non-empty only through a push whose thread has decided to post a sweep. |
| DataSourceDeletion.LockDisciplineStep | web/webui/url_data_manager_ios.cc:102-108 | The lock has exactly the holder whose code is inside a critical section, and what a thread has seen of the list stays true until it pushes. |
| DataSourceDeletion.ReleasedOnceDestroyedOnce | web/webui/url_data_manager_ios.cc:76-114 | In every interleaving without a revival a released source is in exactly one of: about to be listed, listed, swapped out, destroyed; nothing repeats, and all destruction happened on UI. |
| DataSourceDeletion.AccountsStep | web/webui/url_data_manager_ios.cc:76-114 | Every step moves a source along one ledger of places and keeps lists, threads and counts in agreement with it. |
| DataSourceDeletion.SoundIsConserved | web/webui/url_data_manager_ios.cc:76-114 | A state with such a ledger has every released source in one place, once, and every referenced one in none. |
| DataSourceDeletion.UninterruptedSend | web/webui/url_data_source_ios_impl.cc:30-46 | SendResponse run without interruption revives its source if and only if another thread has released it and not yet listed it. |
| DataSourceDeletion.EnqueueRun | web/webui/url_data_manager_ios.cc:99-113 | The steps of DeleteDataSource off UI, run in a row, append the source and queue one sweep exactly when the list was empty and UI accepts tasks. |
| DataSourceDeletion.SendRun | web/webui/url_data_source_ios_impl.cc:26-47 | The steps of SendResponse, run in a row, add one reference exactly when the source is not listed. |
| DataSourceDeletion.ForcedSweep | web/webui/url_data_manager_ios.cc:76-87 | A sweep run in a row destroys the listed sources in order, empties the list and changes nothing else. |
| DataSourceDeletion.ShutdownLeaksNothing | web/init/web_main_loop.mm:178-192 | Once the other threads are done, the forced sweep of shutdown leaves a source destroyed if and only if its count is zero, whether or not UI still runs tasks. |
| DataSourceDeletion.QuiescenceLeaksNothing | web/webui/url_data_manager_ios.cc:76-114 | While UI accepts tasks, in every run without a revival, once the queue is empty and all threads are done, a source has been destroyed if and only if its count is zero, with no forced sweep. |
| DataSourceGuard.RevivalHasTwoCauses | web/webui/url_data_source_ios_impl.cc:30-46 | In every interleaving, a response revives its source if and only if it was released but unlisted when the guard looked, or its last reference went between the look and the AddRef. |
| DataSourceGuard.CallIsHarmlessIffSafe | web/webui/url_data_source_ios_impl.cc:26-47 | A call of SendResponse revives nothing in any interleaving if and only if, when it is made, its caller owns a reference or the source is on the list or about to be pushed by the owner of the lock. |
| DataSourceGuard.CallIsHarmlessIffGuarded | web/webui/url_data_source_ios_impl.cc:30-43 | With the lock free: if and only if the caller owns a reference or the source is on the list. |
| DataSourceGuard.SafeCallsNeverRevive | web/webui/url_data_source_ios_impl.cc:26-47 | A run in which every call is of that kind when it is made never revives a source, however the threads interleave. |
| DataSourceGuard.HoldingCallersNeverRevive | web/webui/url_data_source_ios_impl.cc:26-47 | Hence no run revives a source when every caller owns a reference, and conservation holds in it. |
| DataSourceGuard.AtomicReleaseIsSafe | web/webui/url_data_source_ios_impl.cc:30-43 | When a last release off UI and the push are one step, and none for a source falls between the guard letting that source through and the AddRef, no run revives a source, whoever calls; the unlock, the post and the steps of SendResponse interleave freely, and conservation holds. |
| DataSourceGuard.RevivalInWindow | web/webui/url_data_source_ios_impl.cc:30-46 | A concrete run in which the guard lets a released source through. |
| DataSourceGuard.RevivalDestroysTwice | web/webui/url_data_source_ios_impl.cc:31-34 | That run continued: the same source is destroyed twice. |
| DataSourceGuard.RevivalBetweenCheckAndUse | web/webui/url_data_source_ios_impl.cc:30-46 | A concrete run in which the last reference goes after the guard has looked. |
| DataSourceManager.URLDataManager.DeleteDataSource | web/webui/url_data_manager_ios.cc:90-114 | On UI the source is destroyed at once; elsewhere it is appended to the list, and the whole new state is that of the step system's run. |
| DataSourceManager.URLDataManager.Release | web/webui/url_data_source_ios_impl.h:36-54 | The count drops by one, and at zero the source is deleted through DeleteDataSource on the releasing thread. |
| DataSourceManager.URLDataManager.DeleteDataSources | web/webui/url_data_manager_ios.cc:76-87 | The listed sources are destroyed in order, the list is left empty and counts are unchanged; the state is that of the step system's run. |
| DataSourceManager.URLDataManager.IsScheduledForDeletion | web/webui/url_data_manager_ios.cc:131-137 | True if and only if the source is on the list, which may not exist yet; the lock is released. |
| DataSourceManager.URLDataManager.SendResponse | web/webui/url_data_source_ios_impl.cc:26-47 | Adds one reference for the posted response unless the source is listed; the state is that of the step system's run. |
| WebThreadRegistry.ElidedReadsDoNotRace | web/web_thread_impl.cc:63-82 | While a thread uses an entry without the lock, no other thread is inside, or waiting for, a critical section that writes that entry. |
| WebThreadRegistry.ElidedReadEqualsLockedRead | web/web_thread_impl.cc:63-96 | However long a thread is delayed before its read or its hand-over, whatever the others do, the entry it reads stays the same, as under the lock. |
| WebThreadRegistry.LifetimesRun | web/init/web_main_loop.mm:121-136 | Every run in the documented order keeps the locking rules, the writers' view of their entries, the binding of runners and the ground of every elision. |
| WebThreadRegistry.ElisionStarts | web/web_thread_impl.cc:69-72 | A thread that decides to skip the lock is bound to an identifier that the target outlives and that nobody is registering. |
| WebThreadRegistry.StatusOnlyAdvances | web/web_thread_impl.cc:262-281 | An identifier only moves from uninitialized to running to shutdown; whenever the lock is free its runner is bound exactly when it has left uninitialized. |
| WebThreadRegistry.StatusStep | web/web_thread_impl.cc:268-280 | One step moves an identifier at most one place. |
| WebThreadRegistry.LockIsBalanced | web/web_thread_impl.cc:75-93 | A thread that has returned, or is about to acquire the lock, does not hold it. |
| WebThreadRegistry.PostsAreExact | web/web_thread_impl.cc:56-96 | In every run a finished post returned true if and only if its task was handed over exactly once, and every hand-over went to the bound runner of an identifier that was running at that moment. |
| WebThreadRegistry.PostsReachTheirTarget | web/web_thread_impl.cc:56-96 | In every run, a post that returned true handed its task over once, to the runner bound to the identifier it was posted to; one that returned false handed nothing over. |
| WebThreadRegistry.DisorderedShutdownLosesTask | web/web_thread_impl.cc:63-72 | Without the documented order of lifetimes, for any task, there is a run in which it is handed to an identifier already shut down and the post returns true. |
| WebThreadRegistry.RegisterRun | web/web_thread_impl.cc:256-273 | The constructor's steps in a row bind the runner and set the identifier running. |
| WebThreadRegistry.ShutdownRun | web/web_thread_impl.cc:275-281 | The destructor's steps in a row set the identifier shut down and keep its runner. |
| WebThreadRegistry.LookupRun | web/web_thread_impl.cc:69-76 | The search's steps in a row decide whether to elide, and leave the registry as it was. |
| WebThreadRegistry.OutlivesIff | web/web_thread_impl.cc:69-72 | The lock is elided exactly when the lowest identifier bound to the current thread is not below the target's. |
| WebThreadRegistry.DeliverRun | web/web_thread_impl.cc:78-95 | The rest of a post, elided or not, hands exactly this task to exactly this identifier's runner when the identifier is running, records the answer, and changes nothing else. |
| WebThreadGlobals.Globals.Register | web/web_thread_impl.cc:256-273 | The entry is running with the given runner, the other entry is as before and the lock is free; this is the step system's registration. |
| WebThreadGlobals.Globals.Unregister | web/web_thread_impl.cc:275-281 | The entry is shut down with the runner it had, the other entry is as before and the lock is free; this is the step system's shutdown. |
| WebThreadGlobals.Globals.IsThreadInitialized | web/web_thread_impl.cc:308-317 | True if and only if the identifier is running. |
| WebThreadGlobals.Globals.CurrentlyOn | web/web_thread_impl.cc:320-327 | True if and only if the identifier's runner is bound to the calling thread, in whatever state the identifier is. |
| WebThreadGlobals.Globals.GetCurrentThreadIdentifier | web/web_thread_impl.cc:344-359 | Finds the calling thread if and only if some runner is bound to it, and gives the first such identifier. |
| WebThreadGlobals.Globals.PostTaskHelper | web/web_thread_impl.cc:56-96 | Returns whether the target is running, and hands this task to that target's runner exactly then; the state is that of the step system's lookup and delivery. |
| IoThreadDelegate.DelegateIsToldInPairs | web/web_sub_thread.cc:85-102 | When the thread has ended, a registered thread has told one delegate Init and then CleanUp, once each, or nobody anything; an unregistered one at most CleanUp. |
| IoThreadDelegate.RegisteredDelegateIsServed | web/web_sub_thread.cc:21-28 | Over any run the delegate set at registration is the one that is told, and the only one. |
| IoThreadDelegate.LastSetIsTold | web/web_sub_thread.cc:21-102 | When a registered thread has ended, the delegate set last before the registration has been told Init and CleanUp, and nobody anything if that was null. |
| IoThreadDelegate.RegistrationStartsService | web/web_sub_thread.cc:41-52 | Registration begins that service for the delegate then set. |
| IoThreadDelegate.InvRun | web/web_sub_thread.cc:37-102 | Every run keeps the order of start, registration, initialisation task, stop and clean-up. |
| IoThreadDelegate.UnregisteredThreadCleansUp | web/web_sub_thread.cc:85-92 | A concrete run in which CleanUp is told without Init. |
| IoThreadDelegate.WebSubThread.RegisterAsWebThread | web/web_sub_thread.cc:41-52 | The identifier is running before the initialisation task is queued. |
| IoThreadDelegate.WebSubThread.CompleteInitializationOnWebThread | web/web_sub_thread.cc:94-102 | Takes its task from the queue and tells the delegate, if there is one, Init. |
| IoThreadDelegate.WebSubThread.CleanUpThread | web/web_sub_thread.cc:85-92 | Tells the delegate CleanUp before the registration is dropped. |
| CookieOrder.OrdersAreTotal | net/cookies/cookie_cache.cc:55-79 | Two cookies are equivalent under each comparator exactly when the compared fields agree; both are asymmetric and the finer extends the coarser. |
| CookieOrder.FieldsInOrder | net/cookies/cookie_cache.cc:55-79 | The fields decide in the order domain, path, name and, for the finer comparator only, value. |
| CookieOrder.BeforeIsLexicographic | net/cookies/cookie_cache.cc:58-77 | One string is before another exactly when it is a proper prefix or has the smaller character at the first difference. |
| CookieOrder.LessOrValueIsTransitive | net/cookies/cookie_cache.cc:67-79 | The finer comparator is transitive, also through cookies it holds equivalent. |
| CookieSets.SetDifference | net/cookies/cookie_cache.cc:31-38 | The linear merge under the finer comparator, on sets sorted only by the coarser and inserting into a set so ordered, yields all cookies of the first set whose tuple is not in the second, in order. |
| CookieSets.DifferenceTuples | net/cookies/cookie_cache.cc:31-38 | As (domain, path, name, value) tuples that is the mathematical difference, for any two collections. |
| CookieSets.BelowIsMissing | net/cookies/cookie_cache.cc:31-34 | A cookie below what is left of the other set is missing from all of it. |
| CookieSets.PassingIsSafe | net/cookies/cookie_cache.cc:31-34 | A cookie that the merge passes is none of those still to come. |
| CookieSets.InsertLast | net/cookies/cookie_cache.cc:33-37 | Inserting the next cookie of the difference into the ordered set drops nothing. |
| CookieSets.FirstCookieWins | net/cookies/cookie_cache.cc:26 | The set built from a vector is sorted and holds exactly the first cookie of each (domain, path, name). |
| CookieSets.BuildSet | net/cookies/cookie_cache.cc:26 | The loop that inserts cookie by cookie builds that set. |
| CookieCaching.CookieCache.Update | net/cookies/cookie_cache.cc:19-53 | Returns whether the tuples differ. An absent out vector stays absent; a present one keeps what it held and receives, sorted, cookies with exactly the tuples that went, or came; with an unchanged result nothing is appended. The key then holds the new set if something changed, other keys are as before, and every stored set stays sorted. |
| CookieCaching.ReportIsExact | net/cookies/cookie_cache.cc:28-52 | An update reports exactly the tuples that went and those that came, and returns false if and only if old and new tuples are the same. |
| CookieCaching.UpdateStores | net/cookies/cookie_cache.cc:40-43 | Afterwards the key holds the new tuples, repeating the update reports nothing and changes nothing, and other keys are as before. |
| CookieCaching.ReplayRebuildsCache | net/cookies/cookie_cache.cc:19-53 | Over any run of updates with the same two out vectors, applying in order what the vectors receive for a key to its old tuples gives its cached tuples. |
| CookieCaching.ReplayFromNothing | net/cookies/cookie_cache.cc:19-53 | The same from an empty cache and the empty set. |
| CookieCaching.DocumentationHoldsIffUnambiguous | net/cookies/cookie_cache.h:36-40 | The result is the documented one for every sorted cached set if and only if no two new cookies differ in the value only. |
| CookieCaching.SecondValueGoesUnnoticed | net/cookies/cookie_cache.cc:26 | Concretely, the second of two new cookies that differ in the value only goes unnoticed when the first is cached. |
| SamplingScheduler.PlansAreWellSpaced | chrome/browser/ios_thread_profiler.cc:90-102 | For any clock readings, backward jumps included, and draws in [0, 1], delays are non-negative, each window lies in its own period, and periods do not overlap. |
| SamplingScheduler.WindowsAreDisjoint | chrome/browser/ios_thread_profiler.cc:90-102 | Windows of different calls are disjoint, in the order of the calls. |
| SamplingScheduler.FractionIsRespected | chrome/browser/ios_thread_profiler.cc:65-70 | n windows take at most the configured fraction of the time from the first period's begin to the last one's end. |
| SamplingScheduler.SpanOfPeriods | chrome/browser/ios_thread_profiler.cc:90-102 | That time is at least n periods. |
| SamplingScheduler.DelaysAreBounded | chrome/browser/ios_thread_profiler.cc:90-102 | If each call comes after the previous window has ended, every later delay is at most twice the difference of period and sampling time, whatever the draws. |
| SamplingScheduler.BoundIsAttained | chrome/browser/ios_thread_profiler.cc:90-102 | Two draws attain that bound. |
| SamplingScheduler.DrawMovesEvenly | chrome/browser/ios_thread_profiler.cc:96-99 | Equal differences of draws move the window equally, from the later of clock and period start to the last place where it fits. |
| SamplingScheduler.FractionGivesPeriod | chrome/browser/ios_thread_profiler.cc:81-85 | The asserted relation of sampling and period holds if and only if the fraction is at most one. |
| SamplingScheduler.PeriodicSamplingScheduler.GetTimeToNextCollection | chrome/browser/ios_thread_profiler.cc:90-102 | Returns the planned delay and moves the period's start to the end of the planned period. |
| ThreadProfiler.CycleCarriesOneToken | chrome/browser/ios_thread_profiler.cc:244-296 | In every run, however long collections take, while the profiler lives with a task runner exactly one of a queued start, an uncompleted collection and a queued reschedule exists, and none before; collections never overlap. |
| ThreadProfiler.DelaysFitDurations | chrome/browser/ios_thread_profiler.cc:269-296 | In every run each delay but the first is non-negative and at most the slack plus what is left of a period after the time that the collection before it took. |
| ThreadProfiler.NominalDelay | chrome/browser/ios_thread_profiler.cc:232-242 | After a collection of at least the nominal duration that is at most twice the slack. |
| ThreadProfiler.StartsAreOnPlan | chrome/browser/ios_thread_profiler.cc:269-296 | In every run each collection starts no earlier than the window chosen for it, and a queued start waits for the window last chosen. |
| ThreadProfiler.StartupComesFirst | chrome/browser/ios_thread_profiler.cc:232-242 | In every run the first window starts after the estimated end of the startup profiling. |
| ThreadProfiler.ReplacedProfilerHasCompleted | chrome/browser/ios_thread_profiler.cc:278-296 | The profiler replaced by a new start has reported completion. |
| ThreadProfiler.DestructionStopsCycle | chrome/browser/ios_thread_profiler.cc:269-276 | After destruction no run starts or schedules another collection, although tasks may still be queued. |
| ThreadProfiler.IOSThreadProfiler.constructor | chrome/browser/ios_thread_profiler.cc:209-246 | Starts with the documented 30 seconds in 1500, scheduling at once exactly when a task runner is given. |
| ThreadProfiler.IOSThreadProfiler.SetMainThreadTaskRunner | chrome/browser/ios_thread_profiler.cc:258-267 | Sets the runner and queues the first start, keeping the cycle's invariant. |
| ThreadProfiler.IOSThreadProfiler.StartPeriodicSamplingCollection | chrome/browser/ios_thread_profiler.cc:278-296 | Turns the queued start into a running collection, keeping the invariant. |
| ThreadProfiler.IOSThreadProfiler.OnPeriodicCollectionCompleted | chrome/browser/ios_thread_profiler.cc:249-256 | Turns the running collection into a queued reschedule, keeping the invariant. |
| ChunkedUpload.ExecKeepsInv | net/chunked_data_stream_uploader.cc:27-97 | Any call, with any calls made from inside its completion callback, keeps: a read is pending exactly when a buffer is held; answers balance; every chunk fetched is delivered once and in order; an empty answer means the end; initialisation succeeds only before the first attempt. |
| ChunkedUpload.RunKeepsInv | net/chunked_data_stream_uploader.cc:27-97 | So does any run of calls. |
| ChunkedUpload.DeliveredBytesAreTheStream | net/chunked_data_stream_uploader.cc:64-97 | From the start, the bytes delivered by return value or by callback, followed by what the delegate still has, are the delegate's stream. |
| ChunkedUpload.EitherMayComeFirst | net/chunked_data_stream_uploader.cc:34-62 | Announcing data and then reading, or reading and then announcing, ends in the same state with the same bytes delivered, by return value in the one case and by completion in the other; after the final chunk the answer is empty. |
| ChunkedUpload.ResetReopens | net/chunked_data_stream_uploader.cc:47-53 | A reset forgets a pending read and the announced end: a read after it is answered with the delegate's data. |
| ChunkedUpload.CallbackComesLast | net/chunked_data_stream_uploader.cc:87-95 | What the network side does inside the completion callback happens after the completed upload, exactly when it is completed. |
| ChunkedUpload.AnswerKeepsInv | net/chunked_data_stream_uploader.cc:70-96 | An answered read is an attempt, its cause and one answer, by callback if and only if the read was pending. |
| ChunkedUploader.ChunkedDataStreamUploader.Upload | net/chunked_data_stream_uploader.cc:64-97 | The result and the state after the attempt and everything its completion callback does are those of the specification. |
| ChunkedUploader.ChunkedDataStreamUploader.ReadInternal | net/chunked_data_stream_uploader.cc:34-45 | Stores the buffer and answers with the attempt's result. |
| ChunkedUploader.ChunkedDataStreamUploader.UploadWhenReady | net/chunked_data_stream_uploader.cc:55-62 | Notes whether the chunk is final and attempts an upload exactly when a read is pending. |
| ChunkedUploader.ChunkedDataStreamUploader.ResetInternal | net/chunked_data_stream_uploader.cc:47-53 | Drops the pending read and the final mark, but not the mark that the stream has been read from. |
| ChunkedUploader.ChunkedDataStreamUploader.InitInternal | net/chunked_data_stream_uploader.cc:27-32 | Succeeds if and only if no upload has been attempted. |
| PromoSessions.LastEventDecides | chrome/browser/notification_promo.cc:194-207 | Of all that a session records, only the last event made while the promo can be shown decides what is stored. |
| PromoSessions.SessionIsCountedExactlyWhen | chrome/browser/notification_promo.cc:194-207 | All views of a session are counted if and only if it has none, or one that is the last thing recorded; it leaves the promo closed if and only if closing was recorded last or the promo was closed before. |
| PromoSessions.SecondEventOverwrites | chrome/browser/notification_promo.cc:194-207 | Concretely, two views in a session count once, and a view after a closing leaves the promo open. |
| PromoSessions.SessionsAddUp | chrome/browser/notification_promo.cc:149-220 | Over any number of sessions with at most one event each, stored views are the sessions viewed and never pass a positive maximum, the first view time is the clock reading of the first session viewed and stays, and closing is permanent and stops all recording. |
| PromoSessions.ViewsUpToMaximum | chrome/browser/notification_promo.cc:187-220 | From no entry, n sessions viewed between start and end and in time after the first view store exactly n views, or the maximum if that is set and smaller, with the first one's time; without a text, or with a negative maximum, they store nothing. |
| PromoSessions.ClosingIsRecorded | chrome/browser/notification_promo.cc:187-207 | A closing in time and below the maximum is stored with the views so far, and no later session changes that. |
| PromoSessions.FirstViewTimeIsFixed | chrome/browser/notification_promo.cc:200-207 | After a first view no later sessions change the stored first view time. |
| PromoSessions.ExpiredLeavesNoTrace | chrome/browser/notification_promo.cc:187-220 | Sessions before the start, from the end on, or too long after the first view leave the preferences as they were. |
| PromoSessions.OthersUntouched | chrome/browser/notification_promo.cc:158-161 | Entries of other promos stay as they were. |
| PromoSessions.UnsetIdKeepsLastSession | chrome/browser/notification_promo.cc:165-168 | With the ID -1, after any sessions the entry is what the last session that recorded something leaves by itself. |
| PromoSessions.UnsetIdCountsOnce | chrome/browser/notification_promo.cc:165-168 | Concretely, two viewed sessions of such a promo store one view. |
| PromoSessions.ViewsAddUpIffIdIsSet | chrome/browser/notification_promo.cc:165-207 | For a promo that can be shown, stored views grow by the sessions viewed over every run, from any preferences, if and only if its ID is not -1. |
| NotificationPromos.RunSession | chrome/browser/notification_promo.cc:145-220 | Loading a fresh promo and recording what happens while it can be shown leaves the preferences of the specification. |
| NotificationPromos.NotificationPromo.InitFromPrefs | chrome/browser/notification_promo.cc:165-185 | Loads each stored key that is present and keeps the field otherwise. |
| NotificationPromos.NotificationPromo.WritePrefs | chrome/browser/notification_promo.cc:149-163 | Replaces this promo's entry and no other. |
| NotificationPromos.NotificationPromo.HandleViewed | chrome/browser/notification_promo.cc:200-207 | Writes one view more than loaded, and the time now if no first view is known. |
| NotificationPromos.NotificationPromo.HandleClosed | chrome/browser/notification_promo.cc:194-198 | Writes the loaded fields as closed, unless already closed. |
| QueryStrings.EscapeRoundTrip | chrome/common/x_callback_url.cc:88-89 | Unescaping undoes escaping, for any printable text and any table that escapes what has a meaning in a query. |
| QueryStrings.EscapeChangesUnlessPlain | chrome/common/x_callback_url.cc:74 | Escaping leaves exactly the texts alone that need none, and makes the others longer unless it only replaces spaces. |
| QueryStrings.AppendJoins | chrome/common/x_callback_url.cc:57-73 | Appending a parameter to a query adds it as the last field. |
| QueryStrings.FieldsRoundTrip | chrome/common/x_callback_url.cc:86-91 | Splitting a query gives back the escaped fields that were joined. |
| QueryStrings.ExtendedFields | chrome/common/x_callback_url.cc:57-91 | Splitting a query to which fields were appended gives its own fields and then those; a trailing separator makes an empty field between. |
| QueryStrings.KeyAlone | chrome/common/x_callback_url.cc:86-91 | A field without an equals sign has an empty value. |
| XCallbackUrl.CreateXCallbackURLWithParameters | chrome/common/x_callback_url.cc:46-79 | The given callbacks, in the order success, error, cancel, and then the parameters are appended to the query that the action brings; the text is scheme, `://x-callback-url/` and action, with those fields in the query; the result is an x-callback URL. |
| XCallbackUrl.ActionIsKept | chrome/common/x_callback_url.cc:54 | Any action, with or without a query and a fragment, is taken apart into path, query and fragment without loss. |
| XCallbackUrl.PartsAreClean | chrome/common/x_callback_url.cc:54 | The parts are those of a URL: no `?` or `#` is left in the path, and no `#` in the query. |
| XCallbackUrl.BuiltText | chrome/common/x_callback_url.cc:54 | For either kind of scheme the built URL's text is the scheme, `://x-callback-url/` and the action; fields go into its query, before its fragment. |
| XCallbackUrl.OwnQueryComesFirst | chrome/common/x_callback_url.cc:54-75 | The action's own query stays at the front of the built one. |
| XCallbackUrl.ExtractQueryParametersFromXCallbackURL | chrome/common/x_callback_url.cc:81-94 | The map of all fields with unescaped values, the first of equal keys winning. |
| XCallbackUrl.DecodedFields | chrome/common/x_callback_url.cc:46-94 | For any action and any keys, extraction sees the action's own fields and then every value as given under its key as escaped. |
| XCallbackUrl.PlainKeysComeBack | chrome/common/x_callback_url.cc:46-94 | With keys that need no escaping and printable values, extracting from the built URL returns the action's own fields and what was put in, the first of equal keys winning. |
| XCallbackUrl.CallbacksWin | chrome/common/x_callback_url.cc:56-75 | A given callback keeps its reserved name against a parameter of that name, fields in the action's own query win over both, and every other callback and parameter comes back. |
| XCallbackUrl.CallbackUrlsComeBack | chrome/common/x_callback_url.cc:46-94 | From end to end, extraction gives the success, error and cancel URLs under `x-success`, `x-error` and `x-cancel`, and none of these names if it was not given, unless the action's own query names it. |
| XCallbackUrl.ComesBackIffKeysArePlain | chrome/common/x_callback_url.cc:87-89 | What was put in comes back if and only if every key given is free of characters that need escaping. |
| XCallbackUrl.KeyComesBackEscaped | chrome/common/x_callback_url.cc:87-89 | Concretely, the key `a b` comes back as `a+b`. |
| XCallbackUrl.TargetIsXCallback | chrome/common/x_callback_url.cc:54-77 | The URL made from any scheme and action is recognised, as the builder asserts. |
| XCallbackUrl.RecognisedIff | chrome/common/x_callback_url.cc:22-38 | A valid URL is recognised if and only if its host, or for a non-standard scheme the first piece of its path after an optional `//`, is the x-callback-url one. |
| XCallbackUrl.UnreservedIsTable | chrome/common/x_callback_url_unittest.cc:39-118 | The unreserved characters are such a table, and the characters used there are escaped as expected. |
| TimeSmoothing.ClosedForm | web/navigation/time_smoother.cc:10-23 | For times that do not fall, every k-th output is the maximum over j <= k of t_j + (k - j) microseconds, if and only if the first time is not the null time. |
| TimeSmoothing.NullTimeIsMoved | web/navigation/time_smoother.cc:10-23 | Concretely, the null time as first input comes out one microsecond later. |
| TimeSmoothing.OutputsIncrease | web/navigation/time_smoother.cc:10-23 | Then the outputs strictly increase. |
| TimeSmoothing.ConsecutiveOutputsDiffer | web/navigation/time_smoother.cc:11-22 | For any times, consecutive outputs differ, and an output differs from its input exactly inside a run. |
| TimeSmoothing.ChangedIffInRun | web/navigation/time_smoother.cc:10-23 | In inputs and outputs alone: an output differs from its input exactly when the input lies between the last time returned as it was and the latest output, and is then one more than that output. |
| TimeSmoothing.RunsHaveNoGaps | web/navigation/time_smoother.h:24-27 | For any times, the outputs since the marks were last reset are the whole range from the low to the high mark, if and only if some k-th time is not between the null time and k microseconds after it. |
| TimeSmoothing.OutputsBeforeReset | web/navigation/time_smoother.cc:14-17 | Until then the k-th output is k + 1 microseconds after the null time. |
| TimeSmoothing.TimeSmoother.GetSmoothedTime | web/navigation/time_smoother.cc:10-23 | Extends the run or resets both marks, and returns the high mark. |
| CertPolicies.CheckIsSubsetTest | web/security/cert_policy.cc:17-25 | The bit expression allows exactly the non-empty sets of errors contained in the allowed ones, and the answer is never DENIED. |
| CertPolicies.FewerErrorsAreAllowed | web/public/security/cert_policy.h:38-42 | With an allowed set of errors every subset is allowed, except the empty one. |
| CertPolicies.AllowedIffLastAllowanceCovers | web/security/certificate_policy_cache.cc:16-34 | After any mix of calls a certificate is allowed on a host if and only if there are errors, all of them in the last allowance for that host and certificate since the last clear. |
| CertPolicies.QueriesChangeNothing | web/security/certificate_policy_cache.cc:23-29 | A query changes no verdict, now or after any further calls, although it creates the host's entry. |
| CertPolicies.CacheRemembersLastAllow | web/security/cert_policy.cc:27-31 | What is stored for a certificate on a host is its last allowance since the last clear, and nothing otherwise. |
| CertPolicies.CertificatePolicyCache.QueryPolicy | web/security/certificate_policy_cache.cc:23-29 | Returns the verdict of the old cache and creates the host's entry. |
| CertPolicies.CertificatePolicyCache.AllowCertForHost | web/security/certificate_policy_cache.cc:16-21 | Overwrites the allowance of this certificate on this host and no other. |
| HttpCacheClearing.FaultIffPromiseBroken | net/http_cache_helper.cc:44-91 | For any behaviour of the cache, once the client's queue is drained both halves of some split callback have been run if and only if the cache called back without having said so, or twice. |
| HttpCacheClearing.ExactlyOnceAtTheEnd | net/http_cache_helper.cc:43-91 | With a cache that calls back exactly when it has said so, the client's callback has run, once, if and only if nothing is outstanding; with a backend the doom has then been answered; no two halves of a split callback are ever both run. |
| HttpCacheClearing.OutcomeIsTheSameEitherWay | net/http_cache_helper.cc:43-57 | Whichever calls answer by callback, the client's callback is run with the backend's error when there is no backend and the doom's result otherwise. |
| HttpCacheClearing.HttpCacheHelper.ClearHttpCacheOnIOThread | net/http_cache_helper.cc:62-92 | Asks for the backend, and dooms at once exactly when the answer is not pending. |
| HttpCacheClearing.HttpCacheHelper.DoomHttpCache | net/http_cache_helper.cc:36-58 | Dooms if there is a backend and posts the client's result exactly when it is known. |

## Left out

Of the repository:

- Components whose code is in Objective-C files and that only wire views, coordinators and system services together, and header-only contracts.
- The task runners, message loops, disk cache, sampling profiler, upload stream base class and preference service: they appear as queues, one-shot callbacks, a stream of bytes and a map. The original's `base` and `net` libraries are not part of this model; what is assumed of them is said below.
- `AddDataSource` and the backend that serves requests: a data source is made and referenced by the events of the step system.
- `InitFromVariations`, `InitFromJson` and the payload of promos: a promo's parameters are given.
- `ResetGlobalsForTesting`, which undoes what the registry's results rest on.
- `LeakTracker`, `referrer_util.cc`, `content_type_util.cc`, `history_state_util.cc`, `browser_about_rewriter.cc`: case tables and wrappers that would add only easy members.

Of what is modelled:

- DataSourceManager.URLDataManager.SendResponse: the task that runs `SendResponseOnIOThread` is not modelled; it is the reference added here, dropped later by a release on any thread.
- DataSourceDeletion.NeverStranded: says that a sweep is coming, not that it is ever run; fairness of the UI queue is not modelled.
- WebThreadRegistry.PostsAreExact: delays and nestability of posted tasks are not modelled, and a runner that has been handed a task is not followed further.
- WebThreadRegistry.LifetimesRun: that UI is registered before IO starts and shut down after IO is joined is taken from web/init/web_main_loop.mm; `DisorderedShutdownLosesTask` is what happens otherwise.
- IoThreadDelegate.DelegateIsToldInPairs: the thread is started once, as the main loop does, and its queue is first in, first out.
- CookieCaching.CookieCache.Update: cookie attributes the comparators do not look at are one opaque value; results are about (domain, path, name, value), since an update that changes only attributes reports and stores nothing.
- SamplingScheduler.PlansAreWellSpaced: time is real-valued; rounding and saturation of time arithmetic are not modelled.
- ThreadProfiler.CycleCarriesOneToken: a collection reports at most once; the startup profiler, which may overlap the first periodic one, and collections still running at destruction are not followed.
- ChunkedUpload.ExecKeepsInv: the network side does not read while its last read is unanswered, which the original asserts; how often the base class resets is left to the caller.
- PromoSessions.SessionsAddUp: the view count is unbounded, each event reads the clock once, and no event happens at the time that stands for "never viewed".
- XCallbackUrl.CreateXCallbackURLWithParameters: a URL is scheme, host, path, query and fragment without canonicalisation, and whether a scheme is standard is a parameter.
- XCallbackUrl.PlainKeysComeBack: values are printable ASCII; which other bytes unescaping leaves alone is decided outside this repository.
- XCallbackUrl.ComesBackIffKeysArePlain: an action's own query has keys that need no escaping, since other ones could coincide with the escaped form of a given key; `DecodedFields` says what comes back in any case.
- QueryStrings.EscapeRoundTrip: the table of characters left alone is a parameter with the properties that matter, since the original's table is outside this repository; escaping is section 2.1 of RFC 3986 with `+` for a space.
- TimeSmoothing.ClosedForm: times are unbounded integers.
- CertPolicies.AllowedIffLastAllowanceCovers: a certificate is its fingerprint, and policies are stored by value in the host map as in the original's map of objects.
- HttpCacheClearing.FaultIffPromiseBroken: a split callback's second half is taken to find the callback gone, which is recorded as a fault and has no other effect; the clearing of the QUIC server information, which returns nothing, is left out.
