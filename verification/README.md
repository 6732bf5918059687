# Models of the Telegram Desktop API layer

This project models the request logic of Telegram Desktop's client API layer, and the SHA-1 of its update packer, and
proves what that logic keeps over every input and every run. Each file holds one component:

- `SeqUpdates.dfy`: numbered update containers that arrive out of order, with gaps and repetitions, and are dropped,
  applied or buffered.
- `DiffSchedule.dfy`: the two tables of deadlines after which a difference is asked for, with one timer each.
- `FeedOrder.dfy`: in which order the elements of an update list are fed.
- `Sha1.dfy`: the packer's hand-written SHA-1 against sections 5.1.1 and 6.1.2 of FIPS 180-4.
- `ListHash.dfy`: the 64-bit hash of id lists.
- `WebPages.dfy`: batches of pending web pages, handed out through temporary negative ids.
- `MessageData.dfy`: callbacks waiting for messages, one request per place at a time.
- `DialogsLoad.dfy`: loading the dialogs of each folder in two parts.
- `StickerSets.dfy` and `StickerRequests.dfy`: saving an edited list of sticker sets, the passes over the sets and the
  protocol of the requests.
- `ViewsIncrement.dfy` and `MediaPoll.dfy`: the two batching schedulers of the views manager.
- `InviteLinks.dfy`: the cached first page of a peer's invite links and its one-element lookup.
- `Privacy.dfy`: privacy rules printed to and parsed from their wire form.
- `SendProgress.dfy`: the throttle of typing and similar notices, and their requests.
- `Ordered.dfy` and `Basics.dfy`: choosing from finite sets, and what several components share.

A component that the program keeps in an object is a class here, with the same fields. `View()` is its state as a value,
each method is proved equal to a step on such values (`ensures View() == Step(old(View()), ...)`), and the lemmas speak
about all runs of steps. `send()` is a counter that gives fresh positive ids; the requests on the way are a ghost set or
map, and a request leaves it by being answered, failing or being cancelled. A clock is a parameter. What one sees from
outside (what was fed, sent, posted or run) is a ghost log.

Where a promise that one would expect of the code does not hold for all runs, the code is kept, the condition under
which it does hold is proved in both directions, and a lemma gives an input that fails:

- A buffered container always has its timer exactly when that timer never fires into a running difference request
  (`SeqUpdates.EveryRunIsWatched`, failing run: `SeqUpdates.TimerCanBeLost`).
- A flag that says a difference is being requested has a request on the way, or for the common one a retry waiting,
  exactly unless the target was dropped: the common one by an answer that is too long or by a failed request for the
  first state, a channel by any failed request, because its flag is not cleared before the retry
  (`DiffSchedule.StuckExactly`, failing runs: `DiffSchedule.TooLongIsTheLast`, `DiffSchedule.RetrySendsNothing`). It
  then stays so and nothing more is sent for it (`DiffSchedule.StuckForever`, `DiffSchedule.FlaggedSendsNothing`).
- The packer pads as the standard does exactly for messages shorter than 2^29 bytes (`PackerSha1.PaddingAgrees`,
  `PackerSha1.PaddingDiffers`), and its loop over the blocks ends exactly for lengths below 2^32 - 64
  (`PackerSha1.EndsExactly`).
- A view is counted at most once between two resets of its peer exactly when it did not wait at the first reset, or waits
  behind a mark whose answer has come (`ViewsIncrement.PlacedOnceIff`, `ViewsIncrement.LeftOverIsPlacedTwice`).
- Every mark of a views request belongs to a request on the way exactly when no answer had another length than its
  request (`ViewsIncrement.MarksAnswered`, `ViewsIncrement.OtherLengthWedges`); otherwise the peer is marked for ever.
- Some folder's loading is stuck exactly when a dialogs request has been answered with "not modified"
  (`DialogsLoad.WedgedExactly`), and it then stays stuck for the rest of the run (`DialogsLoad.WedgedForever`).
- The stored date and message of a dialogs offset belong together exactly when the message of the last valid dialog of
  the page is listed with a date (`DialogsLoad.StoredOffsetAgrees`, `DialogsLoad.OffsetCanDisagree`).
- The fast lookup of the permanent invite link is right all through a run exactly when every answer passes a guard
  (`InviteLinks.EveryRunFits`, `InviteLinks.TwoLiveLinksBreak`), and answers as the server is expected to give them pass
  it.
- The next firing of the timer that ends typing reaches a typing request that is still running exactly when that request
  was for no topic and the last typing notice sent before the firing was for the same chat
  (`SendProgress.NextFiringReaches`, `SendProgress.OtherChatIsForgotten`). Cancelling the typing in any chat stops the
  timer (`SendProgress.CancelTypingDisarms`, `SendProgress.OtherChatIsDisarmed`).
- Privacy rules come back from the wire exactly when nobody is listed twice or on both sides and every chat is found
  again by its bare id (`Privacy.RoundTrip`, `Privacy.ClashComesBackAsChat`).

## Model

| member | source | states |
|---|---|---|
| `SeqUpdates.UpdatesManager.Apply` | Telegram/SourceFiles/api/api_updates.cpp:1330-1399 | a container is dropped, buffered or applied as the recursive specification says, and the mutual recursion with `setState` ends: the buffer shrinks |
| `SeqUpdates.UpdatesManager.SetState` | Telegram/SourceFiles/api/api_updates.cpp:331-362 | the loop that takes containers off the front of the buffer is the recursive drain, timer included |
| `SeqUpdates.UpdatesManager.RequestDifference` | Telegram/SourceFiles/api/api_updates.cpp:657-670 | asking for a difference empties the buffer and stops its timer, unless one is being asked for already, when nothing changes |
| `SeqUpdates.UpdatesManager.DifferenceDone` | Telegram/SourceFiles/api/api_updates.cpp:456-493 | an empty, a final and a slice answer set the state and free the request, a slice also asks again; an answer that is too long changes nothing, so that the request flag stays set |
| `SeqUpdates.UpdatesManager.MtpUpdateReceived` | Telegram/SourceFiles/api/api_updates.cpp:840-872 | while a difference is running only the group call updates of what is pushed are fed, whatever its number, unless it forces a logout |
| `SeqUpdates.UpdatesManager.MtpNewSessionCreated` | Telegram/SourceFiles/api/api_updates.cpp:832-838 | a new session zeroes the state number and asks for the difference |
| `SeqUpdates.ApplyKeepsSafe` | Telegram/SourceFiles/api/api_updates.cpp:1330-1399 | applying any well-formed container keeps every buffered key beyond the gap and every numbered container applied at its own number |
| `SeqUpdates.DrainGivesSafe` | Telegram/SourceFiles/api/api_updates.cpp:331-362 | draining restores safety and the timer whatever number was set, although the timer was stopped first |
| `SeqUpdates.StepKeeps` | Telegram/SourceFiles/api/api_updates.cpp:331-489 | every event keeps safety; it keeps "buffered implies timer" exactly unless it is the timer firing into a running request |
| `SeqUpdates.EveryRunIsSafe` | Telegram/SourceFiles/api/api_updates.cpp:331-362 | in every reachable state each buffered key exceeds the state number by more than one, and a numbered container was only ever applied in its turn |
| `SeqUpdates.EveryRunIsWatched` | Telegram/SourceFiles/api/api_updates.cpp:657-670 | all through a run a non-empty buffer has its timer exactly when the timer never fires into a running request |
| `SeqUpdates.TimerCanBeLost` | Telegram/SourceFiles/api/api_updates.cpp:657-670 | a run that leaves a buffered container without its timer |
| `SeqUpdates.DrainDelivers` | Telegram/SourceFiles/api/api_updates.cpp:331-362 | draining applies the whole gap-free run that has been received, each container once and in order, and leaves exactly the rest |
| `SeqUpdates.ReceiveDelivers` | Telegram/SourceFiles/api/api_updates.cpp:1330-1374 | one more container, repeated, early or next, keeps the state determined by the set of what arrived |
| `SeqUpdates.AnyOrderDelivers` | Telegram/SourceFiles/api/api_updates.cpp:1330-1374 | for every order of arrival with gaps and repetitions, the longest gap-free run is applied once each and ascending, and the buffer is exactly what was received beyond the gap |
| `SeqUpdates.AllArrived` | Telegram/SourceFiles/api/api_updates.cpp:1330-1374 | when all containers of a chain have arrived, in any order, all are applied once and in order, the number is the last one and the buffer is empty |
| `SeqUpdates.RunDelivers` | Telegram/SourceFiles/api/api_updates.cpp:840-849 | over every run in which the containers of a chain are pushed while no difference is being asked for, or force a logout, or are returned by a request, in any order with gaps and repetitions, the longest gap-free run is applied once each and the rest waits |
| `SeqUpdates.RunFeedsAside` | Telegram/SourceFiles/api/api_updates.cpp:840-872 | over every run of pushes while a difference is being asked for, number, buffer, timer and what was fed in full stay, and exactly the pushed containers are kept aside, in order |
| `SeqUpdates.TooLongIsNotKept` | Telegram/SourceFiles/api/api_updates.cpp:852-872 | a container that is too long is not even kept aside then |
| `SeqUpdates.AnswerDelivers` | Telegram/SourceFiles/api/api_updates.cpp:331-487 | an answer with a new number drops what it overtakes, applies the gap-free run that waits behind it, leaves the rest with its timer, and frees the flag |
| `SeqUpdates.AnswerWithoutNumber` | Telegram/SourceFiles/api/api_updates.cpp:331-487 | an answer without a new number only frees the flag |
| `SeqUpdates.SliceAsksAgain` | Telegram/SourceFiles/api/api_updates.cpp:469-492 | a slice is a final answer after which the buffer is emptied and the flag set again; an answer that is too long changes nothing |
| `SeqUpdates.AskingClears` | Telegram/SourceFiles/api/api_updates.cpp:657-670 | a wish, the timer, a new session, a container that is too long and one in turn that lacks data ask for the difference: flag set, buffer and timer gone, and number and feeds as the container says |
| `SeqUpdates.AskingTwice` | Telegram/SourceFiles/api/api_updates.cpp:657-661 | while a difference is being asked for, asking again changes nothing but a timer that fired and a number that a new session forgets |
| `SeqUpdates.RetryAsksAnew` | Telegram/SourceFiles/api/api_updates.cpp:628-640 | the retry after a failure asks although the flag is set |
| `SeqUpdates.ShortIsFedAtOnce` | Telegram/SourceFiles/api/api_updates.cpp:1376-1381 | a container without a number is fed at once and leaves number, buffer and timer alone |
| `SeqUpdates.FirstCopyWaits` | Telegram/SourceFiles/api/api_updates.cpp:1337-1346 | what lies beyond the gap waits under its first number with the timer set, and of two containers with one number the first is kept |
| `FeedOrder.StableSortIsPartition` | Telegram/SourceFiles/api/api_updates.cpp:291-321 | the stable sort by kind has one possible outcome, the stable partition |
| `FeedOrder.PartitionIsStableSort` | Telegram/SourceFiles/api/api_updates.cpp:291-321 | the stable partition is a stable sort |
| `FeedOrder.CountedOnce` | Telegram/SourceFiles/api/api_updates.cpp:580-591 | every update is among those of its own kind as often as in the list, and in no other |
| `FeedOrder.OfKindsConserves` | Telegram/SourceFiles/api/api_updates.cpp:580-591 | the three kinds together are the list, as multisets |
| `FeedOrder.UpdateFeeder.FeedUpdateVector` | Telegram/SourceFiles/api/api_updates.cpp:291-321 | under each skip policy, feeds group call updates first and the others after, both in their order, and only what the policy leaves |
| `FeedOrder.UpdateFeeder.FeedMessageIds` | Telegram/SourceFiles/api/api_updates.cpp:323-329 | feeds exactly the message id updates, in order |
| `FeedOrder.UpdateFeeder.FeedDifference` | Telegram/SourceFiles/api/api_updates.cpp:580-591 | the two passes feed every element exactly once: message ids, then group calls, then the rest |
| `FeedOrder.FedExactly` | Telegram/SourceFiles/api/api_updates.cpp:291-321 | under each skip policy every update is fed as often as the list has it unless it is skipped, group call updates before all others, and each of the two groups in the order of the list |
| `FeedOrder.MessageIdsExactly` | Telegram/SourceFiles/api/api_updates.cpp:323-329 | the first pass feeds the message id updates and no other, in the order of the list |
| `DiffSchedule.Scheduler.WhenGetDiffChanged` | Telegram/SourceFiles/api/api_updates.cpp:495-538 | a stored deadline moves only to an earlier time, and says whether it moved |
| `DiffSchedule.Scheduler.GetDifferenceByPts` | Telegram/SourceFiles/api/api_updates.cpp:601-626 | the loop that erases while it iterates does what dispatching all due entries at once does, and arms the timer for the earliest one left |
| `DiffSchedule.Scheduler.GetDifferenceAfterFail` | Telegram/SourceFiles/api/api_updates.cpp:628-655 | the same for the retries, where the common request is freed first |
| `DiffSchedule.Scheduler.PtsWaiterStartTimerFor` | Telegram/SourceFiles/api/api_updates.cpp:540-544 | asking for an earlier deadline sweeps the table; asking for a later one changes nothing |
| `DiffSchedule.Scheduler.FailDifferenceStartTimerFor` | Telegram/SourceFiles/api/api_updates.cpp:546-560 | a failure stores a retry after the current timeout and doubles that timeout up to 64 seconds |
| `DiffSchedule.Scheduler.RequestChannelDifference` | Telegram/SourceFiles/api/api_updates.cpp:685-718 | which deadlines of a channel are cleared depends on why it is asked and on whether a request really goes out |
| `DiffSchedule.ByPtsOneMore` | Telegram/SourceFiles/api/api_updates.cpp:601-626 | dispatching one more due entry after a set of them is dispatching the larger set |
| `DiffSchedule.AfterFailOneMore` | Telegram/SourceFiles/api/api_updates.cpp:628-655 | the same for retries |
| `DiffSchedule.SweepIsComplete` | Telegram/SourceFiles/api/api_updates.cpp:601-655 | after a sweep nothing stored is due, each due entry was asked for exactly once and nothing else was, and the timer has exactly the earliest deadline left or is off |
| `DiffSchedule.EveryRunIsArmed` | Telegram/SourceFiles/api/api_updates.cpp:495-560 | in every reachable state each table with an entry has its timer armed no later than any entry, and timeouts are powers of two up to 64 |
| `DiffSchedule.DueIsDispatched` | Telegram/SourceFiles/api/api_updates.cpp:601-655 | in every reachable state a due deadline finds its timer due too, and the firing asks for it once and clears it |
| `DiffSchedule.ByPtsIsLeastAsked` | Telegram/SourceFiles/api/api_updates.cpp:495-544 | over every run a stored deadline is the least of those asked for since the entry was last absent |
| `DiffSchedule.AfterFailIsLeastAsked` | Telegram/SourceFiles/api/api_updates.cpp:495-560 | the same for the retries |
| `DiffSchedule.RetrySends` | Telegram/SourceFiles/api/api_updates.cpp:601-698 | a sweep sends one request for a target exactly if its entry is due and it can be sent, and none otherwise: of the retries the common one always can, a channel only if it is initialised and its flag is not set |
| `DiffSchedule.FlagMeans` | Telegram/SourceFiles/api/api_updates.cpp:222-718 | over every run in which answers come for requests on the way, at most one request per target is on the way, and the flag is set exactly while one is, a common retry waits, or the target was dropped |
| `DiffSchedule.StuckExactly` | Telegram/SourceFiles/api/api_updates.cpp:222-718 | over every such run a flag is set with neither a request nor, for the common one, a retry to free it exactly if the common answer was too long or the first state failed, or a request of the channel failed |
| `DiffSchedule.StuckForever` | Telegram/SourceFiles/api/api_updates.cpp:222-718 | whatever comes later in the run, a stuck target stays stuck and no request is sent for it |
| `DiffSchedule.CommonIsRetried` | Telegram/SourceFiles/api/api_updates.cpp:593-655 | unless it was dropped, a common flag with no request on the way has its retry waiting with the timer armed in time, and the firing sends the request once the retry is due |
| `DiffSchedule.FlaggedSendsNothing` | Telegram/SourceFiles/api/api_updates.cpp:685-698 | over every run of any events a channel whose flag is set is sent no request before its difference is received, through retries and short polls alike |
| `DiffSchedule.RetrySendsNothing` | Telegram/SourceFiles/api/api_updates.cpp:434-442 | a possible run of five events in which a channel's first request fails, its retry fires a second later and sends nothing, and the channel is stuck |
| `DiffSchedule.TooLongIsTheLast` | Telegram/SourceFiles/api/api_updates.cpp:489-491 | a possible run of three events after which the common difference is never asked for again |
| `DiffSchedule.FailuresWaitLonger` | Telegram/SourceFiles/api/api_updates.cpp:456-560 | over every run the timeout of a target is the smaller of 64 and 2^n seconds, n being the number of its failures since its difference was last received, and the next failure stores a retry so far ahead unless an earlier one is stored |
| `DiffSchedule.EachTargetAlone` | Telegram/SourceFiles/api/api_updates.cpp:495-718 | in every reachable state and for every event, the tables, flags and requests of all targets behave for each target as a small automaton of that target alone, which meets the others only in the sweeps |
| `DiffSchedule.EveryTimerFollows` | Telegram/SourceFiles/api/api_updates.cpp:495-655 | in every reachable state an event that goes through a table sets its timer for exactly the earliest entry left, and no other event touches a timer |
| `Word32.ShiftIsRotl` | Telegram/SourceFiles/_other/packer.cpp:62-64 | the packer's shift is the rotation of FIPS 180-4 for the three distances it is used with |
| `Word32.MajorityOrIsMaj` | Telegram/SourceFiles/_other/packer.cpp:69-98 | the or form of the majority is the xor form of the standard |
| `Word32.ChooseOrIsCh` | Telegram/SourceFiles/_other/packer.cpp:69-98 | the or form of the choice is the xor form of the standard |
| `PackerSha1.Sha1PartHash` | Telegram/SourceFiles/_other/packer.cpp:69-98 | the in-place rounds over a reused 80-word buffer are the compression function of section 6.1.2 on its first 16 words, whatever the rest of the buffer held |
| `PackerSha1.LoadTail` | Telegram/SourceFiles/_other/packer.cpp:102-138 | or-ing the remaining bytes and the end marker into cleared words gives the big-endian words of the filled block |
| `PackerSha1.FilledAppend` | Telegram/SourceFiles/_other/packer.cpp:102-138 | or-ing one byte into its word is appending it to the block |
| `PackerSha1.TailOneBlock` | Telegram/SourceFiles/_other/packer.cpp:102-138 | with fewer than 56 bytes left, one last block with the length in its last word completes the padding |
| `PackerSha1.TailTwoBlocks` | Telegram/SourceFiles/_other/packer.cpp:102-138 | with 56 or more left, two blocks do |
| `PackerSha1.PaddingAgrees` | Telegram/SourceFiles/_other/packer.cpp:102-138 | the code's padding is that of section 5.1.1 exactly for messages shorter than 2^29 bytes |
| `PackerSha1.PaddingDiffers` | Telegram/SourceFiles/_other/packer.cpp:102-138 | 2^29 zero bytes are padded differently |
| `PackerSha1.EndsExactly` | Telegram/SourceFiles/_other/packer.cpp:102-118 | with its 32-bit counter the loop over the whole blocks ends exactly for lengths below 2^32 - 64 |
| `PackerSha1.HashSha1` | Telegram/SourceFiles/_other/packer.cpp:102-138 | for every byte string shorter than 2^29 the result is the SHA-1 of FIPS 180-4; for longer ones for which the code ends, the digest of what it pads |
| `Fips180.ZeroCountIsSmallest` | Telegram/SourceFiles/_other/packer.cpp:102-138 | the number of zero bytes in the reference is the smallest that section 5.1.1 allows |
| `Fips180.DigestWords` | Telegram/SourceFiles/_other/packer.cpp:102-138 | the digest read back big-endian is the five words of the state |
| `ListHash.HashUpdate` | Telegram/SourceFiles/api/api_hash.h:36-46 | the four in-place steps are the mixing followed by the addition |
| `ListHash.CountHash` | Telegram/SourceFiles/api/api_hash.h:36-70 | the loop is the fold of the step over the values widened to 64 bits |
| `ListHash.WidenedExactly` | Telegram/SourceFiles/api/api_hash.h:48-58 | the widened value of each integer type has its own bits below; above, a signed one has copies of its sign and an unsigned one zeros; 64-bit values are taken as they are |
| `ListHash.EmptyAndSingle` | Telegram/SourceFiles/api/api_hash.h:60-70 | nothing counts to zero and one value to itself |
| `ListHash.KnownSteps` | Telegram/SourceFiles/api/api_hash.h:36-46 | what the step makes of two states, bit for bit |
| `ListHash.UpdateIsBijection` | Telegram/SourceFiles/api/api_hash.h:36-46 | for a fixed value the step is a bijection on 64-bit states, with its two-sided inverse given |
| `ListHash.UpdateIsBijectionInValue` | Telegram/SourceFiles/api/api_hash.h:36-46 | for a fixed state it is a bijection of the value |
| `ListHash.OneDifferenceChangesHash` | Telegram/SourceFiles/api/api_hash.h:36-70 | lists of one length that differ in exactly one position, of any length and at any position, have different hashes |
| `ListHash.OneDifferenceChangesCount` | Telegram/SourceFiles/api/api_hash.h:36-70 | the same for the ranges that are really counted, of any of the four integer types |
| `ListHash.TwoDifferencesCollide` | Telegram/SourceFiles/api/api_hash.h:36-70 | two neighbours can be changed together without changing the hash: whatever the first becomes, exactly one value of the second restores it |
| `ListHash.ToWordInjective` | Telegram/SourceFiles/api/api_hash.h:48-58 | widening loses no difference between values of one type |
| `Folds.FoldInjective` | Telegram/SourceFiles/api/api_hash.h:48-70 | two states continued over the same list stay equal or stay different |
| `WebPages.Resolver.ResolveWebPages` | Telegram/SourceFiles/apiwrap.cpp:2180-2255 | a pass gives each due page with a message the one fresh request for its place, leaves the others as they were, and arms the timer for the soonest page waited for |
| `WebPages.Resolver.Collect` | Telegram/SourceFiles/apiwrap.cpp:2180-2217 | after the first loop the channel indices are a bijection onto 0..k-1 and every temporary id says which batch holds the message of its page |
| `WebPages.Resolver.Assign` | Telegram/SourceFiles/apiwrap.cpp:2239-2250 | every access to the vector of requests is in bounds and every temporary id is replaced |
| `WebPages.Resolver.RequestWebPageDelayed` | Telegram/SourceFiles/apiwrap.cpp:2159-2166 | a page asked for starts over, and the timer moves only to an earlier time |
| `WebPages.Resolver.GotWebPages` | Telegram/SourceFiles/apiwrap.cpp:2442-2456 | an answer takes out exactly the pages of its own request, and marks as failed exactly those of them that still waited |
| `WebPages.ResolvedPage` | Telegram/SourceFiles/apiwrap.cpp:2180-2255 | no temporary id survives a pass; a page gets a fresh id exactly if it was due, unasked and shown somewhere, and then its message is in the batch sent under that id for its own channel |
| `WebPages.OneBatchPerPlace` | Telegram/SourceFiles/apiwrap.cpp:2180-2255 | two pages of a pass share a request exactly when they are shown in the same place |
| `WebPages.BatchHoldsOnly` | Telegram/SourceFiles/apiwrap.cpp:2180-2255 | a fresh request holds only messages of pages that carry its id, all of its place, one for each such page |
| `WebPages.SoonestExactly` | Telegram/SourceFiles/apiwrap.cpp:2180-2237 | a pass sets the timer exactly if a page waits less than the largest time, and then for the page that waits least |
| `WebPages.IndexedNew` | Telegram/SourceFiles/apiwrap.cpp:2191-2200 | giving a new channel the current count keeps the indices a bijection |
| `MessageData.Requester.RequestMessageData` | Telegram/SourceFiles/apiwrap.cpp:516-529 | a callback joins those of its message, a message nobody asked for yet gets a pass scheduled, and what every run keeps is kept |
| `MessageData.Requester.ResolveMessageDatas` | Telegram/SourceFiles/apiwrap.cpp:561-615 | a pass is a run that sends for each place once and then ends; it gives the unasked messages new request ids, two of them the same one exactly if they are of one place, leaves none unasked and drops empty channel tables |
| `MessageData.Requester.FinalizeMessageDataRequest` | Telegram/SourceFiles/apiwrap.cpp:617-647 | a finalize removes exactly the messages of its request and runs their callbacks |
| `MessageData.CollectMessageIds` | Telegram/SourceFiles/apiwrap.cpp:531-542 | a batch lists every unasked message of its table once and no other |
| `MessageData.EveryRunKeeps` | Telegram/SourceFiles/apiwrap.cpp:516-647 | in every reachable state each callback given has been run or still waits, once and in order, a message carries an id exactly while that request is on the way, and no message is forgotten |
| `MessageData.SendsPass` | Telegram/SourceFiles/apiwrap.cpp:561-615 | sending for any places one after the other, in any order, amounts to the pass over these places and keeps what every run keeps |
| `MessageData.RunGoesOn` | Telegram/SourceFiles/apiwrap.cpp:516-647 | a run from the start continued by that of a whole pass is again a run from the start, so that what holds over all runs holds after passes |
| `MessageData.CallbacksAfter` | Telegram/SourceFiles/apiwrap.cpp:516-647 | what is given joins behind what waits for its message, the end of a request runs all that waits for its own messages, and nothing else touches a callback |
| `MessageData.EveryCallbackIsKept` | Telegram/SourceFiles/apiwrap.cpp:516-647 | over every run the callbacks run and waiting for a message are those its askers gave, in their order |
| `MessageData.RequestsAfter` | Telegram/SourceFiles/apiwrap.cpp:531-615 | sending for a place sends one request for exactly its messages not asked for, if there are any; only the end of a request takes it away; a pass is scheduled by a message not asked for |
| `MessageData.FinalizeRunsItsOwn` | Telegram/SourceFiles/apiwrap.cpp:617-647 | a finalize runs all that waits under the messages of its own request, including what came while it was on the way, and nothing of any other |
| `MessageData.SettledRanAll` | Telegram/SourceFiles/apiwrap.cpp:516-647 | once a message has left the table everything ever given for it was run exactly once, in order |
| `DialogsLoad.EveryRunKeeps` | Telegram/SourceFiles/apiwrap.cpp:759-976 | in every reachable state a failing request finds its load state, no load with both parts persists, and the end of each load was posted exactly once and not before |
| `DialogsLoad.OneInFlight` | Telegram/SourceFiles/apiwrap.cpp:766-838 | in every reachable state at most one list request and one pinned request per folder are on the way |
| `DialogsLoad.FinishedKeeps` | Telegram/SourceFiles/apiwrap.cpp:926-943 | from a state where one load may have both parts, finishing that load restores everything: it is gone if both came, and its end is posted once |
| `DialogsLoad.CallSends` | Telegram/SourceFiles/apiwrap.cpp:759-838 | in every reachable state a call that is not blocked sends one list request, for the load in use or the one it starts, exactly if that load is idle, and one pinned request with it exactly if the pinned part is neither there nor on the way; any other call sends nothing |
| `DialogsLoad.PinnedCallSends` | Telegram/SourceFiles/apiwrap.cpp:945-962 | asking for the pinned part alone sends one request exactly if it is missing |
| `DialogsLoad.AnswerFrees` | Telegram/SourceFiles/apiwrap.cpp:790-831 | every answer takes exactly its own request away, and a failure or an answer with an offset leaves the load idle |
| `DialogsLoad.PostedExactly` | Telegram/SourceFiles/apiwrap.cpp:759-976 | over every run the end of a load has been posted exactly if an answer ended its list and its pinned request came to an end |
| `DialogsLoad.WedgedExactly` | Telegram/SourceFiles/apiwrap.cpp:759-976 | over every run some load is stuck, with a request id that nothing on the way will free, exactly if a list request has been answered with "not modified" |
| `DialogsLoad.WedgedForever` | Telegram/SourceFiles/apiwrap.cpp:759-976 | whatever happens later in the run a stuck load stays the load of its folder, stays stuck, and its end is never posted |
| `DialogsLoad.FindOffset` | Telegram/SourceFiles/apiwrap.cpp:871-903 | one scan from the end finds the date of the last dated dialog and the last valid dialog |
| `DialogsLoad.DateIsOfLastCopy` | Telegram/SourceFiles/apiwrap.cpp:891-899 | the date found is that of the last message listed with this id and this peer |
| `DialogsLoad.NoCopyNoDate` | Telegram/SourceFiles/apiwrap.cpp:891-899 | without such a message there is no date |
| `DialogsLoad.DateIsOfLastDated` | Telegram/SourceFiles/apiwrap.cpp:871-903 | the date of a page is that of its last dialog whose message is listed with a date |
| `DialogsLoad.OffsetIsOfLastValid` | Telegram/SourceFiles/apiwrap.cpp:871-903 | its peer and message are those of its last dialog that has both |
| `DialogsLoad.WrittenExactly` | Telegram/SourceFiles/apiwrap.cpp:871-916 | a page gives an offset exactly if the top message of one of its dialogs is listed with a date |
| `DialogsLoad.StoredOffsetAgrees` | Telegram/SourceFiles/apiwrap.cpp:871-916 | the stored date is that of the stored message exactly if the message of the last valid dialog is listed with a date; a page without any dated dialog ends the list |
| `DialogsLoad.OffsetCanDisagree` | Telegram/SourceFiles/apiwrap.cpp:871-916 | a page whose stored date and message do not belong together |
| `DialogsLoad.DialogsLoader.RequestMoreDialogs` | Telegram/SourceFiles/apiwrap.cpp:766-788 | a list request goes out only if none runs and the date block allows it, and takes the pinned request with it |
| `DialogsLoad.DialogsLoader.DialogsDone` | Telegram/SourceFiles/apiwrap.cpp:790-828 | a page moves the offset, date, message and peer, on and frees the request; a last page ends the list part |
| `DialogsLoad.DialogsLoader.DialogsFail` | Telegram/SourceFiles/apiwrap.cpp:827-831 | the unchecked dereference of the load state is safe in every reachable state |
| `DialogsLoad.DialogsLoader.RequestPinnedDialogs` | Telegram/SourceFiles/apiwrap.cpp:945-962 | the pinned part is asked for once at a time and not again when received |
| `StickerSets.SurvivesExactly` | Telegram/SourceFiles/apiwrap.cpp:1441-1585 | a set is there after a save exactly when it was there, was not erased as removed, and the order, a flag or a lock keeps it |
| `StickerSets.FlagsExactly` | Telegram/SourceFiles/apiwrap.cpp:1441-1571 | whether a set that survives is installed, archived and when it was dated is decided exactly by its flags, the order and the removals; all else of it stays |
| `StickerSets.RecentExactly` | Telegram/SourceFiles/apiwrap.cpp:1441-1490 | a recent sticker stays, as often as it was there, exactly if no cloud list is cleared and it is in no set that is removed |
| `StickerSets.OrderWhileRemoving` | Telegram/SourceFiles/apiwrap.cpp:1490-1520 | while the removals are gone through, a set taken off leaves the order at its first place there, and no other removal touches the order |
| `StickerSets.OrderIsFiltered` | Telegram/SourceFiles/apiwrap.cpp:1535-1571 | the new order is the wished one filtered to existing sets, and each id in it survives the sweep and is installed |
| `StickerSets.InstalledExactly` | Telegram/SourceFiles/apiwrap.cpp:1523-1571 | among the sets of the saved kind that are not archived, exactly those in the order are installed |
| `StickerSets.RecentIsFiltered` | Telegram/SourceFiles/apiwrap.cpp:1441-1490 | the recent stickers lose exactly those of removed sets, or all with the cloud list, in whatever order the removals came |
| `StickerSets.RequestsAreExact` | Telegram/SourceFiles/apiwrap.cpp:1441-1562 | how often each set is uninstalled, counted exactly; an install for exactly the archived sets of the order that are there and were not removed, once each; and a clearing request for each cloud list removed |
| `StickerSets.RemovedSets` | Telegram/SourceFiles/apiwrap.cpp:1441-1521 | what the first pass does to a set does not depend on the order or repetition of the removals |
| `StickerRequests.StickersSaver.SaveStickerSets` | Telegram/SourceFiles/apiwrap.cpp:1350-1624 | the loops over the sets and the order compute the three passes and the sweep, one request goes out for each set that goes or comes back, and the orders of other kinds stay |
| `StickerRequests.StickersSaver.SetDisenabled` | Telegram/SourceFiles/apiwrap.cpp:1409-1419 | the answer that empties the set of requests, and no other, sends the order |
| `StickerRequests.SaveSends` | Telegram/SourceFiles/apiwrap.cpp:1350-1407 | a save sends exactly its requests and cancels those of its kind; it waits if there are any, and else its order goes out at once if it has two sets or more |
| `StickerRequests.AnswerFinishes` | Telegram/SourceFiles/apiwrap.cpp:1409-1419 | an answer takes its request away, and finishes its save and sends the order exactly if it was the last of the save |
| `StickerRequests.ReorderEnds` | Telegram/SourceFiles/apiwrap.cpp:1387-1402 | the answer to an order only ends the reordering |
| `StickerRequests.EveryRunOrders` | Telegram/SourceFiles/apiwrap.cpp:1359-1419 | over every interleaving a save waits exactly while one of its requests is on the way, and its order is sent once if it has ended so and has two sets or more, and else not at all |
| `StickerRequests.SupersededForever` | Telegram/SourceFiles/apiwrap.cpp:1359-1369 | the order of a superseded save is never sent |
| `StickerRequests.NewSaveSupersedes` | Telegram/SourceFiles/apiwrap.cpp:1359-1369 | a new save supersedes exactly the running save of its kind |
| `StickerRequests.StepKeeps` | Telegram/SourceFiles/apiwrap.cpp:1359-1623 | what is remembered as pending is what is on the way, one save of a kind runs at most, and nothing of its kind is being reordered meanwhile |
| `ViewsIncrement.OneRequestPerPeer` | Telegram/SourceFiles/api/api_views.cpp:77-104 | in every reachable state at most one views request per peer is on the way, and a non-empty queue has the timer or a mark |
| `ViewsIncrement.PlacedOnceIff` | Telegram/SourceFiles/api/api_views.cpp:35-104 | after a reset an id is put into at most one request until the next reset, whatever happens, exactly when it did not wait at the reset or waits behind an answered mark |
| `ViewsIncrement.LeftOverIsPlacedTwice` | Telegram/SourceFiles/api/api_views.cpp:35-104 | one message that waits at the reset of its peer can be sent twice before the next |
| `ViewsIncrement.PlacedAtMostOnce` | Telegram/SourceFiles/api/api_views.cpp:35-104 | an id that was not left over at the last reset is put into at most one request |
| `ViewsIncrement.FiringSends` | Telegram/SourceFiles/api/api_views.cpp:77-104 | a firing sends one request for each listed peer, with exactly the ids that waited for it, under the next ids; what was on the way stays |
| `ViewsIncrement.EveryRequestIsLogged` | Telegram/SourceFiles/api/api_views.cpp:77-104 | over every run each request on the way is the one logged under its number, so that what is counted is what was sent |
| `ViewsIncrement.TimerAfter` | Telegram/SourceFiles/api/api_views.cpp:35-239 | the timer is set by the first id of a peer and by every reply while ids wait, and off after a firing |
| `ViewsIncrement.MarkAfter` | Telegram/SourceFiles/api/api_views.cpp:77-239 | a firing marks the peers it sends for, and a reply takes away exactly the mark of its request |
| `ViewsIncrement.MarksAnswered` | Telegram/SourceFiles/api/api_views.cpp:188-239 | every mark belongs to a request on the way exactly when no answer had another length |
| `ViewsIncrement.OtherLengthWedges` | Telegram/SourceFiles/api/api_views.cpp:188-227 | a run of three events that leaves a peer marked for ever |
| `ViewsIncrement.WedgedPlacesNothing` | Telegram/SourceFiles/api/api_views.cpp:77-104 | behind a mark that nothing removes no id is ever sent |
| `ViewsIncrement.SentAllPlaces` | Telegram/SourceFiles/api/api_views.cpp:77-104 | one firing puts each waiting id of a free peer into exactly one request and leaves the ids of marked peers waiting |
| `ViewsIncrement.ViewsManager.ScheduleIncrement` | Telegram/SourceFiles/api/api_views.cpp:35-52 | an id is accepted and queued once; only the first of a peer starts the timer |
| `ViewsIncrement.ViewsManager.ViewsIncrement` | Telegram/SourceFiles/api/api_views.cpp:77-104 | the loop that erases while it iterates sends each free waiting peer once, in some order |
| `ViewsIncrement.ViewsManager.Done` | Telegram/SourceFiles/api/api_views.cpp:188-227 | an answer of the right length frees the peer, one of another length does not; a non-empty queue gets its timer back |
| `ViewsIncrement.ViewsManager.Fail` | Telegram/SourceFiles/api/api_views.cpp:229-239 | a failure frees exactly the peer of its request |
| `MediaPoll.EveryRunPolls` | Telegram/SourceFiles/api/api_views.cpp:58-186 | in every reachable state an entry with no request has nothing sent, which is the code's own assertion, and a timer no later than its own time; waiting and sent are disjoint, at most 100 are sent, and each id taken in is waiting, sent or completed, once each time |
| `MediaPoll.StepKeeps` | Telegram/SourceFiles/api/api_views.cpp:58-186 | every event also keeps the requests on the way those of the entries, each with exactly what the entry has as sent |
| `MediaPoll.PollTakesIn` | Telegram/SourceFiles/api/api_views.cpp:58-75 | an id that neither waits nor is under way waits afterwards and is accepted once more; the first of an idle peer starts half a minute, and the timer if it is off |
| `MediaPoll.PollKnown` | Telegram/SourceFiles/api/api_views.cpp:58-75 | any other id is not taken in again |
| `MediaPoll.FiringSends` | Telegram/SourceFiles/api/api_views.cpp:106-145 | a firing sends for each due peer one request with its hundred smallest ids, and the rest waits on; other peers stay |
| `MediaPoll.FiringSendsNoOther` | Telegram/SourceFiles/api/api_views.cpp:106-145 | and it sends nothing else |
| `MediaPoll.AnswerCompletes` | Telegram/SourceFiles/api/api_views.cpp:147-172 | an answer completes what its request carried; its entry goes, or waits half a minute more for what has gathered |
| `MediaPoll.FinishedEntry` | Telegram/SourceFiles/api/api_views.cpp:147-172 | although all entries are searched, an answer frees exactly the entry its request was sent for |
| `MediaPoll.ViewsManager.SendPollRequests` | Telegram/SourceFiles/api/api_views.cpp:106-186 | both loops together send for each due peer the hundred smallest ids, under ids of their own, and set the timer for the earliest entry left, or at once if ids of a due peer stay behind |
| `MediaPoll.ViewsManager.TakeFirst` | Telegram/SourceFiles/api/api_views.cpp:117-126 | the part taken is the smallest hundred ids, or all |
| `MediaPoll.ViewsManager.PollExtendedMedia` | Telegram/SourceFiles/api/api_views.cpp:58-75 | an id is taken in unless it waits or is under way, and starts the period and the timer only if nothing runs |
| `MediaPoll.ViewsManager.FinishRequest` | Telegram/SourceFiles/api/api_views.cpp:147-172 | an answered entry goes if nothing waits in it and else waits a new period with the timer armed |
| `InviteLinks.FrontOnlyIsExact` | Telegram/SourceFiles/api/api_invite_links.cpp:136-150 | lists with at most one live permanent link, at the front, are exactly those where looking at the first element sees all there is, and then it agrees with a full scan |
| `InviteLinks.StepFits` | Telegram/SourceFiles/api/api_invite_links.cpp:174-325 | each operation leaves the cache fitting exactly when its answer passes its guard; all but edits, slices and external updates always do |
| `InviteLinks.EveryRunFits` | Telegram/SourceFiles/api/api_invite_links.cpp:136-217 | the cache fits all through a run exactly when every answer in it passes its guard |
| `InviteLinks.TwoLiveLinksBreak` | Telegram/SourceFiles/api/api_invite_links.cpp:428-453 | a first page with two live permanent links leaves one of them where the lookup does not look |
| `InviteLinks.LookupIsScan` | Telegram/SourceFiles/api/api_invite_links.cpp:136-150 | after such a run the one-element lookup is the full scan, at most one live permanent link is cached, and the peer's stored link is the one found |
| `InviteLinks.PromisedKeeps` | Telegram/SourceFiles/api/api_invite_links.cpp:281-453 | answers that keep address and permanence, never un-revoke, and slices with one live permanent link at most, pass the guard |
| `InviteLinks.BroughtToFrontFits` | Telegram/SourceFiles/api/api_invite_links.cpp:28-36 | bringing the permanent link to the front keeps all links and is enough exactly when there was at most one |
| `InviteLinks.StepIsAtPeer` | Telegram/SourceFiles/api/api_invite_links.cpp:174-745 | each event changes the list and the stored address of its own peer only |
| `InviteLinks.EditedList` | Telegram/SourceFiles/api/api_invite_links.cpp:281-311 | the first link with the edited address leaves the list if it became revoked, and else is replaced where it stands; the others keep their order |
| `InviteLinks.PrependedList` | Telegram/SourceFiles/api/api_invite_links.cpp:174-217 | the list and the stored address after a new link |
| `InviteLinks.PageBehindPermanent` | Telegram/SourceFiles/api/api_invite_links.cpp:428-453 | a page goes behind a known permanent link, without that link and any other live one, in the order of the page |
| `InviteLinks.PageReplacesList` | Telegram/SourceFiles/api/api_invite_links.cpp:428-453 | otherwise the page is the list, its first live permanent link moved to the front and stored |
| `InviteLinks.SetList` | Telegram/SourceFiles/api/api_invite_links.cpp:622-678 | the list and the stored address after the permanent link was set |
| `InviteLinks.ClearedList` | Telegram/SourceFiles/api/api_invite_links.cpp:680-709 | the list loses its permanent link and nothing is stored, or nothing changes |
| `InviteLinks.UpdatedList` | Telegram/SourceFiles/api/api_invite_links.cpp:524-538 | every copy of an updated link is replaced in place, and an approval without a link drops the list |
| `InviteLinks.InviteLinks.PrependMyToFirstSlice` | Telegram/SourceFiles/api/api_invite_links.cpp:174-217 | a new permanent link replaces the old one, any other goes behind it |
| `InviteLinks.InviteLinks.EditAnswered` | Telegram/SourceFiles/api/api_invite_links.cpp:281-320 | an edited link is replaced in place, one that became revoked leaves, and a replacement of one's own is prepended |
| `InviteLinks.InviteLinks.MyLinksAnswered` | Telegram/SourceFiles/api/api_invite_links.cpp:428-453 | a first page replaces the cache, but a permanent link that came meanwhile stays in front of it |
| `InviteLinks.InviteLinks.SetMyPermanent` | Telegram/SourceFiles/api/api_invite_links.cpp:622-678 | a new permanent link goes to the front in place of the old one; the known one only has its usage updated |
| `InviteLinks.InviteLinks.ClearMyPermanent` | Telegram/SourceFiles/api/api_invite_links.cpp:680-709 | the permanent link leaves and the stored link is emptied, or nothing changes |
| `InviteLinks.InviteLinks.ApplyExternalUpdate` | Telegram/SourceFiles/api/api_invite_links.cpp:524-538 | every copy of the link is replaced |
| `InviteLinks.InviteLinks.ParseSlice` | Telegram/SourceFiles/api/api_invite_links.cpp:723-745 | a page is parsed without the link known as permanent |
| `Privacy.ParsedIsFirstMention` | Telegram/SourceFiles/api/api_user_privacy.cpp:94-172 | for every wire list the parsed lists hold nobody twice or on both sides, and each peer is where its first mention puts it, in the order of first mentions |
| `Privacy.OptionOnWire` | Telegram/SourceFiles/api/api_user_privacy.cpp:94-172 | the first of the three option rules of a wire list says the parsed option; without any it is nobody |
| `Privacy.ParsedOnWire` | Telegram/SourceFiles/api/api_user_privacy.cpp:94-172 | a peer is allowed or not as the first wire rule says that lists it, a chat or channel by its bare id, chats first |
| `Privacy.PrintedOnWire` | Telegram/SourceFiles/api/api_user_privacy.cpp:28-92 | what is printed holds the users and the others of each list that is not ignored, as often as they are on it, in a rule of the right kind, the option, and nothing else |
| `Privacy.RoundTrip` | Telegram/SourceFiles/api/api_user_privacy.cpp:28-172 | parsing what was printed gives back the option and both lists, stably users first, exactly when nobody is listed twice or on both sides and every chat resolves to itself by its bare id; ignored lists count as empty |
| `Privacy.ClashComesBackAsChat` | Telegram/SourceFiles/api/api_user_privacy.cpp:28-172 | a channel that shares its bare id with a loaded chat comes back as the chat |
| `Privacy.ParsedIsStorable` | Telegram/SourceFiles/api/api_user_privacy.cpp:28-172 | whatever was parsed survives a second round but for the users moving to the front |
| `Privacy.MentionResolves` | Telegram/SourceFiles/api/api_user_privacy.cpp:118-132 | a chat or channel is only ever mentioned if its bare id resolves to it |
| `Privacy.PrintedOption` | Telegram/SourceFiles/api/api_user_privacy.cpp:81-92 | the option printed last is the first option rule of the list |
| `Privacy.RulesToTL` | Telegram/SourceFiles/api/api_user_privacy.cpp:28-92 | the collecting loops print at most one rule for the users and one for the chats of each list, and the option last |
| `Privacy.TLToRules` | Telegram/SourceFiles/api/api_user_privacy.cpp:94-172 | the loops with their containment tests are the fold over mentions, and the first option rule wins, or nobody |
| `SendProgress.AcceptedExactly` | Telegram/SourceFiles/api/api_send_progress.cpp:85-109 | a notice is let through exactly when nothing runs or a whole interval has passed since it began, a stop exactly when something runs that began less than two intervals ago |
| `SendProgress.OnTheWayAfter` | Telegram/SourceFiles/api/api_send_progress.cpp:39-184 | in every reachable state an event leaves on the way what was there and was not ended under its key, answered or lost, and the one request that a call let through sends; every request sent is noted |
| `SendProgress.RecordedAfter` | Telegram/SourceFiles/api/api_send_progress.cpp:39-184 | the same for what is recorded under each key, where a lost request stays |
| `SendProgress.TimerAfter` | Telegram/SourceFiles/api/api_send_progress.cpp:28-83 | the one timer is set by each typing notice sent, for its chat, and stopped by every cancelling of typing |
| `SendProgress.PositivesSpaced` | Telegram/SourceFiles/api/api_send_progress.cpp:85-109 | under a monotone clock two notices let through for one key without a stop let through between them are an interval apart |
| `SendProgress.PositivesInWindow` | Telegram/SourceFiles/api/api_send_progress.cpp:85-109 | a window of width W without such a stop holds at most W / interval + 1 of them |
| `SendProgress.WindowReached` | Telegram/SourceFiles/api/api_send_progress.cpp:85-109 | that bound is reached, for every number of calls |
| `SendProgress.EveryRunThrottled` | Telegram/SourceFiles/api/api_send_progress.cpp:39-109 | in every run at most one request per key is on the way, an armed stop timer has its chat, and the requests of one key are an interval apart unless a stop was let through between them |
| `SendProgress.NextFiringReaches` | Telegram/SourceFiles/api/api_send_progress.cpp:28-53 | over any run after a typing notice that leaves its request on the way, the next firing of the timer reaches it exactly when it was for no topic and the last typing notice sent was for the same chat |
| `SendProgress.CancelTypingDisarms` | Telegram/SourceFiles/api/api_send_progress.cpp:50-53 | once the typing is cancelled in any chat the timer does not fire before another typing notice |
| `SendProgress.OtherChatIsForgotten` | Telegram/SourceFiles/api/api_send_progress.cpp:50-53 | typing in one chat and then in another leaves the request of the first on the way with no timer |
| `SendProgress.OtherChatIsDisarmed` | Telegram/SourceFiles/api/api_send_progress.cpp:50-53 | cancelling the typing of one chat stops the timer of another |
| `SendProgress.OwnTopicBringsBack` | Telegram/SourceFiles/api/api_send_progress.cpp:50-53 | typing in a topic of the first chat after that makes the firing reach its request again |
| `SendProgress.SendProgressManager.CheckUpdated` | Telegram/SourceFiles/api/api_send_progress.cpp:85-109 | returns whether the call is let through, and notes it |
| `SendProgress.SendProgressManager.Update` | Telegram/SourceFiles/api/api_send_progress.cpp:62-83 | a call let through cancels the key's request and, for a beginning that is not skipped, sends a new one |
| `SendProgress.SendProgressManager.StopTypingTimerFires` | Telegram/SourceFiles/api/api_send_progress.cpp:28-31 | the timer never finds its chat missing |
| `SendProgress.SendProgressManager.DoneRequest` | Telegram/SourceFiles/api/api_send_progress.cpp:174-184 | the search for an answered request takes out exactly its entry |

## Left out

- What feeding an update does: the bodies of `feedUpdate` and the `apply*NoPtsCheck` switches go into classes that are not
  part of this model; feeding is a log entry that may ask for a difference.
- The gap handling of single pts values in `PtsWaiter`, and everything `ChannelData`, `Data::Session` and `History` do.
- DiffSchedule.FlagMeans: that the pts of a channel become unknown again is left out; a slice is an answer followed by a
  wish for the difference, and requests that are neither answered nor failed stay on the way.
- Wrap-around of 32-bit state numbers, pts, request ids and times: they are mathematical integers. The words of SHA-1 and
  of the list hash are bit-vectors.
- The order in which an unordered or pointer-ordered container is gone through: the loops take any order, so the results
  hold for each.
- Splitting of loop bodies: the body of a long loop is often a method of its own here.
- SeqUpdates.UpdatesManager.DifferenceDone: the data inside a difference is fed in `FeedOrder`, not here; an answer only
  sets the state number.
- WebPages.Resolver.GotWebPages: returns the pages to be marked as failed and told of; the pages themselves are not part
  of this model. The two methods that clear requests are not modelled, because they only erase.
- MessageData.Requester.FinalizeMessageDataRequest: callbacks are tokens; a callback that asks again is a later event.
- DialogsLoad.DialogsLoader.RequestMoreDialogs: whether a date block stops the loading is a parameter; computing it from
  the dates of loaded dialogs is left out, and so is resuming on a change of the block.
- DialogsLoad.DialogsLoader.DialogsDone: the dialogs themselves are not stored, and a peer is its id. The handler's own
  request for the next page is a separate event, and refreshing the date block is left out.
- SeqUpdates.UpdatesManager.MtpUpdateReceived: the group call updates that are fed aside are logged by their container;
  which elements these are is `FeedOrder`.
- StickerRequests.StickersSaver.SaveStickerSets: writing to the local storage, saving settings and notifications are left
  out. That requests to clear the cloud's recent stickers go out is modelled, their answers and cancelling are not.
  A request for the order is known by its save; that it carries the wished order as it is, is left out.
- ViewsIncrement.ViewsManager.Done: the counters in an answer go to messages, which are not part of this model.
- MediaPoll.ViewsManager.FinishRequest: repainting is left out, and the request is given with its id so that the ghost set
  of requests can be updated.
- InviteLinks.InviteLinks.EditAnswered: callbacks and the stream of updates are left out; the `count` of a slice is too,
  because a permanent link is inserted without counting it, so that count and size are not related.
- InviteLinks.InviteLinks.MyLinksAnswered: that one first-page request runs at a time is not modelled; answers may come at
  any moment, which allows more runs than the code has.
- Joined users, creation, deletion and the request for more links of `InviteLinks`: plain request plumbing.
- The key switches, saving and reloading of privacy rules: element-wise or one-branch.
- SendProgress.SendProgressManager.Update: whether a user would see the notice (`skipRequest`) is a parameter.
- The name of the action inside a typing request, the progress number, and the offset inside a request for dialogs.
- RSA signing, LZMA and file work of the packer and the updaters; all widgets; message search caching.
