# Weever Streaming: the subscription protocol

Weever Streaming is a WebRTC SFU. Publishers join and leave a room on any instance; they change the
room's media table in Redis and then publish a command on NATS. Every instance fans the command out
to its subscribers, and each subscriber reads the table again, reconciles the tracks it forwards,
and renegotiates with its browser, one renegotiation at a time. This project models that protocol
and proves what it guarantees.

How the pieces fit together:

* `MediaTable` describes a room's table as what a log of changes replays to. A moment in time is a length
  of that log; "the table was read after change `i`" is `readAt > i`.
* `Reconciliation` says what a table asks a subscriber to forward (`Expected`) and what one run makes of
  the tracks it has (`Reconciled`). `SubscriberTracks` is that run as a class over the three maps, with
  its loops and early returns, and `MediaStore` is the Redis hash behind the table.
* `Renegotiation` is one subscriber as a state machine: the command loop and the `SDP_ANSWER` handler as
  program counters with lock owners, the two flags, the signaling state, the data channel in both
  directions and the browser peer. The other task may run at every lock, table read and message. The
  awaits inside one apply phase are one step, and so are creating an offer and setting it; this loses no
  interleaving, as these phases exclude each other (`MutualExclusion`) and touch nothing else shared.
  Offers, answers, table reads and table updates may fail, as `catch` swallows these errors; `errors`
  remembers it. The field `ordered` selects a variant in which both tasks take the two locks in the same
  order; `false` is the code as it is. `GuardTheorems` and `Coarse` hold its theorems and its refinement.
* `RoomSystem` composes publishers, the table, the bus (an unordered bag), per-instance fan-outs, bounded
  queues and any number of subscribers in any number of rooms, which come and go. `NoLostUpdate`,
  `Convergence`, `Draining`, `FanOut`, `Departures` and `RoomStreams` hold the theorems about all its
  runs. `Scenarios` builds reachable states; `Failures`, `Unheard` and `Blocking` use it to show what goes
  wrong, and when.
* `Bus` says what an instance hears of a command: `Commands`, `CommandCodec` and `Routing` composed. A
  command that does not fit its buffer is never sent, and one for a room that is no token is heard by
  nobody.
* `Pages` follows a command to the page: the channel is a FIFO, the queue is the tail of what arrived, and
  what the page is told is what was published. `Histories` says what the history variables of the state
  machine mean.
* `RegistryFan` ties the registries of the instances to the fan-outs of the system.
* `Registry`, `PublisherList`, `PublisherTracks`, `Browser` and `Naming` are the state, counters and names
  these rest on.

Assumptions, each an explicit guard or `requires` of the model:

* A full id belongs to one connection (`Connect` needs a fresh id, docs/archive/DESIGN.md:85-94), and no
  `on_track` callback runs after the connection deleted its first row (`Prompt`). Together they give
  `NoReuse`, the condition under which a stale track cannot survive; `ReuseLeavesStaleTracks` shows what
  happens without it.
* The callbacks of one connection run one at a time (`midTrack`).
* In the system runs, table changes and NATS calls succeed and the browser answers each offer once. Table
  reads, table updates, offers and answers may fail.
* Full ids contain no `#` (a guard of `Connect`); `TableStaysUsableExactly` says what happens otherwise.
* The theorems that need commands to arrive ask for `WellNamed` publishers, that is, full ids of at most
  62 bytes in a room whose name is one token (`Announceable`, `IsHeard`). `HeardIffNeverMissed` shows that
  this is exactly what they need. The others hold for all names.

Seven findings about the code:

* The two tasks take the locks in opposite orders (src/subscriber.rs:592-601 and 657-667). A command that
  arrives while an answer is being handled can leave the loop waiting for one lock and the handler for the
  other, for good (`DeadlockIsReachable`, `DeadlockIsForGood`); only commands about the subscriber's own
  id are harmless (`DeadlockExactly`). This and a swallowed failure are the only ways a subscriber gets
  stuck (`StuckStates`). A deadlocked subscriber whose queue is full also blocks the fan-outs of its
  instance that reach it, even after it has left (`BlockedForGood`), and one publisher that goes on adding
  tracks is enough to get there (`BlockingIsReachable`). With one lock order neither happens
  (`OneLockOrderAlwaysAgrees`).
* A full id of more than 62 bytes passes the HTTP checks, which have no length limit, and gets its rows
  into the table, but its commands fail to encode and the error is swallowed. Its subscribers miss it for
  good although nothing failed on their side (`UnheardPublisherIsMissed`).
* The part of a full id after '+' is not checked. If it makes an empty token, white space or a wildcard
  token of the media subject, forward tasks get no packets or those of others (`ExactRoutingCondition`).
* A page that starts a second screen share from one connection object gets the suffix twice, and only one
  is taken off again (`OnIceComplete`).
* A full id with a `#` passes the checks too. Its row is read back as one of no known kind, at which every
  other user's subscriber in the room panics (`TableStaysUsableExactly`, src/subscriber.rs:302).
* A track whose sender could not be attached, or whose subscription failed, stays in `rtp_tracks` only.
  Later runs neither repair nor remove it (`OrphansStay`).
* A failed table read is not made up for: if no further command comes, the subscriber stays out of step
  (`FailedReadIsNotMadeUpFor`), showing the table of its last successful read (`ShowsLastRead`). The read
  fails not only when Redis does, but for everyone in a room as long as some count exceeds 255.

A comment in the code (src/subscriber.rs:221-222) calls media added by or removed from an existing
user "not covered". The code does pick up added media, and loses only decreasing counts of a row
that stays listed; `ForgetsHistory` states the exact condition.

## Model

| member | source | states |
|---|---|---|
| Naming.FieldRoundTrip | src/state.rs:224-253 | a table field decodes to its (user, kind) exactly for users without '#' |
| Naming.StoredRowExactly | src/state.rs:224-253 | for a user with '#' the field is read back as another user's row, of no known kind |
| Naming.BaseIdOf | src/subscriber.rs:234 | the base id of `id+random` is `id`, and an id without '+' is its own |
| Naming.IsEchoExactly | src/subscriber.rs:282-285 | for ids without '+', full ids echo each other exactly when the ids are equal or the publisher's is the subscriber's with `-screen`, whatever the random parts |
| Naming.LabelText | src/subscriber.rs:287-289 | a label is the kind, written out, followed by its index |
| Text.DecimalValue | src/publisher.rs:241-245 | the printed index reads back as the number and has no leading zero |
| Naming.LabelInjective | src/subscriber.rs:287-289 | distinct (kind, index) pairs have distinct labels |
| Naming.KindOfLabel | src/subscriber.rs:244 | splitting a label at 5 recovers its kind |
| MediaTable.RowFate | src/state.rs:221-235 | between two moments without id reuse, a row keeps or raises its count or was deleted for good |
| MediaTable.HistoryNeverShrinks | src/state.rs:262-281 | any two tables of a history without id reuse differ only by rows gone, rows new and counts raised |
| MediaStore.IncrementDecodes | src/state.rs:221-235 | HINCRBY on the stored hash increments exactly one row of the decoded table, for any user |
| MediaStore.DeleteDecodes | src/state.rs:262-281 | HDEL on the stored hash removes exactly one row of the decoded table, for any user |
| MediaStore.TableStaysUsableExactly | src/subscriber.rs:299-303 | after an increment the table has known kinds only, and the row is the publisher's own, if and only if its full id has no '#' |
| MediaStore.Store.AddUserMediaCount | src/state.rs:221-235 | for any user the stored hashes keep decoding to the replay of the change log, in every room |
| MediaStore.Store.RemoveUserMediaCount | src/state.rs:262-281 | video row, then audio row; every other row and room keeps its table |
| MediaStore.Store.GetUsersMediaCount | src/state.rs:237-260 | reads exactly the replayed table, and fails exactly when some stored count, or some count of the table, is 256 or more |
| RoomStreams.RoomIsReadable | src/state.rs:237-253 | a room whose connections brought at most 255 tracks of a kind each can always be read |
| Reconciliation.ExpectedIndex | src/subscriber.rs:278-289 | a label is expected exactly for a listed row of another user and an index below its count |
| Reconciliation.ForgetsHistory | src/subscriber.rs:236-351 | a run on tracks of an earlier table yields exactly those of the new one if and only if no row of another user that stays listed lost counts |
| Reconciliation.RunCatchesUp | src/subscriber.rs:236-351 | over any history without id reuse, a run brings the tracks of an earlier moment to exactly those of the later one |
| Reconciliation.ReconciledIsSound | src/subscriber.rs:234-289 | a run never introduces a track that echoes the subscriber, in the sense fixed by `IsEchoExactly` |
| Reconciliation.ReuseLeavesStaleTracks | docs/archive/DESIGN.md:85-94 | an id reused between two reads leaves a track that the table no longer asks for |
| SubscriberTracks.Tracks.Update | src/subscriber.rs:217-354 | one run keeps senders within forward tasks within tracks through every early return, succeeds exactly when no missing key meets a fault, removes exactly the stale keys, adds exactly the missing ones, keeps all other handles, changes nothing when the read fails, and is one of the updates the state machine of the renegotiation allows |
| SubscriberTracks.SecondRunChangesNothing | src/subscriber.rs:239-351 | a second run on the same table changes no key and no handle of the three maps, whatever the maps were |
| SubscriberTracks.OutcomeIsAllowed | src/subscriber.rs:558-562 | every outcome of a run, complete or cut short, is an outcome of the state machine's table update |
| SubscriberTracks.Tracks.OffersListTheSenders | src/subscriber.rs:707-730 | the tracks of the peer connection's senders are those an offer of the state machine lists, also where remove_track failed; after an early return they are among them |
| SubscriberTracks.Tracks.RemoveStale | src/subscriber.rs:239-275 | removes exactly the senders whose (user, kind) left the table, from all three maps, and stops their tasks |
| SubscriberTracks.Tracks.AddMissing | src/subscriber.rs:278-351 | adds every expected key that is not there, in any order of rows, or stops at one faulty key leaving exactly its track behind |
| SubscriberTracks.Tracks.SpawnForwardTask | src/subscriber.rs:732-775 | every spawned task is in the map and the insert displaces no live task |
| SubscriberTracks.Tracks.AbortAll | src/subscriber.rs:881-888 | aborting the map's tasks at the end leaves no forward task running |
| SubscriberTracks.AgreeingRunReconciles | src/subscriber.rs:256-343 | from agreeing maps a run without errors yields agreeing maps whose keys are the reconciled tracks |
| SubscriberTracks.OneOrphanPerFailure | src/subscriber.rs:321-343 | from agreeing maps an early return leaves exactly one track without sender and task, one on which a call failed |
| SubscriberTracks.AnyRunIsPartial | src/subscriber.rs:236-351 | whatever the maps were and wherever a run ended, listed tracks stayed and only expected ones are new |
| SubscriberTracks.OrphansStay | src/subscriber.rs:239-298 | such a track is neither removed nor repaired by a later run, whether that succeeds or fails |
| Renegotiation.RunKeepsInv | src/subscriber.rs:537-698 | on every run lock owners match program counters, one round token exists exactly while is_doing is set, every offer describes the current tracks, and queues stay within 10, whatever fails |
| GuardTheorems.MutualExclusion | src/subscriber.rs:592-668 | the loop and the answer handler are never both inside the table update or the sending of an offer, though they hold different locks |
| GuardTheorems.OneOutstandingOffer | src/subscriber.rs:593-671 | at most one unanswered offer on every run, none while is_doing is false, and every offer is created in the stable state |
| GuardTheorems.TracksChangeWhenStable | docs/archive/DESIGN.md:722-723 | the transceivers never change while an offer is unanswered, and a change always has an open round whose offer follows |
| GuardTheorems.NeedImpliesDoing | src/subscriber.rs:557-667 | on every run need_another is never set while is_doing is false |
| GuardTheorems.EchoFreedom | src/subscriber.rs:279-285 | on every run, even when updates fail, no track and no sender left behind belongs to the subscriber's base id or to that id with `-screen` |
| GuardTheorems.OwnStreamsAreNeverForwarded | src/subscriber.rs:279-285 | on every run nothing published as `id+r` or `id-screen+r` is forwarded to, or left in an offer for, a subscriber `id+r0` |
| GuardTheorems.OwnExactly | src/subscriber.rs:584-588 | the loop skips a command exactly when it is about the subscriber's own id, whatever the random parts |
| GuardTheorems.StuckStates | src/subscriber.rs:592-667 | neither task nor the browser can move exactly in the quiet, deadlocked and stalled states, and with one lock order never in the deadlocked one |
| GuardTheorems.DeadlockIsReachable | src/subscriber.rs:592-667 | any command of another user that arrives while the first answer is handled can lead to the deadlock |
| GuardTheorems.DeadlockIsForGood | src/subscriber.rs:592-667 | no further run of the two tasks, the browser and the fan-out ends a deadlock |
| GuardTheorems.OwnCommandsAreHarmless | src/subscriber.rs:583-588 | as long as only commands of the subscriber's own base id come in, no run deadlocks |
| GuardTheorems.DeadlockExactly | src/subscriber.rs:592-667 | some run deadlocks if and only if some command that may arrive is about another user |
| GuardTheorems.RunsAreFinite | src/subscriber.rs:556-671 | a run is at most as long as the work at its start plus 21 for every command that came in |
| Coarse.RunRefines | src/subscriber.rs:556-671 | every run of the locked protocol is a path of the machine with atomic command and answer steps |
| Coarse.PathsAreSafe | src/subscriber.rs:593-671 | that machine never has two rounds open, and rounds plus pending need never exceed commands |
| Coarse.CoalescingBound | src/subscriber.rs:586-667 | offers made plus a pending need are at most one more than the commands of other users taken, on every run of the locked protocol |
| Histories.RunRecords | src/subscriber.rs:556-671 | the errors, counts and read time of a subscriber are determined by the acts of the run: a read was missed exactly when the last one failed, an update was cut short, a round lost or a sender left behind exactly when some act says so |
| Pages.PageIsToldInOrder | src/subscriber.rs:575-589 | on every run the page is told of each arrived command of another user once and in the order of arrival, and of nothing else; what it has not been told yet is in the channel, in the loop's hand or in the queue |
| RoomInvariant.RunKeepsOk | src/state.rs:459-513 | over all runs of the whole system each subscriber keeps its invariant, reads its own room's table as of the read, and fan-outs aim only at the command's room |
| RoomInvariant.ReadsExactly | src/state.rs:237-260 | a subscriber about to read can read its room's table, as it is at that moment, exactly while every count is below 256 |
| NoLostUpdate.NoLostUpdates | src/subscriber.rs:592-668 | for every connected subscriber and every table change by another user in its room, of a publisher that can be heard, in every reachable state: read after the change, its last read failed, about to read, or still announced by the publisher, the bus, a fan-out, the queue or the loop |
| NoLostUpdate.TakingHolds | src/subscriber.rs:583-588 | ignoring commands of the own base id drops no announcement of a relevant change |
| NoLostUpdate.PublishCovers | src/state.rs:430-442 | one published command that is heard announces all earlier changes of its publisher to every subscriber of the room on every instance, and takes back no announcement of others |
| Convergence.Converges | src/subscriber.rs:648-669 | when the room's publishers can be heard and have announced their changes, nothing is in transit and a connected subscriber is quiet, its tracks are exactly those of the current table and its browser was last offered exactly these, with the senders that a failing remove_track left behind, whatever the order of delivery, unless its last table read failed or an update was cut short |
| RoomStreams.RunKinds | src/publisher.rs:222-249 | the table's history of a connection is exactly the kinds of the tracks that arrived on it, in order |
| RoomStreams.RoomIsShown | src/publisher.rs:235-249 | in such a state, while no publisher is halfway through leaving and no counter went round, a subscriber's tracks are exactly the streams, under the app ids minted for the tracks that arrived, of those who connected to its room and have not left, other than its own |
| Convergence.PromptRunsDoNotReuse | src/publisher.rs:194-287 | if no on_track callback runs after the first row deletion, the history of every run is free of id reuse |
| Convergence.IrrelevantChanges | src/subscriber.rs:282-285 | changes of other rooms and of echo users never alter what a subscriber expects |
| Draining.DrainsAreFinite | src/state.rs:489-513 | once publishers stop, every run of bus, fan-outs, subscribers and browsers is at most as long as the work at its start |
| Draining.DrainedStates | src/state.rs:501-512 | where such a run ends every subscriber whose queue is open is quiet, deadlocked or stalled, and what is left in transit is a fan-out blocked on a deadlocked subscriber with a full queue |
| Draining.EventualAgreement | src/subscriber.rs:556-671 | a run that has drained after the publishers settled, without a deadlocked subscriber, ends with every connected subscriber whose offers and updates worked, and whose publishers can be heard, in agreement with its room |
| Failures.ShowsLastRead | src/subscriber.rs:232-351 | a quiet subscriber has exactly the tracks of its last successful table read, and its browser was offered its senders, whatever failed since |
| Failures.FailedReadIsNotMadeUpFor | src/subscriber.rs:561-597 | for any room and publisher there is a reachable state in which a read failed and the settled, quiet system misses a track |
| Unheard.UnheardPublisherIsMissed | src/publisher.rs:572-583 | for any full id or room whose commands cannot be heard, a settled, quiet system without any error on the subscriber's side misses its tracks |
| Unheard.HeardIffNeverMissed | src/state.rs:430-475 | a publisher's name can be heard if and only if no reachable settled and quiet state misses it |
| Blocking.BlockedForGood | src/state.rs:501-512 | a fan-out blocked on a deadlocked subscriber with a full queue stays blocked whatever happens, so the subscribers behind never get its command |
| Blocking.BlockingIsReachable | src/subscriber.rs:592-667 | for any foreign publisher that can be heard such a state is reachable |
| Draining.OneLockOrderAlwaysAgrees | src/subscriber.rs:592-667 | with one lock order the same holds without the deadlock condition, and nothing is left in transit |
| FanOut.ExactlyOnce | src/state.rs:430-513 | between two moments with nothing in transit each queue received each command of its room as often as it was published if its name can be heard and never otherwise, at most as often if the subscriber has left, and none of another room |
| FanOut.RunConserves | src/state.rs:430-513 | at any time received plus upcoming copies of a command grow exactly with its publications if its name can be heard, and never otherwise |
| FanOut.PushExactly | src/subscriber.rs:381 | a fan-out to an open queue waits exactly while ten commands are in it |
| FanOut.LeaverIsPassedOver | src/state.rs:501-512 | a subscriber that leaves while its loop waits for a command is no longer a target, and a fan-out under way passes over it |
| Pages.RunKeepsTails | src/state.rs:503-506 | in every reachable state a subscriber's queue is the tail of the commands the fan-outs sent it, in order and unchanged |
| Pages.PageHearsTheRoom | src/subscriber.rs:575-589 | between two moments at rest a subscriber's page is told of each command of another user in its room exactly as often as it was published, if its name can be heard, and of nothing else |
| FanOut.QueuesAreBounded | src/subscriber.rs:379-388 | no queue ever holds more than ten commands |
| Departures.LeavesOnce | src/publisher.rs:400-428 | in any run, with any number of reports of failure, disconnection or closing, the latch lets one PubLeft through, exactly when the publisher has left |
| Departures.RunLatches | src/publisher.rs:400-410 | the latch is set exactly when the connection was reported as failed, disconnected or closed |
| Departures.LatchedCanLeave | src/publisher.rs:578-585 | from the latch on the video row goes, then the audio row, then one PubLeft of this user is published |
| Departures.RunPublishes | src/publisher.rs:572-583 | what is published is exactly one PubJoin for each time all tracks were there and one PubLeft for each departure, in this order, each with the publisher's own room and id |
| Departures.DepartedAreForgotten | src/publisher.rs:578-585 | when a departure is announced no row of the publisher is left, and none comes back |
| PublisherTracks.Counters.OnTrack | src/publisher.rs:235-268 | mints the next label of the kind modulo 256 and announces exactly when the 8-bit count of tracks reaches the transceivers; each 256th track panics in a build that checks overflow and counts as none in one that does not |
| PublisherTracks.LabelsAgree | src/publisher.rs:235-249 | the streams a connection sends are those every other user expects from the stored counts, exactly up to 256 tracks of a kind |
| PublisherTracks.StoredCounts | src/state.rs:221-235 | the table stores exactly how many tracks of each kind a connection brought |
| Registry.InternalState.AddPub | src/state.rs:297-301 | adds exactly the pair to the flat set of publishers |
| Registry.InternalState.RemovePub | src/state.rs:319-329 | removes exactly the pair and drops the room when it is the last client |
| Registry.InternalState.AddSubNotify | src/state.rs:404-413 | adds or replaces exactly that subscriber's sender |
| Registry.InternalState.RemoveSubNotify | src/state.rs:415-428 | removes exactly that subscriber and drops the room when it is the last client |
| Registry.InternalState.ForwardTargets | src/state.rs:490-500 | lists every subscriber of the room once with its own sender, and nobody else |
| RegistryFan.TargetsAreFanOrder | src/state.rs:490-500 | the senders an instance forwards a command to are, in whatever order, exactly its connected subscribers of the room, each once |
| RegistryFan.RunMirrors | src/state.rs:404-428 | on every run of the system the registry of every instance holds exactly its connected subscribers |
| Registry.InternalState.HasPeers | src/state.rs:515-521 | true exactly when some publisher or subscriber is registered |
| Registry.RegistryRefines | src/state.rs:297-428 | over all operation sequences the nested registry is two flat sets of pairs and stores no empty room |
| Registry.RoomCounts | src/state.rs:48-53 | a room's counts are the flat cardinalities |
| PublisherList.RedisIsTheUnion | src/state.rs:283-332 | when no operation is half done, Redis lists exactly the publishers of all instances, if an id lives on one instance at a time |
| PublisherList.RunStaysInSync | src/state.rs:283-332 | at every moment the list is that union up to half-done additions and removals |
| PublisherList.RemovalIsRightExactly | src/state.rs:306-332 | from any state in sync, removing an id keeps the list right if and only if the id is on no other instance |
| Routing.ExactRoutingCondition | src/subscriber.rs:740-742 | a forward task receives exactly the packets of its own room, user, kind and index if and only if every token of room and user is non-empty, free of white space and no wildcard |
| Routing.RtpSubjectInjective | src/publisher.rs:336 | the media subject determines room, user, kind and app id even when the user contains dots |
| Routing.SubjectTexts | src/publisher.rs:335-336 | the subjects are `cmd.ROOM` and `rtc.ROOM.USER.KIND.APP`, written out |
| Routing.MediaIsNoCommand | src/state.rs:463 | no media subject matches the command subscription |
| Routing.CommandsAreHeard | src/state.rs:431-463 | the command subscription hears a room's commands exactly when its name is one token: not empty, without dots and white space |
| Routing.RoomOfCommand | src/state.rs:469-475 | splitting a command subject once recovers its room |
| CommandCodec.CommandRoundTrip | src/state.rs:430-447 | a command fits the 64-byte buffer exactly for users of at most 62 bytes of UTF-8 and then decodes to itself |
| Commands.Utf8RoundTrip | src/state.rs:444-446 | the strict UTF-8 decoder gives back every string |
| Commands.FromUtf8IsStrict | src/state.rs:444-446 | nothing is accepted but the encoding of what it decodes to |
| Commands.AsciiIsItself | src/state.rs:430-434 | an ASCII user is as many bytes as characters, the same ones |
| CommandCodec.WireBytes | src/state.rs:430-434 | a command that fits is one byte, 0 for a join and 1 for a departure, one byte of length, and the user's bytes |
| Bus.HeardExactly | src/state.rs:430-475 | what an instance hears of a command is the command and its room exactly for full ids of at most 62 bytes and rooms that are one token, and nothing otherwise |
| CommandCodec.WireRoundTrip | src/state.rs:444-446 | any encoded command decodes to itself, whatever bytes follow |
| CommandCodec.TruncatedIsRejected | src/state.rs:444-446 | a command cut off anywhere is rejected |
| Browser.DefaultIdRoundTrip | site/weever-streaming.js:126-158 | a full id parses back to (id, default) exactly for ids without '+' and without `-screen` |
| Browser.ScreenIdRoundTrip | site/weever-streaming.js:209-257 | a screen share's full id parses back to (id, screen) |
| Browser.NotificationRoundTrip | src/state.rs:30-35 | a join or leave notification reaches the page with the user it was sent for |
| Browser.OfferRoundTrip | site/weever-streaming.js:142-147 | an offer message is taken for an offer with its full SDP |
| Browser.IgnoredExactly | site/weever-streaming.js:141-173 | a message is ignored exactly when it is neither an offer nor a notification |
| Browser.AnswerExactly | src/subscriber.rs:638-671 | the server takes a message for the answer with this SDP exactly when it is the page's answer message for it |
| Browser.EchoOfPageExactly | src/subscriber.rs:279-285 | the server keeps from a page's subscription exactly the cameras and screen shares published under the page's own id |
| Browser.CameraIsRecognised | site/weever-streaming.js:115-174 | the full id a page publishes under, sent on in either notification, is shown on a subscriber's page as the camera of its id |
| Browser.ScreenIsRecognised | site/weever-streaming.js:126-210 | a screen share's full id, sent on in either notification, is shown as the screen of the id it was started with |
| Browser.WeeverPeerConnection.OnIceComplete | site/weever-streaming.js:115-129 | announced to a subscriber's page, the full id of this page is recognised as the id that was set, as camera or screen, if and only if at most one screen share was started from the object |
| Browser.SharesShown | site/weever-streaming.js:148-210 | after several screen shares a page shows the id with all but one of the suffixes |

## Left out

- GuardTheorems.StuckStates: the stalled ending is described, not excluded, because after a swallowed failure is_doing stays true in the code.
- Draining.EventualAgreement: says nothing about a subscriber whose offer or answer failed, because no further answer will come for it, nor after a failed read or an update cut short, where agreement is false (`FailedReadIsNotMadeUpFor`, `OrphansStay`).
- Naming.KindOfLabel: label arithmetic is on characters, as all labels are ASCII.
- A count of exactly 256 agrees in labels but cannot be read, since the table read fails above 255 (`GetUsersMediaCount`).
- The end of the command loop of a leaving subscriber is modelled where it waits for the next command; one that misses the close notification may go on.
- SubscriberTracks.Tracks.OffersListTheSenders: after an update that returned early an offer may list fewer tracks than the state machine's.
- The end of the command loop of a connected subscriber on a send error, the 24-hour timeouts, and exits that skip the cleanup.
- Forward tasks that end by themselves when the peer connection is closed.
- The panic of a subscriber's tasks on a row of no known kind: system runs are without `#` in full ids.
- HTTP endpoints, tokens, TLS, metrics, startup and the demo pages.
- Redis time-to-live, reconnects and failures, and loss of NATS messages.
- WebRTC itself (ICE, codecs, PLI, RTP copying): only the signaling state and the set of senders are kept.
- The initial offer and answer over HTTP, after which the signaling state is stable.
- A second control data channel on one connection, and Connected after Disconnected.
- Publisher-side renegotiation over the data channel.
