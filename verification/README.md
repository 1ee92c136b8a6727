# A verified model of the rental proxy's relays

The proxy sits between miners and pools and sells the miners' hashrate: it re-points live
connections from a seller's idle pool to a buyer's and back, translates between Stratum V1 and
V2, and bills what the pools accept. This project models the parts where that can go wrong and
proves what they keep, over every run and every interleaving.

| files | what they model |
|---|---|
| `Rig`, `RigProtocol`, `RigTheorems`, `RigOpens`, `RigTerms`, `RigSwaps`, `RigFailure`, `RigNotices`, `RigStrays` | the SV2 rig: many members on one upstream that is swapped underneath them. `Rig` gives what each hold of the rig's lock does; `RigProtocol` interleaves those holds freely, a swap being several of them under the `switch` lock; `RigTheorems` states what holds on every run, `RigOpens` how each open is asked for and answered, `RigTerms` on which terms a channel's shares count, `RigSwaps` what a swap keeps, loses and tells, `RigFailure` that a failed swap cannot be noticed, `RigNotices` who is told of an abandoned open, `RigStrays` what ends up with the wrong miner |
| `Session`, `Reopening` | the same rig as the object the code has, fields updated in place, each method proved equal to the function of `Rig` that the state machine steps by; and the re-open loop on a new connection |
| `Lifecycle`, `LifecycleTheorems`, `IdleRounds`, `Teardown`, `Registry` | attaching, building, leaving, swapping and reaping rigs, and order changes waking their members, with any number of each. `IdleRounds` is about reapers that a rig outlived, `Teardown` about rigs without a member |
| `Orders`, `Billing` | the order table with its write buffer and sweep, and the same as a machine in which every database update is a step of its own |
| `Sv1`, `Sv1Protocol`, `Sv1Lines`, `Sv1Flow`, `Sv1Replies`, `Sv1Theorems` | the SV1 session: the holds of its lock, and the lines sent after them, by its loop, its readers and its swaps in any order. `Sv1Lines` is about what the miner is handed and is left believing, `Sv1Flow` about what goes through and what is counted, `Sv1Replies` about results and the news of swaps, `Sv1Theorems` about shares, attribution, replaced connections and failed swaps |
| `Submits`, `Translator`, `TranslatorTheorems` | both translators: submits waiting on an SV2 pool, and jobs and shares of an SV1 pool |
| `Target`, `Wire`, `Hashrate` | difficulty and target, channel ids in payloads, the hashrate window |
| `Types`, `Bytes`, `Division`, `Options` | shared entities, byte strings and arithmetic |

What is billed hangs together as follows. A session's credit log splits exactly over idle and
orders, and its total is the session's delivered work; every credit in it came from a pool of
its order, on SV1 as long as every attach found one (`CreditsAreAttributed` of either relay).
The same credits are what `Billing` takes in as its log, and there every credit to an order is
in its row, its buffer or on the way between them.

## Where the code and its documentation differ

The model follows the code. Each of these is proved, with a run or an input where it shows.

- `target_from_difficulty` is called the exact inverse of `difficulty_from_target`. It is so
  exactly when the division leaves a small enough remainder; the largest difficulty reads back
  one too high (`ReadBackIff`, `ReadBackFailsAtMax`, `ReadBackDifficulty`).
- A swap says it answers the opens it abandons. It does so only for members attached when it
  began, or at its second hold for an SV1 pool, and under the proxy's request id, which is the
  miner's only by coincidence (`AbandonedOpens`, `LateJoinerIsNotTold`, `NoticeUnderAnotherId`).
- A channel whose open finishes while a swap is connecting was announced to its miner and is
  dropped by the commit (`SwapDropsLateChannels`, `LateChannelIsLost`).
- A channel of a member that leaves during a swap comes back with the commit, although its
  owner is gone; members are assumed not to change across a swap (`OwnersAreOpeners`,
  `DepartedChannelReturns`).
- A swap onto an SV1 pool whose extranonce is longer than 32 bytes fails after it has installed
  the pool, and tells nobody (`InstalledUntold`, `SwapTranslate`). A swap that fails before it
  installs cannot be noticed (`FailedSwapIsInvisible`).
- A rig behind an SV1 pool is taken to have one member. A rig with several that is swapped onto
  one keeps them, and each frame the translation makes goes to any of them, so that it surely
  reaches the miner it is for only if that is the only one (`SynthesizedReachOwnerIff`,
  `JobAndHashPart`).
- A frame is forwarded under the channel it names, whichever member of the rig sends it
  (`SubmitIsOwnersIff`, `ForeignSubmitCounts`).
- A retry is meant not to keep a torn-down rig alive. In a round it does: its swap can commit
  after the rig was taken down, and then an upstream runs that nobody sees to (`OrphanRuns`).
  There is no other way (`RunsAgainIff`, `RevivedByRetry`, `NoEmptyRigIsLeaked`).
- A miner is meant never to be left on a stale extranonce. The subscribe answer of the SV1 loop
  reads the extranonce under the lock and sends it after, so an install in between can overtake
  it. The miner is stale exactly while such an answer is the last thing it was told
  (`StaleIff`, `StaleOnlyByReply`); a run ends that way (`DividedReplyIsStale`).
- A replaced connection is meant to fall silent. A line its reader has checked still goes out,
  and so do results for the submits a translator was given, which are not credited any more
  (`ReplacedStillSpeaks`); nothing else does (`ReplacedSendsIff`, `ReplacedIsSilenced`).
- A miner that authorizes is attached to an order when the session is on the order's pool. The
  check and the attach are two holds, and a failover in between leaves the order attached on a
  pool that is not its own (`DividedAttachIsMisplaced`). Attribution survives an attach exactly
  when the pool installed at that hold is one of the order's (`InPlaceIff`).
- Shares count at the difficulty in force. One that an SV1 pool sets while the proxy connects to
  it is handed to the miner but not recorded, so shares count at the one before it, which is 1 on
  the first connection, until the pool sets another (`DifficultyIsLastSet`,
  `FirstDifficultyIsNotCounted`).
- Translated lines wait so that a job never precedes the subscribe answer. A swap hands the
  waiting lines out without looking whether the miner was answered; that is the only way
  (`JobsFollowTheAnswerUnless`, `JobBeforeTheAnswer`).
- The first job of a translated connection is meant to be a future one. If its conversion
  fails, the next is announced as immediate unless it is clean (`FirstDeliveredIsFutureIff`,
  `FirstDeliveredIsImmediate`).
- Submits waiting on an SV2 pool are acknowledged up to a 32-bit number. Past its wrap an
  acknowledged one can wait behind an older one (`DrainIsExactIff`, `WrappedQueueMissesOne`).

## What the pools and the caller are assumed to do

- A pool may send anything, except that an upstream id it gives a new channel is not the id of
  a channel open on the same connection, and that ids it answers one round of re-opens with
  are distinct. `PerChannelFrame` speaks of frames whose id is not also used as a group id.
- Whoever asks for a swap names an order together with one of that order's pools.
- Credited work is not negative, and orders are credited after they are created.
- The clock does not go back.
- A task that is aborted does not take another hold, and drops what it keeps alive.
- A prefix and a target that a native pool names fit their frames, since they came in one.

## Model

| member | source | states |
|---|---|---|
| `RigTheorems.IdsAgree` | src/proto/sv2/relay.rs:586-614 | On every run and under any interleaving with a swap: downstream ids are pairwise distinct, already issued, and never an Extended channel's group id; `up_to_down` holds exactly the (up, down) pairs of the channel list, so it and `up_for_down` are mutual inverses |
| `RigTheorems.NeverReissued` | src/proto/sv2/relay.rs:677-688 | Between any two states of a run no id told to a miner is told again with another meaning, groups and connections on record stay, the downstream id counter and the generation only grow, and credits are only appended |
| `RigTheorems.UpForDownIff` | src/proto/sv2/relay.rs:586-592 | With distinct ids the lookup answers exactly the upstream id of the channel that has the downstream id, and nothing when there is none |
| `RigTheorems.PerChannelFrame` | src/proto/sv2/relay.rs:1215-1243 | On every run a frame for a channel's upstream id reaches the member that opened that channel, once, and nobody else, under the channel's downstream id and with every byte after the first four unchanged; a frame for an unknown id reaches nobody |
| `RigTheorems.GroupFrame` | src/proto/sv2/relay.rs:1215-1233 | On every run a frame for an upstream group reaches exactly the attached owners of the Extended channels in it, once per distinct (downstream group, owner) pair; on runs that stayed native each copy carries the group id its owner was told |
| `RigTheorems.RecipientsExact` | src/proto/sv2/relay.rs:624-640 | The recipients of a group are exactly the (downstream group, owner) pairs of the Extended channels in it, each once |
| `RigTheorems.CopiesExact` | src/proto/sv2/relay.rs:1215-1233 | The copies sent of a group frame are exactly one per listed pair whose owner is attached, each with the pair's group id written over the first four bytes |
| `RigTheorems.OwnersAreOpeners` | src/proto/sv2/relay.rs:1315-1344 | On every run a channel's owner is the member its open reply went to, and is attached if and only if it did not leave during a swap |
| `RigOpens.AskedUnderItsId` | src/proto/sv2/relay.rs:1294-1310 | On every run an open a member asks for goes to the pool under a request id never used before, as the miner asked for it, and waits under it |
| `RigOpens.AnsweredAsAsked` | src/proto/sv2/relay/codec.rs:88-125 | On every run the pool's answer to a waiting open goes to the member that asked for it, and to nobody else, under the request id that member used: a success with the id of the channel registered for it and the pool's own target, prefix and extranonce size, an error as a refusal; the open waits no longer |
| `RigOpens.AnsweredOnce` | src/proto/sv2/relay.rs:1055-1112 | On every run no open is answered twice |
| `RigOpens.AskedOnce` | src/proto/sv2/relay.rs:1294-1310 | On every run no two opens are asked for under one id |
| `RigOpens.OnlyAsksGoOut` | src/proto/sv2/relay.rs:1294-1310 | On every run the pool is asked for a channel only by a member's open that can be encoded, on a native rig |
| `RigOpens.OnlyAnswersOpen` | src/proto/sv2/relay.rs:1046-1112 | On every run a member is told that a channel is open or refused only by the pool's answer to an open that waits |
| `RigOpens.UnknownErrorsFanOut` | src/proto/sv2/relay.rs:1097-1112 | On every run an error for an open nobody waits for goes to every attached member as it came, and changes nothing |
| `RigOpens.JoinsOrIsRefused` | src/proto/sv2/relay.rs:1289-1310 | On every run a miner joins a native rig under an id nobody has or had, and a translated rig turns it away without any change; an open on a translated rig is refused under the miner's own request id |
| `RigOpens.JoinsItsGroup` | src/proto/sv2/relay.rs:677-688 | On every run an Extended channel whose open names a group the rig knows joins the downstream group it has, and a new group gets an id never told before; no other group changes |
| `RigOpens.LeavingClosesOwn` | src/proto/sv2/relay.rs:1315-1344 | On every run a member that leaves a native rig has exactly its own channels closed at the pool, each once and under the pool's own ids, and loses exactly its own opens; it was the last if and only if nobody is left |
| `RigTheorems.CreditsAreAttributed` | src/proto/sv2/relay.rs:1176-1196 | On every run work credited to an order came over a connection to one of that order's own pools; accepted shares and delivered work are the sums of the credits, which split exactly into the idle part and one part per order |
| `RigTerms.ChannelsMeetTheirTerms` | src/proto/sv2/relay.rs:1055-1200 | On every run a channel has the upstream id and group of its last open or re-open, and the difficulty of the last target given for that very channel, by its open, a re-open or a change of target |
| `RigTerms.AcceptedAtLastTarget` | src/proto/sv2/relay.rs:1176-1196 | On every run accepted shares of a channel are credited once, at their number times the difficulty of that last target if that is positive, and nothing else is |
| `RigTerms.NothingForUnknownChannel` | src/proto/sv2/relay.rs:1176-1196 | On every run a frame that names no channel brings no credit |
| `RigTerms.TranslatedAtLastDifficulty` | src/proto/sv2/relay.rs:1763-1801 | On every run a translated share is credited at the difficulty last given for its channel |
| `RigTheorems.GenerationsIncrease` | src/proto/sv2/relay.rs:992-1001 | Every commit of a swap raises the generation, and while the generation stays the pool and the routing stay |
| `RigTheorems.SupersededIsIgnored` | src/proto/sv2/relay.rs:1050-1053 | Once a connection has been replaced, no frame, made-up frame, difficulty or share still read from it changes the rig, reaches a miner or brings a credit, for the rest of the run |
| `RigFailure.FailedSwapIsInvisible` | src/proto/sv2/relay.rs:897-930 | A swap that gives up is invisible: whatever members, pools and miners do between its beginning and its failure, the same steps without it lead from where it began to the same rig, connections, replies and credits, but for the counter, and hand out the same frames and refusals on the way |
| `RigFailure.OthersIgnoreSwap` | src/proto/sv2/relay.rs:897-930 | Every step of members, pools and miners is as possible, and does the same, with or without a swap under way |
| `RigSwaps.CommittedSwapKeepsChannels` | src/proto/sv2/relay.rs:944-1030 | A native swap that commits, with any steps between its two holds, keeps every snapshotted channel in order with its downstream id, owner, spec and downstream group, gives each the upstream id and difficulty of its own re-open and, if Extended, the group that re-open named, sends its owner, if attached at the beginning, exactly the extranonce prefix and then the target of that re-open and nothing more about the channel, leaves no pending open, and installs pool, routing and a higher generation together |
| `RigSwaps.GroupWorkReachesReopened` | src/proto/sv2/relay.rs:952-980 | Right after a commit a frame for the group that the re-open of an Extended channel named reaches the channel's attached owner, under the channel's own downstream group id |
| `RigSwaps.CommittedGroups` | src/proto/sv2/relay.rs:952-980 | After a commit the known groups are exactly those that the re-open of an Extended channel with a downstream group named, each leading to the downstream group of the last such channel |
| `RigSwaps.CommittedTranslationKeepsFirst` | src/proto/sv2/relay.rs:1946-2034 | A swap onto an SV1 pool that commits leaves exactly the channel that was first at its middle hold, under equal ids, with the pool's difficulty and no group, and tells its attached owner the prefix and the target of that difficulty |
| `RigSwaps.OnlyOwnersAreRepointed` | src/proto/sv2/relay.rs:1022-1030 | Every re-point frame is about a channel of the swap's beginning and goes to that channel's own, attached owner |
| `RigSwaps.AttachedOwnersAreRepointed` | src/proto/sv2/relay.rs:1022-1030 | Every owner of a kept channel that is attached after the commit has been sent the prefix and target of that channel's own re-open, once |
| `RigSwaps.SwapEnds` | src/proto/sv2/relay.rs:889-917 | A commit installs exactly what the snapshot of its own beginning and the answers to its own re-opens determine, whatever happened in between |
| `RigSwaps.SwapDropsLateChannels` | src/proto/sv2/relay.rs:998-1003 | A channel present at the commit survives it if and only if its id had been issued when the swap began |
| `RigSwaps.LateChannelIsLost` | src/proto/sv2/relay.rs:998-1003 | A run in which an attached member's channel, announced to it, is gone after a swap because its open finished between the two holds |
| `RigNotices.AbandonedOpens` | src/proto/sv2/relay.rs:1004-1038 | For swaps onto either kind of pool that get to their notices: an open a swap abandons has an attached opener, who is told if and only if it was attached at the hold the commit takes its members from (the first, or the second for an SV1 pool); the notice names the miner's own request id if and only if the proxy asked the pool under that same id |
| `RigNotices.LateJoinerIsNotTold` | src/proto/sv2/relay.rs:1004-1038 | A run in which a member joins during a swap, stays attached, and is not told that its open was abandoned |
| `RigNotices.NoticeUnderAnotherId` | src/proto/sv2/relay.rs:1004-1038 | A run in which a miner is told of its abandoned open under a request id that is not its own |
| `RigTheorems.TranslatedRig` | src/proto/sv2/relay.rs:1294-1343 | On every run `translating` holds exactly while the installed connection is an SV1 translation; then nothing is pending, no group is mapped, there is at most one channel, its two ids are equal, attaching and further opens are refused without any change, and leaving sends no close |
| `RigStrays.SynthesizedReachOwnerIff` | src/proto/sv2/relay.rs:1733-1744 | On every run of a translated rig a made-up frame surely reaches the miner of its channel if and only if that is the only member attached |
| `RigStrays.JobAndHashPart` | src/proto/sv2/relay.rs:1733-1744 | A run in which a made-up job goes to one miner and the previous hash that activates it to another |
| `RigStrays.InstalledUntold` | src/proto/sv2/relay.rs:2019-2030 | A run in which a swap onto an SV1 pool fails after it installed the pool, with nobody sent a prefix, a target or a notice, because the extranonce is longer than a frame holds |
| `RigStrays.DepartedChannelReturns` | src/proto/sv2/relay.rs:913-922 | A run in which a member that left during a swap owns a channel again after the commit |
| `RigStrays.SubmitIsOwnersIff` | src/proto/sv2/relay.rs:2291-2330 | On every run a frame of a miner is forwarded, whoever sends it, if and only if it names a channel there is, and then once, under that channel's upstream id and otherwise unchanged; a submit so forwarded is counted once, for the order if rented; it comes from the channel's owner if and only if the sender is the member told of that channel |
| `RigStrays.ForeignSubmitCounts` | src/proto/sv2/relay.rs:2291-2318 | A run in which a member submits on another's channel and the submit counts |
| `RigTheorems.MembersAreNeverReused` | src/proto/sv2/relay.rs:645-651 | A member id that was issued before and is attached later has been attached all along |
| `RigProtocol.StepKeeps` | src/proto/sv2/relay.rs:481-565 | Every lock hold, in any order, keeps the invariant of ids, channels, swap, members, translation, connections and credits |
| `RigProtocol.DetachStepKeeps` | src/proto/sv2/relay.rs:1315-1344 | Leaving, during a swap or outside one, keeps that invariant |
| `RigProtocol.FinishOpenKeeps` | src/proto/sv2/relay.rs:1055-1093 | Finishing an open keeps it, provided the pool gives the channel an upstream id not in use on the connection |
| `Session.Sv2Session.constructor` | src/proto/sv2/relay.rs:2138-2172 | A new session is the empty rig on its first target |
| `Session.Sv2Session.UpForDown` | src/proto/sv2/relay.rs:586-592 | The scan returns the upstream id of the first channel with the downstream id |
| `Session.Sv2Session.RegisterChannel` | src/proto/sv2/relay.rs:594-614 | Channel list and map grow by the same channel |
| `Session.Sv2Session.GroupRecipients` | src/proto/sv2/relay.rs:624-640 | The scan with its duplicate check computes the recipients function whose exactness is proved |
| `Session.Sv2Session.MapGroup` | src/proto/sv2/relay.rs:677-688 | A known group keeps its downstream id, a new one takes the next id, Standard and groupless channels pass the id through |
| `Session.Sv2Session.AddMember` | src/proto/sv2/relay.rs:645-651 | The member gets the next id, which nobody else ever gets |
| `Session.Sv2Session.AttachMember` | src/proto/sv2/relay.rs:1289-1310 | Refuses without change while translating; otherwise adds the member and asks the pool for its channel under a fresh request id |
| `Session.Sv2Session.OpenAdditional` | src/proto/sv2/relay.rs:2261-2290 | Refuses with an error to the miner and no change while translating; otherwise one more pending open |
| `Session.Sv2Session.FinishOpen` | src/proto/sv2/relay.rs:1055-1093 | A success for a pending open of an attached member registers its channel under a fresh downstream id and replies with the miner's own request id |
| `Session.Sv2Session.FailOpen` | src/proto/sv2/relay.rs:1097-1112 | A failure removes the pending open and reports it under the miner's own request id |
| `Session.Sv2Session.OnUpstreamFrame` | src/proto/sv2/relay.rs:1046-1249 | The whole new state, everything sent and the credit, for any frame of any connection, equal the step function of the state machine |
| `Session.Sv2Session.OnMinerFrame` | src/proto/sv2/relay.rs:2291-2330 | A frame for a known channel goes up with the upstream id written in, and a submit is counted, for the order if rented; any other frame is dropped |
| `Session.Sv2Session.DetachMember` | src/proto/sv2/relay.rs:1315-1344 | Member, its channels, their map entries and its pending opens are gone, the pool is told to close exactly those channels unless translating, and the result says whether anybody is left |
| `Session.Sv2Session.BeginSwap` | src/proto/sv2/relay.rs:897-917 | The snapshot of a swap is the next generation with the channels and members of that moment |
| `Session.Sv2Session.CommitSwap` | src/proto/sv2/relay.rs:990-1038 | The commit's state equals the step function's; the re-point frames come first, then exactly the notices to the abandoned openers still in the snapshot, each once |
| `Session.Sv2Session.SwapUpstream` | src/proto/sv2/relay.rs:889-1044 | A swap run on its own succeeds if and only if the pool could be reached and its first answers are one success per channel; on failure only the counter moved and nothing is sent; on success the state is the commit of those very answers, the re-points and notices are sent, and no other frame of the connection is lost or reordered |
| `Session.Sv2Session.SwitchToOrder` | src/proto/sv2/relay.rs:739-755 | It succeeds if and only if the order is known and its primary or, failing that, its fallback re-opens every channel; the rig is then on the first of them that did and routed to the order, with the same members, channels and totals; a failure changes nothing but the counter |
| `Session.Sv2Session.Revert` | src/proto/sv2/relay.rs:757-773 | Back to the idle pool and idle routing on a fresh generation if and only if that pool re-opens every channel, with the same members, channels and totals; with no idle pool a reconnect and no change; a failure moves only the counter |
| `Session.Sv2Session.ReconcileRouting` | src/proto/sv2/relay.rs:809-835 | An aligned rig is left alone; any other then serves exactly the desired order or is idle, if and only if a pool for that serves, keeping members, channels and totals; without an idle pool to go back to the miners reconnect; a failure changes nothing but the counter and leaves a retry exactly for an order |
| `Session.Sv2Session.RecoverFrom` | src/proto/sv2/relay.rs:380-434 | A drop of a replaced connection is ignored; otherwise recovery keeps the rig's order, on one of its pools, or puts an idle rig back on the idle pool under a fresh generation if there is one, keeping members, channels and totals; it succeeds exactly when such a pool serves, the miners reconnect exactly when it succeeds, and a failure moves only the counter |
| `Session.Sv2Session.CommitTranslate` | src/proto/sv2/relay.rs:1983-2030 | The commit onto an SV1 pool: one kept channel with equal ids and no group, no map but its own; then the prefix and target to its owner and the notices to the abandoned openers attached at the second hold, each once; or a failure after the fact, with nothing sent, if and only if there is an owner to tell and the prefix does not fit a frame |
| `Session.Sv2Session.SwapTranslate` | src/proto/sv2/relay.rs:1946-2034 | A translating swap run on its own changes more than the counter if and only if there is a channel to keep and the pool was reached, and then installs the commit for the first channel; it succeeds if and only if, besides, the pool's extranonce fits a frame for the owner, and then sends the owner's frames and the notices |
| `Session.Sv2Session.SendTranslateFrame` | src/proto/sv2/relay.rs:1733-1744 | A made-up frame of the current connection goes to one of the attached members, of any other connection to nobody |
| `Session.Sv2Session.CreditTranslate` | src/proto/sv2/relay.rs:1763-1801 | A share of a translated pool is credited at the channel's difficulty, if the connection is current and the difficulty positive |
| `Session.Sv2Session.SetTranslateDifficulty` | src/proto/sv2/relay.rs:1747-1758 | Only the named channel's difficulty changes, and only for the current connection |
| `Session.Sv2Session.ReadUpstream` | src/proto/sv2/relay.rs:354-373 | The reader hands on the deferred frames first and then the rest of the connection, every one, in order and under its own generation |
| `Reopening.Connection.OpenOn` | src/proto/sv2/relay.rs:282-333 | Reads to the answer of one open: on success what was read before it is kept in order and exactly the answer is consumed; on failure the connection could not have answered with a success |
| `Reopening.Connection.ReopenAll` | src/proto/sv2/relay.rs:944-998 | Over k channels it succeeds if and only if the connection's first k answers are successes, and then what is deferred followed by what is unread is the arrival sequence without exactly those k |
| `Reopening.NothingLost` | src/proto/sv2/relay.rs:282-333 | Taking k successes out of an arrival sequence removes k frames, none of them another kind, and leaves the others in order |
| `Reopening.InOrderOfArrival` | src/proto/sv2/relay.rs:944-998 | The i-th answer a swap takes is the i-th success in the order of arrival |
| `Wire.ReadChannelId` | src/proto/sv2/wire.rs:65-73 | The little-endian number in the first four bytes, or nothing for a shorter payload |
| `Wire.RewriteChannelId` | src/proto/sv2/wire.rs:53-62 | In place, the first four bytes become the id and no other byte changes; a short payload stays as it is |
| `Wire.RewriteNamesId` | src/proto/sv2/wire.rs:53-73 | Reading back a rewritten payload gives the id, for every 32-bit id |
| `Wire.RewriteRoundTrip` | src/proto/sv2/wire.rs:53-73 | Rewriting to any id and back restores every payload |
| `Bytes.DecodeEncode` | src/proto/translate.rs:57-93 | Decoding an n-byte little-endian encoding gives the number modulo 256^n |
| `Bytes.EncodeDecode` | src/proto/translate.rs:57-93 | Encoding a decoded byte string gives the same bytes |
| `Bytes.ByteAt` | src/proto/translate.rs:57-93 | Byte i of the encoding is the number divided by 256^i, modulo 256 |
| `Target.TargetFits` | src/proto/translate.rs:77-93 | For every scaled difficulty in 1..2^128-1 the target is nonzero, fits 32 bytes, and its encoding decodes to it |
| `Target.HarderIsSmaller` | src/proto/translate.rs:77-93 | A higher difficulty never has a larger target |
| `Target.ReadBackIff` | src/proto/translate.rs:57-93 | Reading a target back gives the scaled difficulty D if and only if the division leaves a remainder below the quotient, which it does whenever D squared is at most the numerator |
| `Target.ReadBackFailsAtMax` | src/proto/translate.rs:57-93 | The largest scaled difficulty reads back one too high |
| `Target.ReadBackDifficulty` | src/proto/translate.rs:57-93 | As real numbers, what is read back is never below the difficulty, floors to it under that same condition, and equals it if and only if the division is exact |
| `Target.NoThresholdIff` | src/proto/translate.rs:77-93 | A difficulty gets the largest target there is if and only if it is not positive or too small to scale |
| `Target.DifficultyTimesTarget` | src/proto/translate.rs:57-73 | Difficulty times target is the target of difficulty one, for every nonzero 32-byte target |
| `Target.DifficultyOne` | src/proto/translate.rs:57-93 | Difficulty 1 has the target 0xFFFF times 256^26, and reads back as 1 |
| `Target.ScaledIsNearest` | src/proto/translate.rs:77-93 | The scaled difficulty is within half a step of 1/65536 of the difficulty, and the largest there is once the difficulty is 2^112 or more |
| `Target.ReadBackIsNear` | src/proto/translate.rs:57-93 | Below 2^112 - 1 what is read back is at most half a step too low and, if the remainder is below the quotient, less than one and a half steps too high |
| `LifecycleTheorems.NoLostWakeup` | src/proto/sv2/relay.rs:793-795 | On every run: once an order change has bumped the sessions it found, every bundled member of the worker has an unseen epoch or resolved its order from a store that already had the change |
| `LifecycleTheorems.JoinedIsRead` | src/proto/sv2/relay.rs:2105-2122 | What that claim says a member saw and resolved is what it read from its rig and, after that, from the store |
| `LifecycleTheorems.GateIsExclusive` | src/proto/sv2/relay.rs:2096-2098 | On every run at most one connection of a worker is between looking for a rig and serving |
| `LifecycleTheorems.ReaperExcludesHandlers` | src/proto/sv2/relay/registry.rs:98-115 | While a reaper decides about or takes down a rig, no connection of that worker is on its way to any rig |
| `Teardown.TakenDownForGood` | src/proto/sv2/relay/registry.rs:115-126 | A rig is only taken down empty, by a reaper or as a standalone rig; in every later state it has no member, is nobody's target and nobody is on the way to it, and its upstream runs if and only if a swap committed on it since and its pool has not dropped it |
| `LifecycleTheorems.ReapedRigIsEmpty` | src/proto/sv2/relay/registry.rs:108-118 | From a reaper's check to its end the rig has no member and nobody is attaching |
| `Teardown.NoEmptyRigIsLeaked` | src/proto/sv2/relay.rs:2341-2362 | On every run a rig that runs without a member is seen to by the connection that left it last or by a reaper with its current token, unless it had been taken down, which is so if and only if a swap committed on it afterwards; for a bundle target the one that sees to it can still let it live |
| `Teardown.RunsAgainIff` | src/proto/sv2/relay.rs:990-998 | On every run a rig that was taken down has a running upstream if and only if a swap committed on it afterwards, and neither a drop nor another take-down came since |
| `Teardown.RevivedByRetry` | src/proto/sv2/relay.rs:837-886 | Such a swap is always that of a background retry, in a round that began before the rig was taken down or while a leaver, a stale reaper or a running upstream still held on to it |
| `Teardown.OrphanRuns` | src/proto/sv2/relay.rs:837-886 | A run at whose end a rig that was taken down runs without a member, and no leaver or reaper sees to it |
| `LifecycleTheorems.StaleReaperYields` | src/proto/sv2/relay/registry.rs:108-113 | A reaper whose rig has a member, or was left again since, changes nothing but its own gate |
| `IdleRounds.LeftAgainIsSpared` | src/proto/sv2/relay.rs:2349-2362 | On every run, once a rig was left empty a second time, the reaper of the first time never takes it down |
| `IdleRounds.OneReaperAtMost` | src/proto/sv2/relay/registry.rs:108-113 | On every run, of all the reapers of one rig at most one finds it idle |
| `LifecycleTheorems.NoGateIsLeftLocked` | src/proto/sv2/relay.rs:2096-2240 | On every run a gate is held only by a connection on its way to a rig or by a reaper at work, of that very worker |
| `LifecycleTheorems.BuildsOnlyIfItMust` | src/proto/sv2/relay.rs:2096-2172 | On every run a connection builds a rig only if it found no target of its worker under the gate, or that target turned it away because it translates |
| `LifecycleTheorems.TurnedAwayBuilds` | src/proto/sv2/relay.rs:2105-2172 | On every run a miner is turned away only by a rig that translates, and its connection goes on to build its own under the gate it holds |
| `LifecycleTheorems.PublishedIfNative` | src/proto/sv2/relay.rs:2172-2240 | On every run a fresh rig becomes its worker's target if and only if it does not translate, and does not replace another; members attach only to rigs that do not translate |
| `LifecycleTheorems.WarmIffTarget` | src/proto/sv2/relay.rs:2341-2362 | On every run a rig its last member left is kept for the grace time if and only if it is its worker's target, and closed at once otherwise |
| `LifecycleTheorems.CommitInstalls` | src/proto/sv2/relay.rs:990-1020 | On every run a commit leaves the upstream running and translating as the new pool does, frees the switch lock, and ends the retry that it succeeded for |
| `LifecycleTheorems.TranslatesAsItsPool` | src/proto/sv2/relay.rs:990-1020 | On every run a rig translates if and only if the pool it was last put on, when it was built or by a commit, needs it |
| `LifecycleTheorems.OtherTargetsStay` | src/proto/sv2/relay/registry.rs:83-91 | No event takes a target away but the reaper of that very rig |
| `Lifecycle.StepKeepsInv` | src/proto/sv2/relay.rs:2096-2362 | Every event of the lifecycle keeps the invariant of gates, rigs, members, targets, teardown coverage and wakeups |
| `Lifecycle.LeaveKeepsCovered` | src/proto/sv2/relay.rs:2341-2362 | A leaver hands an empty rig on without a gap: from its detach to the reaper it spawns, which holds the new token |
| `Lifecycle.ChangeKeepsWakeup` | src/api.rs:551-579 | Persisting, looking up sessions and bumping them, one at a time, keeps every member aware of every change |
| `Registry.Sv2RigRegistry.GateOf` | src/proto/sv2/relay/registry.rs:45-52 | One gate per worker, made on first use and the same ever after |
| `LifecycleTheorems.FoundStaysTarget` | src/proto/sv2/relay/registry.rs:55-57 | On every run the rig that a connection found under its worker's gate, or built, stays that worker's target, listed and running until the connection is a member or gave up |
| `Registry.Sv2RigRegistry.InsertRig` | src/proto/sv2/relay/registry.rs:71-78 | The slot is taken only if free, and the result says so |
| `Registry.Sv2RigRegistry.RemoveRig` | src/proto/sv2/relay/registry.rs:83-91 | The slot is freed only if that very rig holds it |
| `Registry.Sv2RigRegistry.ReapIdleRig` | src/proto/sv2/relay/registry.rs:98-126 | The rig is stopped and delisted if and only if it is empty and the token current; otherwise nothing changes |
| `Orders.OrderStore.Create` | src/orders.rs:233-298 | An order is recorded if and only if the id is new and the worker has no active order; one active order per worker is kept |
| `Orders.OrderStore.AddWork` | src/orders.rs:373-378 | The order's buffered delta grows by the work and shares; no other does |
| `Orders.OrderStore.AddSubmitted` | src/orders.rs:382-385 | The order's buffered submits grow by the count; no other delta changes |
| `Orders.OrderStore.Flush` | src/orders.rs:390-413 | The buffer is empty and every row has grown by its own delta |
| `Orders.OrderStore.ActiveForWorker` | src/orders.rs:352-369 | Returns a live order of the worker if and only if there is one |
| `Orders.OrderStore.Cancel` | src/orders.rs:416-431 | A known order becomes cancelled, whatever it was before; an unknown one changes nothing |
| `Orders.OrderStore.TakeExpired` | src/orders.rs:436-467 | The table is the swept table, and the orders returned are exactly those ended, each once |
| `Orders.SweptIffNotLive` | src/orders.rs:104-128 | For an active order the sweep and `is_live` agree if and only if its deadline is not negative or its funding is gone |
| `Billing.DeadlinesAreNotNegative` | src/api.rs:490-495 | On every run no order has a negative deadline, because the handler refuses one that is not in the future |
| `Orders.SweepIsExact` | src/orders.rs:436-467 | With deadlines not negative, a sweep ends exactly the active orders that are not live, and every order it leaves active is live |
| `Orders.LiveOrderIsUnique` | src/orders.rs:352-369 | A worker has at most one live order, so the query can find no other |
| `Orders.BudgetSplits` | src/orders.rs:117-128 | Funding is exhausted exactly when nothing of the budget remains; before that cost and remainder make up the budget |
| `Orders.CostIsPerThDay` | src/orders.rs:110-114 | An order whose delivered work is what a given number of TH/s makes in a given number of days, at 2^32 hashes a share of difficulty 1, costs that many TH-days times its price |
| `Billing.EverythingIsConserved` | src/orders.rs:371-413 | On every run, for every order, all work, accepted and submitted shares ever added equal the row plus the buffer plus the drained deltas not yet written |
| `Billing.FlushedRowIsComplete` | src/orders.rs:390-413 | An order with nothing buffered or drained has it all in its row |
| `Billing.OverrunIsBounded` | src/orders.rs:472-480 | On every run a budgeted order still active costs less than its budget plus the price of the work credited since the drain before the last sweep |
| `Billing.DeadStaysDead` | src/orders.rs:104-108 | On every run an order that is not live never is again, given a price that is not negative |
| `Billing.LeavingActiveIsFinal` | src/orders.rs:416-467 | On every run an order that left `Active` never returns to it |
| `Billing.MarkedWhenEnded` | src/orders.rs:416-467 | On every run an order carries the moment it was last cancelled, or selected by the sweep that ended it, and none if neither happened |
| `Billing.OneActiveOrderPerWorker` | migrations/0004_orders_one_active_per_worker.sql:1-19 | On every run no worker has two active orders |
| `Billing.FlushWritesDrained` | src/orders.rs:390-413 | On every run, with credits, cancels, orders and the other updates in between, a row whose drained delta is not waiting any more has grown by exactly what the buffer held for it at the drain |
| `Billing.SweepLeavesLiveIff` | src/orders.rs:436-467 | On every run, with anything in between, an order a selection looked at is left active and not about to be ended if and only if it was live at that moment and nobody cancelled it since |
| `Sv1Lines.StaleIff` | src/proto/relay.rs:244-305 | On every run, whenever no swap is about to tell it, an answered miner is on another extranonce than the session's, and not told to reconnect, if and only if the last event that told it anything was a subscribe answer overtaken by an install |
| `Sv1Lines.StaleOnlyByReply` | src/proto/relay.rs:1278-1308 | A single step leaves an up-to-date miner behind if and only if it sends a subscribe answer whose extranonce is no longer the session's, to a miner that is neither to reconnect nor about to be told |
| `Sv1Lines.NeverStale` | src/proto/relay.rs:244-305 | So with no live switch installed between reading and sending a subscribe answer, a subscribed miner is never left stale once no swap holds the `switch` lock |
| `Sv1Lines.NonCapableNeverStale` | src/proto/relay.rs:281-296 | For miners that take no live change this needs no proviso |
| `Sv1Lines.DividedReplyIsStale` | src/proto/relay.rs:1278-1308 | A run in which a live switch that completes between the two halves of a subscribe answer leaves the miner on the old extranonce, with no swap left to tell it |
| `Sv1Lines.ToldIsLastTold` | src/proto/relay.rs:281-285 | What those claims call told is the extranonce of the last line handed to the miner that names one |
| `Sv1Lines.JobsFollowTheAnswerUnless` | src/proto/relay.rs:846-866 | On every run a step puts a translated line ahead of the first subscribe answer if and only if it is a swap handing out waiting translated lines to a miner not answered yet |
| `Sv1Lines.JobBeforeTheAnswer` | src/proto/relay.rs:298-302 | A run in which that happens: a job is the third line of a miner that was never answered a subscribe |
| `Sv1Flow.ReadIsForwarded` | src/proto/relay.rs:342-361 | On every run a line read from the active connection is what that reader sends next; a translated one waits behind the others until the miner subscribed |
| `Sv1Flow.InstalledWaits` | src/proto/relay.rs:565-638 | On every run an install leaves waiting exactly what the pool said while it was being connected to, in order, or the first difficulty of a translated one |
| `Sv1Flow.NothingWaitingIsLost` | src/proto/relay.rs:1298-1308 | On every run, until the next install, each line that waited is still waiting, being handed out, or with the miner, as often as it waited |
| `Sv1Flow.HandsOutInOrder` | src/proto/relay.rs:1298-1308 | On every run the lines the loop or a swap took to hand out reach the miner in the order they waited in |
| `Sv1Theorems.AcceptedWithinSubmitted` | src/proto/relay.rs:328-340 | On every run without translated shares, accepted shares and submits in flight together never exceed submits, and everything in flight went to the active connection |
| `Sv1Theorems.CreditedAsSubmitted` | src/proto/relay.rs:328-340 | A share is credited at the difficulty in force when it was submitted, on the connection it was submitted on, for a submit not answered before |
| `Sv1Flow.DifficultyIsLastSet` | src/proto/relay.rs:309-326 | On every run the difficulty that shares are recorded at is the last one set by a line of the connection active then, by its translator, or by the install of a translated pool |
| `Sv1Flow.FirstDifficultyIsNotCounted` | src/proto/relay.rs:1177-1226 | A run in which the miner is handed a difficulty that its pool set while it was being connected to, and its accepted share is credited at another |
| `Sv1Flow.SubmitsAreCounted` | src/proto/relay.rs:379-408 | On every run the submits counted are those of the miner, each once |
| `Sv1Flow.AcceptedIsCredited` | src/proto/relay.rs:328-340 | On every run a submit that its pool answers while that is the active one is credited, once and at the difficulty of the moment it was made, if and only if it is accepted |
| `Sv1Flow.ReportedIsCredited` | src/proto/relay.rs:881-915 | On every run what a translator reports accepted is credited at the difficulty in force times the count, if its connection is the active one and the work is positive |
| `Sv1Theorems.InPlaceIff` | src/proto/relay.rs:565-638 | On every run, exactly which steps leave the session routed to what its connection leads to: an install always, an attach if and only if the installed pool is one of the order's at that hold, any other step if and only if it was so before |
| `Sv1Theorems.UndividedAttachFits` | src/proto/relay.rs:1377-1382 | As long as no swap installs a connection between the check of the pool and the attach, the attach finds the session on its order's pool |
| `Sv1Theorems.CreditAttributedIff` | src/proto/relay.rs:328-340 | On every run a credit came over a connection to a pool of the order it is booked to if and only if the session was in place when it was made |
| `Sv1Theorems.CreditsAreAttributed` | src/proto/relay.rs:565-638 | On every run delivered work is the sum of the credits over idle and all orders; and if every attach found its pool, all work credited to an order came over connections to the order's own pools |
| `Sv1Theorems.DividedAttachIsMisplaced` | src/proto/relay.rs:1377-1382 | A run in which a failover between the check and the attach leaves a session routed to an order on a pool that is not the order's |
| `Sv1Theorems.ReplacedSendsIff` | src/proto/relay.rs:309-313 | On every run nothing a replaced connection's reader does changes the session or is credited; a line of it reaches the miner if and only if it was in the reader's hand already or is the result of a submit |
| `Sv1Theorems.ReplacedIsSilenced` | src/proto/relay.rs:850-931 | After an install the replaced connection gets at most one more line out, the one in hand at the install, and results only for submits it had been given by then, each once |
| `Sv1Theorems.ReplacedStillSpeaks` | src/proto/relay.rs:776-795 | A run in which both go out after the install: a job of the old pool, and a result for a share that is not credited |
| `Sv1Theorems.GenerationsGrow` | src/proto/relay.rs:256-264 | Generations never fall and each stands for one pool for good |
| `Sv1Replies.EachAnsweredOnce` | src/proto/relay.rs:776-800 | On every run a translated connection has results sent only for submits the miner made over it while it was the active one, each at most once, and what has no result yet still waits |
| `Sv1Replies.TellsOrReconnects` | src/proto/relay.rs:244-305 | On every run a swap hands the miner the new extranonce if the miner had asked for live changes before the swap began, and makes it reconnect and hands it nothing if not |
| `Sv1Theorems.FailedSwapIsInvisible` | src/proto/relay.rs:267-273 | A swap that cannot connect is invisible: whatever the miner's loop and the readers do while it tries, the same events without it lead to the same session, lines and credits, but for the counter |
| `Sv1.Sv1Session.constructor` | src/proto/relay.rs:1177-1226 | A session starts on its bootstrap connection as generation 1, idle and not subscribed |
| `Sv1.Sv1Session.OnUpstreamLine` | src/proto/relay.rs:309-361 | New state, forwarding and credit of any line equal the step function's |
| `Sv1.Sv1Session.Submit` | src/proto/relay.rs:379-408 | A submit is counted and, unless translating, kept in flight with generation and difficulty |
| `Sv1.Sv1Session.InstallRaw` | src/proto/relay.rs:565-638 | Pool, routing, extranonce and generation change together, and nothing stays in flight |
| `Sv1.Sv1Session.SwapUpstream` | src/proto/relay.rs:244-305 | A swap run on its own tells a capable miner the new extranonce before anything else and makes any other reconnect |
| `Sv1.Sv1Session.MarkSubscribed` | src/proto/relay.rs:1290-1308 | The later hold marks the miner subscribed and takes every line that waited, and from then on no line of the current connection waits |
| `Sv1.Sv1Session.ForwardTranslated` | src/proto/relay.rs:850-866 | A translated line of the current connection goes out, or waits until the miner subscribed; any other is dropped |
| `Sv1.Sv1Session.SetTranslateDifficulty` | src/proto/relay.rs:870-877 | Only the current connection sets the difficulty |
| `Sv1.Sv1Session.CreditTranslateAccepted` | src/proto/relay.rs:881-915 | The credit is the current difficulty times the count, for the current connection only |
| `Sv1.Sv1Session.AttachOrder` | src/proto/relay.rs:240-242 | The session is on one of the order's pools afterwards if and only if it was connected to one |
| `Submits.Sv2UpState.Submit` | src/proto/relay.rs:680-695 | The submit queues under the next 32-bit number and takes its job's version, or the latest |
| `Submits.Sv2UpState.OnJob` | src/proto/relay.rs:741-749 | At most 64 versions are kept, and the newest always |
| `Submits.Sv2UpState.DrainAcked` | src/proto/relay.rs:826-836 | Pops exactly the longest front part up to the acknowledged number, in order |
| `Submits.Sv2UpState.RemoveSeq` | src/proto/relay.rs:840-843 | Takes out the first entry with the number and nothing else |
| `Submits.DrainIsExactIff` | src/proto/relay.rs:826-836 | The drain takes exactly the entries up to the number if and only if none of them waits behind a later one |
| `Submits.SuccessAnswersExactly` | src/proto/relay.rs:780-790 | On every run before the counter wraps, an acknowledgement answers exactly the waiting submits up to its number, in the order they were made |
| `Submits.RejectedAnswersExactly` | src/proto/relay.rs:787-797 | On every run before the counter wraps, a rejection answers exactly the submit with its number, as rejected, if that one waits, and nothing otherwise |
| `Submits.AnsweredAtMostOnce` | src/proto/relay.rs:776-800 | On every run, wrap or not, each submit gets at most one result |
| `Submits.WrappedQueueMissesOne` | src/proto/relay.rs:826-836 | A run of 2^32 + 1 submits at whose end an acknowledged submit stays unanswered behind an older one |
| `TranslatorTheorems.ShareGoesToItsJob` | src/proto/sv2/relay.rs:1522-1557 | On every run a share goes out as it was mined, for the latest of the last 64 jobs with the id it names, under that job's pool id and, for a Standard share, with the extranonce2 that job was built with |
| `TranslatorTheorems.ShareIsDroppedIff` | src/proto/sv2/relay.rs:1522-1564 | On every run nothing goes to the pool for a share if and only if its job is no longer known, or it is a Standard share on an Extended connection, or it does not convert |
| `TranslatorTheorems.JobsAreBounded` | src/proto/sv2/relay.rs:1624-1626 | On every run at most 64 jobs are remembered |
| `TranslatorTheorems.NearRollsDiffer` | src/proto/sv2/relay.rs:1640-1646 | On every run Standard jobs fewer than 256^min(size, 8) apart are built with different extranonce2 values |
| `TranslatorTheorems.RollCounts` | src/proto/sv2/relay.rs:1640-1646 | The extranonce2 of the n-th Standard job is n, modulo 256^min(size, 8), in its low bytes and zero in the others |
| `TranslatorTheorems.AnnouncedAsNotified` | src/proto/sv2/relay.rs:1620-1686 | On every run a notify that converts is announced as one job with its version and, unless it is a future one, its time; a future one is followed by the notify's previous hash, time and bits under that job's id, and no other is |
| `TranslatorTheorems.ForgottenByFull64` | src/proto/sv2/relay.rs:1624-1626 | On every run the jobs forgotten so far are all but the last one to 64, a multiple of 64 |
| `Translator.SameRollIff` | src/proto/sv2/relay.rs:1640-1646 | Two places in the rolling sequence give the same extranonce2 if and only if they differ by a multiple of 256^min(size, 8) |
| `TranslatorTheorems.AnswersAreOwn` | src/proto/sv2/relay.rs:1699-1727 | On every run a pool's answer reaches at most one share, under that share's own sequence number, and no share twice |
| `TranslatorTheorems.AnswerReachesItsShare` | src/proto/sv2/relay.rs:1699-1727 | On every run the pool's answer to the id a share went out under reaches that share's sequence number, if it is the first answer to that id since, and nobody otherwise |
| `TranslatorTheorems.SubmitIdsDiffer` | src/proto/sv2/relay.rs:1525-1532 | On every run no two shares go out under one submit id |
| `TranslatorTheorems.FutureIff` | src/proto/sv2/relay.rs:1627-1629 | On every run a job is announced as future if and only if its notify is clean or is the connection's first |
| `TranslatorTheorems.FirstDeliveredIsFutureIff` | src/proto/sv2/relay.rs:1627-1629 | On every run the first job delivered to the miner is a future one if and only if its notify is clean or no notify failed to convert before it |
| `TranslatorTheorems.FirstDeliveredIsImmediate` | src/proto/sv2/relay.rs:1627-1629 | A run whose first delivered job is an immediate one, before any previous hash, after a notify that did not convert |
| `TranslatorTheorems.FutureJobsAreActivated` | src/proto/translate.rs:180-226 | On every run each future job delivered is followed at once by the previous hash that names it, and a previous hash is delivered in no other place |
| `Translator.Sv1UpState.RollExtranonce2` | src/proto/sv2/relay.rs:1640-1646 | The zeroed buffer with the low bytes of the counter copied in, of the pool's size |
| `Translator.Sv1UpState.OnNotifyLine` | src/proto/sv2/relay.rs:1620-1686 | State, job and previous hash of a notify equal the step function's; a notify that does not convert takes a job id and delivers nothing |
| `Translator.Sv1UpState.OnMinerShare` | src/proto/sv2/relay.rs:1522-1564 | State and submit of a share equal the step function's, with the version bits masked only if the pool agreed to rolling; a share that does not convert takes a submit id and sends nothing |
| `Translator.Sv1UpState.OnPoolResponse` | src/proto/sv2/relay.rs:1699-1707 | An answer takes the waiting sequence number of its id, once |
| `Hashrate.HashrateWindow.RecordAt` | src/session.rs:100-103 | Appends the sample and prunes as of its time |
| `Hashrate.HashrateWindow.Prune` | src/session.rs:105-113 | Drops samples from the front while they are too old |
| `Hashrate.HashrateWindow.HashesPerSecondAt` | src/session.rs:125-136 | The loop's sum over the clamped span is the specified rate |
| `Hashrate.DequeIsFilteredHistory` | src/session.rs:100-113 | For times that do not go back, the deque is exactly the recorded history no older than the window, in order |
| `Hashrate.RateTimesSpan` | src/session.rs:125-136 | Rate times clamped span is the samples' difficulty times 2^32 |
| `Hashrate.SteadyRate` | src/session.rs:125-136 | A miner that has found n shares of one difficulty since the first, between the shortest span and the window, is estimated at n times the difficulty times 2^32 over the time passed |
| `Hashrate.EstimateFadesToWindow` | src/session.rs:125-136 | Without a new share the estimate never rises, and never falls below the samples' work over a whole window |

## Left out

- Floating point: work, difficulty, price and rate are real numbers, so rounding is not modelled.
- Counters (downstream ids, generations, members, epochs, submit ids) are natural numbers and do not wrap; the 32-bit sequence and job ids and the 64-bit extranonce counter do wrap in the model.
- Noise, TCP, JSON and frame encoding, and everything of `stratum_core`: frames are values, and a conversion that can fail is a parameter.
- Job contents: coinbase, merkle path, witness stripping and the version bits of `sv2_job_to_sv1_notify`; a built job keeps only what decides its announcement and its shares.
- Sinks: a message is recorded with the member it goes to; a sink that is already closed is not told apart.
- Order of the frames of a new connection and the re-point frames of the swap that installed it.
- The first connection of a rig, its fallback and the error paths of its handshake: runs start after it. A fresh rig resolves its order before it is registered, so the wakeup claim is for bundled members.
- Timers: grace windows, backoffs, probe timeouts and what a retry reads between its rounds. No claim says that anything happens in a given time or that a retry succeeds.
- SQL: the table is a map with the guard of its unique index, an update is one step, and updates are taken to succeed.
- The reconnect hints by source address, the authorize exchange, registration and the HTTP handlers.
- The registry of sessions of all protocols is only the set of listed rigs.
- Accept-ratio warnings, logging, status snapshots and the sampled hashrate history.
- Lifecycle.AfterCommitSwap: a commit is only its effect on the running upstream, the `translating` flag and the retry, because the swap itself is the subject of `RigProtocol`.
- The answers to `mining.configure`, `mining.authorize` and `mining.extranonce.subscribe`, and everything else the SV1 loop sends that names no extranonce and carries no job or share result, are not among the lines.
- TranslatorTheorems.FutureJobsAreActivated: is about the frames in the order they are made. Which miner gets each is the subject of `RigStrays.SynthesizedReachOwnerIff`, and a swap drops the frames of a replaced connection, also between a job and its previous hash.
- Results of shares and difficulty changes that a translation makes up go the same way as its jobs; only jobs and previous hashes are frames of the model.
- Sv1Theorems.AcceptedWithinSubmitted: does not bound shares that a translated pool reports, because the code credits whatever count the pool gives.
- RigTheorems.GroupFrame: the group id told is claimed for runs that stay native, because a translated rig keeps no groups: the channel it keeps has no downstream group from then on, also after a swap back onto a native pool.
- Submits.AnsweredAtMostOnce: does not say that an answered submit was sent; one whose conversion fails stays queued and is answered with the next acknowledgement.
