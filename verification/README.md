# A verified model of the trading platform's shared-state protocols

The Dafny modules here model the parts of the platform where several parties share state that has to
stay right through races, failures and crashes, and prove what those parts are for:

- **Live push** (`Registry.dfy`, `Bridge.dfy`, `LivePush.dfy`): the WebSocket registry and its filters,
  the timed loop that bridges Redis pub/sub to the browsers, and the two together with any number of
  concurrent fan-outs, endpoints and outages.
- **Login limiter** (`RateLimit.dfy`): the fixed-window counter whose INCR, EXPIRE and TTL interleave
  with those of other callers.
- **Backups** (`BackupNames.dfy`, `Create.dfy`, `Retention.dfy`, `RestoreCheck.dfy`, `Restore.dfy`):
  naming and order of dumps, taking one, retention, the row-count bracket, and restoring, with a failure
  possible at every step and every command.
- **Venue fees** (`Fees.dfy`): the ledger keyed on the venue's id and the settlement that survives a
  crash at any point.
- **Data migrations** (`Packing.dfy`, `Retime.dfy`): a printer and parser pair over stored refusals, and
  an all-or-nothing shift of equity curves.
- **Metrics label** (`RouteLabel.dfy`): recovering a router's prefix from a path and a template.

Where the source changes state step by step, a class with the same fields does too, and each of its
methods is proved against a function of the old state. The concurrent models are transition systems over
those same functions: one event is the code one coroutine runs between two awaits. A run is a sequence of
events each of which is possible where it stands; the theorems are about every run of any length.

`dafny verify dfyconfig.toml` checks the whole project.

## What the proofs found

Where the code and its documentation disagree, the model follows the code.

- `RateLimit.WindowEndsUnlessOrphaned`, `RateLimit.OrphanLocksOut`, `RateLimit.OrphanIsReachable`: a caller
  that dies, or whose INCR or EXPIRE raises, before an EXPIRE took effect leaves a counter without an expiry.
  After `limit` attempts every caller of that key is refused for good and told to come back in one second.
- `LivePush.SilentLossExactly`, `LivePush.StartUpLossIsSilent`: a halt published before the first
  subscribe succeeds, with no failure before it, is lost and never announced. It is the only silent loss.
- `Bridge.RoundedGapIsALowerBound`, `Bridge.RoundedGapMayExceedTheOutage`: the gap a client is told is
  rounded to a tenth of a second. It is documented as a lower bound on the outage and is one exactly when
  rounding did not go up; it exceeds the outage by at most 0.05 s.
- `Create.EarlierDumpStandsUnlessReplaced`, `Create.SameSecondLosesTheFirst`: a backup of the same database
  taken within the same second replaces the earlier one.
- `Create.UnverifiableExactly`, `Create.LostManifestLeavesADump`: a failure between the rename and the end of
  the manifest leaves a whole dump that cannot be verified; nothing else does.
- `Restore.RestoreInto`: when the reply to `timescaledb_pre_restore()` is lost the call counts as failed,
  the closing `timescaledb_post_restore()` is not attempted, and the database stays in restoring mode.
- `Restore.Aside`: a name of exactly 63 characters is its own aside name once PostgreSQL has cut it off, so
  such a database cannot be set aside and replaced; nothing is lost in the attempt.
- `Fees.AdoptedBookIsChargedTwice`, `Fees.ReportedFeeIsTakenAgain`: a book taken over from the venue has its
  cash, which is already less every fee, and claims none as settled. Every one of these fees that is or comes
  on record is taken a second time; `Fees.UnreportedFeeIsNot` is one that never does.
- `Fees.ChargeCountsUnlessItsIdWasTaken`: ids are unique only within one account, and the ledger's key is
  the id alone, so a charge whose id another account used first is never counted in its own account's total.
- `Packing.KeptWhole`: a text in empty brackets passes the migration's WHERE clause without naming a rule
  and loses the spaces around it, although rows that do not match are documented as kept whole.
- `Packing.UpgradeKeepsTheReading`: the reader being replaced strips every white space and the migration
  strips spaces only, so a reason set off by a tab or a line break reads differently afterwards
  (`Packing.TabSurvivesTheUpgrade`).
- `Retime.UpgradeMayStrandTheDowngrade`: a curve the upgrade leaves alone as unreadable can make the
  downgrade raise, and with it roll back, where its first points are at the end of datetime's range.
- `RouteLabel.LabelIsPrefixAndTemplate`: the length guard never catches a parameter of several segments;
  the label then contains segments of the concrete path, not the bare template the comment promises.

## Model

| member | source | states |
|---|---|---|
| Registry.Strings | apps/api/src/atp_api/ws.py:650-658 | exactly the strings of a client's list are taken, everything else in it is dropped |
| Registry.StringList | apps/api/src/atp_api/ws.py:650-658 | anything but a list counts as an empty one |
| Registry.Listed | apps/api/src/atp_api/ws.py:636-644 | the strings of one field of a frame, none if the field is absent or no list |
| Registry.ConnectionManager.constructor | apps/api/src/atp_api/ws.py:172-179 | starts with no client |
| Registry.ConnectionManager.Connect | apps/api/src/atp_api/ws.py:185-198 | registers the client with no channel and no filter in all three dictionaries, and changes no other client |
| Registry.ConnectionManager.Disconnect | apps/api/src/atp_api/ws.py:200-216 | forgets the client in all three dictionaries; answers true exactly when this call removed it |
| Registry.ConnectionManager.Subscribe | apps/api/src/atp_api/ws.py:218-243 | adds the known channels and the upper-cased symbols; no symbols leave the filter alone; an unknown client changes nothing |
| Registry.ConnectionManager.Unsubscribe | apps/api/src/atp_api/ws.py:245-266 | takes symbols from a filter that exists and leaves the filter of a client that never named one absent |
| Registry.ConnectionManager.WantsNow | apps/api/src/atp_api/ws.py:268-282 | the code on three dictionaries decides as the abstract registry does, halts and gaps always included |
| Registry.ConnectionManager.Snapshot | apps/api/src/atp_api/ws.py:296-301 | every registered client that wants the message, with its own socket, once, and nobody else |
| Registry.ConnectionManager.Collect | apps/api/src/atp_api/ws.py:305-317 | removes exactly the clients whose send failed, and hangs up exactly those of them that were still registered, once each |
| Registry.ConnectionManager.Handle | apps/api/src/atp_api/ws.py:614-647 | frame by frame: subscribe takes the strings of its channels and symbols, unsubscribe those of its symbols, ping changes nothing, each with its reply; anything else is an error that changes nothing |
| Registry.FilterIsItsHistory | apps/api/src/atp_api/ws.py:218-266 | after any requests a filter is absent exactly when no subscribe named a symbol, and otherwise passes a symbol exactly when the last request naming it was a subscribe |
| Registry.ChannelsAreTheirHistory | apps/api/src/atp_api/ws.py:234-238 | a client is on a channel exactly when the channel exists and some subscribe named it |
| Registry.WantsIsItsHistory | apps/api/src/atp_api/ws.py:268-282 | what a registered client receives, in terms of its requests alone |
| Registry.OnlySubscribeWidens | apps/api/src/atp_api/ws.py:245-266 | no sequence of unsubscribes, pings or bad frames ever makes a client receive more |
| Registry.ChannelsByKind | apps/api/src/atp_api/ws.py:87-97 | only quotes and bars are filtered by symbol; a fill or a signal never is; halts and gaps need no asking; there is nothing else to ask for |
| Registry.AnySpellingWatches | apps/api/src/atp_api/ws.py:225-227 | however a ticker is typed, subscribing watches the upper-case one and unsubscribing takes it away |
| Bridge.RedisBridge.constructor | apps/api/src/atp_api/ws.py:434-443 | starts at the first subscribe, with no attempt and no outage |
| Bridge.RedisBridge.OnSubscribed | apps/api/src/atp_api/ws.py:444-453 | resets the attempts; announces the length of the outage if there was one and otherwise starts polling |
| Bridge.RedisBridge.OnAnnounced | apps/api/src/atp_api/ws.py:448-453 | ends the outage only when its announcement is complete, then polls |
| Bridge.RedisBridge.StartPolling | apps/api/src/atp_api/ws.py:450-453 | restarts the silence and forgets any ping |
| Bridge.RedisBridge.OnPolled | apps/api/src/atp_api/ws.py:453-475 | an item restarts the silence and is dispatched exactly when it is a message; silence leads to nothing, one ping, or failure at the stated ages |
| Bridge.RedisBridge.OnFailure | apps/api/src/atp_api/ws.py:483-491 | the first failure of an outage sets its start, every failure raises the attempt and sleeps for it |
| Bridge.RedisBridge.OnPinged | apps/api/src/atp_api/ws.py:474-475 | goes back to polling with the silence still running |
| Bridge.RedisBridge.OnSlept | apps/api/src/atp_api/ws.py:491-498 | closes the subscription after the sleep |
| Bridge.RedisBridge.OnClosed | apps/api/src/atp_api/ws.py:441-444 | subscribes anew, with attempts and outage as they were |
| Bridge.RunKeepsInv | apps/api/src/atp_api/ws.py:434-498 | at every point of every run the phase, the outage, the silence and the ping fit together |
| Bridge.AttemptCountsFailures | apps/api/src/atp_api/ws.py:445-487 | the rung of the backoff ladder is the number of failures since the last successful subscribe |
| Bridge.DownSinceIsFirstFailure | apps/api/src/atp_api/ws.py:436-440 | the start of the outage is absent exactly when every failure was announced, and otherwise the instant of the first failure not announced |
| Bridge.AnnouncedBeforeResuming | apps/api/src/atp_api/ws.py:501-508 | nothing of a new subscription is taken before the announcement of the outage has completed |
| Bridge.OneAnnouncementPerOutage | apps/api/src/atp_api/ws.py:504-508 | between two announcements the subscription failed again |
| Bridge.GapAccuracy | apps/api/src/atp_api/ws.py:421-426 | an outage that began anywhere between the last sign of life and its detection is at least as long as the gap announced and less than 31 s longer |
| Bridge.GapAccuracyOfASilentConnection | apps/api/src/atp_api/ws.py:444-452 | the same, plus the time of one broadcast, for a connection that never carried anything |
| Bridge.RoundedGapIsALowerBound | apps/api/src/atp_api/ws.py:421-426 | on every run the number announced exceeds no outage it may stand for by more than 0.05 s, and is a lower bound on all of them exactly when rounding did not go up |
| Bridge.RoundedGapMayExceedTheOutage | apps/api/src/atp_api/ws.py:514 | a run that announces 1.0 s after an outage of 0.96 s |
| Bridge.DeadConnectionIsAbandoned | apps/api/src/atp_api/ws.py:139-162 | a connection that stops carrying data is abandoned less than 31 s after its last sign of life |
| Bridge.OnePingPerQuietStretch | apps/api/src/atp_api/ws.py:470-475 | at most one ping is sent between two received items |
| Bridge.QuietSubscriptionSurvives | apps/api/src/atp_api/ws.py:465-475 | a working subscription, however long it is quiet, is never torn down exactly when 21 s and the delay of a pong come to at most 30 s |
| LivePush.RunKeepsInv | apps/api/src/atp_api/ws.py:165-551 | all invariants of clients, sockets, messages, outages and deliveries hold at every point of every run |
| LivePush.RemovedForGood | apps/api/src/atp_api/ws.py:600-611 | a client once removed, by whomever, is never in the registry again and its removal stands |
| LivePush.HungUpExactlyOnce | apps/api/src/atp_api/ws.py:200-216 | under any number of fan-outs and exits a socket is hung up at most once, exactly when a fan-out removed its client and has come round to it; never when the endpoint removed it first |
| LivePush.EveryClientGetsWhatItAskedFor | apps/api/src/atp_api/ws.py:284-301 | at every point of every run who is sent a message is decided by the requests of that client alone |
| LivePush.SilentLossExactly | apps/api/src/atp_api/ws.py:406-419 | a halt misses a client registered before it in silence exactly when it was lost before the bridge ever failed |
| LivePush.NoSilentLoss | apps/api/src/atp_api/ws.py:406-419 | a halt published after the first subscribe reached each client registered before it, is on its way, is covered by an open outage or a later gap notice, or the client is gone |
| LivePush.StartUpLossIsSilent | apps/api/src/atp_api/ws.py:440-451 | a halt published while the first subscribe is under way is lost and nobody is told |
| LivePush.ForwardedInOrder | apps/api/src/atp_api/ws.py:459-460 | messages are forwarded in the order they were published, each once, and none that was lost |
| LivePush.ProducersReachTheirClients | apps/api/src/atp_api/ws.py:62-73 | which Redis channel reaches the clients of which name, and no other does |
| LivePush.ForwardedExactly | apps/api/src/atp_api/ws.py:519-545 | a published message is forwarded exactly when it is a JSON object on a mapped channel, was not lost and does not still wait in the subscription |
| LivePush.EveryTaskWasTaken | apps/api/src/atp_api/ws.py:459-460 | a forwarded message was taken by one poll, which created the task for it |
| LivePush.EveryTaskLooksUp | apps/api/src/atp_api/ws.py:540-545 | that task has not begun or has looked up whom to send the message to |
| LivePush.EveryAskerIsServed | apps/api/src/atp_api/ws.py:284-317 | a client registered at that lookup whose requests by then ask for the channel and symbol was sent the note, or its send is out, or it is gone |
| LivePush.RemovedForCause | apps/api/src/atp_api/ws.py:305-317 | a client is removed only because it left, or because a send of the very fan-out that removed it had failed on it |
| LivePush.GapBeforeTheResumedStream | apps/api/src/atp_api/ws.py:504-508 | between the loss of a message and the forwarding of a later one lies a complete announcement |
| LivePush.NothingUnwanted | apps/api/src/atp_api/ws.py:284-307 | whatever was sent to a client is a published message or a gap notice, and when its fan-out looked up its targets the client was registered and its requests so far asked for that channel and symbol |
| LivePush.LoopRunsUndisturbed | apps/api/src/atp_api/ws.py:367-498 | the bridge inside the whole makes a run of the bridge alone, so its theorems hold there |
| RateLimit.RedisKey.constructor | apps/api/src/atp_api/ratelimit.py:99 | a key nobody has counted on is absent |
| RateLimit.RedisKey.Incr | apps/api/src/atp_api/ratelimit.py:99 | counts on a live key without touching its expiry; an expired or absent one starts at one with none |
| RateLimit.RedisKey.Expire | apps/api/src/atp_api/ratelimit.py:101 | sets the expiry of a live key and leaves an absent one absent |
| RateLimit.RedisKey.ReadTtl | apps/api/src/atp_api/ratelimit.py:104 | -2 for an absent key, -1 for one without expiry, otherwise the seconds left |
| RateLimit.RedisRateLimiter.Check | apps/api/src/atp_api/ratelimit.py:91-113 | verdict and new key of one check, with each command carried out, refused, or carried out and its answer lost |
| RateLimit.CheckIsARun | apps/api/src/atp_api/ratelimit.py:98-113 | a check nobody interrupts is a run of the concurrent model, with the same key and the same verdict, whichever commands fail |
| RateLimit.RunKeepsInv | apps/api/src/atp_api/ratelimit.py:98-105 | over every interleaving of all callers, the key is that of the last window, windows do not overlap, and at most the opener is unanswered |
| RateLimit.WindowAllowance | apps/api/src/atp_api/ratelimit.py:91-105 | of the first `limit` attempts of every window each was allowed, failed, or waits for its EXPIRE; never more are allowed |
| RateLimit.WorkingWindowAllowance | apps/api/src/atp_api/ratelimit.py:91-105 | while Redis works exactly min(attempts, limit) attempts of every window are allowed, up to the answer of its opener |
| RateLimit.SeamBound | apps/api/src/atp_api/ratelimit.py:79-84 | any stretch of m window lengths holds at most (m + 1) times the limit in allowing verdicts, besides those given because Redis failed |
| RateLimit.SeamBoundIsReached | apps/api/src/atp_api/ratelimit.py:79-82 | for every limit and window some run lets through exactly twice the limit within one window length |
| RateLimit.ExpiryNeverMoves | apps/api/src/atp_api/ratelimit.py:94-97 | no attempt, refused or not, moves an expiry once set |
| RateLimit.RetryAfterIsEnough | apps/api/src/atp_api/ratelimit.py:43-46 | a caller who waits the seconds it was given is counted in a later window, whatever others did |
| RateLimit.RetryAfterIsExact | apps/api/src/atp_api/ratelimit.py:43-46 | nor too much: over every run an attempt is counted in a later window exactly from the end of the wait on |
| RateLimit.NothingToWaitFor | apps/api/src/atp_api/ratelimit.py:104-105 | a window over by the time of the refusal means a wait of one second |
| RateLimit.WindowEndsUnlessOrphaned | apps/api/src/atp_api/ratelimit.py:99-101 | a window can end exactly when it has an expiry or its opener is still to set one |
| RateLimit.OrphanLocksOut | apps/api/src/atp_api/ratelimit.py:98-113 | in any other window, once the limit is counted, no run ever allows another attempt but by a failure of Redis, and every refusal says one second |
| RateLimit.OrphanIsReachable | apps/api/src/atp_api/ratelimit.py:99-101 | under every configuration some run leads there |
| BackupNames.ParseInvertsNaming | scripts/backup_db.py:550-562 | parsing any name gives a pair exactly when that pair, well formed, is what the name without its suffix is built from |
| BackupNames.NameRoundTrip | scripts/backup_db.py:708-709 | a name gives back its database, dashes included, and its stamp exactly when both are non-empty and the stamp has no dash |
| BackupNames.StampsSortByTime | scripts/backup_db.py:85-88 | stamps compare as strings exactly as their instants do on the Gregorian time line |
| BackupNames.WrittenDumps | scripts/backup_db.py:565-580 | of two names built from database and instant, newer is later in time, and groups are the real databases |
| BackupNames.UnrecognisedComeLast | scripts/backup_db.py:576-580 | files this tool did not name are one group of their own, listed after all others |
| BackupNames.EqualStampsByName | scripts/backup_db.py:576-580 | equal stamps are listed in descending order of the name |
| Create.Disk.constructor | scripts/backup_db.py:701-702 | a directory starts with its files and no state passed through |
| Create.Disk.Write | scripts/backup_db.py:718-727 | a file is written over whatever had its name |
| Create.Disk.Replace | scripts/backup_db.py:747 | a file takes another name, over whatever had it, in one step |
| Create.Disk.Remove | scripts/backup_db.py:749 | a file is gone, whether it was there or not |
| Create.CmdCreate | scripts/backup_db.py:698-751 | at every step and every failure each dump to be seen is an old one unchanged or the new one in full; success leaves a whole dump whose name says database and stamp, beside the manifest of its contents; a failure that cleans up leaves nothing new and nothing missing but unfinished dumps |
| Create.WrittenNameParses | scripts/backup_db.py:708-709 | the name written parses back to exactly the database and the stamp |
| Create.NameAsWritten | scripts/backup_db.py:709-714 | one name as it looks, and that of the unfinished file |
| Create.WrittenNamesDiffer | scripts/backup_db.py:708-709 | backups of two databases or two seconds never share a name |
| Create.WrittenBackups | scripts/backup_db.py:565-580 | of two written backups the later one is newer, and they compete exactly within one database |
| Create.EarlierBackupStays | scripts/backup_db.py:698-751 | another backup, of another database or second, leaves an earlier one as it is however it ends; if both went through both are there |
| Create.Create | scripts/backup_db.py:714-751 | the same over the three names |
| Create.FillPart | scripts/backup_db.py:718-727 | pg_dump writes to the unfinished file alone, so no backup changes |
| Create.EarlierDumpStandsUnlessReplaced | scripts/backup_db.py:708-709 | a dump of the same database and second is unchanged exactly when the new one was not renamed or holds the same |
| Create.UnverifiableExactly | scripts/backup_db.py:747-751 | a backup without a manifest is left exactly when the rename went through and the manifest was not written to its end |
| Create.SameSecondLosesTheFirst | scripts/backup_db.py:708-709 | two backups in one second, of which only the second is left |
| Create.LostManifestLeavesADump | scripts/backup_db.py:747-751 | a whole dump without a manifest |
| Create.OtherNames | scripts/backup_db.py:709-714 | neither the unfinished dump nor the manifest can be taken for a backup |
| Create.CreatedDumpVerifies | scripts/backup_db.py:785-793 | a dump taken while rows were only inserted and hypertables and policies stood still has nothing wrong in it once restored |
| Retention.Directory.constructor | scripts/backup_db.py:546-547 | a directory is the set of its files |
| Retention.Directory.FindBackups | scripts/backup_db.py:565-580 | every dump in the directory and nothing else, strictly newest first |
| Retention.Directory.Prune | scripts/backup_db.py:967-989 | refuses a keep below one; otherwise removes the doomed dumps with their manifests and nothing else, or nothing on a dry run, and counts them either way |
| Retention.Directory.GroupByDatabase | scripts/backup_db.py:971-974 | each database's dumps in the order of the listing |
| Retention.Directory.RemoveBeyond | scripts/backup_db.py:978-986 | removes all but the first `keep` of a group, each with its manifest, and counts them |
| Retention.PrunedDumps | scripts/backup_db.py:967-989 | pruning takes exactly the doomed dumps and never mistakes a manifest for a dump |
| Retention.PrunedFiles | scripts/backup_db.py:978-986 | the files removed are exactly the doomed dumps and what is beside them with .json added |
| Retention.KeepsTheNewest | scripts/backup_db.py:967-968 | in every group the min(keep, n) newest dumps stay, each newer than each one removed |
| Retention.NewestSurvives | scripts/backup_db.py:583-590 | the newest dump of the directory survives any pruning |
| Retention.NothingIsMiscounted | scripts/backup_db.py:976-989 | the number returned and the survivors make up the original number |
| Retention.ManifestsStay | scripts/backup_db.py:984-985 | a dump that stays keeps its manifest |
| Retention.PruneTwice | scripts/backup_db.py:967-989 | pruning to a and then to b is pruning to the smaller of the two |
| RestoreCheck.Compare | scripts/backup_db.py:837-876 | reports what is wrong, by kind and within a kind sorted by table; nothing exactly when every counted table is there with a number of rows between its two counts, every hypertable is one again, and compression policies are there if there were any |
| RestoreCheck.NothingWrongExactly | scripts/backup_db.py:837-876 | the same for any contents and manifest |
| RestoreCheck.WrongByKind | scripts/backup_db.py:841-870 | what is reported of a table and of the policies, kind by kind, in terms of the counts |
| RestoreCheck.Sorted | scripts/backup_db.py:843 | a set of names in Python's string order |
| RestoreCheck.MissingTables | scripts/backup_db.py:841-844 | reports exactly the expected tables that did not come back |
| RestoreCheck.WrongCounts | scripts/backup_db.py:846-855 | reports exactly the tables whose rows lie outside the window of the two counts, with the window |
| RestoreCheck.OrdinaryTables | scripts/backup_db.py:861-863 | reports exactly the hypertables that came back as ordinary tables |
| RestoreCheck.FaithfulRestoreExactly | scripts/backup_db.py:484-492 | for any history around the snapshot, a faithful restore is free of row failures exactly when every counted table is in the snapshot with a count between its two readings |
| RestoreCheck.FaithfulRestorePasses | scripts/backup_db.py:484-492 | so it is never faulted for its rows while rows are only inserted |
| RestoreCheck.QuietDumpIsChecked | scripts/backup_db.py:846-855 | when both counts agree, a table is reported exactly when it is not there with that many rows |
| RestoreCheck.LossBeyondTheWindowIsReported | scripts/backup_db.py:846-855 | losing more rows than were inserted during the dump is always reported |
| RestoreCheck.DeletionBreaksTheBracket | scripts/backup_db.py:484-492 | with one deletion and one insert, outside the documented assumption, a faithful restore is faulted |
| Restore.Server.constructor | scripts/backup_db.py:345-348 | a server starts with its databases and nothing sent |
| Restore.Server.Send | scripts/backup_db.py:345-348 | a command is carried out, refused, or carried out with its reply lost, and reported as done only when it was |
| Restore.SendWithin | scripts/backup_db.py:345-348 | a command within one database leaves every other as it was |
| Restore.OpenBracket | scripts/backup_db.py:624-626 | the extension and the opening of the bracket; exactly when restoring mode is on afterwards |
| Restore.LoadDump | scripts/backup_db.py:627-643 | pg_restore, with whatever a failure leaves behind |
| Restore.RestoreInto | scripts/backup_db.py:603-647 | touches only its database at every step; success means the dump is there and restoring mode is off; once the bracket is open its close is the last command sent; exactly when the database is left in restoring mode |
| Restore.Aside | scripts/backup_db.py:931 | the name a database is set aside to, cut off at 63, is its own exactly when that is 63 long |
| Restore.Checked | scripts/backup_db.py:888-923 | the refusals in their order allow exactly what may be restored |
| Restore.FlagsLiftOneRefusalEach | scripts/backup_db.py:888-930 | force lifts the refusal across run modes and overwrite that of an existing database, and neither any other |
| Restore.CmdRestore | scripts/backup_db.py:885-948 | at every step and at every failure the old contents exist in full under their name or the aside name; exactly which arguments begin nothing, whatever the flags; what has begun succeeds exactly when every step does, with the commands sent in order; closing the restoring bracket is the last of them |
| Restore.RestoreAfresh | scripts/backup_db.py:920-940 | a restore into a database made for it, with nothing lost on the way and everything sent |
| Restore.MakeRoom | scripts/backup_db.py:920-935 | an empty database to restore into, with the old one renamed and nothing dropped, at every failure |
| Restore.RestoreAndCompare | scripts/backup_db.py:812-815 | a verdict on the scratch copy: verified only with nothing wrong, unverified only with something wrong |
| Restore.FillScratch | scripts/backup_db.py:807-815 | the scratch database up to its removal: exactly when it exists, and the verdict on it |
| Restore.CmdVerify | scripts/backup_db.py:785-834 | each refusal on its own, with nothing sent; no database but the scratch one changes at any step; it is dropped on every path after its creation unless kept, right after the restoring bracket was closed; verified exactly when every step went through and the dump is as counted |
| Fees.FeeLedger.constructor | infra/alembic/versions/b6c1e84f37a2_the_venue_s_fees_are_a_ledger_not_drift.py:56-66 | the ledger starts empty |
| Fees.FeeLedger.RecordSeen | libs/core/src/atp_core/persistence/fees.py:47-96 | inserts the ids not known, leaves known ones as first recorded, and returns the account's total over the result |
| Fees.SumOf | libs/core/src/atp_core/persistence/fees.py:88-94 | the sum of a set of charges, in whatever order they are added |
| Fees.Portfolio.constructor | libs/core/src/atp_core/persistence/positions.py:116-121 | a reloaded book takes cash and settled fees from the same row |
| Fees.Portfolio.AdoptBrokerState | libs/core/src/atp_core/execution/reconciliation.py:593-616 | takes the venue's cash and leaves the claim as it is |
| Fees.RestoreOrAdopt | apps/worker/src/atp_worker/trading.py:370-433 | the stored cash and claim, or without a stored book the venue's cash with nothing claimed |
| Fees.Portfolio.Fill | apps/worker/src/atp_worker/runner.py:2543-2552 | a fill moves cash and never what was settled |
| Fees.Portfolio.SettleBrokerFees | libs/core/src/atp_core/execution/fees.py:86-173 | a venue that does not answer changes nothing; otherwise the book is settled to the ledger's total, cash and claim together, and the pass reports what left cash |
| Fees.CashAndSettledMoveTogether | infra/alembic/versions/c9d4e72a1b58_a_fee_is_settled_when_the_cash_says_so.py:18-23 | over every run with crashes, replays, removals and adoptions, cash, claimed fees and the charges a book was taken over with add up to the cash of the fills, in memory and in every snapshot |
| Fees.OnePassHeals | infra/alembic/versions/c9d4e72a1b58_a_fee_is_settled_when_the_cash_says_so.py:25-35 | one pass from any reachable state leaves cash at the fills less every charge in the ledger, each taken once, and less what the book was taken over with; the next snapshot stores it |
| Fees.PassAgainstTheVenue | libs/core/src/atp_core/execution/fees.py:95-120 | after any run in which the venue reports only what it charged, a pass leaves the book short of the venue's cash by the charges taken twice less those not on record, and level exactly when these come to the same |
| Fees.OwnBookIsLevel | infra/alembic/versions/c9d4e72a1b58_a_fee_is_settled_when_the_cash_says_so.py:25-35 | a book of our own, never adopted, is level with the venue after every pass that leaves no charge off the record |
| Fees.SnapshotTellsTheLastPass | infra/alembic/versions/c9d4e72a1b58_a_fee_is_settled_when_the_cash_says_so.py:18-28 | until the account's next pass or restart a book and its snapshots say what the last pass settled, whatever else goes on |
| Fees.SettledIsALedgerTotal | libs/core/src/atp_core/persistence/positions.py:44-60 | every settled amount, stored or not, is nothing or a total the ledger really had |
| Fees.AbsorbedStays | libs/core/src/atp_core/persistence/positions.py:101-121 | what a book was taken over with stays, through passes, snapshots and restarts, until the next adoption |
| Fees.TakingOverAbsorbsAllCharges | scripts/adopt_broker_state.py:128-151 | an adopted book, and one booted without a stored one, was taken over with every charge the venue had made by then |
| Fees.AdoptedBookIsChargedTwice | scripts/adopt_broker_state.py:128-151 | with all later charges on record, a pass leaves the book short of the venue's cash by exactly the charges before its adoption that are on record too; level exactly when these come to nothing |
| Fees.ReportedFeeIsTakenAgain | apps/worker/src/atp_worker/trading.py:421-433 | a first boot after a reported fee of 5 on 100 ends at 90 where the venue has 95 |
| Fees.UnreportedFeeIsNot | apps/worker/src/atp_worker/trading.py:421-433 | the same boot with a fee too old for the feed ends level at 95 |
| Fees.FirstReportStands | infra/alembic/versions/b6c1e84f37a2_the_venue_s_fees_are_a_ledger_not_drift.py:14-22 | however often and for whichever account a charge is reported, the ledger keeps the account and amount of its first report |
| Fees.LastEntryCounts | libs/core/src/atp_core/persistence/fees.py:66 | within one report the last entry of an id counts |
| Fees.OnlyEntriesCount | libs/core/src/atp_core/persistence/fees.py:66 | and nothing that is not in the report |
| Fees.RecordedCharge | libs/core/src/atp_core/persistence/fees.py:68-87 | recording keeps a known charge and adds a new one under the account that asked |
| Fees.LedgerIsReported | infra/alembic/versions/b6c1e84f37a2_the_venue_s_fees_are_a_ledger_not_drift.py:14-22 | the ledger holds exactly the charges it began with and those reported since |
| Fees.ChargeCountsUnlessItsIdWasTaken | infra/alembic/versions/b6c1e84f37a2_the_venue_s_fees_are_a_ledger_not_drift.py:24-28 | a charge is in its account's total exactly when no other account reported the id before |
| Fees.RecordingAddsTheUnseen | libs/core/src/atp_core/persistence/fees.py:47-96 | recording raises the account's total by the charges not known before and no other account's total at all |
| Fees.DeadPassIsMadeGood | infra/alembic/versions/c9d4e72a1b58_a_fee_is_settled_when_the_cash_says_so.py:3-16 | after a pass that recorded and died, the earlier design moves nothing on a repeat while this one moves exactly what was due |
| Packing.UnpackInvertsPack | infra/alembic/versions/f4d2e8b1a075_a_refusal_names_its_rule_in_its_own_column.py:56-78 | downgrade and upgrade restore a row exactly when its rule is non-empty, without a closing bracket and fits the column, beside a reason with nothing to strip; or it has no rule and its reason names none |
| Packing.UpgradedRowsArePackable | infra/alembic/versions/f4d2e8b1a075_a_refusal_names_its_rule_in_its_own_column.py:56-65 | every row the upgrade writes survives any further downgrade and upgrade |
| Packing.PackInvertsUnpack | infra/alembic/versions/f4d2e8b1a075_a_refusal_names_its_rule_in_its_own_column.py:71-78 | upgrade and downgrade give a packed text back exactly when it is in the form the downgrade writes |
| Packing.TableComesBack | infra/alembic/versions/f4d2e8b1a075_a_refusal_names_its_rule_in_its_own_column.py:56-78 | downgrading a table and upgrading it goes through and restores every row exactly when every row is packable |
| Packing.UpgradedTableComesBack | infra/alembic/versions/f4d2e8b1a075_a_refusal_names_its_rule_in_its_own_column.py:56-78 | once a table has been upgraded, a downgrade and another upgrade change nothing |
| Packing.KeptWhole | infra/alembic/versions/f4d2e8b1a075_a_refusal_names_its_rule_in_its_own_column.py:18-22 | a text that names no rule is kept whole exactly when it is not a bracketed one ending in a space |
| Packing.NotAlwaysKeptWhole | infra/alembic/versions/f4d2e8b1a075_a_refusal_names_its_rule_in_its_own_column.py:18-22 | a text in empty brackets that is trimmed |
| Packing.ColumnHoldsFifty | infra/alembic/versions/f4d2e8b1a075_a_refusal_names_its_rule_in_its_own_column.py:49 | a rule fits exactly when nothing but spaces lies beyond its fiftieth character, and they are cut off |
| Packing.WhatIsBlank | infra/alembic/versions/f4d2e8b1a075_a_refusal_names_its_rule_in_its_own_column.py:60-62 | SQL strips spaces; Python also tab, line ends and the other white space |
| Packing.TabSurvivesTheUpgrade | infra/alembic/versions/f4d2e8b1a075_a_refusal_names_its_rule_in_its_own_column.py:60-62 | a reason set off by a tab that the reader strips and the migration keeps |
| Packing.UpgradeKeepsTheReading | libs/core/src/atp_core/persistence/signals.py:162-201 | the repository reads the same from an upgraded row as from the stored text exactly when the rule fits and only spaces surround the reason |
| Packing.DowngradeKeepsTheReading | libs/core/src/atp_core/persistence/signals.py:176-182 | a downgraded reader finds rule and reason exactly when the rule closes no bracket and the reason has nothing to strip |
| Packing.RuleIsThePrefix | infra/alembic/versions/f4d2e8b1a075_a_refusal_names_its_rule_in_its_own_column.py:9-16 | the column names a rule in exactly the texts that open with it in brackets, padding beyond the column's width aside |
| Packing.Signals.constructor | infra/alembic/versions/f4d2e8b1a075_a_refusal_names_its_rule_in_its_own_column.py:48-49 | before the upgrade no row has a rule |
| Packing.Signals.Upgrade | infra/alembic/versions/f4d2e8b1a075_a_refusal_names_its_rule_in_its_own_column.py:48-67 | every row is unpacked, or one rule too long for the column leaves the whole table as it was |
| Packing.Signals.Downgrade | infra/alembic/versions/f4d2e8b1a075_a_refusal_names_its_rule_in_its_own_column.py:69-79 | every row that has a rule is packed and every other keeps its reason |
| Retime.Shifted | infra/alembic/versions/c5e9a03b1f47_an_equity_point_is_dated_by_its_session.py:74-94 | the loop with its early exits moves every point, or stops as the first point in trouble demands |
| Retime.Runs.constructor | infra/alembic/versions/c5e9a03b1f47_an_equity_point_is_dated_by_its_session.py:66-71 | the table as it stands |
| Retime.Runs.Retime | infra/alembic/versions/c5e9a03b1f47_an_equity_point_is_dated_by_its_session.py:97-114 | every row is retimed on its own, or one exception leaves the whole table as it was |
| Retime.Runs.Upgrade | infra/alembic/versions/c5e9a03b1f47_an_equity_point_is_dated_by_its_session.py:117-118 | every row moved back by its timeframe, or none |
| Retime.Runs.Downgrade | infra/alembic/versions/c5e9a03b1f47_an_equity_point_is_dated_by_its_session.py:121-122 | every row moved forward by its timeframe, or none |
| Retime.FullOrNothing | infra/alembic/versions/c5e9a03b1f47_an_equity_point_is_dated_by_its_session.py:74-80 | a row is shifted in full exactly when its timeframe is known and its whole curve can be read, and is untouched otherwise |
| Retime.TimeframesAreAsNamed | infra/alembic/versions/c5e9a03b1f47_an_equity_point_is_dated_by_its_session.py:56-64 | the timeframes known, each as long as its number and unit say |
| Retime.MovesByItsTimeframe | infra/alembic/versions/c5e9a03b1f47_an_equity_point_is_dated_by_its_session.py:74-114 | a curve of stamped figures moves, every point, by exactly the timeframe its config names |
| Retime.StaysUnless | infra/alembic/versions/c5e9a03b1f47_an_equity_point_is_dated_by_its_session.py:104-113 | a row without such a curve or such a timeframe stays as it is |
| Retime.AbortsExactly | infra/alembic/versions/c5e9a03b1f47_an_equity_point_is_dated_by_its_session.py:97-114 | a row ends the migration exactly when its config is neither empty nor an object, or a point would leave the range of datetime before anything unreadable is met |
| Retime.OnlyLabelsMove | infra/alembic/versions/c5e9a03b1f47_an_equity_point_is_dated_by_its_session.py:21-25 | the equities and all differences between instants of a shifted curve are what they were |
| Retime.ThereAndBack | infra/alembic/versions/c5e9a03b1f47_an_equity_point_is_dated_by_its_session.py:117-122 | the opposite migration restores every instant of every row; it succeeds except on an unreadable curve with a readable point running out of range first |
| Retime.TableThereAndBack | infra/alembic/versions/c5e9a03b1f47_an_equity_point_is_dated_by_its_session.py:97-122 | after a pass over a table the opposite one goes through exactly when no row is such a one, and restores every instant of every row |
| Retime.UpgradeMayStrandTheDowngrade | infra/alembic/versions/c5e9a03b1f47_an_equity_point_is_dated_by_its_session.py:87-93 | a row the upgrade leaves alone and the downgrade raises on |
| RouteLabel.LabelIsPrefixAndTemplate | apps/api/src/atp_api/middleware.py:62-82 | for every prefix, route and values the label is prefix and template exactly when no value spans several segments, and otherwise neither that nor the template |
| RouteLabel.LabelIgnoresTheValues | apps/api/src/atp_api/middleware.py:62-82 | without path converters all requests of a route share one label, whatever their values |
| RouteLabel.LabelOf | apps/api/src/atp_api/middleware.py:74-82 | the label is the path's leading segments, as many as the template leaves over, followed by the template |
| RouteLabel.Fallbacks | apps/api/src/atp_api/middleware.py:66-81 | no label without a matched route, and the template alone without a path it fits into |

## Left out

Assumptions about the surroundings:

- Live push: a client id (a random 128-bit number) and a socket are never reused; a subscription delivers
  in order; a connection that lost one message delivers nothing after it; delivered means that the send
  went through, not that the browser drew it.
- Bridge timing: a poll ends within 1 s, a PING within the 5 s of the shared client's socket timeout, a
  broadcast within 4 s (one round of sends and one of hang-ups, 2 s each); everything else between two
  awaits takes no time. The delay of `backoff_delay` is arbitrary. Time is real-valued, not floating point.
- Cancellation of the bridge at shutdown, and authentication, close codes and logging of the endpoint.
- JSON decoding, redis-py, sockets, subprocesses, `pg_dump`, `pg_restore` and SHA-256 are steps that may
  succeed or fail; a checksum is right or wrong.
- A broadcast with nobody to send to returns at once; in the model it passes through its empty steps.

Weaker than the source, or on a part of its inputs:

- Registry.ConnectionManager.Subscribe: upper-cases ASCII letters only, where `str.upper` maps all of
  Unicode; tickers are ASCII.
- RateLimit.SeamBound: does not bound the verdicts given because a command raised; the limiter fails open
  by design and gives any number of them.
- RateLimit.RetryAfterIsEnough: is in whole seconds; Redis rounds TTL to the nearest second, so up to half
  a second can be missing.
- BackupNames.StampsSortByTime: covers the years 1000 to 9999, which the format writes at full width.
- Create.CmdCreate: takes what the queries for the manifest return as given; they may only fail. The pruning
  it ends with on request is Retention.Directory.Prune.
- Restore.CmdRestore: counts connections once, as the source does; what connects afterwards is not modelled.
- Retime.OnlyLabelsMove: takes a timestamp without an offset at its wall clock.
- Retime.ThereAndBack: rests on `fromisoformat` inverting `isoformat`, which is what the Python library
  reference promises of `datetime`; the ISO 8601 grammar itself is a parameter. Numbers in a config are
  integers.
- Restore.Aside: counts characters where PostgreSQL counts bytes, which is the same for ASCII names. Names
  an operator gives that are themselves longer than 63 are taken as they are.
- Fees.PassAgainstTheVenue: compares with the venue's cash for the fills the book knows of; a fill it has
  missed is another matter.
- Fees.FeeLedger.RecordSeen: keeps the account and the amount of a charge, in units of the column's scale,
  not its dates and descriptions, and no text is too long for its column.

Not modelled, because it would add easy members or belongs to libraries:

- `cmd_list`, the client and server version check, argument parsing and printing.
- Transport of market data and orders, the risk engine, the router, the backtest engine and the dashboard.
- The index and column definitions of the migrations, beyond what they do to rows.
- The label of an unrouted request, which is a constant.
