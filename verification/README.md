# Mail transporter: a verified model

The mail transporter forwards every message of an iCloud INBOX into Gmail and then moves it
to the Trash.  It keeps no store of its own: what it has done with a message is written on
the message, as one of three IMAP keywords (`inserted`, `failed`, `unverified`) and as the
folder it is in.  A watcher process looks at the INBOX and calls the forwarder, and a health
probe watches the watcher.  This project models that in Dafny and proves what the design
promises: no mail is lost, duplicates are bounded by faults, a crash costs nothing but
repetition, the watcher never passes new mail over and never triggers too often or too
seldom, mail is delivered by a deadline, the probe neither cries wolf nor stays silent, and
a registered secret does not leave the process.  Where a promise does not hold, it proves
exactly when it does.

## How it is built

* `Mail` is one message seen from outside (in INBOX, marks, \Deleted, copies in folders),
  the calls made about it, and what a truthful server may do and answer: a call that fails
  may have taken effect, a STORE may be ignored whatever it is answered, a UID that is gone
  makes a command a silent no-op (section 6.4.8 of RFC 3501).
* `Run` is a forwarding run as a machine that makes one IMAP, Gmail or clock call at a time;
  `Forwarder` is the same run as the program has it, with objects, counters and loops.  Each
  method is proved to make exactly the calls of the machine and to end in its state, so
  the theorems about the machine are theorems about the code.
* `Accounts` (conservation, circuit breaker, first error), `Order` and `Breaker` (what
  happens to rejected mail), `Recovery` (crashes and time budgets), `Isolation` (messages do
  not disturb each other) reason about whole runs.  `Events` reads a run off the calls it
  makes and the replies it gets, in terms of its own: which reply is of which kind, what each
  counter counts, when the next message is taken up, what stops the work, which error is
  reported, and what becomes of each message.
* `System` interleaves any number of runs call by call with crashes, lost replies, arriving
  mail, the user and the operator; `Duplicates` bounds what Gmail gets, for runs that overlap
  and for runs that take turns; `Chains` shows that every chain of runs is one of its
  behaviors, and that every process in an interleaving is a run, with what the others do
  coming between its calls; `Server` is the endpoint as a class whose requests overlap, and
  shows that its run lock makes the runs take turns.
* `Flags`, `Imap` and `ImapClient` go below `Mail`: flags as strings in any letter case,
  folders as lists, a client class over a server that may fail at any command.  `Imap` proves
  that `Mail` is a faithful view of one message of that account.
* `Cli` has the operator's commands on top of the client.
* `Watch` is the watcher's decision as a timed machine with theorems about whole traces.
  `Daemon` is the watcher process as a machine that does one blocking operation after
  another; which, and when, is determined by how long each takes and how it ends.
  `Watcher` is the daemon as the program has it, with its loops and fields: its log of
  operations is proved to be the log of that machine, and it keeps the deadline of `Health`.
  `Calls` has the theorems about the calls in the log.
* `Delivery` puts the watcher and the forwarder together: how long mail can take.
* `Redaction` is the masking of secrets, with the result traced back to the original text,
  and the condition a secret must meet for its masking to hold.
* `Sorting` is the sorted list of a finite set.

## What is assumed

* The three keywords differ by more than letter case and none is a system flag, as
  `mailtransporter/config.py:83-97` enforces; the three folder names differ.
* No message arrives with the inserted or the unverified keyword, and nobody else sets them.
* `rejection_threshold` is not negative (a negative one makes
  `mailtransporter/forwarder.py:183` index an empty list when every rejection is a 413).
* A listing names only messages that exist, and each once; UIDVALIDITY does not change;
  users do not move quarantined mail back into INBOX or take back a \Deleted the tool set.
* The clock never goes back and is never negative; a sleep never ends early.

## Where the code and what is said about it differ

* `remove_keyword` is documented to fail closed.  It does, except when the server does not
  apply the STORE and its reply leaves out the keyword the message still carries.
  `RemoveKeyword` states that exception exactly, and that a server whose replies are
  complete never gets there; `HiddenKeyword` is a client that does.
* `move_to_folder` is documented to move a message.  Without MOVE it does not look whether the
  \Deleted it sets was applied (`mailtransporter/imap_client.py:286`): where it was not, and
  the message had none before, the call returns normally with the message filed in the folder
  and still in INBOX.  `MoveToFolder` states that exception exactly; `UnmovedMessage` is a
  client that does.  No mail is lost by it; a message that could not be marked either is sent
  again, which `DuplicateBound` counts as a fault.
* Marking a message by hand and retrying it restores its flags only where the message did
  not carry the failed keyword before, or is \Deleted and did; `MarkThenRetry` says when.
* The listing of quarantined mail shows a message that carries both quarantine keywords,
  and not the inserted one, as not in Gmail, although Gmail has it (`ListingAboutGmail`).
* A registered secret is masked for good, whatever else is registered, exactly if it neither
  begins nor ends with a star nor has three of them in a row (`CompleteIff`, `IdempotentIff`);
  exactly the others can even appear where they were not (`AppearsIff`).
* Two trigger requests can be one listing time further apart than the steps that send them.
  The steps keep to the bound; the requests do, whatever happens, exactly when the settings
  leave room for one more listing (`RequestsBoundedIff`).
* The backoff at `mailtransporter/watcher.py:137` multiplies a float by an integer power and
  overflows from the 1025th failure in a row on: the step raises before it has put anything
  off, the session ends, and the next one may trigger at once.  The spacing after the k-th
  failure holds exactly for k up to 1024 (`SpacingAfterFailures`).

## Model

| member | source | states |
|---|---|---|
| `Run.ResumeDecreases` | mailtransporter/forwarder.py:139-204 | whatever the servers answer, every reply brings a run strictly closer to its end, so every run ends |
| `Run.StepStays` | mailtransporter/forwarder.py:207-307 | the message loop never takes a step towards the failed folder or keyword, and the settling of rejections takes no other and ends parked or in a failed move |
| `Run.SplitMembers` | mailtransporter/forwarder.py:178-189 | the rejections split exactly into those that count for the breaker and those that describe one message |
| `Forwarder.Forwarder.Run` | mailtransporter/forwarder.py:139-174 | the run leaves the mailbox and the counters of the machine; each counter is the number of replies of its kind, and there is no error exactly if there was a listing, no failure and no tripped breaker; every listed message is accounted for, and no error means no unsettled rejection |
| `Forwarder.Forwarder.Work` | mailtransporter/forwarder.py:150-161 | the message loop ends where the machine starts to settle, by exhaustion, time budget or abort |
| `Forwarder.Forwarder.SettleRejections` | mailtransporter/forwarder.py:176-204 | from the start of settling to the end of the run, with the breaker, in step with the machine |
| `Forwarder.Forwarder.Process` | mailtransporter/forwarder.py:207-272 | one message is taken to its conclusion: trashed, skipped, retried later, rejected, quarantined or aborting |
| `Forwarder.Forwarder.Offer` | mailtransporter/forwarder.py:237-248 | only an accepted message is counted as forwarded and goes on to its keyword; every error class ends it in its own way, as the machine does (the statuses are those of `Events.CountersAreCounts` and `Accounts.ToldRejections`) |
| `Forwarder.Forwarder.Record` | mailtransporter/forwarder.py:250-265 | a message goes on to the Trash only with its keyword confirmed; otherwise it is quarantined as unverified |
| `Forwarder.Forwarder.MoveToTrash` | mailtransporter/forwarder.py:267-272 | the last step counts a trashed message, or aborts the run |
| `Forwarder.Forwarder.Quarantine` | mailtransporter/forwarder.py:274-307 | by keyword where that is configured and confirmed, else by folder; counted exactly when one of them held |
| `Forwarder.Forwarder.AddKeyword` | mailtransporter/imap_client.py:216-233 | in step with the machine: confirmed by the reply to STORE or by fetching the flags again, or refused |
| `Forwarder.Forwarder.MoveToFolder` | mailtransporter/imap_client.py:273-296 | in step with the machine: MOVE, or copy, flag and expunge, or an error |
| `Forwarder.Session.Do` | mailtransporter/forwarder.py:139-174 | one call: allowed only if it is the one the machine makes next, and the end of the run does not depend on how far it has been carried out |
| `Accounts.Conservation` | mailtransporter/forwarder.py:139-307 | listed = trashed + skipped + retry later + quarantined + remaining + unsettled; no error implies nothing unsettled; forwarded is at most trashed + quarantined, plus one if the loop aborted |
| `Accounts.CircuitBreaker` | mailtransporter/forwarder.py:176-204 | for every sequence of replies that ends a run: the breaker trips exactly when the threshold is not 0, that many messages got a permanent status other than 413, and nothing was accepted; a message that got a permanent status is settled or left, never forgotten; with the breaker tripped every message with another status than 413 is left, and all others are settled unless a move failed meanwhile |
| `Accounts.ToldRejections` | mailtransporter/forwarder.py:245-248 | the list of rejections, built reply by reply, has a message in it if and only if Gmail answered its insert in that run with 400, 404, 409, 410, 412, 413 or 422 |
| `Accounts.FinalIsReplay` | mailtransporter/forwarder.py:139-204 | the end of a run depends on nothing but the replies it got, so that what is proved of sequences of replies holds of runs |
| `Accounts.FailedOnlyIfRejected` | mailtransporter/forwarder.py:245-247 | a message is marked or filed as failed only after Gmail answered the insert of that message in that run with one of these |
| `Accounts.FirstErrorKept` | mailtransporter/forwarder.py:186-204 | the first error of a run is its error in the end, whatever happens later; the client never builds an error without text |
| `Accounts.NothingSentAfterAuthFailure` | mailtransporter/forwarder.py:155-161 | after a failed token refresh or a 401 Gmail is asked for no further message in that run, an error is reported, and the message in hand and all after it count as remaining |
| `Events.CountersAreCounts` | mailtransporter/forwarder.py:207-307 | for every sequence of replies that ends a run: forwarded is the number of inserts accepted, trashed of moves to the Trash done, skipped of messages found gone or carrying a quarantine keyword, retry later of inserts that failed for a time, and quarantined of keywords confirmed and moves done that set a message aside |
| `Events.ErrorIff` | mailtransporter/forwarder.py:143-174 | a run reports no error if and only if it got as far as its listing, no fetch, move or account failure came up, and the breaker held |
| `Events.ErrorIs` | mailtransporter/forwarder.py:155-203 | the error is what stopped the loop or the set-up; else that the breaker tripped, with the number of suspicious rejections and the first; else what failed during settling; with the message, folder and text it was about |
| `Events.LoopKeepsTime` | mailtransporter/forwarder.py:150-161 | messages are fetched in the order of the listing, one after each reading of the clock that is in time; a reading that is over is the last and fetches nothing; what is not fetched is what the run reports as remaining, with one more if the last message stopped it; with neither, the listing is fetched to its end |
| `Events.OverStops` | mailtransporter/forwarder.py:150-154 | from a reading that is over on, no message is fetched or sent, the messages left count as remaining to the end of the run, and there is no error but the breaker's; a reading that is not over is followed by the fetch of the next message |
| `Events.AbortStops` | mailtransporter/forwarder.py:155-161 | from a failed fetch, a failed move or an authentication failure on, there is an error, the message in hand and all after it count as remaining, and none is fetched or sent |
| `Events.FailedFetchStops` | mailtransporter/forwarder.py:221-224 | so it is for every reply to a fetch but the message or the news that it is gone |
| `Events.EachListedMessage` | mailtransporter/forwarder.py:150-168 | in a run without error, every message of the listing, but the last ones, which are those it reports as remaining, has been concluded |
| `Events.ConcludedIs` | mailtransporter/forwarder.py:207-272 | a message has been concluded if and only if some reply about it found it gone or set aside, put it off, refused it, trashed it or set it aside |
| `Events.SetUpOrder` | mailtransporter/forwarder.py:143-149 | connect, then the label if there is one, then the listing, then the clock; a server without keywords, or a failure in any of these, ends the run with an error and nothing done; an empty listing ends it well |
| `Events.FolderIsLastResort` | mailtransporter/forwarder.py:283-307 | in keyword mode a message is set aside in a folder only right after the server did not confirm the keyword that says the same |
| `Events.FolderModeMarksNothing` | mailtransporter/forwarder.py:292-307 | in folder mode no keyword but the inserted one is ever set |
| `Events.TakesUpInTime` | mailtransporter/forwarder.py:148-161 | against a server that works, a run fetches exactly the messages, in ascending order, for which the clock is in time before the first reading that is over, and reports the others as remaining |
| `Events.IdealClock` | mailtransporter/forwarder.py:140-151 | ... where each reading is what the clock says at that call |
| `Breaker.BreakerSpares` | mailtransporter/forwarder.py:176-204 | for every message that got a permanent status in a run: if the run trips the breaker and the status was not 413, the message keeps its flags and place; otherwise, unless a move failed during settling, it carries the failed keyword or has left INBOX, if and only if the server did not answer a STORE of \Deleted on it without applying it |
| `Breaker.QuarantineParks` | mailtransporter/forwarder.py:274-307 | a quarantine that reports success has marked the message or taken it out of INBOX, except exactly where the EXPUNGE found no \Deleted on it |
| `Order.ResumeApart` | mailtransporter/forwarder.py:139-204 | at every call, a message is at most once among those in hand, queued and rejected |
| `System.NoLoss` | README.md:64-71 | in every state of every interleaving of any number of runs with crashes and lost replies, a message the user did not remove is in INBOX without a \Deleted of the tool, in the folder for rejected mail, or in Gmail; and every mark or folder that says Gmail has it is right |
| `System.NextSafe` | mailtransporter/forwarder.py:207-307 | each single step of any process, crash, user or operator keeps what no loss rests on |
| `System.ServeSafe` | mailtransporter/forwarder.py:207-307 | a reply, true but otherwise arbitrary, leaves the message asked about safe and the process with nothing it may not rely on |
| `Duplicates.DuplicateBound` | mailtransporter/forwarder.py:226-265 | with runs taking turns, Gmail gets a message at most once plus once for each fault: a crash or abort between an accepted insert and a confirmed marker, an EXPUNGE there that found no \Deleted, an accepted insert reported as an error, or an unverified keyword the operator clears |
| `Duplicates.AtMostOnce` | README.md:64-65 | as long as no process dies, no move fails or leaves the message in INBOX, Gmail files what it says it accepts once and nothing else, and the operator clears no unverified keyword, Gmail gets each message at most once |
| `Duplicates.OverlapBound` | README.md:64-65 | with any number of overlapping runs, once more for each time that two runs had the message in hand at once and one sent it, or set out to, in vain |
| `Duplicates.NeverSentAgain` | mailtransporter/forwarder.py:226-235 | a message that is marked or out of INBOX, and not just being sent, is never sent again by any number of processes, whatever the listing shows, unless the operator takes the last mark off |
| `Duplicates.OnlyUnmarkedInserted` | mailtransporter/forwarder.py:228-238 | a fetched message goes to Gmail if and only if it shows none of the three keywords |
| `Chains.RunsLoseNothing` | README.md:42-45 | after any chain of runs against any truthful servers, each cut off after any number of calls, no message is lost and every mark is right |
| `Chains.RunExtends` | mailtransporter/forwarder.py:139-174 | each call of a run is a step of the interleaved system |
| `Chains.FinalIsAfter` | mailtransporter/forwarder.py:139-174 | a run that is let through ends after finitely many of these steps |
| `Chains.ProcessIsRun` | mailtransporter/forwarder.py:139-204 | in every interleaving, each process is at any step in the mailbox and at the point where the run of the program is that gets the same replies and finds the shared mailbox as it is at each call; so such a run, with others acting between its calls, loses no message and leaves every mark right |
| `Recovery.IdealIsLawful` | mailtransporter/imap_client.py:273-296 | the MOVE server of the recovery theorems is one of the truthful servers |
| `Recovery.TimeLimitedRun` | mailtransporter/forwarder.py:148-168 | a time-limited run leaves listed exactly the tail of its listing that it reports as remaining, changes nothing about what a complete run leaves, and leaves just that when nothing remains |
| `Recovery.IdealRunsAreOk` | mailtransporter/forwarder.py:139-204 | a run against a server that works reports no error, however many messages Gmail turns away for their size |
| `Recovery.CrashRecovery` | mailtransporter/forwarder.py:139-272 | after any attempts that crashed at any call or ran out of time, one run ends in the flags and folders of one uninterrupted run, with one Gmail copy more for each crash between accepted insert and keyword, and in the same state if and only if there was none |
| `Recovery.BudgetSplitting` | mailtransporter/forwarder.py:148-168 | time-limited runs that each handle a message drain n messages in at most n runs, into the mailbox and Gmail log of one unlimited run |
| `Recovery.EveryCallAdvances` | mailtransporter/forwarder.py:139-204 | each call of a run against the ideal server keeps what a complete run will leave |
| `Isolation.EachToItsFate` | mailtransporter/forwarder.py:150-204 | a completed run makes of every message what the servers' answers about that message alone, and the breaker, make of it |
| `Isolation.Isolated` | mailtransporter/forwarder.py:234-247 | with the servers' answers about one message changed, and the breaker deciding alike, every other message ends in the same state and as often in Gmail |
| `Isolation.TransientFailureLeaves` | mailtransporter/gmail_client.py:76-89 | a message whose insert meets a transport error or any status but 401 and the seven permanent ones, so also 403, 429 and 500 and above, is after a completed run exactly as it was |
| `Flags.WithCarries` | mailtransporter/imap_client.py:216-233 | storing a flag adds that flag and no other, in any letter case |
| `Flags.WithoutCarries` | mailtransporter/imap_client.py:235-251 | clearing a flag takes off that flag, however spelled, and no other |
| `Flags.CarriesAtom` | mailtransporter/imap_client.py:222-232 | flags carry a keyword if and only if one of them is that atom but for the case of ASCII letters |
| `Flags.DistinctKeywords` | mailtransporter/config.py:83-97 | marking a message leaves its other marks alone, for all flags, if and only if the keywords differ by more than letter case |
| `Flags.DeletedApart` | mailtransporter/imap_client.py:286 | the keywords and \Deleted do not disturb each other |
| `Imap.FallbackIsMove` | mailtransporter/imap_client.py:280-287 | copy, flag and UID EXPUNGE end in the same INBOX and folders as MOVE |
| `Imap.PlainExpungeIsMove` | mailtransporter/imap_client.py:283-287 | with a plain EXPUNGE they would if and only if no other message is \Deleted |
| `Imap.CutShort` | mailtransporter/imap_client.py:280-287 | wherever a move stops, the message is in INBOX or in the target, a new \Deleted implies a copy there, and every other message, \Deleted or not, is as it was |
| `Imap.CommandsRefine` | mailtransporter/imap_client.py:216-296 | every command does to the account what the one-message view says it does to that message, and nothing to any other; a folder is needed only to file a message in it |
| `Imap.ClearingRefines` | mailtransporter/imap_client.py:235-251 | clearing a keyword is the operator's step of the interleaved system |
| `Imap.AccountIsLawful` | mailtransporter/imap_client.py:136-296 | a server over strings and folders that answers truthfully, seen as a whole mailbox, is one of the servers the protocol is proved against, and stays in that view; folders may be missing, are made before a message is filed in them, and are never taken away |
| `ImapClient.ICloudMailbox.ListInboxUids` | mailtransporter/imap_client.py:136-157 | on either path the ascending UIDs of exactly the messages that are neither \Deleted nor carry a keyword in any letter case; it fails exactly when the search and, with keywords, the fallback fail |
| `ImapClient.ICloudMailbox.InboxFlags` | mailtransporter/imap_client.py:159-169 | the flags of exactly the messages that are not \Deleted, by ascending UID |
| `ImapClient.ICloudMailbox.SearchKeyword` | mailtransporter/imap_client.py:171-178 | exactly the carriers, even on a server that ignores a KEYWORD search |
| `ImapClient.ICloudMailbox.FetchMessage` | mailtransporter/imap_client.py:203-213 | the flags as they are, or gone, or an error |
| `ImapClient.ICloudMailbox.AddKeyword` | mailtransporter/imap_client.py:216-233 | a normal return comes exactly when the STORE returns, the message is then there and carries the keyword, and either the reply to the STORE shows it or the flags can be fetched; no listing that excludes it shows the message then; nothing else changes; and the machine of a run, told the same, goes the same way |
| `ImapClient.ICloudMailbox.RemoveKeyword` | mailtransporter/imap_client.py:235-251 | a normal return means the keyword is off or the message is gone, except exactly when the message carried it, the STORE was not applied, nothing failed, and the reply hides it; a server with complete replies never gets there; and exactly when there is a normal return |
| `ImapClient.HiddenKeyword` | mailtransporter/imap_client.py:235-251 | a truthful server on which a keyword is reported as cleared and is still there |
| `ImapClient.ICloudMailbox.MoveToFolder` | mailtransporter/imap_client.py:273-296 | a normal return means moved into the folder, except exactly where there is no MOVE, the server did not apply the \Deleted and the message had none, and then it is a copy and still in INBOX; an error leaves one of the stages of the move; without MOVE and UIDPLUS an error and an untouched INBOX; exactly which commands must go through for a normal return; and the machine of a run, told the same, ends the message the same way |
| `ImapClient.UnmovedMessage` | mailtransporter/imap_client.py:280-287 | a truthful server on which a message is reported as moved and is still in INBOX |
| `ImapClient.InboxIs` | mailtransporter/imap_client.py:157 | filtering the plain listing by flags is searching with the keywords excluded |
| `ImapClient.CarriersAre` | mailtransporter/imap_client.py:178 | filtering it the other way gives the carriers |
| `ImapClient.QueuePartition` | mailtransporter/cli.py:41-57 | the work list and the quarantined mail split the INBOX that is not \Deleted into two disjoint halves |
| `Cli.Collect` | mailtransporter/cli.py:41-57 | one line for each message that carries a quarantine keyword, by ascending UID, and what the line says of it |
| `Cli.ListingAboutGmail` | mailtransporter/cli.py:48-51 | the line is right about Gmail, except exactly for a message with both quarantine keywords and not the inserted one |
| `Cli.Retry` | mailtransporter/cli.py:80-104 | refused without confirmation; only the keyword asked for is cleared, only from its carriers among the messages asked for, and with exit code 0 from all of them; a server that works gives exit code 0 |
| `Cli.AllCleared` | mailtransporter/cli.py:92-103 | clearing all leaves no carrier and alters no other keyword, message or folder |
| `Cli.MarkFailed` | mailtransporter/cli.py:107-126 | never touches a message that shows the inserted keyword, nor any other flag; with exit code 0 every message asked for is there and carries the keyword; on a server that works, exit code 0 exactly when all are there and none is refused |
| `Cli.MarkThenRetry` | mailtransporter/cli.py:80-126 | the two commands, one after the other on a server that works, restore the account if and only if the message is not there, or carried the keyword before just in case it is \Deleted |
| `Watch.NotifiedHistory` | mailtransporter/watcher.py:106-126 | the remembered UIDs are exactly those in INBOX at the last successful trigger and at every step since |
| `Watch.NewMailIsActedOn` | mailtransporter/watcher.py:106-117 | a message that was not makes the step trigger or return a wait of at most 600 s |
| `Watch.DelaysAreSane` | mailtransporter/watcher.py:115-140 | every delay a step returns is positive and at most 600 s |
| `Watch.FailuresCounted` | mailtransporter/watcher.py:123-136 | the failure counter is the number of failed triggers since the last success |
| `Watch.TriggerSpacing` | mailtransporter/watcher.py:105-140 | the next trigger comes at least 20 s after a busy one, after the first failure 30 s and after each further one twice as long or 600 s up to the 1024th, and the retrigger interval after a success that left nothing, unless some message was absent then or since |
| `Watch.BackoffIsSpacing` | mailtransporter/watcher.py:136-137 | the power of two with its cap is 30 s, then twice the last delay or 600 s |
| `Watch.SpacingAfterFailures` | mailtransporter/watcher.py:136-140 | the spacing after the k-th failure in a row holds for all traces if and only if k is at most 1024 |
| `Watch.SleepIsEnough` | mailtransporter/watcher.py:115-140 | after a delay that a step returned, the next step of a session with mail in INBOX never has to wait again |
| `Watch.RemainingIsTakenUp` | mailtransporter/watcher.py:127-130 | when the forwarder reports messages remaining and INBOX still has some, the next step of the session triggers, 5 s later |
| `Watch.BoundedGap` | mailtransporter/watcher.py:98-140 | with a session up and mail in INBOX, steps that trigger are at most L + max(R + W, T + max(W, 600)) apart, and the requests at most L more in the first case |
| `Watch.RequestsBoundedIff` | mailtransporter/watcher.py:98-140 | the requests keep to that bound in all timed traces if and only if listings take no time, the retrigger interval is not positive, or L + R + W is at most T + max(W, 600) |
| `Daemon.StatesAreDetermined` | mailtransporter/watcher.py:161-210 | where the process is before each operation is determined by its settings, how long the operations took and how they ended |
| `Daemon.StatesExist` | mailtransporter/watcher.py:161-210 | whatever the settings, times and endings, there is a process that goes that way |
| `Daemon.BackoffPaced` | mailtransporter/watcher.py:183-210 | the n-th backoff since the last successful connect sleeps min(5*2^(n-1), 300) s |
| `Daemon.PacedDoubles` | mailtransporter/watcher.py:183-210 | the closed form is 5 s, then twice the last backoff or 300 s, and always positive |
| `Daemon.IdleOrPolls` | mailtransporter/watcher.py:200-205 | a session blocks in IDLE only if the server it has connected to has that, and polls only if it has not |
| `Daemon.EndsAreBackedOff` | mailtransporter/watcher.py:187-210 | a backoff follows exactly on an operation that raises, or on the teardown after the backoff of the forwarder overflows; a connect follows on every backoff, and after the first on nothing else |
| `Daemon.CallsAreTriggers` | mailtransporter/watcher.py:98-140 | the operation after a listing is a call of the forwarder if and only if the step on that listing triggers, and there are no other calls |
| `Daemon.SleepsAreSane` | mailtransporter/watcher.py:195-199 | every sleep the daemon makes between steps is positive and at most 600 s |
| `Calls.ReportedHistory` | mailtransporter/watcher.py:103-126 | the process takes as reported exactly the messages in the listing of the last successful call and in every listing that returned since |
| `Calls.NewMailIsCalledFor` | mailtransporter/watcher.py:106-117 | in the log, a listing with a message that is not taken as reported is followed by a call, or by a sleep of at most 600 s |
| `Calls.CallSpacing` | mailtransporter/watcher.py:105-140 | in the log, over all sessions: the listing of the next call is at least 20 s after that of a call that found the forwarder busy, as long after a failed one as the process slept for that, up to the 1024th failure since the last success, and the retrigger interval after a success that left nothing unless some message was missing since |
| `Calls.AnswerIsFollowed` | mailtransporter/watcher.py:122-140 | in the log, an answered call is followed by a sleep of 5 s if work is left and none if there is none, of 20 s if the forwarder was busy, and of 30 s if this is the first failure since the last success; the 1025th failure is followed by the end of the session |
| `Calls.SleepDoubles` | mailtransporter/watcher.py:136-140 | in the log, the sleep after the next failure in a row is twice the one after the failure before, or 600 s, up to the 1024th |
| `Calls.CallIff` | mailtransporter/watcher.py:105-117 | in the log, a listing is followed by a call if and only if it is not empty, shows a message not taken as reported or comes when a call is due again, and calls are not put off; where they are, by a sleep until then; and else by a rest |
| `Calls.CallGap` | mailtransporter/watcher.py:98-203 | in the log, with the session up, prompt operations and mail at every listing, no listing comes later than L + max(R + W, T + max(W, 600)) after the listing of the last call; nor the next call after that call, if there is room for one more listing |
| `Health.HealthyThroughout` | mailtransporter/health.py:30-38 | healthy at every instant up to now if and only if every touch came before the deadline before it had passed, and the last is still to come |
| `Health.HangIsSeen` | mailtransporter/health.py:30-38 | after the last touch, healthy exactly until its deadline |
| `Health.Heartbeat.Touch` | mailtransporter/health.py:30-34 | the deadline moves to now plus the budget, a negative budget counting as none |
| `Health.Heartbeat.Ok` | mailtransporter/health.py:36-38 | the probe is told whether the deadline in force has passed |
| `Watcher.WatchLoop.Step` | mailtransporter/watcher.py:98-140 | one step: a listing that can fail, and a call of the forwarder in the log exactly where the machine makes one; it returns the delay that the machine rests for |
| `Watcher.WatchLoop.Settle` | mailtransporter/watcher.py:122-140 | the four answers change the memory and give the delay as the timed machine says, and it raises exactly where the backoff overflows |
| `Watcher.WatchLoop.CallForwarder` | mailtransporter/watcher.py:119-140 | the budget is declared, the call is the next operation in the log, the heartbeat is renewed for the answer, and the process goes on where the machine does |
| `Watcher.Process.Block` | mailtransporter/watcher.py:187-210 | an operation is allowed only if it is the one the machine is at; it takes the machine one step on, and is put on record |
| `Watcher.RunForever` | mailtransporter/watcher.py:161-210 | up to an operation that never returns, the daemon does exactly the operations of the machine, and is stuck in the one that is next; the probe is answered healthy at every instant as long as each connect takes at most three IMAP timeouts, each listing one, each call the request timeout, each IDLE its own and an IMAP timeout, each poll its interval and each sleep its delay, and 120 s more each; and after that, healthy exactly until the stuck operation has taken longer than that |
| `Watcher.ConnectAndWatch` | mailtransporter/watcher.py:187-207 | a connection that succeeds resets the backoff, one that fails does not, and a session ends only by an error, after which the machine backs off |
| `Delivery.DeliveryDeadline` | mailtransporter/watcher.py:98-203 | whatever the calls are answered: with the session up, prompt operations, no new mail and runs that each handle a message, n messages listed at a call are off the list at every step later than n - 1 gaps after that of the call, and mailbox and Gmail are as one unlimited run leaves them |
| `Delivery.PromptDelivery` | mailtransporter/watcher.py:123-130 | told what the runs did, the watcher has n messages off the list within n listings, n calls and n - 1 sleeps of five seconds, however long the retrigger interval is, and mailbox and Gmail are as one unlimited run leaves them |
| `Redaction.Complete` | mailtransporter/secrets.py:26-30 | no registered secret that is clean occurs in the result or in any prefix of it, whatever the others are |
| `Redaction.CompleteIff` | mailtransporter/secrets.py:26-30 | a secret never shows in the result, for all texts and all other secrets, if and only if it is clean: it neither begins nor ends with a star nor has three in a row |
| `Redaction.AppearsIff` | mailtransporter/secrets.py:28-29 | masking one secret can make another appear that was not in the text if and only if that other one is not clean |
| `Redaction.Minimal` | mailtransporter/secrets.py:26-30 | the result is the text with some non-overlapping occurrences of secrets masked one by one and every other character in place |
| `Redaction.Idempotent` | mailtransporter/secrets.py:26-30 | masking clean secrets again, in any order, changes nothing |
| `Redaction.IdempotentIff` | mailtransporter/secrets.py:20-30 | for a value long enough to be registered, a second pass changes nothing, for all texts, if and only if it is clean |
| `Redaction.MasksAt` | mailtransporter/secrets.py:29 | the first occurrence of a secret is masked, and what comes after it is treated in the same way |
| `Redaction.NothingToReplace` | mailtransporter/secrets.py:29 | a text without the secret is left as it is |
| `Redaction.WhollyMasked` | mailtransporter/secrets.py:28 | because the longest go first, an occurrence that no secret as long overlaps is masked as a whole |
| `Redaction.SecretRegistry.RegisterSecret` | mailtransporter/secrets.py:20-23 | values of six characters and more are remembered, others ignored |
| `Redaction.SecretRegistry.Redact` | mailtransporter/secrets.py:26-30 | the loop masks every value, longest first, and no clean secret is in any prefix of what it returns, whatever else is registered |
| `Server.Endpoint.Begin` | mailtransporter/server.py:91-96 | a run starts exactly when the caller is authorised and no run is under way; a refusal changes nothing; it is a 409, read as busy by the watcher, if the caller was authorised and a 403 if not |
| `Server.Endpoint.Proceed` | mailtransporter/server.py:91-112 | whatever else happens while runs go on keeps the lock held exactly while there is a run |
| `Server.Endpoint.End` | mailtransporter/server.py:97-112 | with a result or an exception, the run is gone and the lock is free; the watcher reads success exactly on a result without error; every error is told, scrubbed and cut to 500 characters, with no clean secret in it |
| `Server.Endpoint.ErrorText` | mailtransporter/server.py:102-109 | exactly the first 500 characters of the scrubbed text, so that a clean secret cannot survive at the cut |
| `Server.RunsTakeTurns` | mailtransporter/server.py:93-112 | in the history of the endpoint there is never more than one run, so Gmail gets each message at most once plus once for each fault |

## Left out

- Gmail and IMAP libraries, OAuth, HTTP, TLS and resumable uploads: each is a reply and an effect on the account.
- Flask routing, ID-token verification, gunicorn and the health endpoint's HTTP handling: only the run lock, the error text and the deadline are modelled.
- Environment parsing and the syntax of keywords: the distinctness of the keywords is an assumption.
- Headers, MIME decoding, Gmail labels, the label cache, printing, logging and the duration field: nothing hard depends on them.
- Finding the Trash folder and the cached name: one call that succeeds or fails.
- Letters beyond ASCII in flags: IMAP keywords are ASCII atoms, and the comparison is modelled for those.
- Exceptions outside the error classes that `run` catches: they end a run like a crash.
- Connecting to the mailbox in the maintenance commands: a failure there is exit code 1 with nothing done.
- Exceptions raised by a sleep, or outside the four operations that can raise: a sleep only ends.
- `max_sessions`: it exists for tests of the daemon only.
- What happens between taking the run lock and starting the run: the two are one step of the endpoint.
- Time spent outside blocking calls: an operation's time includes what the loop does until its next touch.
- Fetching while messages disappear: `ImapClient` has one client on the account; changes by others are in `System`.
- `Duplicates.NeverSentAgain` speaks of a message that no process is about to insert; a process between fetch and insert may still send it once, and `Duplicates.OverlapBound` counts that.
