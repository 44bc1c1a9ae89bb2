# vlbackup: a verified model

vlbackup moves per-day VictoriaLogs partitions from one node to another and backs them up to an object
store. This project models the parts of it where a mistake loses data, and proves what they promise, for
every input, every interleaving and every fault of the network and of the two machines.

Check it with `dafny verify dfyconfig.toml` (Dafny 4.11).

## How it is laid out

| files | what they model |
|---|---|
| `Wrappers`, `Paths` | optional values; slash-separated paths, splitting, joining and cleaning |
| `Archive` | the archive writer and reader: functions of the entries, and the loops of the source proved equal to them |
| `Containment`, `RoundTrip`, `Integrity`, `Delivery` | what extraction can touch, that it undoes archiving, what acceptance proves, archives damaged in transit |
| `Calendar`, `Range` | Gregorian days and their names; the requested window and its sealed days |
| `World` | the two nodes, the requests on the wire, the handlers on the target, as a transition system |
| `Invariant`, `Preservation` | what holds of every reachable world, and that each step keeps it |
| `Receive` | the receive and restore handlers in the source's own straight-line form, tied to their separate steps |
| `Transfer` | the two clients and the loop over days: functions of the world, and the methods of the source proved equal to them |
| `Verdicts` | what each call comes to, in the statuses and words of the answers; what the stage a day failed at tells |
| `Safety` | no data loss, exactly-once placement, visible directories are verified and final |
| `Bookkeeping`, `RunReport`, `Frame` | what a run asks for, what it reports, the snapshot ledger, what it leaves as it was |
| `Fairness`, `Resume` | environments in which a run gets through; crash-resume convergence |
| `Jobs`, `Migrate`, `Interleaving` | the single-flight job store, the bodies of transfer and migrate jobs, and all interleavings of them |
| `Backup` | snapshot paths, object keys, the backup loop and restoring from it |

The world of the two nodes is a value. A request is appended to a log when it is sent; it may be served at
any later time, at most once, or never; its answer may be missed. Receive and restore handlers take one step
at a time (look, make a directory, extract, rename, look again, attach, answer) and interleave with each
other, with late requests of earlier runs, with other clients and with crashes of the target. What happens
between a request of the transfer and its next move is an arbitrary list of such acts, chosen by an
*environment*: a function from the world after the send to those acts and to what the sender sees (an
answer, none, its own death, or a panic). As the log only grows, no two sends of a history meet the same
world, so quantifying over environments quantifies over all behaviours. A run killed at any call is a run,
so "every history" below includes every crash.

Where the source is a loop or an object with fields, the model has the loop or the class, and its contract
equates it with a function on values; the laws are then proved of that function.

## What is assumed

- Sealed days do not change, so a snapshot of a sealed day holds that day's tree.
- A partition directory that the target has at the start, for a day the source holds, is that day's tree.
- VictoriaLogs tells the truth: when it answers a delete with 200 or 204, a detach or an attach with 200, or any of
  them with one of the phrases for "already so" in the first KiB, in whatever case, it is so. It may still answer
  anything else when it does nothing, and do something and not say so. This is said of the answer and not of what
  the client makes of it; that the client reads it in just this way is proved (`Verdicts`).
- Partition names have eight digits, so a name given as `partition_prefix` matches one partition at most.
- Only a transfer detaches; other clients delete only snapshots that were created.
- SHA-1 is a parameter. Where the laws need it, it is free of collisions.
- In transit names and contents of files may change, the stream may be cut anywhere or break off; but the
  sizes and kinds of entries, the names of folders and the digest entry arrive as sent or not at all, and no
  file takes the digest entry's name. `Integrity.LayoutNotCovered`, `FoldersNotCovered` and
  `ReservedNameNotCovered` show why. No file name holds a NUL, which neither a file system nor tar allows.
- Temporary directory names and job identifiers are never used twice. `os.Rename` fails when the final directory
  exists.
- Paths are read as they are written, without symbolic links; relative ones start at the working directory.
- A run gets through, in `Resume`, when each of its requests is served without fault and its answer heard,
  save that an upload or an attach may be lost or fail transiently while the client has an attempt left;
  and when nothing else is served on the source meanwhile, and the target does not crash while it serves the
  run. Anything else may be served, well or badly, on the target. `Resume.SteadyIsFair` gives such an
  environment.
- The transfer is alone, in `Frame` and `Resume`, when nothing happens but that its own requests are served.

## Where the code differs from what is written about it

- `docs/user-guide/partition-transfer.md:28-31`, `:45` and `README.md:91-92` describe an order in which the
  source detaches before the target attaches, and days already on the target are skipped. The code attaches
  first and completes such days; the model follows the code.
- The comment at `pkg/transfer/targz.go:23-30` says the NUL keeps the boundaries of what is hashed
  unambiguous. It does once sizes and kinds are fixed (`PayloadInjective`), not in general
  (`LayoutNotCovered`); and folders are not hashed at all (`FoldersNotCovered`).
- A tree with a top-level file `.vlbackup-sha1` is archived but never accepted (`RoundTripIff`).
- A window whose `to` is given as the zero time, 0001-01-01T00:00:00Z, passes `ParseTimeRange`, and
  `DaysInRange` then takes it as today. From the zero time to itself, an empty window, every day before today
  is listed (`ZeroWindowListsAll`), and a transfer of it would move them all. That is the only explicit `to`
  past which days are listed (`ListedPastTo`).
- `DaysInRange` never rejects a window that `ParseTimeRange` let through, unless the clock is before the
  zero time (`RangeNotRejected`, `RangeComposes`).
- `finish` does not look whether its job still runs. It keeps the single-flight rule exactly when it names
  the running job, no job, or none runs (`FinishKeepsSingleFlight`); the bodies never call it otherwise.
- Under a data path with a segment `partitions` of its own, all days are backed up under one key
  (`DistinctKeysIff`).

## Model

| member | source | states |
|---|---|---|
| Archive.TarWriter.WalkDir | pkg/transfer/targz.go:45-85 | the walk writes one entry per directory and regular file, parents first and in name order, feeds each file's name, NUL and contents to the hash, and stops at the first other kind of file |
| Archive.StreamDir | pkg/transfer/targz.go:38-108 | a whole stream is the walk closed by one digest entry that carries the digest returned; a failed walk breaks the stream off |
| Archive.TarReader.Read | pkg/transfer/targz.go:130-178 | one turn of the read loop, including every error, what it leaves on disk, hash and count |
| Archive.ExtractDir | pkg/transfer/targz.go:117-188 | what extraction leaves on the disk and answers, for every stream, cut anywhere |
| Containment.FirstCheck | pkg/transfer/targz.go:146-149 | the textual test of a cleaned name rejects exactly absolute names and names that climb out |
| Containment.SecondCheck | pkg/transfer/targz.go:150-153 | the prefix test of the joined target fails only at the root and the working directory, for names other than "." |
| Containment.TargetIs | pkg/transfer/targz.go:146-153 | where an entry lands, by components: below any other destination, absolute or relative, the second check never rejects what the first let through |
| Containment.MkdirMeans | pkg/transfer/targz.go:154-161 | directories are made exactly when no file is in the way, and just those that lead there |
| Containment.PlaceMeans | pkg/transfer/targz.go:158-175 | a file is written exactly when only directories lead to it and it is none; it holds the entry's contents, and nothing else changes but the directories above it |
| Containment.ExtractIsConfined | pkg/transfer/targz.go:117-179 | for every stream, honest or not, nothing outside the destination is created, changed or removed |
| Paths.CleanLeadsThere | pkg/transfer/targz.go:124-146 | a cleaned path leads where the path led, from any working directory, and is in normal form |
| RoundTrip.WalkAscends | pkg/transfer/targz.go:45-85 | the entries of an archive ascend: a directory before what is in it, siblings in name order |
| RoundTrip.RoundTripRebuilds | pkg/transfer/targz.go:32-188 | extracting what was streamed rebuilds exactly the tree, empty directories included, with the writer's digest and the sum of the file sizes |
| Integrity.AcceptedMeans | pkg/transfer/targz.go:129-187 | every accepted stream, whoever wrote it, ended properly and its last digest entry is the hash of all that was extracted |
| Integrity.VerdictMeans | pkg/transfer/targz.go:129-187 | which verdict any stream gets: accepted with its digest and byte count, lacking a digest, or corrupt, each exactly when |
| Integrity.ReadStops | pkg/transfer/targz.go:130-178 | reading stops at an entry that lands outside, is of no supported kind or cannot be created, and the error says which |
| Integrity.ReadFits | pkg/transfer/targz.go:146-178 | a stream read to its end has no such entry |
| Integrity.MissingDigestRejected | pkg/transfer/targz.go:180-182 | a stream without a digest entry is rejected, so every truncation before it is |
| Integrity.PayloadInjective | pkg/transfer/targz.go:23-30 | once kinds and sizes are fixed, equal hashed payloads mean equal file names and contents |
| Integrity.LayoutNotCovered | pkg/transfer/targz.go:23-30 | without that they do not: two different layouts with one payload |
| Integrity.FoldersNotCovered | pkg/transfer/targz.go:65-68 | folders are not hashed: with the entry of an empty folder dropped or renamed, a stream is the one the writer would have sent of the other tree |
| Integrity.ReservedNameNotCovered | pkg/transfer/targz.go:137-145 | were a file's name altered to that of the digest entry, which the reader skips, other files could hide it |
| Integrity.AcceptedIsIntact | pkg/transfer/targz.go:110-188 | accepting a stream with the sender's sizes, folders and digest entry means every file name and content is the sender's |
| Integrity.RoundTripIff | pkg/transfer/targz.go:38-188 | a listing survives the round trip if and only if it holds regular files and directories only and no top-level file named like the digest entry |
| Delivery.DeliveredIsIntact | pkg/transfer/targz.go:110-188 | whatever happens in transit, an accepted archive is the one that was sent, whole |
| Delivery.UnpackIntact | pkg/openapi/receive.go:29-35 | an undamaged archive, unpacked into a fresh temporary directory, leaves exactly the sealed tree in it |
| Delivery.UnpackDelivered | pkg/openapi/receive.go:29-39 | a damaged one is rejected or leaves exactly the sealed tree, with its size reported |
| Delivery.FlatInjective | pkg/transfer/targz.go:154-175 | the directory that extraction leaves determines the tree: different trees leave different directories |
| Calendar.ZeroTime | pkg/transfer/days.go:9-12 | the zero time is midnight of 1 January of year 1, and the Unix epoch lies 719162 days of 24 hours later |
| Calendar.MonthStarts | pkg/transfer/days.go:9-12 | the day of the year each month starts on, with the Gregorian leap rule |
| Calendar.CivilOfDay | pkg/transfer/days.go:9-12 | every day number has a legal Gregorian date, whose number it is |
| Calendar.CivilInverse | pkg/transfer/days.go:9-12 | every legal date is the date of its number |
| Calendar.DayNumberOrders | pkg/transfer/days.go:29-34 | day numbers order dates as the calendar does |
| Calendar.NextDayIsTomorrow | pkg/transfer/days.go:34 | one day number on is the next calendar day, across month ends and leap years |
| Calendar.TruncateIsMidnight | pkg/transfer/days.go:9-12 | rebuilding an instant from its date alone gives the midnight at or before it |
| Calendar.TruncateMonotone | pkg/transfer/days.go:9-12 | truncation keeps the order of instants and changes nothing the second time |
| Calendar.AddDaysMoves | pkg/transfer/days.go:34 | stepping by date fields, with carries, moves an instant by whole days |
| Calendar.NameInjective | pkg/transfer/days.go:35 | no two dates, of any years, share a YYYYMMDD name |
| Calendar.NameValue | pkg/transfer/days.go:35 | for years 0 to 9999 a name is eight digits that read year, month and day |
| Calendar.NamesSortAsDays | pkg/transfer/days.go:35 | for years 0 to 9999 names have eight digits and sort as the days do |
| Range.DaysInRange | pkg/transfer/days.go:18-38 | the loop over truncated instants yields the days by number, and ends |
| Range.StepIsTomorrow | pkg/transfer/days.go:34 | each turn of the loop goes to the next calendar day |
| Range.SealedDaysExactly | pkg/transfer/days.go:14-38 | a day is listed, once, if and only if from ≤ day < min(to, today), and as many are listed as the day numbers differ by |
| Range.SealedDaysAscend | pkg/transfer/days.go:33-36 | listed names ascend |
| Range.ParseVerdict | pkg/openapi/transfer.go:18-36 | which error each request gets, and that the bounds handed on are those asked for |
| Range.RangeComposes | pkg/openapi/transfer.go:18-36 | in the bounds of the request: it is let through if and only if `from` is not after `to`, or `now`; DaysInRange then fails if and only if `to` is the zero time and today is before the day of `from`, and otherwise lists exactly the days from that of `from` up to but excluding the earlier of the day of `to` and today |
| Range.ListedAreWanted | pkg/openapi/transfer.go:48-57 | every request is refused as stated or has exactly the wanted days listed |
| Range.RangeNotRejected | pkg/transfer/days.go:26-28 | with a clock that is not before the zero time it never fails then |
| Range.ListedPastTo | pkg/transfer/days.go:21-25 | a day at or after that of an explicit `to` is listed if and only if `to` is the zero time and the day is before today |
| Range.ZeroWindowListsAll | pkg/transfer/days.go:21-25 | the window from the zero time to itself lists every day before today |
| Range.PhasesPartition | pkg/openapi/migrate.go:37-65 | with one `now`, today is never a sealed day; with `to` left out, each day from `from` to today is in exactly one phase |
| World.BodySignals | pkg/victoriametrics/client.go:57-65 | the loop finds a phrase exactly if one of them occurs in the body put in small letters |
| World.ReadBody | pkg/victoriametrics/client.go:44-49 | what is read of a body is the longest run of whole characters from its start that fits the limit |
| World.WidthIsUtf8 | pkg/victoriametrics/client.go:44-49 | the bytes counted are those of UTF-8, section 3 of RFC 3629 |
| World.SignalsIgnoreCase | pkg/victoriametrics/client.go:49-65 | upper and lower case make no difference: a body signals exactly what the same text in small letters holds, the Kelvin sign and the dotted capital I included |
| World.OtherLettersDoNotMatter | pkg/victoriametrics/client.go:57-65 | however the case of other letters is mapped, an ASCII phrase is found in the same bodies |
| Transfer.Cluster.DeleteSnapshots | pkg/openapi/transfer.go:125-127 | surplus snapshots are deleted one after the other, failures ignored |
| Preservation.StepHandlerKeeps | pkg/openapi/receive.go:15-51 | each step of each receive or restore handler, faulty or not, keeps the invariant of both nodes |
| Preservation.BodyUnpacks | pkg/openapi/receive.go:29-39 | what a handler of a sealed day extracts is the sealed tree, or is rejected |
| Preservation.DoKeeps | pkg/openapi/restore.go:18-90 | everything else that can happen keeps it too: serving any request, a crash of the target, a new request of another client |
| Receive.Target.ReceiveSnapshot | pkg/openapi/receive.go:15-51 | the handler as written, with its early returns and deferred removal, does what its separate steps do, for every combination of failing operations |
| Receive.HandledTurns | pkg/openapi/restore.go:50-90 | so does the restore handler, from the opened archive on |
| Receive.ReceiveAnswers | pkg/openapi/receive.go:15-51 | what an uninterrupted receive answers and leaves: 409 exactly if the directory is there, seen at the start or after the failed rename; 400 exactly if the archive is rejected; 200 exactly if it is now the directory |
| Receive.RestoreAnswers | pkg/openapi/restore.go:50-90 | the same of a restore: a rejected archive is a 500, and 202 exactly if the day is also attached |
| Preservation.TmpDirBeside | pkg/openapi/receive.go:20-33 | the temporary directory lies beside the final one under a name with a dot, no partition's and no other request's |
| Transfer.Cluster.CreateSnapshot | pkg/victoriametrics/client.go:93-113 | the request and how its answer is read |
| Transfer.Cluster.DeleteSnapshot | pkg/victoriametrics/client.go:115-133 | the same, with the answers taken as success |
| Transfer.Cluster.DetachPartition | pkg/victoriametrics/client.go:148-166 | the same |
| Transfer.Cluster.SendPartition | pkg/transfer/client.go:103-164 | the bounded retry loop with its classification of errors |
| Transfer.Cluster.AttachOnTarget | pkg/transfer/client.go:169-203 | the bounded retry loop of the attach |
| Verdicts.CreateVerdict | pkg/victoriametrics/client.go:93-113 | the paths of a 200 that decodes are returned, and anything else is a failure |
| Verdicts.DeleteVerdict | pkg/victoriametrics/client.go:115-133 | a delete is done if and only if the answer heard is a 200, a 204 or says one of four phrases in its first KiB, in any case |
| Verdicts.DetachVerdict | pkg/victoriametrics/client.go:148-166 | a detach, if and only if it is a 200 or says one of six |
| Verdicts.BareAnswers | pkg/victoriametrics/client.go:115-187 | an answer without a body is judged by its status alone: a bare 400, 403 or 404 is a failure |
| Verdicts.AttachAnswers | pkg/openapi/attach.go:13-27 | the attach endpoint answers 200 if and only if VictoriaLogs answered 200 or said one of two phrases, and 500 otherwise |
| Verdicts.SendVerdict | pkg/transfer/client.go:103-164 | the same request is made one to three times; all but the last, and the last only as the third, went unanswered or met a 5xx or a 400 that reports a checksum mismatch; the last alone decides the result |
| Verdicts.AttachVerdict | pkg/transfer/client.go:169-203 | the same of the attach, where only no answer and a 5xx are tried again |
| Verdicts.MismatchIsTriedAgain | pkg/transfer/client.go:154-163 | a receive handler's answer to an archive is one to try again if and only if the digest did not match |
| Verdicts.MoveDayStages | pkg/openapi/transfer.go:107-181 | the end of a day's move tells, and is told by, how far it got: whether anything was uploaded, placed, attached, detached; each is asked for only after the one before was granted |
| Verdicts.ReportedStage | pkg/openapi/transfer.go:94-181 | the stage a report names is that of the day it failed at |
| Verdicts.SkippedIff | pkg/openapi/transfer.go:115-124 | a day is skipped if and only if the answer to its snapshot request is an empty list |
| Transfer.Cluster.MoveOneDay | pkg/openapi/transfer.go:107-181 | the body of the loop over days, stage by stage |
| Transfer.Cluster.TransferSealedDays | pkg/openapi/transfer.go:89-184 | the whole run: world, report, how it ended, snapshots given and delete calls made |
| Safety.CreateMeans | pkg/victoriametrics/client.go:93-113 | paths that a call returns are new, all different and of the day asked for; none means the source does not hold the day |
| Safety.DeleteMeans | pkg/victoriametrics/client.go:115-133 | after a delete that reported success the snapshot is gone |
| Safety.DetachMeans | pkg/victoriametrics/client.go:148-166 | after a detach that reported success the source does not hold the day |
| Safety.AttachMeans | pkg/transfer/client.go:169-203 | after an attach that reported success, at whichever attempt, the target has the day attached |
| Safety.SendPlacesOnce | pkg/transfer/client.go:103-164 | when the sender is told of success or conflict, the target holds the sealed tree, placed exactly once or there from the start, however many attempts arrived |
| Safety.PlacedOnce | pkg/openapi/receive.go:23-48 | in every reachable world each visible directory was installed by exactly one rename, or was there from the start |
| Safety.MoveDayKeeps | pkg/openapi/transfer.go:107-181 | one day's move, however it ends, keeps the invariant; a transferred day is attached on the target and off the source, a skipped one is not on the source |
| Safety.RunKeeps | pkg/openapi/transfer.go:89-184 | so does a whole run |
| Safety.NoDataLoss | pkg/openapi/transfer.go:107-182 | in every history each sealed day is on the source, or attached on the target with the identical tree |
| Safety.VisibleIsVerified | pkg/openapi/receive.go:21-51 | in every history each visible directory was there from the start, or is the complete, digest-verified extraction of the stream that one rename installed, the body of a served receive or restore of that day |
| Safety.VisibleIsFinal | pkg/openapi/restore.go:24-77 | once visible it never changes or disappears, and nothing is installed over it |
| Safety.NoLeftovers | pkg/openapi/receive.go:33 | a handler that has answered, however it ended, has no temporary directory any more |
| Bookkeeping.SendAttempts | pkg/transfer/client.go:103-121 | one call sends at most three requests |
| Bookkeeping.SendPersists | pkg/transfer/client.go:126-164 | it gives up before the third only on an answer that is permanent: lost requests and replies, 5xx and checksum mismatches are tried again |
| Bookkeeping.AttachPersists | pkg/transfer/client.go:169-203 | the same for the attach, where any answer below 500 but a 200 is final |
| Bookkeeping.MoveDayBooks | pkg/openapi/transfer.go:107-181 | a day's move asks only about its day and its snapshots, deletes each of these once and in order, and detaches only after the one snapshot is known to be deleted |
| RunReport.ReportPartitions | pkg/openapi/transfer.go:94-184 | by position, the processed prefix of the days is split into transferred, skipped and at most one failed day, the last; without an error it is all of them |
| RunReport.NamedOnce | pkg/openapi/transfer.go:94-184 | for distinct days the three are disjoint |
| RunReport.ReportIsTrue | pkg/openapi/transfer.go:115-180 | at the end of a run every day it reports transferred is attached on the target and off the source, and no skipped day is on the source |
| RunReport.RunBalances | pkg/openapi/transfer.go:102-181 | a run is the exchange of exactly these requests: dropping stale snapshots and what concerns days it reached |
| RunReport.LedgerExact | pkg/openapi/transfer.go:109-177 | in a run that ends normally each snapshot it was given gets exactly one delete call, and one is left only where that call failed |
| Frame.UnreachedUntouched | pkg/openapi/transfer.go:102-181 | a day the run did not reach is on both nodes as it was, held, attached and its directory, unless somebody else is at work on that day |
| Frame.AloneSpares | pkg/openapi/transfer.go:102-181 | when the transfer is alone, nobody is |
| RunReport.DeletedThenDetached | pkg/openapi/transfer.go:160-175 | in every history each detach follows a successful delete of a snapshot of its day, and the target has the day attached |
| Fairness.FairCall | pkg/transfer/client.go:126-164 | whatever others do on the target meanwhile, a call in such an environment is answered as it deserves, or slips with the source unchanged and an attempt left |
| Resume.FairSend | pkg/transfer/client.go:103-121 | then some attempt of the upload succeeds or finds the day placed already |
| Resume.FairAttach | pkg/transfer/client.go:169-203 | then some attempt of the attach succeeds |
| Resume.FairMoveDay | pkg/openapi/transfer.go:107-181 | then a day that is on the source moves, with its snapshot deleted, and any other is skipped |
| Resume.ResumeConverges | pkg/openapi/transfer.go:115-182 | after any history one run that gets through ends with no error, every one of its days on the target only with the identical tree, and none of its snapshots left |
| Resume.SecondRunFindsNothing | pkg/openapi/transfer.go:115-127 | the next run skips every day and asks for nothing but snapshots; alone, it changes neither node's partitions |
| Resume.SteadyIsFair | pkg/openapi/transfer.go:89-184 | there is an environment that meets the assumption, with nobody else at work |
| Jobs.Job.Close | pkg/openapi/jobs.go:116-119 | state, finishing time and outcome of the job are set, nothing else |
| Jobs.JobStore.Start | pkg/openapi/jobs.go:46-61 | a new running job, or none while one is active |
| Jobs.JobStore.Status | pkg/openapi/jobs.go:65-85 | the job as it stands, with an error only if there is one |
| Jobs.JobStore.CompleteTransfer | pkg/openapi/jobs.go:89-92 | one finish call; the job has succeeded if the report has no errors and failed otherwise |
| Jobs.JobStore.CompleteMigrate | pkg/openapi/jobs.go:96-99 | the same for a migrate |
| Jobs.JobStore.Fail | pkg/openapi/jobs.go:104-106 | one finish call with the error |
| Jobs.JobStore.Finish | pkg/openapi/jobs.go:109-121 | the job named is closed and the slot freed, whatever state the job was in; an unknown name changes nothing |
| Jobs.RecordTells | pkg/openapi/jobs.go:46-129 | from start to finish call: the times noted, the outcome kept, succeeded if and only if there is a report without errors, and no other record touched |
| Jobs.RunTransferJob | pkg/openapi/transfer.go:75-83 | on a set-up error, at the normal end and after a panic the job is finished by exactly one call; only the death of the process prevents it |
| Interleaving.TransferBody | pkg/openapi/transfer.go:75-83 | turn by turn, the body makes the very finish call, or none, that it makes when run straight through |
| Interleaving.MigrateBody | pkg/openapi/migrate.go:86-119 | the same for a migrate, through its three clients and two phases |
| Interleaving.AdvanceCalls | pkg/openapi/jobs_handler.go:23-28 | at any stage, panics included, a body calls the store exactly on the turn on which it returns, with an outcome of its own kind |
| Interleaving.NextOrderly | pkg/openapi/jobs.go:46-121 | one event, a request, a query or a turn of a body, keeps single flight and every record consistent |
| Interleaving.AlwaysOrderly | pkg/openapi/jobs.go:46-129 | over all interleavings `active` holds exactly when one job runs, never do two, each job is finished once, by its own body, and records are consistent |
| Interleaving.JobsOrderly | pkg/openapi/jobs.go:46-121 | from the empty store on; and a finished job never changes again |
| Interleaving.StartStays | pkg/openapi/jobs.go:46-61 | over all interleavings no job is forgotten, and each keeps its kind and starting time |
| Jobs.FinishKeepsSingleFlight | pkg/openapi/jobs.go:109-121 | a finish call keeps single flight if and only if it names the running job, no known job, or none is active |
| Jobs.SecondFinishBreaksSingleFlight | pkg/openapi/jobs.go:109-121 | finishing a finished job while another runs lets two run |
| Migrate.CountingReader.Read | pkg/openapi/migrate.go:21-25 | what is passed on is counted, byte for byte |
| Migrate.Ingest | pkg/openapi/migrate.go:139-147 | the bytes reported are those the target took, a prefix of the export |
| Migrate.MigrateRecent | pkg/openapi/migrate.go:125-180 | the recent phase, stage by stage, with at most one error appended |
| Migrate.RecentMeans | pkg/openapi/migrate.go:125-173 | each of the four stages fails exactly when stated: no export; the target refused it or it broke off while being read; a count not read; verified exactly when none did and the target counts no fewer |
| Migrate.ConsumedPrefix | pkg/openapi/migrate.go:139-147 | what is counted is a prefix of the export, all of it if the target read on |
| Migrate.RunMigrateJob | pkg/openapi/migrate.go:86-119 | three set-up steps, two phases, and exactly one finish call on every path the process survives |
| Migrate.CombinedShaped | pkg/openapi/migrate.go:105-180 | the errors are at most one of a sealed day followed by at most one of the recent phase; with the latter nothing is verified |
| Migrate.BodiesFit | pkg/openapi/jobs_handler.go:23-28 | whatever run and recent phase come to, a surviving body ends its job with an outcome of its own kind |
| Migrate.OutcomesAre | pkg/openapi/migrate.go:86-119 | which call each body makes: the first set-up error, the panic, or what its phases reported, unaltered |
| Migrate.SucceededIff | pkg/openapi/jobs.go:87-129 | a body ends its job as succeeded if and only if it was set up, its run came to its end and no day failed, and, in a migrate, today was copied and counted on both sides |
| Migrate.SucceededMeansAll | pkg/openapi/jobs.go:87-99 | a job that succeeded named each of its days, and none of them is left on the source |
| Backup.PartitionFromSnapshotPath | pkg/openapi/snapshot.go:20-28 | the scan of the segments, with its fallback to the base name |
| Backup.LayoutNamesDay | pkg/openapi/snapshot.go:17-28 | a path of the standard layout names its day, unless the data path has a segment "partitions": then all days get one name |
| Backup.OtherLayoutNamesLast | pkg/openapi/snapshot.go:27 | a path of another layout is named by its last segment |
| Backup.KeyShape | pkg/openapi/snapshot.go:85 | a key is the cleaned prefix and then the partition's name with .tar.gz |
| Backup.KeyInjective | pkg/openapi/snapshot.go:85 | under any prefix, cleaned or not, distinct partitions have distinct keys |
| Backup.DistinctKeysIff | pkg/openapi/snapshot.go:20-28 | snapshots of distinct days go to distinct keys if and only if the data path has no segment "partitions" |
| Backup.AcceptedIff | pkg/openapi/snapshot.go:42-106 | the answer is 400 if and only if the window or the scheme is refused, 202 if and only if they are not, the store opens, and for every day wanted the snapshot, each upload and each delete succeed, and 500 otherwise |
| Backup.StoredThenDeleted | pkg/openapi/snapshot.go:84-99 | a snapshot is deleted only once its archive is stored: where the delete fails, the archive is there |
| Backup.Vault.TriggerSnapshot | pkg/openapi/snapshot.go:42-106 | the nested loops of uploads and deletes over the objects, with every early answer |
| Backup.LocalNode.RestoreSnapshot | pkg/openapi/restore.go:18-90 | a restore with nobody else at work, with every early answer |
| Backup.RestoreIsHandler | pkg/openapi/restore.go:50-90 | a restore of an archive that is under its key does to the node, and answers, what the restore handler of the two nodes does |
| Backup.RestoreIsCareful | pkg/openapi/restore.go:18-90 | a restore never touches a directory that is there, adds none but a verified extraction of the archive under the day's key, and answers 202 exactly when it added and attached it, 409, 400 and 404 exactly for a directory that is there, a bad name or scheme, and a missing archive |
| Backup.BackupWrites | pkg/openapi/snapshot.go:70-103 | after a 202 each covered day that was not empty has its archive under its own key |
| Backup.RestoreRebuilds | pkg/openapi/restore.go:43-90 | a restore of a day whose archive is under its key rebuilds the tree and attaches it |
| Backup.BackupThenRestore | pkg/openapi/restore.go:43-90 | a restore from where a backup was answered 202 finds the key it wrote and rebuilds the same tree |

## Left out

- HTTP routing, generated stubs, authentication and JSON: a reply is a status, a body, and whether it decodes.
- Gzip and tar framing and SHA-1 itself: a stream is a sequence of entries with an ending, the hash a parameter.
- File permissions and ownership, symbolic links below a destination, and disks that fail in the middle of an extraction: the last is a handler step that fails as a whole and leaves its temporary directory to be removed.
- A temporary directory that cannot be removed, and those left behind by a crash of the target: they stay hidden and are not looked at.
- The texts of errors other than a checksum mismatch: a rejected archive has one such text, though the program's own may quote the name of an entry.
- The object stores: a map from key to archive; a failed upload may leave anything under its key.
- The expressions of `pkg/timeexpr`: their value is an arbitrary instant or an error.
- Time zones and leap seconds: instants are counted on the UTC time line, from the zero time.
- The inside of VictoriaLogs: which snapshots are stale, what a query returns and how a detached directory behaves after a restart.
- Metrics, logs, timeouts and the delays between attempts; cancellation of the context, which the jobs do not inherit from their request.
- The handlers that start a job: their parts are `ParseTimeRange`, `DaysInRange` and `Start`.
- The loss of the job store when the process dies: a job then has no record at all.
- Transfer.Cluster.MoveOneDay: is the body of the loop of `transferSealedDays` as a method of its own, and `BreakOff` its two clean-up branches.
- Receive.Target.ReceiveSnapshot: starts once the partition name was accepted; a bad name is answered where the request is served.
- Backup.LocalNode.RestoreSnapshot: has nobody else at work; restores that interleave are handlers of `World`, which start once the archive was found, so a store that does not open and a missing archive are answered here only.
- Safety.NoDataLoss: says nothing of a day whose directory on the target is removed by hand.
