# Verified model of the guarded GPU capture scripts

This project models the scripts that rent a GPU instance, run a capture on it and bring the
evidence home, and proves what they are for: the instance is terminated before the money runs
out, no signal or crash loses it, and what is published is exactly what was sent and bound.

| file | what it models |
|---|---|
| `Wrappers.dfy` | an optional value |
| `DecimalArithmetic.dfy`, `DecimalText.dfy` | 28-digit half-even decimal arithmetic; decimal and integer arguments as text |
| `SpendBound.dfy`, `CostWindow.dfy` | seconds a spending cap buys; the deadline window, recomputed by the watchdog process |
| `TerminationCall.dfy`, `Watchdog.dfy` | one terminate-and-wait call; the watchdog's wait and retry loops |
| `GuardProtocol.dfy` | controller, watchdog, provider and receipt file as one step system |
| `SignalBoundary.dfy` | SIGINT and SIGTERM around arm, capture and terminate |
| `KeyScanner.dfy` | the chunked private-key scanner |
| `BoundedDownload.dfy` | the bounded download |
| `ProspectiveArchive.dfy` | the session-archive extractor with its owned-directory table |
| `CaptureArchive.dfy` | the one-pass capture-archive validator |
| `Finalizer.dfy` | the resumable finalizer |
| `Inventory.dfy`, `Handoff.dfy` | the bounded walk of a handoff directory and its acceptance |
| `Session.dfy` | session records: writer, verifier and their round trip |
| `JsonLines.dfy`, `Quantile.dfy` | the two-pass JSONL reader; the nearest-rank p95 |

Hash functions, canonical JSON, tar and gzip decoding, the Unicode fold, the base64 decoder,
bundle verification and the ISO 8601 clock text are parameters; where a lemma needs one to be
injective, or writing and reading to be inverse, that is a hypothesis of the lemma; for the session
records, `Session.SomeSessionIsReady` shows that such hypotheses can be met together. Failing
system calls, short reads and writes, provider answers and clock readings are arbitrary.

## Results about the code that differ from what one would expect

* `allowed_seconds` is one less than the exact floor of 3600·cap/rate for some inputs, such as
  a cap of 13 at a rate of 9 (5199 instead of 5200). `SpendBound.AllowedSecondsExactly` says exactly when:
  the quotient E is whole, E mod 9 is 3, 7 or 8, and E's leading digits are at least 3.6.
* The watchdog recomputes the controller's window if and only if its clock has not fallen behind
  the billing start (`CostWindow.SameWindowAcrossProcesses`); a slower clock moves the window.
* The key scanner agrees with the whole-content scan except that it also answers True once a block
  stays open over more than 1,048,576 bytes. `KeyScanner.StreamContainsKey` states this as an equivalence, and
  `KeyScanner.LimitShows` gives a stream without a key that it reports.
* Differently spelled implied directories with one folded identity are admitted by the
  capture-archive validator (`CaptureArchive.ImpliedDirectoriesMayCollide`); nothing else may collide.
* A finalization killed inside the writing of a record leaves a prefix that every later run rejects:
  the two records are not written under a temporary name. `Finalizer.WhereToBeKilled` gives the
  kill points after which a rerun completes.
* A finished finalization is accepted again if and only if its record is at most 65,536 bytes, a limit
  that is not checked when writing. A host name of about 64,000 characters, well within the provider's
  response limit, leaves a readable armed record and a record beyond the limit: the first run finishes and
  every rerun fails (`Finalizer.LongHostname`).
* A written session is accepted if and only if its receipt is at most 8,388,608 bytes, which is not checked
  when writing either, but always holds for bundle paths of at most 4,096 characters
  (`Session.WrittenSessionsAreAccepted`).
* SIGTERM's outer handler is missing at the exit of the boundary if and only if a SIGINT raises between the
  last two restores (`SignalBoundary.HandlersAtExit`; `SignalBoundary.HandlerCanBeMissing` gives a run).
* A signal that arrives after the capture's handlers are restored still makes the exit fail, but termination is not
  told of it (`SignalBoundary.WhatTerminationIsTold`, `SignalBoundary.LateSignalIsNotTold`).
* A published termination receipt is deleted when arming then fails: a watchdog that starts past its deadline
  may end the instance, publish and exit before it is seen ready (`GuardProtocol.ReceiptCanBeRemoved`).
  Otherwise, and always once a handle exists, the receipt stays.
* The download and the extractor may report failure with their result complete at the destination, when the
  look at it after publication fails.
* In the handoff, the closing comparison of path sets and suffixes and the distinctness of the contract hashes
  follow from the earlier checks (`Handoff.ClosingHolds`, `Handoff.DistinctHashesAreImplied`).

## Model

| member | source | states |
|---|---|---|
| DecimalArithmetic.RoundIsCorrect | scripts/lambda_gpu_guard.py:563-567 | The result of a decimal operation on a ratio of integers is its exact value or the nearest 28-digit decimal, ties to even, for every ratio |
| SpendBound.ExactSeconds | scripts/lambda_gpu_guard.py:563-567 | The number of whole seconds the cap buys, defined by bracketing 3600·cap/rate, independently of decimals |
| SpendBound.AllowedSecondsExactly | scripts/lambda_gpu_guard.py:430-459 | For every rate and cap the parsers accept, two roundings and a floor give the exact number of seconds, or one less precisely when `RoundsBelow` holds |
| SpendBound.AllowedWithinCap | scripts/lambda_gpu_guard.py:563-567 | rate × allowed never exceeds the cap, two more seconds would exceed it, and at least one second is allowed exactly when the cap buys one |
| DecimalText.ReadOfWrite | scripts/lambda_gpu_guard.py:1223-1224 | A printed positive amount matches the argument pattern and is read back as the same coefficient and exponent |
| DecimalText.WriteOfRead | scripts/lambda_gpu_guard.py:430-447 | An accepted positive amount is printed exactly as it was typed |
| DecimalText.IntegerRoundTrip | scripts/lambda_gpu_guard.py:477-491 | A printed integer is read back as itself exactly when it lies within the bounds |
| CostWindow.WindowIsSafe | scripts/lambda_gpu_guard.py:539-586 | A window exists exactly when margin, clock and cap allow it, and otherwise the error says which did not; it allows the exact seconds, less one precisely when `RoundsBelow`; the deadline lies the whole margin asked for before the cost limit, or at the start if the margin is not smaller than the allowance; the cap covers the allowed seconds |
| CostWindow.BillWithinCap | scripts/lambda_gpu_guard.py:563-578 | An instance stopped at any instant up to the cost limit has cost no more than the cap |
| CostWindow.OneSecondIsLost | scripts/lambda_gpu_guard.py:563-567 | A concrete cap and rate for which rounding loses a whole second |
| CostWindow.SeenByWatchdog | scripts/lambda_gpu_guard.py:662-688 | The window the watchdog computes from its command line, for every later clock reading |
| CostWindow.SameWindowAcrossProcesses | scripts/lambda_gpu_guard.py:1341-1360 | The watchdog's window and public record equal the controller's if and only if its clock is at or past the billing start, and it refuses if and only if that start is beyond the allowed skew |
| CostWindow.WatchdogEvidence | scripts/capture_real_gpu_over_ssh.py:4117-4188 | For a session armed under the tier policy, a receipt written by the watchdog passes the evidence comparison if and only if its clock had not fallen behind the billing start |
| CostWindow.RecordQuotesOperator | scripts/lambda_gpu_guard.py:88-109 | The public record shows rate and cap exactly as the operator typed them |
| CostWindow.LargestAmounts | scripts/lambda_gpu_guard.py:430-459 | The largest cap and rate that are read, 100,000 and 10,000 |
| TerminationCall.CallDiscipline | scripts/lambda_gpu_guard.py:275-314 | On every trace: at most one POST, and a return exactly when a listing showed the instance terminal or absent, reporting that status and whether the POST was acknowledged |
| TerminationCall.WhatFailsACall | scripts/lambda_gpu_guard.py:275-314 | A failed listing or the passed deadline ends the call at once, a failed request after one more listing, and nothing else makes it fail |
| TerminationCall.FinalSights | scripts/lambda_gpu_guard.py:40-43 | Only a terminated, a preempted and an absent instance count as gone |
| TerminationCall.World.TerminateAndWait | scripts/lambda_gpu_guard.py:275-314 | The call's events are a trace of that discipline ending in its outcome; it fails only for a failed listing, a failed request, or because the whole timeout has passed; listings beyond the first two are paced and bounded by the timeout |
| TerminationCall.World.PollUntilDecided | scripts/lambda_gpu_guard.py:289-314 | The polling loop decides within the timeout, keeping the held-back request error, and gives up no sooner than the timeout unless a listing or the request failed |
| Watchdog.WaitForDeadline | scripts/lambda_gpu_guard.py:892-906 | For any wall clock the wait ends when the wall passes the deadline or the monotonic budget fixed at entry is spent, no later than that budget plus five times the largest lag of its clock readings and sleeps; successive wall readings lie at most 30 s and three lags apart |
| Watchdog.TerminateUntilConfirmed | scripts/lambda_gpu_guard.py:907-931 | The first call begins one clock reading after entry; between calls lies a sleep of the pace, at least 2 s, and its lags; a result comes from a call that confirmed termination; giving up means every call failed for the whole retry window |
| Watchdog.Watch | scripts/lambda_gpu_guard.py:858-931 | Wait, then retry: the first listing is asked for when the deadline has come on one of the clocks, at the latest after the time remaining at entry plus six lags; a result is a confirmed final status seen in the last listing; if those lags and the provider's latency fit the safety margin, the session costs no more than the cap |
| GuardProtocol.InvStep | scripts/lambda_gpu_guard.py:589-855 | Every step of controller, watchdog, provider or file system, the removal of the state directory included, keeps the protocol invariant |
| GuardProtocol.RunKeepsInv | scripts/lambda_gpu_guard.py:589-855 | So does every run |
| GuardProtocol.GuardSafety | scripts/lambda_gpu_guard.py:742-855 | On every interleaving with crashes: a watchdog is signalled after arming only once the instance is final, never while termination is unresolved; success and a published receipt imply a final instance; a watchdog that finished has its receipt there, unless a failed arming, which returned no handle, removed it |
| GuardProtocol.UnresolvedMeansUnseen | scripts/lambda_gpu_guard.py:784-855 | On every run, termination is retained as unresolved only if the controller never saw the instance gone, and the marker is there exactly if it was written; once it saw that, it is on its way to stopping the watchdog and to its result, whatever its writes do, unless it crashes |
| GuardProtocol.Disarms | scripts/lambda_gpu_guard.py:784-818 | From every state after that sighting, whether the writes succeed or all fail, at most thirteen steps by way of the look at the watchdog process lead to a stopped watchdog and the same result |
| GuardProtocol.CompleteMeansUnflawed | scripts/lambda_gpu_guard.py:784-818 | On every run, the result comes without a finalization error if and only if no write of the controller reported an error and no attempt to stop the watchdog failed while it lived |
| GuardProtocol.HandleMeans | scripts/lambda_gpu_guard.py:589-781 | On every run, a handle means a watchdog that had announced itself and was seen alive, and an armed record; after a failed arming the watchdog lives only if a call to stop it failed; temporary files remain only of writers cut off |
| GuardProtocol.ReceiptsRecordSightings | scripts/lambda_gpu_guard.py:1187-1220 | The published receipt names this instance and a final status that its writer was shown; so does the result of a finished controller or watchdog |
| GuardProtocol.WriterStepTrue | scripts/lambda_gpu_guard.py:1041-1077 | One step of the exclusive writer publishes only complete content, under its own name, and never touches a published receipt or the other writer's files |
| GuardProtocol.ReceiptIsWriteOnce | scripts/lambda_gpu_guard.py:1187-1220 | On every continuation of every run a published receipt stays the same inode with the same content if and only if no failed arming removes it; after a removal none appears again; with a handle it always stays |
| GuardProtocol.ReceiptCanBeRemoved | scripts/lambda_gpu_guard.py:742-765 | A run in which the watchdog publishes and a failed arming then removes the receipt |
| GuardProtocol.HelpfulStep | scripts/lambda_gpu_guard.py:858-931 | While the watchdog is on duty some step of its own is possible and brings it closer to a published receipt |
| GuardProtocol.Rescue | scripts/lambda_gpu_guard.py:858-931 | From every reachable state with a watchdog on duty, whatever the controller did, at most fifteen steps lead to a final instance and an acceptable receipt |
| GuardProtocol.Arms | scripts/lambda_gpu_guard.py:589-781 | Arming can end with a handle and a watchdog on duty |
| GuardProtocol.ObeyedStep | scripts/lambda_gpu_guard.py:784-818 | While nothing the controller did has failed, its next step is possible and brings it closer to its end |
| GuardProtocol.Release | scripts/lambda_gpu_guard.py:784-818 | From every reachable state with a handle and no failure so far, whatever the watchdog does, at most twenty steps lead to a final instance, an acceptable receipt and a stopped watchdog |
| SignalBoundary.InvStep | scripts/capture_real_gpu_over_ssh.py:4683-4764 | Every step and every delivered signal keeps the handler and control-flow invariant |
| SignalBoundary.WhereSignalsRaise | scripts/capture_real_gpu_over_ssh.py:4683-4764 | The only steps at which a capture or outer handler can still raise |
| SignalBoundary.RunKeepsInv | scripts/capture_real_gpu_over_ssh.py:4594-4662 | Every schedule of signals keeps the invariant |
| SignalBoundary.SignalSafety | scripts/capture_real_gpu_over_ssh.py:4594-4662 | On every schedule termination is entered at most once, exactly once by the exit if arming returned a handle, and told truthfully of failure; a normal exit means no signal was delivered inside and termination was confirmed |
| SignalBoundary.HowItEnds | scripts/capture_real_gpu_over_ssh.py:4594-4662 | Over the events of every run: the exit is normal if and only if arming did not raise, the capture and the termination did not fail and no signal came inside; then the capture succeeded; termination is confirmed exactly by a confirming ending, or by one whose finalization failed after a failed capture |
| SignalBoundary.Endings | scripts/capture_real_gpu_over_ssh.py:4532-4591 | Each of the four endings of the termination call: failing or not and confirmed or not, as termination was told of a failed capture or not |
| SignalBoundary.WhatTerminationIsTold | scripts/capture_real_gpu_over_ssh.py:4594-4662 | Termination is told of a failure if and only if the capture failed or a signal came no later than the restoring of the capture's handlers |
| SignalBoundary.LateSignalIsNotTold | scripts/capture_real_gpu_over_ssh.py:4651-4662 | A run in which a later signal is not told to termination |
| SignalBoundary.SignalsOnlyNoted | scripts/capture_real_gpu_over_ssh.py:4532-4591 | While arming, assigning or terminating, a signal never raises and is always noted |
| SignalBoundary.HandlersAtExit | scripts/capture_real_gpu_over_ssh.py:4724-4751 | At the exit SIGINT's outer handler is back; SIGTERM's is missing if and only if some SIGINT was delivered between the last two restores while the outer handler had not raised |
| SignalBoundary.HandlerCanBeMissing | scripts/capture_real_gpu_over_ssh.py:4724-4740 | A run at whose exit SIGTERM's outer handler is missing |
| SignalBoundary.StepsMoveOn | scripts/capture_real_gpu_over_ssh.py:4594-4662 | Every step of the program leads to a later one |
| SignalBoundary.Exits | scripts/capture_real_gpu_over_ssh.py:4594-4662 | From every reachable point at most twenty steps leave the boundary once signals cease; undisturbed, with a capture, one confirmed termination and the outer handlers back |
| KeyScanner.NoNesting | scripts/capture_real_gpu_over_ssh.py:100-109 | No header lies inside another that starts earlier |
| KeyScanner.SpelledMarkers | scripts/capture_real_gpu_over_ssh.py:100-109 | The five headers and footers, spelled out |
| KeyScanner.StrippedIsCompact | scripts/capture_real_gpu_over_ssh.py:898-899 | Whitespace removal keeps exactly the bytes other than the six whitespace bytes, in order |
| KeyScanner.NoHeaderStep | scripts/capture_real_gpu_over_ssh.py:922-930 | Keeping only the last 36 bytes loses no header and no open block, whatever follows |
| KeyScanner.OpenBlockStep | scripts/capture_real_gpu_over_ssh.py:931-938 | Dropping what precedes an open block changes no answer, whatever follows |
| KeyScanner.ClosedBlockStep | scripts/capture_real_gpu_over_ssh.py:931-944 | A block closed within the buffer is the first block of the whole content |
| KeyScanner.StreamContainsKey | scripts/capture_real_gpu_over_ssh.py:911-945 | For every chunking: True if and only if the whole-content scan says so or, after some chunk, the block still open exceeds the limit; hence equal to that scan up to 1,048,576 bytes; the buffer stays within the limit plus one chunk |
| KeyScanner.KeyIsReported | scripts/capture_real_gpu_over_ssh.py:898-945 | For each of the five labels and every chunking: a block between marker-free bytes, whose payload without whitespace has 40 to 1,048,576 bytes and decodes to at least 32 bytes starting 0x30 (for OPENSSH, starting with the `openssh-key-v1` magic), is reported |
| KeyScanner.OtherBlockIsNotReported | scripts/capture_real_gpu_over_ssh.py:898-945 | A single block of other contents, within the limit, is not |
| KeyScanner.LimitShows | scripts/capture_real_gpu_over_ssh.py:933-938 | A stream without a key whose open block exceeds the limit |
| BoundedDownload.Download | scripts/capture_real_gpu_over_ssh.py:2368-2525 | Success publishes exactly the stdout stream, counted and hashed; a failure before publication leaves the destination alone, one after it leaves the complete file and needs a failing system call; without one, failure means nothing deliverable was sent or the destination was in use |
| BoundedDownload.Drain | scripts/capture_real_gpu_over_ssh.py:2436-2464 | For every interleaving and every short write, written = counted = hashed ≤ maximum |
| BoundedDownload.DrainedOnce | scripts/capture_real_gpu_over_ssh.py:2439-2464 | The events alone fix where the loop ends |
| ProspectiveArchive.JoinedOfSplit | scripts/capture_real_gpu_over_ssh.py:2085-2108 | A member name is determined by its path components |
| ProspectiveArchive.TreeIsTheArchive | scripts/capture_real_gpu_over_ssh.py:2113-2135 | An accepted archive denotes a tree under one root: disjoint files and directories, every file with its member's bytes, every parent a directory, nothing else |
| ProspectiveArchive.AcceptedNames | scripts/capture_real_gpu_over_ssh.py:2085-2108 | No component in the tree of an accepted archive is empty, `.` or `..`, holds a slash, backslash or control character, or exceeds 255 UTF-8 bytes; no path has more than 32 components |
| ProspectiveArchive.BadNamesAreRefused | scripts/capture_real_gpu_over_ssh.py:2085-2108 | One listing for each kind of bad name, refused |
| ProspectiveArchive.LongComponentIsRefused | scripts/capture_real_gpu_over_ssh.py:2100-2104 | A component of 256 bytes is refused |
| ProspectiveArchive.Utf8OfOne | scripts/capture_real_gpu_over_ssh.py:2101 | The UTF-8 lengths of single characters |
| ProspectiveArchive.DeepNameIsRefused | scripts/capture_real_gpu_over_ssh.py:2094-2098 | A path of 33 components is refused |
| ProspectiveArchive.NestedIsAccepted | scripts/capture_real_gpu_over_ssh.py:2113-2135 | A nested listing is accepted, and its tree |
| ProspectiveArchive.AcceptedSizes | scripts/capture_real_gpu_over_ssh.py:2072-2135 | An accepted archive has one root, files and directories only, and keeps to the limits on members, expanded bytes and implied directories |
| ProspectiveArchive.RequiredIsClosed | scripts/capture_real_gpu_over_ssh.py:2124-2128 | Every ancestor of a required directory is required |
| ProspectiveArchive.Screen | scripts/capture_real_gpu_over_ssh.py:2072-2135 | The validation loops accept exactly the acceptable member lists and return the required directories |
| ProspectiveArchive.OpenOwned | scripts/capture_real_gpu_over_ssh.py:1945-1984 | Creates exactly the directories of the chain that the table lacks, and the table keeps naming each directory's inode |
| ProspectiveArchive.OnlyItselfMissing | scripts/capture_real_gpu_over_ssh.py:2159-2170 | Shallowest first, each directory finds all its ancestors made and is itself the only one missing |
| ProspectiveArchive.MakeShallowest | scripts/capture_real_gpu_over_ssh.py:2164-2170 | One round of the directory pass makes exactly one directory |
| ProspectiveArchive.MakeDirectories | scripts/capture_real_gpu_over_ssh.py:2158-2170 | The directory pass makes each required directory once, and fails only with a failing system call |
| ProspectiveArchive.WriteMember | scripts/capture_real_gpu_over_ssh.py:1987-2049 | The file gets exactly the member's bytes despite short reads and writes, no directory is made, and a wrong declared size fails |
| ProspectiveArchive.WriteFiles | scripts/capture_real_gpu_over_ssh.py:2171-2179 | The file pass completes the archive's tree without making a directory |
| ProspectiveArchive.Extract | scripts/capture_real_gpu_over_ssh.py:2052-2207 | Publishes the archive's tree or nothing; a failure after publication leaves the whole tree and needs a failing system call; without one, it fails only for a used destination or an archive that is not extractable |
| CaptureArchive.SoundMeans | scripts/real_gpu_capture.py:1229-1242 | The map checks, member after member, mean pairwise: distinct identities, nothing listed after what it contains, no file above another member |
| CaptureArchive.FirstIsRoot | scripts/real_gpu_capture.py:1208-1262 | The first member of an admitted archive is `capture`, for any fold |
| CaptureArchive.FilesCollideWithNothing | scripts/real_gpu_capture.py:1229-1242 | A file shares its identity with no other listed or implied place |
| CaptureArchive.OnlyImpliedDirectoriesCollide | scripts/real_gpu_capture.py:1229-1242 | Two places with one identity are directories, at least one of them unlisted |
| CaptureArchive.ImpliedDirectoriesMayCollide | scripts/real_gpu_capture.py:1229-1239 | Three members, with a fold that joins two letters, are such a collision and are admitted |
| CaptureArchive.IdentitiesAreCounted | scripts/real_gpu_capture.py:1236-1252 | File and directory identities are disjoint, and files are counted once each |
| CaptureArchive.PartsOfCanonical | scripts/real_gpu_capture.py:1210-1211 | A canonical path is read back as the same components |
| CaptureArchive.Add | scripts/real_gpu_capture.py:1229-1252 | One member is recorded exactly when it fits, and no earlier entry of the map changes |
| CaptureArchive.Admit | scripts/real_gpu_capture.py:1198-1262 | The loop admits exactly the admissible listings; the map then holds every identity, and `directory_count` is the number of distinct directory identities |
| CaptureArchive.AdmittedMembers | scripts/real_gpu_capture.py:1209-1227 | Every admitted member is a file or directory below `capture` by a relative path without empty, `.` or `..` components, of non-negative size, readable by its owner and as a directory searchable, with no mode bits beyond the permissions |
| CaptureArchive.BadMembersAreRefused | scripts/real_gpu_capture.py:1209-1227 | One listing for each kind of bad name, type, mode and size, refused for every fold |
| CaptureArchive.AdmittedSizes | scripts/real_gpu_capture.py:1198-1262 | An admitted listing keeps to the limits on members, files, directories and bytes |
| Finalizer.CaptureDirectory.Finalize | scripts/capture_real_gpu_over_ssh.py:4308-4480 | The step-by-step publication, killed after any number of steps, ends as `Run` says |
| Finalizer.WriteExclusive | scripts/capture_real_gpu_over_ssh.py:3966-3985 | An interrupted exclusive write leaves a prefix of the content |
| Finalizer.NothingIsRewritten | scripts/capture_real_gpu_over_ssh.py:4374-4480 | No run, however it ends, changes what an earlier one published |
| Finalizer.WhatIsLeft | scripts/capture_real_gpu_over_ssh.py:4374-4480 | After any series of runs: the archive's tree, a prefix of the receipt, and only behind a whole receipt a prefix of a record of the same core |
| Finalizer.UndisturbedRun | scripts/capture_real_gpu_over_ssh.py:4308-4480 | With sound inputs a run from nothing publishes the archive's tree, the receipt and the record |
| Finalizer.DoneMeans | scripts/capture_real_gpu_over_ssh.py:4308-4480 | A completed run had the pinned facts and a verified archive that agrees with the retrieval record; the tree verifies to the same facts, the receipt is this one, and a retained record is readable and of this very core |
| Finalizer.RejectedMeans | scripts/capture_real_gpu_over_ssh.py:4308-4480 | A rejection has one of those causes |
| Finalizer.Resume | scripts/capture_real_gpu_over_ssh.py:4374-4480 | After any series of runs a further run completes if and only if no record was cut short, reaching an uninterrupted run's directory up to `verified_at`; otherwise it rejects and changes nothing |
| Finalizer.WhereToBeKilled | scripts/capture_real_gpu_over_ssh.py:3966-3985 | The kill points after which a run can be resumed |
| Finalizer.Idempotent | scripts/capture_real_gpu_over_ssh.py:4460-4478 | A finished directory stays as it is with its old `verified_at`, and is accepted if and only if its record fits the reader's limit |
| Finalizer.LongHostname | scripts/capture_real_gpu_over_ssh.py:4249-4294 | A range of host-name lengths for which the armed record can be read, the first run finishes and every rerun rejects the semantic record |
| Finalizer.OtherReceiptsAreRefused | scripts/capture_real_gpu_over_ssh.py:3988-4002 | With a receipt retained, other receipt bytes are rejected and no file changes |
| Inventory.CollectBounded | src/inferdrome/limits.py:11-26 | Collects all values or refuses after reading one beyond the limit |
| Inventory.Complete | scripts/prospective_handoff.py:1053-1121 | When the work list is empty, everything below the root is recorded |
| Inventory.LimitsOfParts | scripts/prospective_handoff.py:1090-1115 | A part of a tree within the limits is within the limits, the byte total included |
| Inventory.TooManyEntries | scripts/prospective_handoff.py:1057-1073 | A directory with more entries than remain to be counted condemns the whole tree |
| Inventory.Scan | scripts/prospective_handoff.py:1078-1120 | One directory's entries are recorded and queued, or no tree within the limits exists |
| Inventory.Walk | scripts/prospective_handoff.py:1038-1121 | On any disk, however large, the walk ends having read at most 17 entries; it returns exactly the root and all its descendants if and only if they fit the limits |
| Inventory.AcceptedTrees | scripts/prospective_handoff.py:1078-1121 | What the limits admit: at most 12 files with one link each, four directories two levels deep, and 91,227,136 bytes |
| Inventory.SmallTreesAreAccepted | scripts/prospective_handoff.py:1078-1121 | Every such tree is within the limits |
| Handoff.ArtifactsByPrefix | scripts/prospective_handoff.py:1447-1453 | The prefixes pick out exactly the contracts, confirmations and sources |
| Handoff.ClosingHolds | scripts/prospective_handoff.py:1447-1469 | The closing comparison of path sets, count and file suffixes always holds |
| Handoff.Snapshot | scripts/prospective_handoff.py:1138-1490 | Accepts exactly the snapshots `Accepts` describes, read between two equal walks and below the allowed directories, with the closing comparison in place and unreachable |
| Handoff.AcceptedAgreement | scripts/prospective_handoff.py:837-976 | In an accepted snapshot every confirmation agrees, to this contract, no earlier than its creation and no later than its freezing; the source carries the digest of the workload; the marker is spelled out |
| Handoff.AcceptedFiles | scripts/prospective_handoff.py:1167-1205 | An accepted snapshot has twelve files, those its three cases name, each within its limit |
| Handoff.AcceptedSpellings | scripts/prospective_handoff.py:1255-1418 | How the pins, digests, fingerprints and identifiers of an accepted snapshot are spelled; contract and version are those of the case |
| Handoff.SomeHandoffIsAccepted | scripts/prospective_handoff.py:1138-1490 | A concrete snapshot that is accepted |
| Handoff.CheckCases | scripts/prospective_handoff.py:1303-1429 | Every case fits and the hashes, links and confirmations are distinct, or the loop rejects |
| Handoff.LinkDeterminesCase | scripts/prospective_handoff.py:1373-1418 | With injective hash and canonical form, two accepted cases with the same producer link, in one snapshot or two, are the same case with the same contract bytes, fingerprint, confirmation and workload bytes |
| Handoff.ContractsNameTheirCase | scripts/prospective_handoff.py:850-856 | The bytes of a contract are never accepted under two cases |
| Handoff.ConfirmationsNameTheirCase | scripts/prospective_handoff.py:957-966 | Nor are those of a confirmation |
| Handoff.SourcesNameTheirCase | scripts/prospective_handoff.py:1410-1418 | Nor, with injective hash and canonical form, those of a source |
| Handoff.PinDeterminesContents | scripts/prospective_handoff.py:1287-1301 | With an injective hash the operator's manifest pin alone determines all twelve files and the workload pin |
| Handoff.DistinctHashesAreImplied | scripts/prospective_handoff.py:1419-1422 | With injective hash and canonical form, fitting cases have distinct hashes and links without the check |
| Session.EqualToText | scripts/prospective_real_gpu_capture.py:1021-1047 | Comparing a JSON value with a text by Python's equality, where True equals 1, is still exact |
| Session.RoundTrip | scripts/prospective_real_gpu_capture.py:644-737 | For any three established cases whose four records are read back as written, the verifier accepts what the writer wrote if and only if the receipt fits the read limit |
| Session.AcceptedCase | scripts/prospective_real_gpu_capture.py:905-1052 | Each case of an accepted session carries the operator's digest, and every member is what the bundle's eligible report and the original specification say |
| Session.AcceptedRecordsAgree | scripts/prospective_real_gpu_capture.py:905-1052 | The four accepted records agree on host, cases, commit and links, and quote the operator's digests |
| Session.AcceptedSpellings | scripts/prospective_real_gpu_capture.py:836-905 | The members of every accepted case, their digests and run id, the host digest and the commit are spelled as such, and the operator's digests differ |
| Session.AcceptedStatuses | scripts/prospective_real_gpu_capture.py:1021-1052 | No accepted session claims a verdict or a performed publication |
| Session.WrittenSessionsAreAccepted | scripts/prospective_real_gpu_capture.py:644-737 | For bundle paths of at most 4,096 characters what the writer finished is accepted, the length of the indented receipt being bounded from its members |
| Session.ReceiptIdentifiesSession | scripts/prospective_real_gpu_capture.py:1021-1052 | With an injective digest, accepted sessions with the same receipt have the same records and contract digests |
| Session.SessionDirectory.Write | scripts/prospective_real_gpu_capture.py:644-737 | Writes the four linked records in order over no existing file, or fails and leaves the finished ones whole and of the one being written a prefix |
| Session.ExpectedFrom | scripts/prospective_real_gpu_capture.py:740-757 | Accepts exactly the argument lists that name each case once with pairwise distinct digests |
| Session.IndexCases | scripts/prospective_real_gpu_capture.py:836-850 | The case index is filled exactly when the cases are objects in canonical order |
| Session.CheckCapture | scripts/prospective_real_gpu_capture.py:825-977 | The capture manifest's loops accept exactly the fitting manifests |
| JsonLines.SplitRejoins | scripts/review_gpu_evidence_publication.py:224-257 | Line texts and terminators rejoin to the original bytes |
| JsonLines.SplitIsUnique | scripts/review_gpu_evidence_publication.py:224-257 | There is only one split into lines |
| JsonLines.PrefixOfSplit | scripts/review_gpu_evidence_publication.py:229-245 | Lines read from the front are the front of every split |
| JsonLines.NextLine | scripts/review_gpu_evidence_publication.py:232-234 | Both passes cut a line with its terminator at the first line feed |
| JsonLines.CountLines | scripts/review_gpu_evidence_publication.py:229-245 | The counting pass bounds every line of the split or stops at one that is too long, empty or too many |
| JsonLines.ReadingBounds | scripts/review_gpu_evidence_publication.py:229-241 | A reading has 1 to 1,000,000 records, of lines of 1 to 8,388,608 bytes |
| JsonLines.StrictObjects | scripts/review_gpu_evidence_publication.py:224-257 | The parsing pass visits exactly the counted lines in order; nothing is parsed unless all are bounded; it fails only if no reading exists |
| Quantile.CountAtRank | scripts/review_gpu_evidence_publication.py:788-789 | At a rank in ascending order that many samples are at most, and fewer are below, the element |
| Quantile.SortedRankIsP95 | scripts/review_gpu_evidence_publication.py:788-789 | The rank lies in 1..n and picks a sample with at least 95 % at most and fewer than 95 % below it |
| Quantile.P95IsUnique | scripts/review_gpu_evidence_publication.py:788-789 | That property determines the value |
| Quantile.RecordOrderIsIrrelevant | scripts/review_gpu_evidence_publication.py:766-790 | Reordering the records does not change the percentile |
| Quantile.IndependentTtft | scripts/review_gpu_evidence_publication.py:766-790 | A summary exactly for well-formed records with a success; its counts agree and its p95 is the nearest-rank percentile |
| Quantile.BadRowsAreRefused | scripts/review_gpu_evidence_publication.py:766-787 | Which rows are well formed: a success needs the pinned definition and a non-negative integer time, another outcome does not count |

## Left out

- HTTP, SSH, SCP, subprocess launching, fsync, file modes, link counts and file times: only their contracts appear (arbitrary answers, failures, chunks; atomic publication that refuses an existing name).
- Interference by other processes: inode identities are compared as in the code, but nothing else changes the staging trees, so those comparisons never fail here.
- The macOS sleep inhibitor, the arming branch for an exhausted deadline, and the command's environment.
- `datetime` overflow and offsets: instants are integers in microseconds; the ISO 8601 text of an instant is an inverse pair by hypothesis.
- Negative amounts and non-integer margins: the parsers exclude them before the window is computed.
- Watchdog.Watch: does not write the receipt, because GuardProtocol models that step by step.
- Watchdog.WaitForDeadline: lags are part of the bound, because the code cannot limit how long a reading or a sleep takes.
- GuardProtocol.GuardSafety: does not time anything; waits and timeouts are in Watchdog and TerminationCall, and a listing shows the instance as it is at that moment.
- SignalBoundary.SignalSafety: models `guard_signals=True` only; the temporary directory inside the capture scope is part of the capture step.
- The clean-up and finalization that follow the boundary in the capture commands.
- KeyScanner: base64 decoding is a parameter.
- ProspectiveArchive.Extract: tar and gzip decoding are a parameter; directories of one depth may be made in any order, where the code sorts them by name; characters that UTF-8 cannot encode, which the code rejects, do not occur in the model's strings.
- CaptureArchive.Admit: the extraction by the tar library, the restoring of modes and the digest-bound snapshot that precede and follow the loop are not part of this model.
- Finalizer: the temporary extraction directory that a killed run may leave behind, and the order of the checks before the first publication, which all reject without writing.
- Inventory.Walk: entries of one directory are taken in any order, where the code sorts them.
- Handoff: the pinned methodology, criterion, owner and text checks and the YAML rules are parameters; the archive of a snapshot and its extraction are not part of this model.
- Session: case execution, resolution and staging; bundle verification is a parameter; a record's members are the model's fields, so that an unexpected member is a failure to read.
- Quantile: row contents other than outcome, time to first token and its definition.
- Pinned-constant evidence checks, release preflight, generators, image tools, cloud command wrappers and the dashboard: tables or thin wrappers.
