# Boomarr, verified

Boomarr mirrors selected files of media libraries as symbolic links in output
directories. This project models the parts of it that must not go wrong and
proves what they promise:

- **the reconciling scan**: finding files, the probe cache, the links an output
  should hold, making and removing links in a file tree, several libraries in
  one tree, dry runs, the clean command, and the check that keeps configured
  directories apart;
- **the stores** behind the probe cache and the scan history, in memory and in a
  database;
- **the daemon**: its queue, its single worker, cancelling and shutting down,
  configuration changes while a scan runs, and the cached statistics;
- **documents**: restoring values overridden by the environment before the
  configuration is written, and masking secrets;
- **the login throttle**.

`dafny verify dfyconfig.toml` checks everything.

## How the model is laid out

| modules | content |
|---|---|
| `Paths`, `Trees`, `Liveness` | paths and link texts, file trees, following links as the kernel does, and which links are live |
| `Reconcile`, `Interference` | what a fault-free reconciliation makes of a tree, and the theorems about it |
| `Replacements` | replacing links by way of temporary names, where files, directories and replacements that were never finished may be in the way |
| `FileSystem`, `Symlinks` | the file system as an object whose operations may fail, and the link manager working on it |
| `Safety` | what no run can do, whatever fails |
| `Models`, `State` | probe results, scan results, and both stores against one specification |
| `Selection`, `Gathering`, `Linking`, `Processor` | one library: what it wants, how that is found out, how it is linked, the processor itself |
| `Intent`, `Delivery` | which links an output is to hold, told file by file from the configuration, and that they are there and lead to their files after a scan |
| `Outcomes`, `Isolation` | what becomes of each output and each library when others fail, and what no failure can do to it |
| `DryRuns`, `Agreement` | what a dry run tells of the real run |
| `Layout`, `Libraries`, `Runner`, `Caching` | the layout check, several libraries in one tree, the loop over all of them, and what a second scan need not probe |
| `Mending`, `Recovery` | the scan after any number of scans in which anything may have failed, or that were cut short |
| `Requests`, `Protocol`, `Freshness`, `Daemon` | merging requests, the daemon as a state machine over the points at which it awaits something, how old the statistics in its answers can be, and the object that takes these steps |
| `Documents`, `ConfigFile`, `Masking` | nested documents, the configuration file, secrets |
| `Throttle` | the login throttle |

A file tree is a map from paths to directories, files and links; in a well-formed
tree every parent is a directory. `Disk` changes such a tree; every operation may
fail for reasons outside the model, and a ghost counter records the failures, so
that one contract says what happens when nothing fails and what cannot happen
when anything does. Directory listings, the completion order of probes, and the
moment at which another thread sets the cancel flag are arbitrary. Probers,
filters and ignore patterns are functions; time is a real number.

What a scan makes of a tree when nothing fails is stated under these assumptions:
nothing but a link sits at a wanted destination, nothing but directories above it,
nothing at its temporary name (`Clear`; `Selection.WantedIsClear` reduces it to the
output directories being unobstructed and no file bearing another one's temporary
name), and the links a job would judge do not depend on anything inside an output
directory (`AllLeadAway`). What one output becomes, and what a dry run tells of it,
is stated for more trees (`Mendable`, of the job without the links something stands
in the way of): files and directories may sit at wanted destinations, and links at
temporary names; and it is stated wherever nothing fails in that output, whatever
fails in others. That its jobs are determined by the tree and the
configuration alone is stated for a probe cache that holds, about the files of the
library, nothing but what its probers would say (`Coherent`); with any other cache
they are determined by what it holds as well. After failed scans there may be
links at temporary names: `Recovery.NextScanMends` says what the next scan makes
of them. What a scan leaves alone, and that it reports what it did, holds without
any of these assumptions, whatever fails and whatever the cache holds.

## What the proofs bring to light

- A thread that collects statistics can lose its store: `apply_config` closes the
  old store whenever no scan is running, even if statistics are being collected
  from it (`Protocol.CollectsSafeStep` says exactly when, `CollectCanLoseItsStore`
  shows it). A running scan never loses its store.
- The lock around the statistics does not outlive a cancelled computation, whose
  thread goes on: a second thread can then collect at the same time
  (`Protocol.ThreadsStep` says exactly when, `TwoThreadsCanCollect` shows it for
  two requests after a configuration change, the first of which is cancelled).
- The docstring of `merge_events` keeps `force` if any merged request asked for it.
  The code drops it when only dry runs asked for it and a real request is merged
  with them (`Requests.ForceIsKept` says exactly when, `ForceCanBeLost` shows it).
- A secret kept in a dictionary would be masked but never found again when the
  document comes back (`Masking.MaskedIsUnmaskable`, `DictionarySecretIsLost`);
  the present configuration keeps all secrets in models and lists.
- A dry run counts the removals of the real run among fewer links: the removal
  guard may refuse it where it would let the real run pass, never the other way
  round (`DryRuns.DryGuardIsStricter` says exactly when, `DryGuardCanRefuse` shows
  it). It also counts as removed a replacement that was never finished, even where
  the real run uses its name to replace the link it was for
  (`DryRuns.LeftoverCanBeUsed`). Both report the same links made, and the same links
  removed exactly if they agree on the refusal and no such replacement is used
  (`DryRuns.DryRunTells`, and `Agreement.DryScanIsReal` for whole scans).
- A sidecar shared by two media files is reported twice by a dry run and once by a
  real run (`Linking.SidecarsCanBeShared`). A dry run reports every link once
  exactly if no outdated destination is wanted on behalf of two media files
  (`Linking.DryReportsOnce`).
- The probe cache is keyed by file, size and time only, but probers can be set per
  library, and a configuration change keeps the store when it changes the probers.
  A scan then goes by what the cache holds, not by what its probers would say.
  Two libraries can share a cache exactly if they probe the files they share alike
  (`Libraries.SharedCache`).
- The introduction of `processor.py` calls the result of a scan independent of
  history. It is not where a failed probe preserves a link that only one of two
  trees holds (`Reconcile.PreservedLinksTellHistory`). Without a refusing guard, trees
  that agree outside the outputs end up equal exactly if they hold the same
  preserved links, the same live links pointing elsewhere and the same files
  (`Reconcile.HistoryIndependence`; `Interference.RunHistoryIndependence` and
  `Libraries.ScanHistoryIndependence` for whole scans).
- Replacing a link can fail half-way and leave the replacement at its temporary
  name, where it looks like any other link into the input. However many scans have
  failed, the next one uses or removes what they left, and ends as if it had not been
  there (`Recovery.NextScanMends`); it counts towards what the guard is asked about.
- A source that is itself the first of a chain of 40 links is a file, yet the link a
  scan makes for it is broken, as the kernel follows 40 links and not 41
  (`Liveness.ChainIsLive`, `Liveness.LiveAlongRoute`).
- A failure in one library, or one file that cannot be read, takes nothing from the
  others: every output in which nothing fails is left exactly as promised
  (`Isolation.LibraryIsExact`, `Agreement.OutputIsExact`).

## Model

| member | source | states |
|---|---|---|
| `Paths.LinkRoundTrip` | boomarr/symlinks.py:26-36 | Resolving the text of a link made for a source gives that source back, in the absolute and in the relative mode, for all normalised paths. |
| `Paths.MadeLinksAreOwned` | boomarr/symlinks.py:26-36 | A link made in either mode is recognised as pointing into a root exactly if its source lies there, so links survive a switch of the mode. |
| `Paths.LinkTargetInjective` | boomarr/symlinks.py:59-63 | Two link texts at one place are equal exactly if their sources are: comparing texts decides whether a link is up to date. |
| `Paths.TextTellsMode` | boomarr/symlinks.py:26-30 | The text of a made link is absolute exactly if the mode is. |
| `Paths.AbsoluteText` | boomarr/symlinks.py:26-30 | An absolute text names every directory from the root down to the source. |
| `Paths.RelativeText` | boomarr/symlinks.py:26-30 | A relative text leads up once for every directory between the link and the last one it shares with its source, and down from there. |
| `Paths.TextsMove` | boomarr/symlinks.py:26-30 | A relative text stays right wherever link and source are moved together; an absolute one does not depend on where the link is. |
| `Paths.DoubleSlash` | boomarr/symlinks.py:33-36 | A text that begins with exactly two slashes points into no directory, as such paths are kept apart; with one slash or more than two it points into a root exactly if the rest of it does. |
| `Liveness.LiveAlongRoute` | boomarr/symlinks.py:150-160 | An entry from which replacing, one after the other, the first link on the way with its source leads to a path without links is live exactly if at most 40 links were replaced and there is something at the end; it is a file exactly if that is one. |
| `Liveness.TooManyLinks` | boomarr/symlinks.py:150-160 | With more than 40 links on the way, a loop say, an entry is broken, whatever comes after them. |
| `Liveness.MadeLinkIsLive` | boomarr/symlinks.py:26-30 | A link made in either mode for a path without links on the way is live exactly if there is something there. |
| `Liveness.MadeLinkLeads` | boomarr/symlinks.py:26-30 | Following a link made in either mode for a file arrives at that file. |
| `Liveness.ChainIsLive` | boomarr/symlinks.py:150-160 | A link made for a link, and so on, is live exactly if there are at most 40 of them and something at the end. |
| `Liveness.JudgedBySource` | boomarr/symlinks.py:139-161 | Such a link is planned for removal exactly if nobody keeps it and its source is missing or lies in the root. |
| `Liveness.MadeLinkLeadsAway` | boomarr/symlinks.py:26-30 | Whether a live link made for a path outside the outputs is live does not depend on anything in them: the assumption of a scan about links holds of such links. |
| `Trees.BrokenLinksDoNotMatter` | boomarr/symlinks.py:174-187 | Removing broken links changes the liveness of no other entry, so judging links one by one while removing equals judging them all first. |
| `FileSystem.Disk.Mkdirs` | boomarr/symlinks.py:86-86 | Making missing parents: the whole new tree on success, success exactly on an open way without faults, and nothing but new directories on the way in any case. |
| `FileSystem.Disk.Rmdir` | boomarr/symlinks.py:189-203 | Only an empty real directory goes; without faults it goes exactly if it is empty. |
| `FileSystem.Disk.Walk` | boomarr/symlinks.py:105-118 | The real directories reachable without skipped names, each once, ancestors before or after their descendants, siblings in any order. |
| `Symlinks.SymlinkManager.EnsureLink` | boomarr/symlinks.py:49-89 | Without faults, with nothing but a link at the destination, directories above it and at most a link at its temporary name: the link and missing directories are added, what was at the temporary name is gone if a link was replaced, and a change is reported exactly if the link was missing or held another text; a link made or changed holds an absolute text exactly in the absolute mode, and its text resolves to its source; a dry run changes nothing; whatever fails, the answer is true (a reported link is there, an unchanged one was, an error stems from a real run), only the link, its temporary name and new directories above it are touched, and nothing but a link is replaced. |
| `Symlinks.SymlinkManager.IterLinks` | boomarr/symlinks.py:105-118 | Exactly the links below the output directory, each once, following none. |
| `Symlinks.SymlinkManager.PlanRemovals` | boomarr/symlinks.py:139-161 | Planned are exactly the links that are neither expected nor preserved and are broken or point into the owned root, each once and with the right reason; all links are counted. Which links are broken is told by `Liveness.LiveAlongRoute` and `Liveness.TooManyLinks`. |
| `Symlinks.SymlinkManager.ApplyRemovals` | boomarr/symlinks.py:163-172 | Whatever fails, a real run returns exactly the links that have gone, each once, and nothing but planned links and directories below the output goes; without faults all planned links go, in order, and then the empty directories; a dry run returns them and changes nothing. |
| `Symlinks.SymlinkManager.CleanStale` | boomarr/symlinks.py:174-187 | Whatever fails, a real run returns the number of links that have gone; without faults these are exactly the links broken at the start, and then the empty directories go. |
| `Symlinks.SymlinkManager.PruneEmptyDirs` | boomarr/symlinks.py:189-203 | One bottom-up pass takes away exactly the directories below the output that hold nothing but directories. |
| `Symlinks.PruningIsComplete` | boomarr/symlinks.py:189-203 | After that pass every directory left below the output holds something, another pass would change nothing, and no file or link has gone. |
| `Reconcile.ResultIsExact` | boomarr/processor.py:278-347 | After an unblocked reconciliation the output holds exactly the wanted links with their texts, the preserved links, the live links pointing elsewhere, the files, and the directories above one of these; elsewhere only missing ancestors are new. |
| `Reconcile.ExactDetermines` | boomarr/processor.py:278-347 | Exactness leaves no freedom: one tree satisfies it. |
| `Reconcile.HistoryIndependence` | boomarr/processor.py:6-10 | Two trees that agree outside the output become equal exactly if they agree inside it on preserved links, live links pointing elsewhere and files. |
| `Reconcile.HistoryIsLocal` | boomarr/processor.py:6-10 | The output directory becomes the same under exactly that condition, whatever else distinguishes the trees. |
| `Reconcile.PreservedLinksTellHistory` | boomarr/processor.py:6-10 | Two trees that differ in one preserved link and end up different. |
| `Reconcile.Idempotence` | boomarr/processor.py:278-347 | A second run makes no link, removes none and leaves the tree as it is. |
| `Reconcile.DryPlanIsFaithful` | boomarr/symlinks.py:139-161 | Judging the links before any is made condemns the same links as judging them after. |
| `Reconcile.BlocksExactly` | boomarr/models.py:139-142 | The guard refuses exactly if there are links, more are to go than the count it tolerates, and more than the percentage it tolerates of all of them. |
| `Replacements.OverStep` | boomarr/symlinks.py:49-89 | Making one more link after others, replacing what stands by way of a temporary name at which a link may sit already, is making them all; the link is in place exactly if it was from the start or has been made since. |
| `Interference.RunIsCombined` | boomarr/runner.py:151-168 | Jobs run one after the other give every output directory what its job alone would give it, and add nothing elsewhere but missing ancestors. |
| `Interference.OrderIndependence` | boomarr/runner.py:151-168 | The order of jobs does not matter. |
| `Interference.OutputsAsIfAlone` | boomarr/config.py:1149-1195 | Every output ends up as its own job alone would leave it. |
| `Interference.RunHistoryIndependence` | boomarr/processor.py:6-10 | For a whole run of jobs that no guard refuses: two trees end up equal exactly if they agree, for every job, on what is not Boomarr's own. |
| `Interference.RunIdempotence` | boomarr/processor.py:6-10 | Repeating a whole run of jobs changes nothing, and no job finds anything to do. |
| `Interference.DryRunIsFaithful` | boomarr/processor.py:295-341 | Every job of a dry run finds the same links to make and to remove as its counterpart in the real run. |
| `Layout.CheckPathOverlap` | boomarr/config.py:1198-1230 | Accepts exactly if neither path equals, contains or lies in the other, and names the case. |
| `Layout.ValidateNoPathOverlap` | boomarr/config.py:1149-1195 | Accepts exactly the layouts in which every output has a place, none overlaps an input, and no two symlink outputs are equal or nested. |
| `Layout.NearestPathDecides` | boomarr/config.py:1014-1038 | An output writes to its own path if it has one, else below that of its library whatever the global one is, else below the global one, under its name or, without one, the derived name; without any of these it has no place, and the global path of a library with its own is not looked at. |
| `Layout.SoundExactly` | boomarr/config.py:1149-1195 | What an accepted layout is, library by library: neither the place a library derives its outputs from nor any output equals, contains or lies in the input of any library, and the outputs of any two different symlink libraries neither are equal nor contain each other. |
| `Layout.AcceptedLayoutSeparates` | boomarr/config.py:1149-1195 | In an accepted layout the jobs keep apart from each other and from every input. |
| `Layout.AcceptedScanDoesNotInterfere` | boomarr/config.py:1149-1195 | For every accepted configuration, whatever fails: what may change only below outputs and in missing directories above them never changes anything in an input. |
| `Layout.AcceptedOutputsAsIfAlone` | boomarr/config.py:1149-1195 | For every accepted configuration on a tree whose jobs are ready: every output ends up as if it were the only one. |
| `Safety.FilesSurvive` | boomarr/symlinks.py:49-217 | No sequence of scans, dry runs, cleans and failing operations deletes or alters a regular file without a temporary name. |
| `Safety.ForeignLinksSurvive` | boomarr/symlinks.py:49-217 | Nor a link that, whenever links are removed from an output it lies in, is live and points outside the root in question, and that is at no wanted destination. |
| `Safety.ForeignLinksStay` | boomarr/symlinks.py:49-217 | Nor a link that is live at the start, leads out of the outputs and is spared by the steps: that it stays live follows. |
| `Safety.OnlyOutputsChange` | boomarr/symlinks.py:49-217 | Whatever fails, only paths below the outputs and missing directories above them change. |
| `Safety.ApartIsUntouched` | boomarr/config.py:1149-1195 | Whatever fails, nothing changes at or below a directory that neither contains nor lies in an output. |
| `Models.ScanResult.RecordChange` | boomarr/models.py:87-96 | The list of changes keeps the first 500 of all changes recorded. |
| `Models.ScanResult.Merge` | boomarr/models.py:110-124 | Every counter becomes the sum, link counts are overwritten per output, changed outputs are united, and the merged list keeps the first 500 changes of both. |
| `Models.MergeAssociative` | boomarr/models.py:110-124 | Results of libraries can be merged in any grouping, in spite of the cap. |
| `State.TracksRoundTrip` | boomarr/state.py:40-71 | Decoding encoded tracks gives them back. |
| `State.OlderTracksRead` | boomarr/state.py:54-71 | What older versions wrote is still read: audio tracks without channels, and documents without one of the lists or both. |
| `State.InMemoryStateStore.Get` | boomarr/state.py:147-159 | Returns the entry exactly if size and time match; a mismatch forgets it; hits and misses are counted. |
| `State.InMemoryStateStore.Prune` | boomarr/state.py:198-208 | Every entry outside the root or among those to keep stays as it is, every other one goes, and the number returned is the number gone. |
| `State.InMemoryStateStore.AddScan` | boomarr/state.py:173-180 | The history becomes the newest 500 scans including the new one, which gets the next id. |
| `State.InMemoryStateStore.ListScans` | boomarr/state.py:182-188 | Reversing, slicing and summarising yields the page of the history, newest first, and the number of scans kept. |
| `State.SummaryTells` | boomarr/state.py:28-37 | A summary gives the numbers of issues and changes in place of the lists, leaves all other fields as they are and adds no number where there was no list. |
| `State.InMemoryStateStore.GetScan` | boomarr/state.py:190-192 | The scan with that id if it is still kept. |
| `State.SQLiteStateStore.Get` | boomarr/state.py:380-407 | The same answer and effect as the store in memory, with unreadable rows counting as missing. |
| `State.SQLiteStateStore.Put` | boomarr/state.py:409-421 | The same effect as the store in memory, through the encoding. |
| `State.SQLiteStateStore.Prune` | boomarr/state.py:428-440 | Every row outside the root or among those to keep stays as it is, every other one goes, and the number returned is the number of rows gone, which is that of the store in memory exactly if all of them were readable. |
| `State.SQLiteStateStore.Count` | boomarr/state.py:447-450 | The number of rows, which is the number of entries exactly if all rows are readable. |
| `State.SQLiteStateStore.AddScan` | boomarr/state.py:474-489 | The same effect as the store in memory, although it deletes by id. |
| `State.SQLiteStateStore.ListScans` | boomarr/state.py:498-510 | The same page as the store in memory. |
| `State.SQLiteStateStore.GetScan` | boomarr/state.py:512-517 | The same record as the store in memory. |
| `State.HistoryIsNewest` | boomarr/state.py:173-180 | After any sequence of operations the history is exactly the newest 500 of all scans ever added, with consecutive ids. |
| `State.PagesPartition` | boomarr/state.py:182-188 | Whatever the size of the pages, all of them put together are the whole history, newest first, without gaps or repetitions. |
| `State.ScanFound` | boomarr/state.py:190-192 | A scan is found under its id exactly while it is among the newest 500. |
| `Selection.WantedIsClear` | boomarr/processor.py:61-64 | The links of one library never get in each other's way; what a scan assumes comes down to unobstructed destinations and no clash with temporary names. |
| `Selection.MirrorIsFaithful` | boomarr/processor.py:61-64 | Mirroring a path below the output keeps the order of paths and temporary names. |
| `Selection.GetTends` | boomarr/state.py:147-159 | Whatever the cache holds, a lookup changes at most the entry it asks for, and that only by forgetting it. |
| `Selection.PutTends` | boomarr/state.py:161-163 | Storing what the probers say leaves every entry as it was or as the probers would have it, and touches none of another directory. |
| `Selection.PruneTends` | boomarr/state.py:198-208 | Pruning forgets exactly the entries below the root that are not to be kept; all others stay as they are. |
| `Selection.CacheIsUnseen` | boomarr/processor.py:203-234 | With a coherent cache, what a scan learns of its files is what its probers say: whether an info came from the cache cannot be told. |
| `Selection.AskIsFirst` | boomarr/processor.py:127-134 | The chain of probers says what the first one says that has an answer, and nothing exactly if none has one. |
| `Intent.FoundExactly` | boomarr/processor.py:72-93 | A library finds exactly the regular files below its input to which real directories lead, none of them nor the file with an ignored name. |
| `Intent.StatAlongRoute` | boomarr/processor.py:215-219 | Size and time of a file that is a link are those of the file at the end of the links. |
| `Intent.WishesExactly` | boomarr/processor.py:278-317 | A job asks for a link to exactly the media files found whose info, as the first prober that answers gives it, the output wants, and the sidecars beside them whose names go on after the stem and a dot, each at the place its source has in the input and with the text of the mode; it preserves exactly the places of media files without an answer, and of their sidecars; only a forced scan has no guard. |
| `Intent.UsableExactly` | boomarr/processor.py:101-125 | A library is scanned exactly if its input is a directory and, unless a file is found there, no link lies below any of its outputs. |
| `Processor.LibraryProcessor.DiscoverFiles` | boomarr/processor.py:72-93 | Exactly the regular files, or links to such, that are reached without ignored names, each once. |
| `Processor.LibraryProcessor.InputIsUsable` | boomarr/processor.py:101-125 | The input is a directory and, if it holds no file, no output holds a link. |
| `Processor.LibraryProcessor.LookUpFile` | boomarr/processor.py:214-226 | A file the cache knows in this size and time gets what the cache holds; an unknown one keeps its size and time for probing; a failed stat is told apart; no other entry changes. |
| `Processor.LibraryProcessor.LookUp` | boomarr/processor.py:203-226 | Whatever the cache holds, every file is sorted and counted once: filtered (a sidecar or not), known from the cache, to be probed, or unreadable; the entries of files to be probed are forgotten, all others stay. |
| `Processor.LibraryProcessor.Probe` | boomarr/processor.py:127-134 | Unless the scan is cancelled, the answer of some prober before which none has one, or none if no prober has one. |
| `Processor.LibraryProcessor.ProbeAll` | boomarr/processor.py:136-183 | Whatever order the probes finish in, an uncancelled phase yields the same infos, cache and counts, and every candidate is counted as probed or as an error; a cancelled one leaves every entry as it was or as the probers would have it. |
| `Processor.LibraryProcessor.SidecarsFor` | boomarr/processor.py:268-276 | Exactly the sidecars in the directory of the media file whose name begins with its stem and a dot. |
| `Processor.LibraryProcessor.LinkSources` | boomarr/processor.py:305-315 | Every source of a wanted media file gets its link and is expected, and every attempt is counted as what it was: made, left alone or failed. |
| `Processor.LibraryProcessor.LinkMedia` | boomarr/processor.py:295-315 | A media file without info is preserved, one that a filter refuses is left out, any other is linked with its sidecars. |
| `Processor.LibraryProcessor.LinkAll` | boomarr/processor.py:295-317 | Expected and preserved destinations are exactly those of the job, and without faults all its links are in place but for those a file or a directory stands in the way of; links at temporary names are no obstacle. |
| `Processor.LibraryProcessor.RemoveUnwanted` | boomarr/processor.py:318-347 | Whatever fails, removal is aimed at exactly the links that are condemned in the tree it finds, none of them expected or preserved; where the guard refuses, nothing goes, nothing is reported and the refusal is counted; a real run reports exactly the links that have gone, each once, and a dry run the condemned ones; without faults exactly the condemned links go; the output counts as changed exactly if links were made or removed. Nothing is refused unless the scan is not forced, more links are condemned than the guard tolerates and more than the percentage it tolerates of those below the output; then one refusal is counted and every link stays, else, if nothing fails, all condemned links go in a real run. |
| `Processor.LibraryProcessor.ReconcileOutput` | boomarr/processor.py:278-347 | Whatever fails, only steps that serve the job are taken, none of them aimed at removing an expected or preserved link, the last of them the removal, which takes nothing if the guard refuses; a real run reports exactly the links these steps have made and removed, the counters grow by exactly what the report says, and it tells how many operations have failed. Without faults the tree becomes what the job makes of it, except that links are left out where a file or a directory stands; links at temporary names are no obstacle. A dry run changes nothing and reports every link as often as it is wanted. |
| `Processor.LibraryProcessor.ReconcileOutputs` | boomarr/processor.py:236-248 | The same for all outputs of a library, one after the other, each starting from the tree the one before has left; all failures are those of some output. |
| `Processor.LibraryProcessor.ProcessLibrary` | boomarr/processor.py:185-266 | An unusable input or a cancellation leaves every output untouched and reports no change; a complete scan counts exactly the files filtered, those known from the cache, those probed with an answer and those without an info, and what its reports come to; after it the cache holds of every media file it could read what it held or the probers answered, of files no longer found in the input nothing, and of all others what it held. Whatever fails and whatever the cache holds, its jobs are those determined by the tree, the configuration and the cache, its outputs are reconciled one after the other as above, refusals and kept links included, and every failure is that of a stat or of one output. If nothing fails in the outputs the tree becomes what the jobs make of it and all reports are true, in real and in dry runs, even if files could not be read; if all could be read and the cache was coherent, the jobs are those determined by tree and configuration alone. |
| `Processor.LibraryProcessor.CleanLibrary` | boomarr/processor.py:349-360 | None goes if the input looks unmounted, none in a dry run. Whatever fails, each step takes only links that are broken in the tree it finds, and directories below an output, and a real run counts exactly the links that have gone; without faults these are all broken ones, and the empty directories go. |
| `Delivery.CleanableExactly` | boomarr/processor.py:349-360 | The clean command looks at a library exactly if its input is a directory and, unless there is any entry in it, no link lies below any of its outputs. |
| `Processor.LiveLinksSurviveClean` | boomarr/symlinks.py:174-187 | Whatever fails, no clean deletes or alters a live link that leads out of the outputs, even one that points into the input. |
| `Processor.NothingIsLost` | boomarr/processor.py:203-260 | The counters of a complete scan add up to the files found and the links attempted, each once. |
| `Linking.FollowingStep` | boomarr/processor.py:305-315 | One more link keeps the invariant of linking: the tree is the start with the links made so far, where nothing stands in their way, and exactly the outdated ones of these have been reported, once in a real run. |
| `Linking.CountedTogether` | boomarr/processor.py:305-347 | Linking and removing an output together change the counters as merging a result with exactly its report would. |
| `Linking.ToldStep` | boomarr/processor.py:305-347 | Whatever fails, the reports of all outputs together tell exactly the links that have been made and removed since the start, as often as that happened; in a dry run each tells the links condemned in the tree it leaves alone. |
| `Linking.ChainServes` | boomarr/processor.py:236-248 | Whatever fails in outputs reconciled one after the other, all steps serve their jobs and lead from the first tree to the last, and the reports tell exactly what they have done. |
| `Linking.ChainIsTrue` | boomarr/processor.py:236-248 | If nothing fails in them and all links can be made, the tree is what the jobs make of it one by one, and every report is true of the tree its job finds. |
| `Linking.RefusedExactly` | boomarr/processor.py:318-335 | A job is refused exactly if its library is not forced and both limits of its guard are exceeded by the links condemned in its output. |
| `Outcomes.KeptSurvives` | boomarr/symlinks.py:139-161 | Whatever fails, a link that every job for its place expects or preserves, at no temporary name of a wanted link, never goes: it stays as it is, or gets the text it is wanted with. |
| `Outcomes.RefusalRemovesNothing` | boomarr/processor.py:318-335 | Whatever fails before or after, where the guard refuses an output no link of the tree it finds is removed, none is reported removed, and the removal leaves that tree as it is; it refuses exactly if the linked tree calls for it. |
| `Outcomes.ExactWhereNothingFailed` | boomarr/processor.py:278-347 | Every output in which nothing fails is left as its own job alone would have left it at the start, and its report is true, whatever fails in others and whatever files, directories and links at temporary names are in the way. |
| `Outcomes.CutShort` | boomarr/runner.py:153-167 | Wherever a run is cut short, the steps taken so far serve its jobs. |
| `Linking.OutputsDoNotInterfere` | boomarr/config.py:1149-1195 | Whatever fails, steps that serve some jobs change nothing in any directory apart from the outputs of these jobs: no other output and no input. |
| `Linking.DryReportsOnce` | boomarr/processor.py:295-315 | A dry run reports an outdated destination once for every media file on whose behalf it is wanted, so it reports every link once exactly if none is wanted twice. |
| `Linking.SidecarsCanBeShared` | boomarr/processor.py:268-276 | A file tree and a library in which one is: two media files whose stems both begin the name of one sidecar, the link to which is missing in an empty output. |
| `DryRuns.DryGuardIsStricter` | boomarr/models.py:139-142 | A dry run is refused whenever the real run would be; the two agree exactly if a refusal of the removals among the links there are is one of those left after linking among the links there will be, too. |
| `DryRuns.DryGuardCanRefuse` | boomarr/models.py:139-142 | A tree and a job for which only the dry run is refused. |
| `DryRuns.NothingToUse` | boomarr/models.py:139-142 | Where linking uses no leftover, the removals agree exactly if the refusals do. |
| `DryRuns.LeftoverCanBeUsed` | boomarr/symlinks.py:65-74 | A tree and a job for which a dry run reports a link as removed that the real run replaces another one with. |
| `DryRuns.DryRunTells` | boomarr/processor.py:295-341 | Output by output, a dry run reports, as sets, the very links that a real run of the same jobs makes, if nothing fails in that output, and whatever stands at its destinations; the links removed agree exactly if both are refused or nothing is left to remove, or neither is refused and no leftover is used; the refusals agree exactly if the guard does. |
| `Gathering.ProbedIsInfos` | boomarr/processor.py:203-234 | Infos from the cache and from probing together are what the scan learns of all readable media files, and of no others. |
| `Gathering.AllFilesCounted` | boomarr/processor.py:203-234 | After both phases the filtered files are those that are no media, skipped and probed together are those with an info, and the errors are the media files without one. |
| `Libraries.JobsSame` | boomarr/processor.py:72-93 | What a library wants does not change while outputs change. |
| `Libraries.TurnOfLibrary` | boomarr/runner.py:151-168 | A library finds, when its turn comes, the jobs it would have found at the start, ready to run; it is usable exactly if it was. |
| `Libraries.AcceptedConfigKeepsApart` | boomarr/config.py:1149-1195 | For pipelines built from an accepted configuration the jobs of all libraries keep apart from each other and from every input, in whatever tree. |
| `Libraries.AcceptedScanKeepsInputs` | boomarr/config.py:1149-1195 | For pipelines built from an accepted configuration, what every scan keeps whatever fails is enough to leave all inputs as they are. |
| `Libraries.ScanOrderIndependence` | boomarr/runner.py:151-168 | The order of the libraries matters neither for whether a scan is ready to run nor for its result. |
| `Runner.ScanRunner.ScanLibraries` | boomarr/runner.py:142-168 | Whatever fails and whatever the cache holds, a scan of all libraries changes nothing but what lies below the outputs and missing directories above them, every library finds the tree and the cache the ones before it have left, reconciles its outputs one after the other and reports truly what was done, every failure is that of some library, only a cancelled scan leaves libraries out, and the result merges exactly what the libraries have counted; a dry or already cancelled scan changes nothing. If nothing fails and the cache serves all libraries, the tree is what the jobs found at the start make of it one by one, the reports of every library are true of the tree it finds, and a library that cannot be used counts as an error without doing the others any harm. |
| `Runner.ScanRunner.ScanLibrary` | boomarr/runner.py:153-167 | The result of the library is merged, and its failures are counted; one that cannot be set up adds one error and changes nothing. Neither asks anything of the cache. |
| `Runner.ScanIsChain` | boomarr/runner.py:151-168 | Whatever fails, a scan of all libraries is the outputs of all of them reconciled one after the other: all that is said of such runs holds of it. |
| `Isolation.LibraryIsExact` | boomarr/runner.py:153-167 | Every library in which nothing has failed has run the jobs found at the start, has left each output as its job alone would have left it, and reports truly, whatever has failed in others and whichever of them could not be set up. |
| `Delivery.WishesAreGranted` | boomarr/processor.py:278-317 | After a scan of all libraries, in every library in which nothing has failed: every link that `Intent.WishesExactly` tells of for a file is there with the text of the mode, and following it arrives at that file. |
| `Delivery.NothingElseIsThere` | boomarr/processor.py:318-347 | And where the guard has not refused, every link of an output that was made for a path in the input, in whatever mode and by whatever scan, is one of those, or belongs to a media file that no prober knows. |
| `Isolation.KeptLinksSurviveScan` | boomarr/symlinks.py:139-161 | Whatever fails in a scan of all libraries, expected and preserved links never go. |
| `Isolation.RefusalInScan` | boomarr/processor.py:318-335 | Whatever fails in a scan of all libraries, where the guard refuses an output no link is removed or reported removed. |
| `Agreement.OutputIsExact` | boomarr/processor.py:278-347 | If all media files can be read, a scan of all libraries leaves every output in which nothing fails as its job alone would have, whatever fails elsewhere; what stands in the way of a link is left alone, and leftovers are used or removed. |
| `Agreement.SameJobsAfter` | boomarr/processor.py:72-125 | While only the outputs of libraries before it change, in whatever way, a library is as usable as it was and finds the same jobs. |
| `Agreement.JobsOfRun` | boomarr/runner.py:151-168 | If all media files can be read, a scan, real or dry, runs exactly the jobs found at the start, whatever fails otherwise. |
| `Agreement.DryScanIsReal` | boomarr/processor.py:295-341 | Output by output, a dry scan of all libraries reports, as sets, the very links the real scan from the same tree and cache makes, if all media files can be read and nothing fails in that output; the links removed and the refusals agree exactly as `DryRuns.DryRunTells` says. |
| `Runner.LibrariesDoNotInterfere` | boomarr/runner.py:151-168 | Whatever fails, scanning one library changes nothing in a directory apart from its outputs, in particular in the outputs of the others. |
| `Runner.ForeignLinksSurviveScan` | boomarr/symlinks.py:49-217 | Whatever fails, no scan deletes or alters a live link that leads out of the outputs, is at no wanted destination and points outside the input of the library whose output it is in, even if it points into another input. |
| `Runner.NothingIsLostInRun` | boomarr/models.py:110-124 | The merged counters of a scan that was not cancelled add up to all files found, all links attempted and the libraries that could not be scanned; if the inputs lie apart from the outputs, the files are those there were before the scan began. |
| `Runner.TotalsAddUp` | boomarr/models.py:110-124 | The result of a scan of all libraries adds up its reports: the links made and removed, one refusal for every output refused, exactly the outputs in which links were made or removed as changed, for each output the number of links it is to hold, and the first 500 changes in order. |
| `Runner.ReachedInTurn` | boomarr/runner.py:151-168 | Whatever fails, the tree a library finds is the one to which the steps of the libraries before it lead. |
| `Runner.FilesOfStart` | boomarr/processor.py:72-93 | Whatever fails, a library finds in its turn the files it would have found before the scan began. |
| `Runner.SecondScanDoesNothing` | boomarr/processor.py:6-10 | After a scan of all libraries in which nothing failed and no guard refused, another one, real or dry, leaves the tree as it is, all its reports are empty and it counts nothing as made, removed or refused. |
| `Caching.LibraryIsProbedOnce` | boomarr/processor.py:203-234 | The next scan of unchanged files skips every file the first one had an info for and that it can read; if the first one could read all, it probes nothing. |
| `Caching.NothingIsProbedTwice` | boomarr/processor.py:203-266 | The same for two scans of all libraries, one after the other, whatever fails in them and whatever the other libraries do to the cache: no input lies in another one, and none depends on the outputs. |
| `Caching.SecondScanProbesNothing` | boomarr/processor.py:203-266 | So a second scan of all libraries that is not cancelled probes nothing at all if the first one could read all media files. |
| `Libraries.ScanHistoryIndependence` | boomarr/processor.py:6-10 | Trees that agree outside the outputs, and in which the same libraries can be used, end up equal when all libraries are scanned exactly if they agree on what is not Boomarr's own. |
| `Libraries.ScanIdempotence` | boomarr/processor.py:6-10 | After a scan of all libraries the same jobs are found, none of them with anything to do, and running them leaves the tree identical. |
| `Libraries.ReadyAgain` | boomarr/processor.py:6-10 | After a scan of all libraries everything is ready for the next one. |
| `Libraries.CoherentForOther` | boomarr/state.py:147-208 | Whatever one library does to the cache keeps it coherent for every library that probes shared files alike. |
| `Libraries.SharedCache` | boomarr/pipeline.py:299-301 | Whatever either of two libraries may do to a coherent cache leaves it coherent for the other exactly if they probe the files they share alike. |
| `Mending.JobMends` | boomarr/symlinks.py:65-89 | Links at temporary names of wanted links that are broken or point into the root make no difference: the job leaves the tree as it would have without them. |
| `Mending.LeftoversDoNotMatter` | boomarr/processor.py:278-347 | Nor do they to a whole run that the guard does not refuse: it ends in the very tree in which it would end had they not been there. |
| `Mending.FailureIsMendable` | boomarr/symlinks.py:65-89 | Whatever fails in a run from a tree in which all was ready, what it leaves is ready again but for such links. |
| `Mending.ReadyIsMendable` | boomarr/symlinks.py:65-89 | Where all is ready there is nothing to mend: the result of a job is the one that is meant. |
| `Recovery.LeftoverIsOwned` | boomarr/symlinks.py:65-89 | The replacement a failure leaves behind points into a root exactly if the source of the link does. |
| `Recovery.ScansDoNoHarm` | boomarr/runner.py:151-168 | However many scans of all libraries are run, and whatever fails in them, nothing is done to the tree but what scans do, and a cache that served all libraries still does. |
| `Recovery.CutShortDoesNoHarm` | boomarr/runner.py:153-167 | The scan of a library that is cut short at any step does no more harm than one that is completed. |
| `Recovery.FailuresAreNoHarm` | boomarr/processor.py:185-266 | What they leave is ready for the same jobs again but for replacements never finished, all of which the next scan may remove. |
| `Recovery.NextScanMends` | boomarr/processor.py:6-10 | After any number of scans of all libraries in which anything may have failed, the next one, if nothing fails in it, it is not cancelled and the guard refuses none of its jobs, runs the jobs found before the first of them, reports truly, leaves every output exactly as promised and none of the replacements that were never finished. |
| `Requests.MergeKeeps` | boomarr/daemon.py:50-64 | The merged scan is real exactly if some request is, forced exactly if one of the chosen kind is, names each source of that kind once, in the order of first requests, and bears the time of the first request of that kind. |
| `Requests.SourcesJoined` | boomarr/daemon.py:59-64 | The merged request names its sources one after the other with a comma and a space in between. |
| `Requests.ForceIsKept` | boomarr/daemon.py:50-64 | The force of merged requests is kept exactly unless only dry runs ask for it and some request is real. |
| `Requests.ForceCanBeLost` | boomarr/daemon.py:50-64 | Two requests for which it is lost. |
| `Requests.MergeOfConcat` | boomarr/daemon.py:50-64 | Merging parts of a batch and then the results is merging the whole: flags, time and the list of sources. |
| `Protocol.AccountedStep` | boomarr/daemon.py:365-401 | In every reachable state each accepted request, in order, has been dealt with, is in the worker's hands or is queued. |
| `Protocol.WorkerSoundStep` | boomarr/daemon.py:385-401 | A running scan covers its whole batch; requests are dropped and the worker stops only because of a shutdown. |
| `Protocol.CancellableStep` | boomarr/daemon.py:156-161 | While a scan runs its cancel flag is set exactly if cancel_scan or a shutdown was called since it started. |
| `Protocol.ScanStarts` | boomarr/daemon.py:385-445 | A scan starts only when none is running and no shutdown was requested, with a clean flag, for a whole batch, on the current store. |
| `Protocol.StoresOpenStep` | boomarr/daemon.py:163-194 | At any await point, a configuration change never closes the store the running scan uses, nor the current one. |
| `Protocol.CollectsSafeStep` | boomarr/daemon.py:169-174 | A collecting thread loses its store exactly when another database is configured while no scan runs and the thread uses the current store. |
| `Protocol.CollectCanLoseItsStore` | boomarr/daemon.py:169-174 | A run in which that happens. |
| `Protocol.FreshStep` | boomarr/daemon.py:196-234 | Cached statistics come from a thread started in the generation they are tagged with, and no answer is older than its request. |
| `Freshness.NoStaleAnswer` | boomarr/daemon.py:196-234 | In every possible run, no request for the statistics that is made after the end of a scan or of a configuration change is answered with what a thread has collected that was started before it; told by the positions of steps in the run, not by generations. |
| `Protocol.LockedStep` | boomarr/daemon.py:222-234 | At most one computation collects, and it holds the lock. |
| `Protocol.ThreadsStep` | boomarr/daemon.py:222-234 | At most one thread collects, until one is started while the thread of a cancelled computation still runs. |
| `Protocol.TwoThreadsCanCollect` | boomarr/daemon.py:222-234 | A run in which that happens: a request waits behind the computation under way, a configuration change outdates what that one collects, the request collects itself and is cancelled, and the next request collects, too. |
| `Protocol.OrphansStep` | boomarr/daemon.py:222-234 | Only cancelling a computation that collects leaves a thread behind. |
| `Protocol.EveryRunIsGood` | boomarr/daemon.py:143-264 | All these invariants hold after every interleaving of steps. |
| `Daemon.Daemon.RequestScan` | boomarr/daemon.py:143-154 | The request joins the end of the queue; it is among those accounted for from then on. |
| `Daemon.Daemon.CancelScan` | boomarr/daemon.py:156-161 | The flag is set exactly if it was or a scan is running, and the caller is told whether one is; the flag keeps telling exactly of requests made since the scan started. |
| `Daemon.Daemon.RequestShutdown` | boomarr/daemon.py:259-264 | Both flags are set; all invariants are kept. |
| `Daemon.Daemon.TakeEvent` | boomarr/daemon.py:365-383 | The oldest request moves from the queue to the batch, and none is lost. |
| `Daemon.Daemon.WaitTimedOut` | boomarr/daemon.py:365-372 | The worker stops only after a shutdown request. |
| `Daemon.Daemon.EndCollecting` | boomarr/daemon.py:385-413 | After a shutdown request the batch is dropped and the worker stops; else, if the preflight check fails, it is skipped; else it is scanned as a merged request, with a clean cancel flag and on an open store. All invariants are kept. |
| `Daemon.Daemon.EndScan` | boomarr/daemon.py:425-445 | The scan is over, the worker stops if a shutdown was requested, no cached statistics count as current any more and a background computation is under way; all invariants are kept. |
| `Daemon.Daemon.ApplyConfig` | boomarr/daemon.py:163-178 | Another database gets a new store, the same one keeps it; the old store is closed exactly if it is replaced while no scan runs, the runner is rebuilt; neither the current store nor that of a running scan is closed. |
| `Daemon.Daemon.FinishApplyConfig` | boomarr/daemon.py:180-188 | After a configuration change no cached statistics count as current any more and a background computation is under way; all invariants are kept. |
| `Daemon.Daemon.LibraryStatus` | boomarr/daemon.py:196-208 | A current cache answers at once, with statistics collected since the current generation began, and if they are older than 300 seconds a background computation is under way; otherwise a computation of its own is awaited. |
| `Daemon.Daemon.InvalidateStatus` | boomarr/daemon.py:210-214 | A new generation begins, one higher, and a background computation is under way. |
| `Daemon.Daemon.RefreshStatus` | boomarr/daemon.py:216-220 | A background computation is under way: the one that was, or a new one if none was. |
| `Daemon.Daemon.ComputeStatus` | boomarr/daemon.py:222-231 | With the lock in hand the cache is looked at again: if it is current and no older than 300 seconds the computation is over, with an answer no older than the request; else its thread is started, holding the lock. |
| `Daemon.Daemon.StatusCollected` | boomarr/daemon.py:231-234 | The result is cached under the generation in which its thread was started, is no older than the request, and the lock is let go. |
| `Daemon.Daemon.CollectionFailed` | boomarr/daemon.py:222-234 | A collecting thread that raises lets go of the lock and leaves no result; all invariants are kept. |
| `Documents.RestoreOne` | boomarr/config_store.py:95-119 | Putting back one path gives it the value of the old file, or nothing, and leaves every incomparable path alone. |
| `Documents.AllRestored` | boomarr/config_store.py:147-152 | After all overridden paths are restored each holds exactly what the old file holds there; incomparable paths are unchanged. |
| `Documents.PutBackCommutes` | boomarr/config_store.py:302-309 | Two incomparable paths can be put back in either order. |
| `Documents.RestoreOrderIrrelevant` | boomarr/config_store.py:302-309 | The order of restoring does not matter for the document. |
| `Documents.PrunedValue` | boomarr/config_store.py:122-123 | Pruning takes a value away only if it is itself an empty top-level section, which no overridden path leads to. |
| `ConfigFile.RestoreOverrides` | boomarr/config_store.py:147-152 | The loop over the overridden paths computes the restored document, or fails where a path leads through a value that is no mapping. |
| `ConfigFile.ConfigToFileData` | boomarr/config_store.py:126-153 | The written document holds at every overridden path, all of which lie in a section, exactly what the old file holds there; other paths are as serialized, up to what is never written and empty sections. |
| `ConfigFile.Candidate` | boomarr/config_store.py:297-315 | Restoring in an arbitrary order always gives the same candidate. |
| `ConfigFile.FixedIsGone` | boomarr/config_store.py:310-314 | Nothing is left at `config_dir`, `config_file` and `logging.dir`; paths apart from these keep their values. |
| `ConfigFile.DefaultDatabaseTells` | boomarr/config_store.py:138-146 | An SQLite database at its default place is written without the place, and not at all if nothing but its type is left to say; everything else is written as it is. |
| `Masking.SecretMasker.Secrets` | boomarr/config_store.py:189-198 | The known tokens are exactly those of the secrets in models and lists. |
| `Masking.SecretMasker.Walk` | boomarr/config_store.py:209-221 | Succeeds exactly if every token is known, replaces all of them, and otherwise names the place of an unknown one. |
| `Masking.SecretMasker.Unmask` | boomarr/config_store.py:200-223 | Succeeds exactly if every token stands for a secret of the current configuration, and then restores one it stands for; otherwise names the place of a token that stands for none. |
| `Masking.MaskedRestores` | boomarr/config_store.py:171-187 | Unmasking what was masked gives every value back, even if the configuration has changed in between. |
| `Masking.NoSecretIsTold` | boomarr/config_store.py:171-187 | The masked document has the shape of the value; at every secret it has its token, and every text in it is such a token or a plain string of the value. |
| `Masking.RearrangedItems` | boomarr/config_store.py:171-223 | Reordering, dropping or repeating items of a masked list does the same to the originals. |
| `Masking.MaskedIsUnmaskable` | boomarr/config_store.py:189-198 | A masked value can be unmasked exactly if each of its secrets is found in a model or list of the current configuration. |
| `Masking.DictionarySecretIsLost` | boomarr/config_store.py:189-198 | A value for which that fails: a secret in a dictionary. |
| `Throttle.LoginThrottle.RetryAfter` | boomarr/web/security.py:224-229 | 0 exactly if fewer than the allowed failures lie in the window; otherwise the least whole number of seconds after which the key is unlocked. |
| `Throttle.LoginThrottle.Prune` | boomarr/web/security.py:218-222 | Exactly the leading attempts older than the window are forgotten. |
| `Throttle.LoginThrottle.Failure` | boomarr/web/security.py:231-233 | A failure is recorded at any time; failures stay spaced exactly if the key is not locked at that moment. |
| `Throttle.LoginThrottle.Login` | boomarr/web/routes/auth.py:118-139 | A locked key is refused whatever the password; a failure is recorded at the later time when the password has been looked at, which keeps failures spaced, and a success forgets all failures. |
| `Throttle.LoginThrottle.Bounded` | boomarr/web/security.py:210-236 | At any time, whatever was attempted, no closed interval as long as the window holds more than the allowed failures since the last success. |
| `Throttle.SpacedIsBounded` | boomarr/web/security.py:218-236 | Failures that are spaced by the window, so many apart, are never more than so many in a window. |
| `Throttle.SpacedStep` | boomarr/web/security.py:231-233 | One more failure leaves failures spaced exactly if it is recorded while not locked. |

## Left out

- Intermediate directory links: file operations take paths literally; only whether a link is live follows links as the kernel does. Inputs and outputs that are themselves links are not modelled.
- Reading never fails: unreadable directories and listing errors, which the program logs and passes over, are not part of the model; stat, link and removal failures are.
- `SymlinkManager.reconcile` and `remove_link`, which the scan does not use.
- Concurrent changes to the tree from outside, permissions, file contents and times of links.
- Processor.LibraryProcessor.DiscoverFiles: the sorted order of the files, like that of reported changes, is not stated: orders are arbitrary in the model, and no result depends on them.
- Recovery.NextScanMends: is stated for trees in which all was ready before the first scan, and for what failed scans leave at temporary names, which are links; files or directories of others at such names are an obstacle like any other.
- Delivery.WishesAreGranted: is stated for sources that are files themselves; for one that is a link the link made is in place all the same, and `Liveness.LiveAlongRoute` tells when it is live.
- Runner.ScanRunner.ScanLibrary: an exception in the middle of processing a library, which the runner counts and passes over, is modelled only where a pipeline cannot be set up; that the steps taken until then serve the jobs of the library and do no harm is `Outcomes.CutShort` and `Recovery.CutShortDoesNoHarm`.
- Probers, filters, ignore patterns, file name stems and sidecar extensions are functions of their arguments; the subprocesses and services behind them are not part of the model, nor are the pool of probing threads and the progress messages.
- Processor.LibraryProcessor.ProbeAll: the probes of one scan are taken one at a time in an arbitrary order; a prober that raises counts as one that finds nothing.
- Rows and scan records whose stored text is no JSON document of the expected types, the last probe time, statistics by codec and language, meta documents, schema versions and resetting a broken database.
- What surrounds a run in `runner.py`: timing, the issue collector, metrics, hooks and the report kept in the history.
- Around the daemon: triggers, the web server, the heartbeat, events, logging, the restart hint, and the cancellation of the main coroutine while a scan runs in its thread; the steps between the two parts of a configuration change that restart triggers are a single await.
- Throttle.LoginThrottle.Login: the bound on failures is proved for the login route, which asks before it records; two logins are not interleaved, as the route awaits nothing in between. A throttle that allows no failure at all, which would look at an empty list, is not modelled.
- Masking.MaskedRestores: the keyed hash is any function of the secret; the round trip asks that different secrets have different tokens and that no plain string begins like a token.
- Documents: dictionaries are values; that the restored document shares parts with the old file's document, and the order of keys, are not modelled. Which values are defaults and omitted by serialization, validation, YAML and writing the file belong to other libraries.
- Masking.SecretMasker.Walk: with several unknown tokens the place named is that of any of them; the program names the first in document order, and dictionaries have no order in the model.
- Masking.SecretMasker.Unmask: names the place that the walk names.
- Language tables, codec aliases, single filters, notifications, media-server hooks, single sign-on, sessions, the command line and the user interface would add only easy members or foreign code.
