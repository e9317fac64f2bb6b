# Verified models of the day-2 vCenter test tooling

A Dafny project that models the stateful parts of this repository and proves what they keep.
`dafny verify dfyconfig.toml` checks everything.

| module | models |
|---|---|
| `OvaCache` | the OVA download cache as a protocol: any number of calls in any number of processes, interleaved effect by effect, each effect able to fail, each call able to be killed between any two of its steps |
| `OvaLasting` | how long a reported success of that cache stays true, and runs that reach its bounds |
| `OvaDownload` | one call of `DownloadOVAToDir` as written; each of its effects is logged as a step of that protocol, and before each of them other calls may take any of theirs |
| `DhcpRelease` | the goroutines, semaphore, mutex and WaitGroup of `ReleaseDHCPLeases` |
| `MetricText`, `MetricScan` | the metric printer and parser: as functions with the exact round-trip condition, and as the source's loops |
| `MergePatch` | JSON merge patch, section 2 of RFC 7396 |
| `Infrastructure` | the Infrastructure spec, the spec Apply builds, its JSON form, and the removal helpers |
| `CloudConfig` | the cloud provider config, its two consistency assertions and its merge |
| `Credentials` | the two credential secrets and their merges |
| `LabPlan` | what one Apply or Restore intends to write, computed from the world it starts in |
| `Lab` | Apply and Restore step by step against a cluster and a state file, with a failure possible at every request and every disk write; proved to perform their plans, or a prefix, and to ask for what they should |
| `LabOutcome` | which Applies finish and what a finished Apply leaves, spelled out from the config and the cluster it found |
| `LabSafety`, `LabChecks` | what every sequence of Apply, dry run, Restore and operator reconciliation keeps |
| `LabRetry`, `LabRepeat` | what any number of Applies that died leave behind, and exactly when calling Apply again ends like one undisturbed Apply |
| `PhaseWatch` | the phase watcher: records updated poll by poll, and what each timestamp means |
| `SteadyRun` | the steady-state benchmark: drain, ramp, increments, and the restore in `AfterAll` |
| `VSpherePath` | splitting, joining and rewriting inventory paths |
| `Grid` | the test grid over runs, and its counts |
| `PerfStats` | percentiles and phase durations |
| `Text`, `Seqs`, `Wrappers` | the functions of Go's `strings` package that are used, sequences and sums, and Option/Result |

Foreign functions are parameters: SHA-256, `strconv.ParseFloat`, `unicode.ToLower`, and YAML as a parse/render pair.
Of a YAML pair only this is ever assumed: parsing inverts rendering on the values YAML can hold (for the cloud config, whose unknown keys are inlined, those whose unknown keys are not `global` or `vcenter`), parsing yields only such values, and a rendered credentials file is not empty.
Methods are proved against specification functions, and what those mean is stated a second time without them: with server names, keys, phases, counts and formulas spelled out.
Map iteration orders, server replies, failing calls, crash points, poll results and clocks are inputs or nondeterministic choices, so every theorem holds for all of them.

Where the code does not do what one would hope, the exact condition is proved:

* A success reported by the OVA cache stays true in every run exactly when no digest that callers of the path ask for can be satisfied by a file that breaks another one (`OvaLasting.SuccessLastsIff`). Concretely: no two different non-empty digests that files can have, and, where `os.Stat` may fail, not one such digest together with no digest at all (`OvaLasting.ConflictIff`). Both kinds of run are given: `OvaDownload.DifferentDigestsOverwrite` and `OvaDownload.NoDigestOverwrites`.
* With one agreed digest, each rename beyond the first is paid for by a failure to read a copy that was already good (`OvaCache.RenameBudget`), and for every n a run with n such failures and n + 1 renames exists (`OvaLasting.BudgetIsReached`).
* The metric printer does not escape label values; a vector reads back as itself exactly when every sample is well formed (`MetricText.RoundTripIff`). White space inside a label value is harmless, and so are quotes that are neither first nor last.
* A merge patch replaces a spec exactly when it empties no list and drops no section (`Infrastructure.PatchReplacesIff`): `omitempty` leaves an emptied list out of the patch, so the old one stays. Apply only appends.
* Merging a vCenter whose key already stood for another server can lose that server (`CloudConfig.MiskeyedMergeLosesVCenter`, exact condition in `CloudConfig.MergeKeepsChecksIff`).
* The merge of the YAML credentials secret is idempotent exactly under the condition of `Credentials.IdempotentIff`.
* `SaveState` writes in place, and `HasState` only looks for the file. When the save dies half-way the next Apply takes the torn file for a backup, goes through, and nothing can be restored any more (`LabChecks.TornBackupLosesStart`). Restore can finish exactly when the file is whole (`LabSafety.RestoreCompletesIff`).
* `AfterAll` skips worker sets that started at zero, so a ramp set bootstrapped from zero keeps its replicas: a concrete run is `SteadyRun.ZeroStartKeepsReplicas`. Which sets are back after a complete run is decided by the inputs alone: every set that is no worker or started with replicas, and otherwise the ramp set when max(floor, target) plus the increments is its start and the other workers when they started at zero (`SteadyRun.Bench.Run`).
* Any number of Applies with the same config may die anywhere, and the next one ends like some undisturbed Apply (in Infrastructure, config maps and secrets; once the spec is patched that is already so), exactly when the data key of the YAML secret does not depend on map order, or all its YAML keys can be merged and at most one of them is not settled yet, that is, does not hold what the merge would write there (`LabRepeat.RepeatableIff`). The outcome is the same for all map orders exactly when the key does not depend on them or all YAML keys are settled (`LabRepeat.ConvergentIff`). With two empty YAML files the retry goes wrong: `LabRepeat.TwoFilesDoNotConverge`.
* The ramp loop ends exactly when the floor reaches the target or the batch is positive (`SteadyRun.RampEndsIff`).
* Rewriting a datacenter twice is rewriting it once exactly when the first name is a single path component (`VSpherePath.RewriteTwiceIff`).

## Model

| member | source | states |
|---|---|---|
| OvaCache.RunKeepsInv | pkg/vsphere/image.go:90-187 | every reachable state: a call inside the critical section holds the lock of its path, temp files are owned by one call and hold exactly the bytes copied so far, the hasher saw exactly those bytes, and a pending success means the cached file matches |
| OvaCache.MutualExclusion | pkg/vsphere/image.go:114-119 | in every interleaving with failures and crashes, two calls on one cache path that are both between lock and unlock are the same call |
| OvaCache.SuccessMeansMatch | pkg/vsphere/image.go:121-186 | a call that is going to report success does so while the cached file exists and has the digest the call asked for |
| OvaCache.RunRefinesSimple | pkg/vsphere/image.go:131-186 | chunked streaming to temp files refines a cache that replaces a file atomically with the whole body of a 200 response |
| OvaCache.CacheContent | pkg/vsphere/image.go:148-186 | a cached file is its initial content or the whole body of one completed 200 response to a call for that path, and it never disappears |
| OvaCache.RenameBudget | pkg/vsphere/image.go:121-186 | when all callers of a path agree on a non-empty digest: renames are at most the failures to read a copy that was good, plus one if the file became good during the run |
| OvaLasting.BudgetIsReached | pkg/vsphere/image.go:121-186 | the bound is tight: for every n there is a run of agreeing callers with n failures to read a good copy and n + 1 renames |
| OvaCache.AtMostOneRename | pkg/vsphere/image.go:121-186 | as long as good copies can be read (other reads may fail): at most one rename, none if the file was already good, and after it the file is good |
| OvaCache.GoodCopyIsFinal | pkg/vsphere/image.go:121-130 | once the file is good and nobody is replacing it, its content never changes and nothing is downloaded for it, as long as it can be read |
| OvaCache.LaterCallsHit | pkg/vsphere/image.go:114-130 | a call that comes after the file is good can only wait, check, hit and end in success (or be killed), unless its flock fails |
| OvaLasting.SuccessLastsIff | pkg/vsphere/image.go:121-186 | in every run whose callers ask for these digests a reported success stays true, if and only if none of the digests conflicts with another one (no digest counts only where os.Stat may fail) |
| OvaLasting.ConflictIff | pkg/vsphere/image.go:124-128 | two requests conflict exactly when the first is a digest of some file and the second a different digest of some file, or none while some file has another digest |
| OvaCache.NoTempLeftBehind | pkg/vsphere/image.go:148-156 | without crashes and failing removes, when all calls have finished the temp files are exactly those of the start |
| OvaCache.NoDeadlock | pkg/vsphere/image.go:114-119 | an unfinished call can take its ordinary next step, or it waits for a lock whose holder can |
| OvaCache.CallsAreBounded | pkg/vsphere/image.go:90-187 | a call takes at most 12 steps plus one for each byte of the body it was sent, in every run |
| OvaDownload.CacheDir.DownloadOVAToDir | pkg/vsphere/image.go:90-187 | with any steps of other calls before each effect, the code takes part in a run of the protocol; it waits for ever only when the others are done and one of them still holds the lock; otherwise, if the file found when the lock was granted is readable and has the digest, it succeeds and the file stays; if not, it succeeds exactly on status 200 with an unbroken body that has the digest and working local calls, and then the file is that body, and else the one found; its temp file is gone unless a remove fails |
| OvaDownload.CacheDir.CheckCache | pkg/vsphere/image.go:121-129 | a hit exactly when a cached file is there, readable and accepted |
| OvaDownload.CacheDir.Answered | pkg/vsphere/image.go:138-146 | an answer with any status but 200 ends the call and leaves the file |
| OvaDownload.CacheDir.CopyChunks | pkg/vsphere/image.go:158-168 | the streamed copy: the temp file and the hasher receive the same bytes, chunk by chunk |
| OvaDownload.CacheDir.Store | pkg/vsphere/image.go:174-186 | the digest is compared and only a matching file is renamed onto the cache path |
| OvaDownload.DifferentDigestsOverwrite | pkg/vsphere/image.go:121-186 | a concrete run in which two callers with different digests both succeed and the first one's file is gone |
| OvaDownload.NoDigestOverwrites | pkg/vsphere/image.go:124-186 | a concrete run in which a caller without a digest, for whom os.Stat fails, replaces the file of an earlier success by one that does not match it |
| DhcpRelease.RunKeepsInv | pkg/framework/node.go:45-69 | tokens count the goroutines in the section, the WaitGroup the outstanding ones, the counter the recorded successes, the mutex its holder |
| DhcpRelease.BoundedParallelism | pkg/framework/node.go:50-67 | one token per goroutine inside the section, never more than 20, and one mutex holder |
| DhcpRelease.NoDeadlock | pkg/framework/node.go:52-69 | until the caller has returned some step is enabled |
| DhcpRelease.RunsAreBounded | pkg/framework/node.go:52-69 | n nodes take at most 9n + 1 steps under every schedule |
| DhcpRelease.ExactCount | pkg/framework/node.go:54-75 | when Wait has returned every node has answered once, the channel is empty, the count is the number of answers with a passed deadline, no failure or an i/o timeout, and an error is returned exactly when there were nodes and all failed |
| MetricText.RoundTripIff | pkg/framework/metrics.go:207-346 | for every vector and every map order, the printed text parses back to one entry per sample, with its name, its other labels and its value or 0, if and only if every sample is well formed |
| MetricText.PrintedBare | pkg/framework/metrics.go:221-242 | the text of a sample without labels, for every name and value |
| MetricText.PrintedLabels | pkg/framework/metrics.go:221-242 | the text of a sample with two labels, for every name, keys and values |
| MetricText.LineParsesIff | pkg/framework/metrics.go:221-242 | a single line without line breaks parses back to its sample if and only if the sample is well formed |
| MetricText.LookupRoundTrip | pkg/framework/metrics.go:255-283 | on a printed well-formed vector the lookup returns the value of the first sample, in vector order, with the name and all required labels (missing labels read as empty), a parse error for a bad value, and not-found exactly when there is none |
| MetricScan.VectorToText | pkg/framework/metrics.go:221-244 | the printing loop yields the printed text, for every order of each label map |
| MetricScan.ParseLabelBlock | pkg/framework/metrics.go:330-346 | the parsing loop yields the parsed block |
| MetricScan.LabelsMatch | pkg/framework/metrics.go:318-326 | true exactly when each required label reads as required |
| MetricScan.ParseMetricValue | pkg/framework/metrics.go:255-283 | the scan with early returns finds the first matching entry of the whole text |
| MergePatch.ReplacesIff | pkg/framework/infrastructure.go:80-90 | a null-free merge patch turns the target into itself exactly when, object by object, it names all keys of the target |
| MergePatch.MergeIdempotent | pkg/framework/infrastructure.go:61-78 | sending the same null-free patch again changes nothing |
| MergePatch.FlatExamples | pkg/framework/infrastructure.go:61-78 | examples of Appendix A of RFC 7396: null deletes, arrays are replaced |
| MergePatch.NestedExample | pkg/framework/infrastructure.go:61-78 | another one: objects merge member by member |
| Infrastructure.BuildInfrastructureSpec | pkg/lab/apply.go:231-264 | fails exactly without a vSphere section; otherwise one vCenter with the configured server, port and datacenters stands at the end, and after the failure domains the configured one with its name, region, zone, topology and that server, and nothing else changed |
| Infrastructure.HasServer | pkg/lab/apply.go:266-273 | true exactly when the server is among the vCenters |
| Infrastructure.BuildKeepsSpecOk | pkg/lab/apply.go:52-57 | a valid spec stays valid (distinct servers, at most three, no failure domain on an unknown server) exactly under the two guards of Apply |
| Infrastructure.RemoveFailureDomainByRegionZone | pkg/vsphere/types.go:57-66 | exactly the failure domains of another region or zone stay, in order |
| Infrastructure.RemoveVCenterByServer | pkg/vsphere/types.go:69-78 | exactly the vCenters of other servers stay, in order |
| Infrastructure.WithoutRegionZoneIff | pkg/vsphere/types.go:57-66 | the list is unchanged exactly when nothing has that region and zone |
| Infrastructure.WithoutServerIff | pkg/vsphere/types.go:69-78 | the list is unchanged exactly when no vCenter has that server |
| Infrastructure.RemoveUndoesBuildIff | pkg/vsphere/types.go:57-78 | removing the added server restores the vCenters; removing the added region/zone restores the failure domains exactly when that region/zone was new |
| Infrastructure.ListsInDocument | pkg/framework/infrastructure.go:80-90 | where the platform type and the two lists stand in the JSON document, and that an empty list stands nowhere |
| Infrastructure.PatchReplacesIff | pkg/framework/infrastructure.go:80-90 | between specs differing only in vCenters and failure domains, the patch is a replacement exactly when it empties no list and drops no section |
| Infrastructure.ApplyPatchReplacesSpec | pkg/framework/infrastructure.go:80-90 | the patch of an appended spec sets the spec to it and touches no other member of the object |
| CloudConfig.VCenterServersFromConfig | pkg/vsphere/cloud_config.go:48-61 | one server per entry, together exactly the served servers, in any map order |
| CloudConfig.AssertInfrastructureVCentersPresent | pkg/vsphere/cloud_config.go:64-86 | passes exactly when every Infrastructure server is a key or the server of some entry |
| CloudConfig.AssertNoStaleVCenters | pkg/vsphere/cloud_config.go:89-112 | passes exactly when each entry's server (its key when it has none) is in the Infrastructure |
| CloudConfig.MergeCloudProviderConfig | pkg/lab/credentials.go:23-68 | the step-by-step merge computes the merged config, and the text it returns reads back as: the login in user and password and every other global key as before, or an unchanged global section when that refers to a secret; the entry of the vCenter with its server, port and datacenters; all other entries and keys as before; for an unreadable config one entry per vCenter with its port and datacenters |
| CloudConfig.MergeCarries | pkg/lab/credentials.go:29-61 | the same about every merge, whatever was there |
| CloudConfig.MergeKeepsChecksIff | pkg/lab/credentials.go:49-61 | after a merge nothing is stale, and every server is present exactly when none was served by the overwritten entry alone |
| CloudConfig.WellKeyedMergeKeepsChecks | pkg/lab/credentials.go:49-61 | with entries keyed by their own server both assertions survive the merge against the spec Apply builds |
| CloudConfig.MiskeyedMergeLosesVCenter | pkg/lab/credentials.go:57-61 | a concrete miskeyed config for which the merge makes the presence assertion fail |
| CloudConfig.RebuiltConfigPassesChecks | pkg/lab/credentials.go:29-44 | when the old config does not parse, the rebuilt one passes both assertions, whatever it held |
| CloudConfig.ChecksMeanSameServers | pkg/vsphere/cloud_config.go:64-112 | for well-keyed configs the two assertions together say that config and Infrastructure name the same servers |
| CloudConfig.MergedIsReadBack | pkg/lab/credentials.go:23-68 | whatever text was there, the merged config is one that YAML can hold, and the rendered text parses back to it |
| CloudConfig.MergeAgain | pkg/lab/credentials.go:46-61 | merging the same vCenter into the merged config again changes nothing, for any spec |
| Credentials.MergeVSphereCreds | pkg/lab/credentials.go:70-83 | fails exactly without a readable password; otherwise the two keys of the server hold the login and every other key keeps its value |
| Credentials.PerVCenterCommutesIff | pkg/lab/credentials.go:80-82 | two vCenters can be added in either order exactly when their servers differ or their logins agree |
| Credentials.PickCredsKey | pkg/lab/credentials.go:140-152 | returns the first named key present, else some YAML key, else the default |
| Credentials.NormalizedIs | pkg/lab/credentials.go:154-156 | case, outer white space and one trailing slash do not matter for a URL, and nothing else is lost |
| Credentials.UpdateMatching | pkg/lab/credentials.go:117-123 | the in-place loop changes the login of exactly the entries with the server's normalized URL and says whether there was one |
| Credentials.UpsertInPlace | pkg/lab/credentials.go:116-130 | entries with the server's normalized URL keep their URL and get the login, all others stay; without one, an entry with URL, username and password is added at the end |
| Credentials.MergeCloudCredentials | pkg/lab/credentials.go:97-138 | the merge is the merge at one of the keys that some map order picks |
| Credentials.MergeCarries | pkg/lab/credentials.go:97-138 | the YAML secret read back after a merge: one key was written, and its list is the old one with the login of the server |
| Credentials.UpsertFacts | pkg/lab/credentials.go:116-130 | afterwards some entry serves the server and all such entries carry the new login; the others stay in order; nothing changes exactly when that already held |
| Credentials.MergeTouchesOnlyTheServer | pkg/lab/credentials.go:97-138 | a successful merge changes one data key; every other key, and every entry of another server in order, is kept |
| Credentials.IdempotentIff | pkg/lab/credentials.go:97-152 | merging twice is merging once, for all key choices, exactly when the key is determined, or no candidate parses, or all candidates are settled |
| LabPlan.SplitKeyIff | pkg/lab/apply.go:311-322 | splitting inverts joining exactly when the namespace has no slash |
| LabPlan.JoinOfSplit | pkg/lab/apply.go:315-322 | joining a split key gives the key back |
| LabOutcome.ValidateIff | pkg/labconfig/config.go:105-191 | validation accepts exactly the complete configs, trims the server, and puts 443 for a missing port |
| LabOutcome.FinishesExactlyWhen | pkg/lab/apply.go:28-98 | an Apply gets to its end exactly for a complete config, on a VSphere platform with the gate on, fewer than three vCenters, none of them the new server, the source config map there, and a YAML secret that is missing, empty or readable |
| LabOutcome.FinishedApplyLeaves | pkg/lab/apply.go:59-98 | what it leaves: the vCenter and failure domain in the spec; the login and the entry in the config map, read back; the two keys in the root secret; the login in the YAML list; all else as before; and a state file with the Infrastructure, the config map and the existing secrets of the start under their names |
| Lab.Cluster.Apply | pkg/lab/apply.go:28-98 | with a failure possible at every request and at the file write, before or after it took effect: Apply performs its whole plan, or dies after a prefix of it; if it does not die it succeeds exactly when it can be applied, and leaves what LabOutcome says; it has read the Infrastructure and the gate first, and ends with the nine waits, or in a dry run with the dry-run patch of the built spec |
| Lab.Cluster.Admit | pkg/lab/apply.go:37-57 | reads the Infrastructure and the gate, and goes on exactly under the admission checks |
| Lab.Cluster.WaitForClusterReady | pkg/lab/apply.go:275-309 | succeeds only after waiting for the four operators, the CSI driver and its pods, the machines, the nodes and the labels, in this order |
| Lab.Cluster.CaptureState | pkg/lab/apply.go:184-203 | yields the backup of the current objects, or nothing without the source config map |
| Lab.Cluster.BackupCredentialSecrets | pkg/lab/credential_secrets.go:42-55 | the secrets that exist, under their joined keys |
| Lab.Cluster.SaveState | pkg/lab/state.go:27-39 | the file is saved, or left alone, or left half-written |
| Lab.Cluster.UpdateCredentials | pkg/lab/apply.go:205-229 | config map first, then the secrets; nothing in a dry run |
| Lab.Cluster.UpdateCredentialSecrets | pkg/lab/credential_secrets.go:66-91 | root secret, then the YAML secret, skipping missing ones and stopping at the first error |
| Lab.Cluster.ReplaceInfrastructureSpec | pkg/framework/infrastructure.go:81-90 | sends the patch, as a dry run or not, and sets the spec unless it is a dry run |
| Lab.Cluster.RestoreInfrastructure | pkg/framework/infrastructure.go:36-57 | puts the backup's spec and status into the current object |
| Lab.Cluster.Restore | pkg/lab/apply.go:101-152 | for every order of the two maps: Restore performs its whole plan and succeeds exactly when it is complete, after waiting for a ready cluster, or dies after a prefix |
| LabSafety.RunKeepsInv | pkg/lab/apply.go:28-152 | over every run: objects outside the tracked ones never change, nothing changes before the backup, and a saved backup holds the starting point |
| LabSafety.BackupIsWrittenOnce | pkg/lab/apply.go:59-67 | once the state file exists it never changes again |
| LabSafety.BackupComesFirst | pkg/lab/apply.go:59-67 | without a state file the cluster is as at the start; a whole state file holds the starting Infrastructure, config map and secrets |
| LabSafety.RestoreCompletesIff | pkg/lab/apply.go:101-152 | in every reachable world a Restore can get to its end exactly when the state file is whole |
| LabSafety.RestoreReturnsToStart | pkg/lab/apply.go:101-149 | a Restore that finishes its writes returns Infrastructure, config maps and every secret Apply may write to their first values, after any history and in any map order |
| LabSafety.ConfigMapsRestored | pkg/lab/apply.go:113-128 | restoring from any backup whose keys split: exactly the named objects get their saved values, in any order |
| LabSafety.SecretsRestored | pkg/lab/apply.go:130-149 | the same for secrets, except the one left to the credentials operator |
| LabChecks.SpecStaysOk | pkg/lab/apply.go:52-57 | every reachable Infrastructure spec keeps servers distinct, at most three, and failure domains on known servers |
| LabChecks.EveryPatchReplaces | pkg/framework/infrastructure.go:80-90 | in every reachable world the merge patch that Apply would send is a true replacement of the spec |
| LabChecks.DryRunPredicts | pkg/lab/apply.go:78-82 | a dry run changes nothing and reaches its end exactly when the real Apply can |
| LabChecks.TornBackupLosesStart | pkg/lab/state.go:55-58 | a half-written state file is taken for a backup: the next Apply goes through and no Restore can succeed afterwards |
| LabChecks.ApplyFinishesIff | pkg/lab/apply.go:28-98 | an Apply can get to its end exactly when the config is valid, the cluster admits the server, the source config map and the vSphere section are there, and the YAML secret, if any, can be merged |
| LabChecks.WholeApply | pkg/lab/apply.go:59-98 | the complete effect of an Apply that finishes: spec, config map, both secrets, state file, and nothing else |
| LabChecks.WholeApplyPassesChecks | pkg/lab/apply.go:205-264 | after an Apply that finishes both config assertions hold, if they held before for a well-keyed config or the config was unreadable |
| LabChecks.NoDanglingVCenter | pkg/lab/apply.go:69-91 | at every point of every run, whatever died where, each vCenter of the Infrastructure is served by the cloud provider config, if it was at the start: config before spec in Apply, spec before config in Restore |
| LabRetry.TriesLeave | pkg/lab/apply.go:28-98 | after any number of Applies that died anywhere: with the spec as it was, every config map and secret holds its first value or that of one Apply; with the spec changed, everything is as after one undisturbed Apply (when only one data key is ever rewritten) |
| LabRepeat.RepeatableIff | pkg/lab/apply.go:28-98 | after any number of dead Applies the next one can finish and ends like some undisturbed Apply, if and only if the credentials key is determined or all YAML keys can be merged and at most one is open |
| LabRepeat.ConvergentIff | pkg/lab/apply.go:28-98 | it ends like every undisturbed Apply, if and only if the key is determined or all YAML keys are settled |
| LabRepeat.RetryConverges | pkg/lab/apply.go:59-98 | with a determined key, an Apply after one that died before the patch (the torn save included) leaves what that one would have left |
| LabRepeat.OpenKeysCollide | pkg/lab/credentials.go:97-152 | for any secret with two open keys that can be picked: a dead Apply and a finished one after it write both, which no single Apply does |
| LabRepeat.TwoFilesDoNotConverge | pkg/lab/credentials.go:97-152 | the same for a concrete world, config and secret |
| LabRetry.NoRetryAfterPatch | pkg/lab/apply.go:52-57 | once the spec is patched the same Apply stops at its checks and writes nothing |
| PhaseWatch.PollOnce | pkg/framework/machine.go:549-594 | one poll updates the records of the machines listed and counts those that are Running and not being deleted |
| PhaseWatch.Report | pkg/framework/machine.go:613-618 | every record is reported once and AllRunningTime is the latest Running time |
| PhaseWatch.WatchMachinePhaseTimestamps | pkg/framework/machine.go:530-627 | watches the polls up to the first with enough Running machines, succeeds exactly when there is one, and every reported record has the creation time from the first poll that showed its machine and the clocks of the first polls at each phase |
| PhaseWatch.RecordsAreShown | pkg/framework/machine.go:549-561 | there is a record exactly for each machine that some poll showed and that was not being deleted |
| PhaseWatch.RecordsAreFirstTimes | pkg/framework/machine.go:568-593 | each timestamp is the clock of the first poll that showed the machine in that phase or a later one, and zero when there was none |
| PhaseWatch.RecordsKeepCreation | pkg/framework/machine.go:552-560 | a record's creation time is that of its machine in the first poll that shows it |
| PhaseWatch.RecordStagesInOrder | pkg/framework/machine.go:568-593 | with clocks that never go back: Running set implies Provisioned set implies Provisioning set, in non-decreasing order, over any phase jumps and regressions |
| PhaseWatch.TimestampsAreWriteOnce | pkg/framework/machine.go:568-593 | records never go away and no set timestamp ever changes, over any polls at all |
| PhaseWatch.SuccessHasTarget | pkg/framework/machine.go:602-607 | a successful watch has at least targetCount distinct machines with a Running time |
| SteadyRun.RampEndsIff | test/e2e/steady_state_perf_test.go:176-186 | the ramp loop ends exactly when floor reaches target or the batch is positive; then at max(floor, target), each round adding between one and one batch |
| SteadyRun.RampCount | test/e2e/steady_state_perf_test.go:178-182 | n rounds are enough exactly when n is at least ceil((target - floor) / batch) |
| SteadyRun.RampClosedForm | test/e2e/steady_state_perf_test.go:176-182 | after n rounds the count is the smaller of floor + n times batch and the target |
| SteadyRun.Bench.ScaleMachineSet | pkg/framework/machine.go:97-107 | sets one existing set's replicas; a failing call may have taken effect |
| SteadyRun.Bench.P0 | test/e2e/steady_state_perf_test.go:107-174 | wherever the drain stops, every set that differs from its start is recorded with its starting count; on success the ramp set is at the floor, the other workers at zero, exactly the sets named perf-bench-* and perf-newml-* are gone, every other set is as it was, and the floor's machines are seen; it has asked, in this order and with success, for the list, every change of a count (waiting for machines where it grows), every drain, every deletion, the machines and ready nodes; when enough calls work it succeeds, unless there are no workers |
| SteadyRun.Bench.Drain | test/e2e/steady_state_perf_test.go:112-136 | the recording happens before the scaling, set by set; every set whose count differs from what it keeps is scaled, and waited for where it grows |
| SteadyRun.Bench.DeleteLeftovers | test/e2e/steady_state_perf_test.go:147-155 | on success no set named perf-bench-* or perf-newml-* is left, each was asked to be deleted, and all others stay |
| SteadyRun.Bench.P1 | test/e2e/steady_state_perf_test.go:176-186 | on success exactly ceil((target - floor) / batch) steps, ending at max(floor, target), only the ramp set moved; each step asked for its count and then for ready nodes, has its index, its replica count and at least its batch of Running machines, whose times are those that some stretch of the polls shows; when enough calls work it ends unless the polls run out |
| SteadyRun.Bench.P2 | test/e2e/steady_state_perf_test.go:188-194 | one step for each increment, ending at the running sum, each with at least its increment of Running machines and the same two requests; when enough calls work it ends unless the polls run out |
| SteadyRun.Bench.RunSteadyStep | test/e2e/steady_state_perf_test.go:328-357 | a step completes only after exactly two working calls, the scaling and ready nodes, and a full batch between them, and gives up only on a failing call or when the polls run out; its machines were never seen before, at least the batch of them have a Running time, and their creation and phase times are those of the polls |
| SteadyRun.Bench.WatchNewMachinePhases | test/e2e/steady_state_perf_test.go:362-442 | the records are those of a plain phase watch restricted to machines not seen before, it stops after the first poll with enough Running ones, and the seen set grows by exactly the machines shown |
| SteadyRun.Bench.AfterAll | test/e2e/steady_state_perf_test.go:87-105 | if its scale calls succeed, every set ends at its starting count exactly when that count was positive or never changed; in any case no set is moved anywhere else; each positive recorded count is asked for, and ready nodes at the end |
| SteadyRun.Bench.Specs | test/e2e/steady_state_perf_test.go:107-194 | the ordered run may stop anywhere with every changed set recorded; when it ends, it has asked for all of P0 and then for each step, all with success, machines partition over steps and carry the times of the polls, the ramp set is at max(floor, target) plus the increments, the other workers at zero, the leftovers are gone and all other sets as they were; when enough calls work it ends unless the polls run out |
| SteadyRun.Bench.Run | test/e2e/steady_state_perf_test.go:87-194 | the restore guarantee from whatever point the run stopped at; after a complete run every set has the count spelled out from the inputs of the run, which is its starting one exactly when it is no worker, started with replicas, or started at what the run leaves it at; exactly the sets with the leftover names are gone; and a run with enough working calls is complete unless the polls run out |
| SteadyRun.ZeroStartKeepsReplicas | test/e2e/steady_state_perf_test.go:94-99 | a concrete run: a ramp set that starts at zero ends at the floor |
| VSpherePath.SplitOn | pkg/framework/machine.go:418-429 | the index loop splits at every separator |
| VSpherePath.SplitVSpherePath | pkg/framework/machine.go:408-416 | the non-empty components in order |
| VSpherePath.JoinVSpherePath | pkg/framework/machine.go:431-440 | the components joined with slashes |
| VSpherePath.RewriteDatacenter | pkg/framework/machine.go:390-406 | replaces the first component of a path that has one |
| VSpherePath.FirstComponentReplaced | pkg/framework/machine.go:390-406 | for every path of components: the first is replaced and the rest of the path stays |
| VSpherePath.JoinOfSplit | pkg/framework/machine.go:418-440 | joining what splitting produced gives every string back |
| VSpherePath.SplitInvertsJoinIff | pkg/framework/machine.go:408-440 | splitting inverts joining on exactly the lists of non-empty slash-free components |
| VSpherePath.RewriteTwiceIff | pkg/framework/machine.go:390-406 | rewriting to a and then b is rewriting to b exactly when a is one component, or there is nothing to rewrite (or the degenerate empty case) |
| VSpherePath.RewriteBackIff | pkg/framework/machine.go:390-406 | rewriting away and back restores exactly the canonical paths |
| Grid.Classify | cmd/aggregate-junit/main.go:324-335 | an error hides a failure and a failure hides a skip; no case is classified as missing |
| Grid.FillMatrix | cmd/aggregate-junit/main.go:223-254 | the nested loops fill the matrix from all cases of all parsable files |
| Grid.GridCell | cmd/aggregate-junit/main.go:247-251 | each cell is the maximum classified result shown for that test and run, missing exactly when there is none |
| Grid.CellByName | cmd/aggregate-junit/main.go:237-251 | from the marks of the cases alone: error if some case erred, else failure if some failed, else pass if some was not skipped, else skip if there is one, else missing |
| Grid.FiguresSay | cmd/aggregate-junit/main.go:261-295 | rates and summaries as sizes of sets of runs and tests with a given result |
| Grid.SameCasesSameGrid | cmd/aggregate-junit/main.go:223-254 | file and case order, and repetition, cannot show in any cell or in the set of tests |
| Grid.BuildGrid | cmd/aggregate-junit/main.go:205-300 | fails exactly without run directories; otherwise runs, tests without repetition, and by result name: each cell is the worst that any case shows, each rate the share of passes among passes, failures and errors, and each summary the number of tests with each result |
| Grid.SummaryAddsUp | cmd/aggregate-junit/main.go:277-295 | pass, fail, skip, error and missing add up to the total, which is the number of tests |
| Grid.PassesAgree | cmd/aggregate-junit/main.go:261-295 | passes added up by test equal passes added up by run |
| Grid.RateFacts | cmd/aggregate-junit/main.go:261-275 | a rate exists exactly for tests with some pass, failure or error; it lies in 0..100, is 100 exactly without failures and errors and 0 exactly without passes |
| PerfStats.ComputePercentile | cmd/perf-compare/main.go:328-334 | copies, sorts the copy in place and returns the percentile |
| PerfStats.PercentileRank | cmd/perf-compare/main.go:328-334 | the result is an element; with idx the integer part of (n - 1) p, at least idx + 1 elements are at most it and at least n - idx at least it |
| PerfStats.PercentileOfPermutation | cmd/perf-compare/main.go:328-334 | the order of the input does not matter |
| PerfStats.PercentileMonotone | cmd/perf-compare/main.go:328-334 | a larger p gives no smaller percentile |
| PerfStats.ComputeStats | cmd/perf-compare/main.go:124-176 | count, total time and throughput, and each of the six figures is the 50, 90 or 99 percent percentile of its list, 0 for an empty list |
| PerfStats.ComputeNewMLStats | cmd/perf-compare/main.go:178-219 | none without a Running machine; otherwise each figure is the 50 percent percentile of its list |
| PerfStats.NewMLMedians | cmd/perf-compare/main.go:178-219 | the figures exist exactly when some machine got to Running, and each is the percentile of its list |
| PerfStats.PhaseDurations | cmd/perf-compare/main.go:130-144 | each of the four lists is, in machine order, the difference of the two named stamps over exactly the machines that have the stamps the code tests |
| PerfStats.DecomposeIsDurations | cmd/perf-compare/main.go:130-144 | the same about the specification function |
| PerfStats.PercentilesInOrder | cmd/perf-compare/main.go:155-159 | p50, p90 and p99 of every report are in order |
| PerfStats.LengthsAgreeIff | cmd/perf-compare/main.go:130-144 | the four lists are equally long exactly when every Running record has its earlier stamps |
| PerfStats.PhasesAddUp | cmd/perf-compare/main.go:130-144 | then the three phases add up to the totals |
| PerfStats.PhasesAddUpEach | cmd/perf-compare/main.go:130-144 | for complete records the lists go machine by machine, and each total is the sum of its three phases, with every summand spelled out |
| PerfStats.WatchedPhasesAddUp | cmd/perf-compare/main.go:130-144 | for the records of any phase watch the lists are equally long, add up, and the later two phases are never negative |

## Left out

- Kubernetes, OpenShift, govmomi, HTTP, TLS and `oc debug` clients: each call is its success or failure and its effect on the modelled state.
- YAML, JSON, XML, SHA-256 and float parsing internals: parameters, as described above.
- The OVA cache's file names: a lock is identified with its cache path, and temp names are never reused or shared. A URL whose base name ends in `.lock` or looks like a temp name is not modelled.
- Other writers: only `DownloadOVAToDir` writes the OVA cache, and only Apply, Restore and the credentials operator (one secret) write the lab's objects.
- DhcpRelease: starts from the node list; listing the machines and skipping nodes without a reference is not part of this model.
- Lab.Cluster.RestoreInfrastructure: writes the status with the spec, as the code asks; whether the API server ignores status on such an update does not matter here, because nothing in the model changes the status.
- Lab.Cluster.Apply: each wait for a part of the cluster is one call that succeeds or fails; the config's password file is read once; the config and its state directory are values.
- Object metadata, resource versions and conflicts, and `stringData`: not part of the modelled objects.
- PhaseWatch.WatchMachinePhaseTimestamps: polling intervals and the timeout are a list of polls that may run out anywhere; the zero time is the smallest time.
- SteadyRun.Bench.WatchNewMachinePhases: the node-join timestamps added afterwards and the sorting of the result by name are not modelled.
- SteadyRun.Bench.AfterAll: sets with the leftover prefixes may be deleted by P0 and are then not restored.
- Grid.BuildGrid: the tests come in some order, the sort only fixes which; the documentation links are left out, and reading the directories is not part of this model.
- PerfStats.ComputeStats: durations are unbounded integers (Go saturates `time.Duration`), the percentile index and the rates are exact instead of rounded, throughput is per nanosecond, and the steady-state figures that are only passed through are left out.
- `Verify`, `GlobalInsecureOnly`, `FindFailureDomainByRegionZone`, clone helpers, waiting helpers, session cache, tag lookups, report printing, CLI flags and shell scripts: thin wrappers or linear scans that would only add easy members.
