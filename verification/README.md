# Verified model of the cloud-hypervisor Nomad driver

The driver starts virtual machines for Nomad: it pulls an OCI image into a cache shared by all its
processes, merges the image's settings with the job's, prepares disks and tap devices, prints the
command line of cloud-hypervisor, and watches the process until Nomad destroys the task. This project
models those parts in Dafny and proves what they promise.

| part | files | form |
|---|---|---|
| OCI cache | `Registry`, `CacheProtocol`, `CacheInvariant`, `CacheSafety`, `CacheReferences`, `CacheTitles`, `CacheLiveness` | state machine over any number of processes, with failures, crashes and moving tags; where layer titles lead; fair runs |
| one pull | `Materialize`, `Progress`, `CacheRefinement` | a class that writes files and loops, and a proof that each call is a path of the state machine, whatever others do meanwhile |
| configuration | `Text`, `Paths`, `TaskConfig`, `OciPayload`, `Launch` | functions, loops and the class that rewrites `driverConfig` |
| command line | `Resources`, `ChArgs`, `ChArgsReader`, `LaunchArgs`, `ImageReadings` | a printer with its loops, a reader, the proof that they undo each other, what a start launches, and when the two readings of an image agree |
| one task | `TaskHandle`, `HandleProtocol`, `HandleLiveness`, `StopTask` | the handle and store classes, every interleaving of goroutine, waiters and inspectors, fair runs, and the deadline loop |
| all tasks | `Taps`, `Driver`, `DriverRuns` | classes for the host's devices and virtual machines and for the driver, and runs of starts, exits, recoveries, destroys and restarts |
| job variables | `GoQuote`, `VarArgs` | UTF-8 and Go's quoting with its reader, and the printing loop with its own |

Each imperative method is proved equal to a function of the old state (`FinishEffect`, `AfterExit`,
`UpAllEffect`, `Args`, ...), or to a relation (`Pulled`, `StopSequence`). The runs of the driver are made
of those same functions. The finer machines are connected to them: a pull is a path of the cache protocol
(`PullIsPath`, `CallContinuesRun`), the goroutine ends where `Run` ends (`RecordsAsRun`), and the
configuration a successful start stores is the one the results about disks, networks and the seed ISO
speak of (`StartLaunches`, `LaunchedConfig`).

Where a promise does not hold for every input, the exact condition is proved:

- The directories of a shared cache are exactly their manifests in every registry and run precisely when
  everybody who uses the cache asks by digest (`CacheReferences.ExactExactlyByDigest`). Two runs show the
  failing side: a tag that moves fills one digest's directory with another's file (`MovedTag`), and a
  later caller that asks by digest is handed that file (`PoisonedDigest`). With tags, a digest's directory
  is exact when the two resolves of those who fill it agree (`CompletedExactly`), and in any case holds
  one manifest in full (`CompletedFromOneManifest`).
- All results about the cache are for images whose layer titles do not lead out of the work directory or to
  the completion marker (`Registry.Contained`). A title stays in the work directory precisely when its
  cleaned components do not start upwards, and names one file there precisely when a single plain name is
  left (`CacheTitles.StaysExactly`, `FileExactly`); titles with the same name left are one file, and a title
  that stays without naming a file of the directory itself cannot be created. Outside: the file of
  `./.complete` is the marker (`MarkerTitle`), and a run completes a directory before its files are there
  (`EarlyMarker`); `../e/name` is a file of another digest's directory (`EscapingTitle`).
- metadata.json in an exact directory is the config blob precisely when no layer with other bytes is the last
  to be written under that name (`ImageReadings.MetadataIsConfig`).
- A step keeps the host's tap devices equal to those of the tasks that hold one precisely when it is
  `Benign` (`DriverRuns.TapsStep`). The guards name the branches that break it: a failed start, a second
  network with auto-tuntap, an image that changes its mind between its readings, a refused destroy, a
  failed clean-up, and a plugin restart. Two runs from the empty driver show a start that leaves a tap
  without a task (`FailedStartLeavesTap`) and a task that loses its tap (`LiveTaskWithoutTap`).
- A step keeps the running virtual machines equal to those of the running tasks in memory precisely when it is
  `Accounted` (`DriverRuns.VmsStep`). A start that launches and cannot save its state is not, and a run shows
  the virtual machine it leaves (`UnsavedStartLeavesVm`).
- When both readings of an image agree, a seed ISO that was built is one disk more at the launch precisely when
  there is no OCI image (`LaunchArgs.SeedSurvives`).
- Printing loses nothing precisely when no comma-list value contains a comma
  (`ChArgsReader.ReadBackExactly`), and job variables read back precisely when no key contains a line
  break (`VarArgs.RoundTrip`).
- The memory product is exact precisely below 2^43 MB (`Resources.MemoryBytesExact`), and all that progress
  reports promise holds for every chunking precisely up to (2^63-1)/100 bytes (`Progress.ThrottledExactly`).

Where the repository's code and its own text disagree, the model follows the code:

- Comments at `internal/oci/oci.go:174` and `internal/oci/oci.go:199` speak of 5 percentage points; the
  code reports every 3 (`internal/oci/oci.go:214`).
- `chdriver/cloudhypervisor_test.go:52` allocates 512 MB and expects it to be accepted without a balloon;
  the code refuses less than 768 MB and adds a balloon by default
  (`chdriver/cloudhypervisor.go:160-190`).
- The comment at `chdriver/driver.go:459` says that the seed ISO reaches the hypervisor. With an OCI image
  it does not, because the configuration is merged again from the job after the download
  (`chdriver/oci_payload.go:160`).

## Model

| member | source | states |
|---|---|---|
| `CacheTitles.StaysExactly` | internal/oci/oci.go:161 | a title stays in the work directory, wherever that is, if and only if its cleaned components do not start upwards |
| `CacheTitles.FileExactly` | internal/oci/oci.go:161 | a title names one file of the work directory, wherever that is, if and only if the name it is written under is a plain one |
| `CacheTitles.LandingPath` | internal/oci/oci.go:161 | the path of such a title is the path of the name it is written under |
| `CacheTitles.SameFile` | internal/oci/oci.go:161 | two such titles are one file if and only if they are written under one name |
| `CacheTitles.MarkerTitle` | internal/oci/oci.go:92-161 | the file of the title `./.complete` is the completion marker |
| `CacheTitles.TwoTitlesItems` | internal/oci/oci.go:146-161 | images whose first title leads to the marker exist, and are not contained |
| `CacheTitles.EarlyMarker` | internal/oci/oci.go:76-79 | for such an image a run has a complete directory without the files of any manifest |
| `CacheTitles.EscapingTitle` | internal/oci/oci.go:161 | a title that starts upwards can be a file of another digest's directory |
| `CacheInvariant.InvStep` | internal/oci/oci.go:47-196 | for contained images, every step of any process, and every tag move, keeps: locks are held by exactly the process in the locked section, files before the current one are whole, a complete directory contains some manifest in full |
| `CacheInvariant.InvRun` | internal/oci/oci.go:47-196 | the invariant holds in every state of every run, with failures and crashes at any step |
| `CacheSafety.CompleteForever` | internal/oci/oci.go:73-99 | no later step changes a file of a complete directory |
| `CacheSafety.MarkedOnce` | internal/oci/oci.go:92-95 | over any run each digest's marker is written at most once |
| `CacheSafety.ReturnedForever` | internal/oci/oci.go:73-99 | every artifact ever returned stays complete and unchanged |
| `CacheSafety.LockedThrough` | internal/oci/oci.go:61-73 | through its whole locked section a process holds the lock of that digest and nobody else does |
| `CacheSafety.CompletedFromOneManifest` | internal/oci/oci.go:250-272 | with tags free to move, a complete directory has all files of one manifest, resolved by the marker's writer while it held the lock until it wrote the marker |
| `CacheSafety.CompletedExactly` | internal/oci/oci.go:134-171 | if the second resolves of the processes that fill a digest's directory give that digest, the directory, once complete, is exactly the fold of its manifest and the marker, whatever earlier attempts left and whatever happens to other digests |
| `CacheReferences.UndisturbedAgree` | internal/oci/oci.go:56 | resolves agree when no tag moves between the two resolves of a process that uses it |
| `CacheReferences.MovedTag` | internal/oci/oci.go:251 | a run in which a moving tag fills one digest's directory with another's file |
| `CacheReferences.PoisonedDigest` | internal/oci/oci.go:73-79 | a run in which a caller that asks by digest is handed that file as a cache hit |
| `CacheReferences.DigestsExact` | internal/oci/oci.go:47-100 | when everybody asks by digest, every complete directory is exact |
| `CacheReferences.ExactExactlyByDigest` | internal/oci/oci.go:47-100 | for any set of references used on a shared cache: complete directories are exact in all registries and runs if and only if all of them are digests |
| `CacheLiveness.WorksOrWaits` | internal/oci/oci.go:47-196 | an unfinished process can step, is refused by the registry, or waits for a held lock |
| `CacheLiveness.NoDeadlock` | internal/oci/oci.go:69-72 | while a process is unfinished, it or the holder of the lock it waits for can go on |
| `CacheLiveness.StepCloser` | internal/oci/oci.go:47-196 | every step of a process lowers stage, files left and bytes left in lexicographic order, however long the manifest of the second resolve is |
| `CacheLiveness.EventuallyStill` | internal/oci/oci.go:47-196 | in every unbounded run each process takes only finitely many steps |
| `CacheLiveness.EveryoneEnds` | internal/oci/oci.go:47-196 | in every fair unbounded run that starts finitely many processes, each of them ends with the artifact or a failure; nobody waits for ever |
| `Materialize.Cache.Copy` | internal/oci/oci.go:188-194 | the chunks end up in the file in order, and the progress reader has seen each of them |
| `Materialize.Cache.FetchBlobToFile` | internal/oci/oci.go:176-196 | the file holds what was delivered, a broken-off fetch leaves it truncated, other files keep their bytes, and the reports are those of the throttle |
| `Materialize.Cache.WriteLayers` | internal/oci/oci.go:146-168 | titled layers are written in order under the names their titles lead to, untitled ones skipped, and the first failure stops the loop with everything before it whole |
| `Materialize.Cache.MaterializeImage` | internal/oci/oci.go:134-171 | config first, then titled layers, last writer of a file wins; on failure the item at fault and how far it came |
| `Materialize.NextItem` | internal/oci/oci.go:146-161 | the items after the config are the titled layers in order, each under the name its title leads to, with its digest and size |
| `Materialize.Cache.PullLocked` | internal/oci/oci.go:73-99 | what the locked section leaves in its directory on every path, and that it touches no other |
| `Materialize.Cache.PullIntoCache` | internal/oci/oci.go:47-100 | after waiting for the lock as long as others hold it, the pull leaves its directory as `Pulled` says, other directories keep their files, and the lock is free again on every way out |
| `Materialize.PulledMeans` | internal/oci/oci.go:73-99 | a complete directory is returned untouched, a successful pull makes it exact when leftovers have the manifest's names, a failed one leaves no marker unless writing the marker failed |
| `CacheRefinement.OthersStep` | internal/oci/oci.go:61-73 | for contained images, a step of another process leaves a process where it is and the directory it has locked as it is |
| `CacheRefinement.OwnStep` | internal/oci/oci.go:61-99 | for contained images, a step of a process leaves all others where they are and every directory but the one it has locked as it is |
| `CacheRefinement.Stream` | internal/oci/oci.go:176-196 | streaming a blob in any chunks is a sequence of appends of the protocol |
| `CacheRefinement.Fill` | internal/oci/oci.go:134-171 | writing items in order is a path of the protocol, whatever others do between any two steps |
| `CacheRefinement.PullIsPath` | internal/oci/oci.go:47-100 | every call whose first resolve succeeds is a path of protocol steps of its process with the same directory and result, whatever others and the tags do before, between and after them |
| `CacheRefinement.UnresolvedIsPath` | internal/oci/oci.go:56-59 | a call whose first resolve fails stops and changes no directory |
| `CacheRefinement.CallContinuesRun` | internal/oci/oci.go:47-100 | such a path goes on any run it starts in, so all results over runs hold of calls |
| `Progress.PctReader.Read` | internal/oci/oci.go:209-220 | one read changes the counters and reports as `AfterRead`, with `int64` wrap-around |
| `Progress.PercentExact` | internal/oci/oci.go:213 | `read*100` is exact if and only if read is at most (2^63-1)/100, and then the percentage is the true one rounded down |
| `Progress.ThrottleGuarantee` | internal/oci/oci.go:209-220 | for any chunking of a total up to (2^63-1)/100: reports rise by at least 3, are at most 100 and at most 33 many, lag the truth by less than 3, and end at 98 or more |
| `Progress.ThrottledExactly` | internal/oci/oci.go:209-220 | all of that holds for every chunking if and only if the total is at most (2^63-1)/100 |
| `Progress.ReportsTrue` | internal/oci/oci.go:209-220 | every report is the true percentage, rounded down, at the read that made it |
| `Paths.CleanRelative` | chdriver/oci_payload.go:204-209 | cleaning a relative path does not change where its components lead from any start |
| `Paths.JoinCleaned` | chdriver/oci_payload.go:204-209 | joining a cleaned relative path is joining the path itself |
| `Paths.CleanIdempotent` | chdriver/oci_payload.go:204-209 | cleaning twice is cleaning once, for every path |
| `Paths.JoinNameInjective` | chdriver/driver.go:492 | different file names in one directory give different paths |
| `Paths.JoinWalks` | chdriver/oci_payload.go:204-209 | a joined path is the directory's components with the other path's walked from there |
| `Paths.BaseIsLast` | chdriver/cloudhypervisor.go:50 | the base of a path is its last component, whatever slashes follow it |
| `OciPayload.BuildConfigFromOCIMetadata` | chdriver/oci_payload.go:97-134 | the loop over the image's disks and the optional parts give `ImageConfig`, whose fields `MergedFields` states |
| `OciPayload.ApplyJobConfig` | chdriver/oci_payload.go:164-202 | the assignments give `ApplyJob`, whose fields `JobWins` states |
| `OciPayload.JobWins` | chdriver/oci_payload.go:164-202 | nine fields (kernel, initramfs, command line, disks, console, networks, cloud-init, serial, balloon): the job's where it sets them, otherwise the base's, and the image reference is the base's |
| `OciPayload.ResolvedLocated` | chdriver/oci_payload.go:204-209 | an empty or absolute path stays; a relative one becomes the path of its components walked from those of the work directory, absolute if that is |
| `OciPayload.LocatedAbsolute` | chdriver/oci_payload.go:204-209 | in an absolute work directory every relative path becomes absolute |
| `OciPayload.MergedFields` | chdriver/oci_payload.go:97-202 | every field of a merged configuration is the job's where the job sets it, otherwise that of the same name in the metadata, with kernel, initramfs and disk paths located |
| `OciPayload.MergedWithout` | chdriver/oci_payload.go:97-99 | without metadata it is the job |
| `OciPayload.ResolveTwice` | chdriver/oci_payload.go:204-209 | resolving a path against nothing and then against the work directory is resolving it once |
| `OciPayload.DownloadOnlyResolvesImagePaths` | chdriver/oci_payload.go:140-162 | for the same metadata the configuration after the download is the earlier one with only image-sourced kernel, initramfs and disk paths resolved |
| `OciPayload.MergeLaws` | chdriver/oci_payload.go:164-202 | merging is associative, the empty job is its identity, and repeating a merge changes no winner |
| `Launch.DriverConfig.ResolveOCIPayload` | chdriver/oci_payload.go:47-71 | the configuration becomes the merge with unresolved image paths, or stays when there is no image or the fetch fails |
| `Launch.DriverConfig.MaterializeOCIPayload` | chdriver/oci_payload.go:140-162 | the configuration becomes the merge of the job over the downloaded image, or stays when there is no image or the download fails |
| `Launch.DriverConfig.AttachSeed` | chdriver/driver.go:453-464 | the seed ISO becomes the last disk exactly when user data is given and the ISO was created |
| `Launch.DriverConfig.CreateOverlays` | chdriver/driver.go:490-514 | every disk that wants an overlay and no other is rewritten, and a failure leaves exactly the disks before it rewritten |
| `Resources.Vcpus` | chdriver/cloudhypervisor.go:207-219 | at least 1, the reserved cores when any are given, otherwise v with v*1000 <= max(shares,1000) < (v+1)*1000 |
| `Resources.MemoryBytesExact` | chdriver/cloudhypervisor.go:223-228 | the `int64` product is exact if and only if the allocation is below 2^43 MB in magnitude |
| `Resources.GuestAcceptance` | chdriver/cloudhypervisor.go:157-170 | a positive allocation is accepted if and only if it is at least 768 MB, and the guest gets (MB - 512) * 1024 * 1024 bytes |
| `ChArgs.DeviceArgs` | chdriver/cloudhypervisor.go:106-153 | the loops give one item a disk and one a network, in order |
| `ChArgs.BuildCHArgs` | chdriver/cloudhypervisor.go:87-193 | the printed list is `Args`, or the refused allocation |
| `ChArgsReader.ReadDiskArg` | chdriver/cloudhypervisor.go:107-130 | a printed disk item reads back as path, type, read-only, direct and backing files when it holds no comma |
| `ChArgsReader.ReadNetArg` | chdriver/cloudhypervisor.go:137-153 | a printed network item reads back as tap and MAC when they hold no comma |
| `ChArgsReader.ReadBack` | chdriver/cloudhypervisor.go:87-193 | the printed list reads back as every effective setting, disks and networks in order |
| `ChArgsReader.ReadBackExactly` | chdriver/cloudhypervisor.go:87-193 | and does so if and only if no comma-list value contains a comma |
| `ChArgsReader.SettingsInFull` | chdriver/cloudhypervisor.go:87-193 | what is read back field by field: each flag carries the setting of its name, a tap is `tap-` and the last ID component or the one asked for, the balloon is the task's own or `size=0` that deflates and reports |
| `ChArgsReader.PrintedMemory` | chdriver/cloudhypervisor.go:157-170 | the memory read back is (MB - 512) * 1024 * 1024, and none for no allocation |
| `LaunchArgs.OverlayPathsDistinct` | chdriver/driver.go:492 | overlay files of two disks are the same if and only if the disks are, and none is the seed ISO |
| `LaunchArgs.StartLaunches` | chdriver/driver.go:516-553 | a successful start stores the task it was asked for, running since the time of the start with the launched pid, socket and configuration, saves the same, and its virtual machine got the command line printed from that configuration |
| `LaunchArgs.LaunchedConfig` | chdriver/driver.go:412-526 | step by step, early merge, seed, late merge and overlays launch the configuration described by `Launched` |
| `LaunchArgs.ImageEarly` | chdriver/driver.go:426-467 | field by field, what a task with an image has before its download |
| `LaunchArgs.ImageLaunched` | chdriver/driver.go:485-526 | field by field, what a task with an image is launched with |
| `LaunchArgs.PlainLaunched` | chdriver/driver.go:453-526 | without an image: the job as it is, the seed ISO after its disks exactly when user data is not empty, and overlays where asked for |
| `LaunchArgs.SeedBuilt` | chdriver/driver.go:453-464 | a start builds the ISO, as the last disk, exactly when user data is not empty |
| `LaunchArgs.NetworksSurviveDownload` | chdriver/driver.go:466-485 | the launched networks are those the taps were brought up from, if and only if there is no image, the job names networks, or both readings of the image agree |
| `LaunchArgs.DisksAttached` | chdriver/driver.go:489-514 | from Start through printing, overlay disks are attached only through their own overlay with direct=on exactly for reflinks and backing_files=on over qcow2 otherwise, all other disks as asked |
| `LaunchArgs.SeedAttachedLast` | chdriver/driver.go:453-464 | without an image the seed ISO is the last, read-only disk on the command line, after the job's disks |
| `LaunchArgs.SeedSurvives` | chdriver/oci_payload.go:160 | a seed ISO that was built is one disk more at the launch if and only if there is no OCI image; with one the launched disks are exactly the overlaid merge |
| `ImageReadings.FilesOfLast` | internal/oci/oci.go:146-168 | a file holds what its last writer wrote |
| `ImageReadings.MetadataIsConfig` | chdriver/oci_payload.go:149-154 | in an exact directory metadata.json is the config blob if and only if no layer with other bytes is its last writer |
| `ImageReadings.ReadingsAgree` | internal/oci/oci.go:104-129 | for such an image the reading before the download and the one after it give the same metadata |
| `ImageReadings.UnmovedImageKeepsConfig` | chdriver/oci_payload.go:140-162 | when the reference has not moved, a start launches the early configuration with only the image's own paths resolved, and the networks its taps came from |
| `TaskHandle.TaskHandle.Run` | chdriver/handle.go:64-92 | the handle becomes exited at the given time with the process's exit code, signal and out-of-memory mark, or the error and zeros, and the channel is closed |
| `TaskHandle.TaskHandle.IsRunning` | chdriver/handle.go:56-60 | whether the handle is running |
| `TaskHandle.TaskHandle.TaskStatus` | chdriver/handle.go:38-54 | the whole status, field by field |
| `TaskHandle.TaskStore.Set` | chdriver/state.go:22-26 | one entry changes, no other |
| `TaskHandle.TaskStore.Get` | chdriver/state.go:28-33 | the entry, if and only if there is one |
| `TaskHandle.TaskStore.Delete` | chdriver/state.go:35-39 | one entry goes, no other |
| `HandleProtocol.InvRun` | chdriver/handle.go:64-92 | in every interleaving the fields are as far as the goroutine has written them, woken waiters come after the closed channel, and readers never overlap the writer |
| `HandleProtocol.RecordedForever` | chdriver/handle.go:67-90 | Running to Exited is never undone, and a recorded result, time and closed channel stay |
| `HandleProtocol.ClosedOnce` | chdriver/handle.go:91 | over any run, fair or not, the done channel is closed at most once |
| `HandleLiveness.RunCloses` | chdriver/handle.go:64-92 | in every fair run in which the process exits, the goroutine gets the lock and to the closed channel, however many inspectors keep coming |
| `HandleLiveness.ClosedExactlyOnce` | chdriver/handle.go:91 | in every fair run in which the process exits, the done channel is closed exactly once |
| `HandleLiveness.WaiterServed` | chdriver/driver.go:623-635 | in every such run each waiter that is not cancelled gets the exit code, signal and mark, or the error, that `Wait` gave |
| `HandleProtocol.ResultsDelivered` | chdriver/driver.go:612-635 | every delivered result has the exit code, signal and mark, or the error, that `Wait` gave, even after Destroy drops the handle, and no waiter gets two |
| `HandleProtocol.SnapshotsUntorn` | chdriver/handle.go:38-54 | Inspect sees all of the running task or all of the exited one with the recorded time and result, never a mixture |
| `HandleProtocol.RecordsAsRun` | chdriver/handle.go:64-92 | field by field the goroutine ends where `Run` as one call ends |
| `HandleProtocol.DestroyDropsOnly` | chdriver/driver.go:687-706 | an unforced destroy needs an exited task; with or without a destroy, goroutine, waiters and inspectors already under way can do the same things to the same end |
| `HandleProtocol.RunNeverStuck` | chdriver/handle.go:64-92 | no deadlock: once the process has exited, the goroutine can step, or a reader it waits for can |
| `StopTask.StopTask` | chdriver/driver.go:638-665 | unknown task and undelivered first signal do nothing more; a known name sends its number first and any other sends 15; then the signals form a `StopSequence`, and the loop ends |
| `StopTask.StopOutcome` | chdriver/driver.go:654-664 | at most ceil(timeout/100ms) probes of signal 0; the fallback 9 is sent if and only if every probe before the deadline finds the process, and never before the deadline |
| `StopTask.StopDetermined` | chdriver/driver.go:654-664 | clock and process determine the signals sent |
| `StopTask.GraceRespected` | chdriver/driver.go:654-664 | a process that exits at least one turn of the loop before the deadline is never killed |
| `Taps.Host.Up` | chdriver/autotuntap.go:46-64 | success means up with the bridge as master; a later failure leaves the device down, on the bridge or not |
| `Taps.Host.Down` | chdriver/autotuntap.go:66-84 | success means gone; a later failure leaves the device off its bridge, up or down |
| `Taps.Host.UpAll` | chdriver/driver.go:467-473 | the loop over the networks, which stops at the first failure |
| `Taps.Host.DownAll` | chdriver/driver.go:674-685 | the deferred loop, which ignores failures |
| `Taps.UpAllOwnDevice` | chdriver/driver.go:467-473 | bringing a task's taps up changes no existing device and creates at most its own |
| `Taps.UpAllExactly` | chdriver/driver.go:467-473 | a start gets through if and only if no network asks for a tap, or exactly one does, its name is free and its commands work; and when a device exists afterwards |
| `Taps.UpAllBridged` | chdriver/driver.go:467-473 | a start that gets through has the task's device up on the bridge of the network that asked for it |
| `Taps.DownAllExactly` | chdriver/driver.go:674-685 | only the task's device is touched, and it goes if and only if some network's clean-up works |
| `Text.AfterLastSuffix` | chdriver/autotuntap.go:17-23 | the tap suffix is the longest suffix of the task ID without a slash |
| `Taps.TapNameIs` | chdriver/autotuntap.go:17-23 | the device name is `tap-` and the last component of the task ID |
| `Driver.Driver.BeginStart` | chdriver/driver.go:412-473 | the start up to its tap devices: refused for a known ID, stopped without a trace before the taps, or with the taps as far as they came |
| `Driver.Driver.FinishStart` | chdriver/driver.go:485-556 | the start from the download on: a failure stores nothing, a success stores the handle and saves its identity |
| `Driver.Driver.StartTask` | chdriver/driver.go:412-556 | every exit of a start with what it leaves: nothing, its taps, its taps and a running virtual machine without a handle, or a stored handle |
| `Driver.SocketShared` | chdriver/cloudhypervisor.go:50-57 | two tasks whose IDs end in a name share a socket if and only if they end in the same one |
| `Driver.Driver.RecoverTask` | chdriver/driver.go:559-609 | every exit of a recovery; the handle has the saved identity, an empty driver configuration, and no executor when reattaching failed, which the code does not look at |
| `Driver.Driver.DestroyTask` | chdriver/driver.go:668-707 | taps go down even when the destroy is refused; the entry, and the virtual machine of a running task, go only when it is not |
| `Driver.Driver.InspectTask` | chdriver/driver.go:710-717 | the status of the stored handle, or none |
| `DriverRuns.InvRun` | chdriver/driver.go:412-707 | over every run each handle is stored under its own task ID and agrees with what Nomad saved |
| `DriverRuns.OthersUntouched` | chdriver/state.go:22-39 | a step on one ID leaves handle, start and saved state of all others as they are |
| `DriverRuns.LiveEntry` | chdriver/driver.go:413-415 | a live entry is never replaced, and goes if and only if the plugin restarts or a destroy that is forced or finds it exited takes it |
| `DriverRuns.EntryPersists` | chdriver/driver.go:668-707 | from its start until such a step an entry is the same task, and an exited one does not change at all |
| `DriverRuns.SameTaskAcross` | chdriver/driver.go:541-609 | across any number of restarts, recoveries and failed attempts, two handles stored for one ID are the same task unless a new start succeeded, and while running look the same to Inspect but for an empty result in place of none |
| `DriverRuns.RestartThenRecover` | chdriver/driver.go:559-609 | a task that ran and is in memory no more can be recovered at any later point of the run while its virtual machine runs, unless its ID was started anew, and Inspect shows what it showed before with an empty result |
| `DriverRuns.RecoveredShown` | chdriver/driver.go:559-609 | field by field, what Inspect shows of a recovered task |
| `DriverRuns.InspectExited` | chdriver/driver.go:710-717 | from its exit until a step may remove it, Inspect of a task shows the time and outcome of that exit |
| `DriverRuns.WatchedAlways` | chdriver/driver.go:553-604 | in every run a stored running task that has an executor has its virtual machine |
| `DriverRuns.VmsStep` | chdriver/driver.go:516-553 | a step keeps virtual machines and running tasks in memory matched if and only if it is no start that launches and cannot save, no restart over a running task, and no unwatched end |
| `DriverRuns.VmsRun` | chdriver/driver.go:412-707 | over any run of such steps the virtual machines are exactly those of the running tasks |
| `DriverRuns.UnsavedStartLeavesVm` | chdriver/driver.go:549-551 | a run in which a start launches, cannot save, and leaves a virtual machine and a tap without a task |
| `DriverRuns.EarlyExactly` | chdriver/driver.go:412-464 | a start ends before its taps if and only if the image cannot be read, there is no executor, or the seed ISO cannot be made |
| `DriverRuns.LateExactly` | chdriver/driver.go:485-551 | past its taps a start succeeds if and only if the image is there, all overlays are created, the allocation is not too small, the hypervisor comes up and its state is saved |
| `DriverRuns.LateWish` | chdriver/driver.go:466-485 | the finished start wants a tap exactly if its first reading did, if and only if the job decides or both readings agree about taps |
| `DriverRuns.TapsStep` | chdriver/driver.go:466-473 | a step keeps devices and tap-holding tasks matched if and only if it is benign |
| `DriverRuns.TapsRun` | chdriver/driver.go:674-685 | over any run of benign steps the host's devices are exactly those of the tasks that hold one |
| `DriverRuns.SmoothTaps` | chdriver/driver.go:466-485 | in particular with no failed start, no refused or failing destroy, no restart, and images that keep to their wish for a tap |
| `DriverRuns.BridgesRun` | chdriver/autotuntap.go:46-84 | over any run of steady steps every task that holds a tap has it up on the bridge its configuration asks for |
| `DriverRuns.RefusedDestroyDropsTap` | chdriver/driver.go:674-689 | a refused destroy of a running task takes the tap of the live task down |
| `DriverRuns.FailedStartLeavesTap` | chdriver/driver.go:516-526 | a run in which a start fails after its tap step and leaves a tap without a task |
| `DriverRuns.LiveTaskWithoutTap` | chdriver/driver.go:674-689 | a run in which a task is started, an unforced destroy is refused, and the live task has lost its tap |
| `VarArgs.ParseVarArgs` | internal/nomadtest/util.go:13-31 | the text of the variables the arguments denote, or the first faulty argument and its fault |
| `VarArgs.SplitAssignExactly` | internal/nomadtest/util.go:24-27 | the split is at the first equals sign and fails if and only if there is none |
| `GoQuote.EncodeDecoded` | internal/nomadtest/util.go:28 | a decoded code point is the encoding of its bytes: nothing overlong, no surrogate |
| `GoQuote.DecodeEncoded` | internal/nomadtest/util.go:28 | every encoding decodes, whatever follows |
| `GoQuote.EscapesAre` | internal/nomadtest/util.go:28 | the escapes letter by letter |
| `GoQuote.HexEscapes` | internal/nomadtest/util.go:28 | the hexadecimal escapes and their widths |
| `GoQuote.HexDigits` | internal/nomadtest/util.go:28 | hexadecimal digits in lower case, the leading one first |
| `GoQuote.UnquoteQuote` | internal/nomadtest/util.go:28 | a quoted value reads back byte by byte, valid UTF-8 or not, and its quotation has no line break |
| `VarArgs.RoundTrip` | internal/nomadtest/util.go:28-30 | for all byte strings as values, the text reads back as the variables if and only if no key contains a line break |
| `VarArgs.DenotesOnce` | internal/nomadtest/util.go:23-27 | the arguments determine the variables |

## Left out

- Registry access, credentials, JSON decoding and the choice of plain HTTP: a registry is maps from tags to digests and from digests to manifests and blobs.
- Blob integrity: a fetch delivers the whole blob or errors, because the code checks no digest of what it writes.
- Durability: a finished write is visible to everybody; fsync and power loss are not modelled.
- Images that are not contained: the protocol cannot create the file of a title that leads out of the work directory, and the results about the cache do not speak of such images; the code writes to whatever path the title leads to.
- Sub-directories of a work directory: nothing makes them, so that a title below one always fails to be created; symbolic links are not modelled.
- A stat of the completion marker fails only when there is none; the code would refill a complete directory after any other error.
- The texts of progress messages; which percentages are reported is modelled.
- The cloud-init tool, the removal of the seed ISO by Destroy, overlay creation and the XFS probe: their success is a parameter.
- The executor, `kill` and the kernel: an exit is a step with any outcome, a virtual machine runs until it ends or is killed, and pids are not reused.
- Calls for one task ID are serialised, since the already-started check and the store are not one step; a start is split at its tap devices so that other IDs interleave.
- A handle without an executor: the goroutine of such a recovered task would panic and end the plugin; the runs have it never exit, and a restart may come at any time.
- The scheduler is fair, a waiting writer keeps new readers out as Go's lock promises, and whoever waits for a task receives from its channel.
- Rounding of start times to milliseconds, and timestamps in general beyond their order in `StopTask`.
- StopTask.StopTask: the table of signal names is a parameter, and a sleep lasts at least 100 ms.
- Slices are values: `jobConfig` and `driverConfig` share their disks' memory in the code, which is written only after the last read of `jobConfig`.
- The parser of HCL: the reader of job variables undoes Go's quoting.
- Task statistics, signals sent by users, fingerprinting, plugin configuration, the HTTP client, logging and events are outside the model.
