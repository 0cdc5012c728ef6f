/** From a start to the printed command line: what configuration is launched, how each disk is attached,
    and when the seed ISO is among them. */
module LaunchArgs {
  import opened Prelude
  import opened Text
  import opened TaskConfig
  import opened OciPayload
  import opened Launch
  import opened Resources
  import opened ChArgs
  import opened ChArgsReader
  import opened Driver
  import opened TaskHandle
  import opened Taps
  import Paths

  /** With these events a start hands `cfg` to the hypervisor. */
  predicate Launches(spec: TaskSpec, begin: BeginEnv, finish: FinishEnv, cfg: Config) {
    EarlyConfig(spec, begin).Ok? && LateConfig(spec, EarlyConfig(spec, begin).value, finish) == Ok(cfg)
  }

  /** What a successful start stores and saves: the task it was asked for, running since the time of the
      launch, with the configuration it launched; the virtual machine got the command line printed from it. */
  lemma StartLaunches(s: DriverState, dir: string, spec: TaskSpec, begin: BeginEnv, finish: FinishEnv,
                      early: Config, t: DriverState, saved: Saved)
    requires BeginEffect(s, spec, begin).1 == Ok(early)
    requires FinishEffect(BeginEffect(s, spec, begin).0, dir, spec, early, finish) == (t, Ok(saved))
    ensures spec.ident.id in t.tasks && finish.launched.Some? && !Guest(spec.resources).TooSmall?
    ensures Launches(spec, begin, finish, t.tasks[spec.ident.id].config)
    ensures var h := t.tasks[spec.ident.id];
            && h.attached && h.status.ident == spec.ident && h.status.state == Running
            && h.status.startedAt == finish.now && h.status.completedAt == None && h.status.exitResult == None
            && h.status.pid == finish.launched.value
            && h.status.socketPath == Paths.JoinPath(dir, Paths.Base(spec.ident.id))
            && saved.ident == spec.ident && saved.handleIdent == spec.ident && saved.startedAt == finish.now
            && saved.pid == h.status.pid && saved.socketPath == h.status.socketPath
    ensures var h := t.tasks[spec.ident.id];
            var vm := VM(spec.ident.id, h.status.pid);
            vm in t.vms && Ok(t.vms[vm]) == Args(h.config, spec.resources, h.status.socketPath, spec.ident.id)
  {
  }

  /** Step by step, a start launches the configuration of `Launched`. */
  lemma LaunchedConfig(spec: TaskSpec, begin: BeginEnv, finish: FinishEnv, cfg: Config)
    requires Launches(spec, begin, finish, cfg)
    ensures spec.job.ociImage != "" ==> finish.pulled.Pulled?
    ensures cfg == Launched(spec.job, finish.pulled, spec.localDir, finish.sameXfs)
  {
  }

  /** Disk `now` is disk `was`, or when that asks for an overlay the overlay file of its number: a reflink
      copy where one is possible, and a qcow2 file over the disk otherwise. */
  predicate OverlaidDisk(was: Disk, now: Disk, i: nat, localDir: string, sameXfs: nat -> Option<bool>) {
    && now.readonly == was.readonly && now.ephemeralOverlay == was.ephemeralOverlay
    && (!was.ephemeralOverlay ==>
         now.path == was.path && now.imageType == was.imageType && now.reflinkCopy == was.reflinkCopy)
    && (was.ephemeralOverlay ==>
         && now.path == Paths.JoinPath(localDir, "overlay-" + Itoa(i) + ".img")
         && (now.reflinkCopy <==> sameXfs(i) == Some(true))
         && now.imageType == if sameXfs(i) == Some(true) then was.imageType else "qcow2")
  }

  predicate OverlaidDisks(was: seq<Disk>, now: seq<Disk>, localDir: string, sameXfs: nat -> Option<bool>) {
    |now| == |was| && forall i :: 0 <= i < |now| ==> OverlaidDisk(was[i], now[i], i, localDir, sameXfs)
  }

  /** What a task with an OCI image is launched with, field by field. */
  lemma ImageLaunched(spec: TaskSpec, begin: BeginEnv, finish: FinishEnv, cfg: Config, m: Metadata)
    returns (disks: seq<Disk>)
    requires Launches(spec, begin, finish, cfg) && spec.job.ociImage != ""
    requires finish.pulled.Pulled? && finish.pulled.metadata == Some(m)
    ensures SettingsFrom(cfg, m, finish.pulled.workDir, spec.job)
    ensures DisksFrom(disks, m, finish.pulled.workDir, spec.job)
    ensures OverlaidDisks(disks, cfg.disk, spec.localDir, finish.sameXfs)
  {
    disks := Merged(Some(m), finish.pulled.workDir, spec.job).disk;
    MergedFields(m, finish.pulled.workDir, spec.job);
  }

  /** The disk of the seed ISO, for a task with user data. */
  predicate SeedFor(cfg: Config, localDir: string, seeds: seq<Disk>) {
    if cfg.cloudInit.Some? && cfg.cloudInit.value.userData != "" then
      && |seeds| == 1 && seeds[0].path == Paths.JoinPath(localDir, "cloud-init-seed.iso") && seeds[0].imageType == ""
      && seeds[0].readonly && !seeds[0].ephemeralOverlay && !seeds[0].reflinkCopy
    else seeds == []
  }

  /** What a task without an image is launched with: the job as it is, with the seed ISO after its disks
      exactly when it has user data, and overlays for the disks that ask for one. */
  lemma PlainLaunched(spec: TaskSpec, begin: BeginEnv, finish: FinishEnv, cfg: Config) returns (seeds: seq<Disk>)
    requires Launches(spec, begin, finish, cfg) && spec.job.ociImage == ""
    ensures cfg == spec.job.(disk := cfg.disk) && SeedFor(spec.job, spec.localDir, seeds)
    ensures OverlaidDisks(spec.job.disk + seeds, cfg.disk, spec.localDir, finish.sameXfs)
  {
    seeds := if WantsSeed(spec.job) then [SeedDisk(spec.localDir)] else [];
    assert WantsSeed(spec.job) || spec.job.disk + seeds == spec.job.disk;
  }

  /** What a start works with before the download, field by field: relative paths of the image stay relative. */
  lemma ImageEarly(spec: TaskSpec, begin: BeginEnv, m: Metadata) returns (disks: seq<Disk>)
    requires EarlyConfig(spec, begin).Ok? && spec.job.ociImage != "" && begin.fetched == Ok(Some(m))
    ensures SettingsFrom(EarlyConfig(spec, begin).value, m, "", spec.job)
    ensures DisksFrom(disks, m, "", spec.job) && disks <= EarlyConfig(spec, begin).value.disk
  {
    disks := Merged(Some(m), "", spec.job).disk;
    MergedFields(m, "", spec.job);
  }

  /** Before the download a start has built the seed ISO, as the last disk, exactly when there is user data. */
  lemma SeedBuilt(spec: TaskSpec, begin: BeginEnv) returns (seeds: seq<Disk>)
    requires EarlyConfig(spec, begin).Ok?
    ensures SeedFor(BeforeDownload(spec.job, Seen(begin)), spec.localDir, seeds)
    ensures EarlyConfig(spec, begin).value.disk == BeforeDownload(spec.job, Seen(begin)).disk + seeds
  {
    var pre := BeforeDownload(spec.job, Seen(begin));
    seeds := if WantsSeed(pre) then [SeedDisk(spec.localDir)] else [];
    assert WantsSeed(pre) || pre.disk + seeds == pre.disk;
  }

  /** The launched networks are those the taps were brought up from if and only if there is no image,
      the job names its networks, or both readings of the image agree about them. */
  lemma NetworksSurviveDownload(spec: TaskSpec, begin: BeginEnv, finish: FinishEnv, cfg: Config)
    requires Launches(spec, begin, finish, cfg)
    ensures cfg.network == EarlyConfig(spec, begin).value.network
      <==> spec.job.ociImage == "" || |spec.job.network| > 0
           || ImageConfig(Seen(begin), "").network == ImageConfig(finish.pulled.metadata, "").network
  {
    LaunchedConfig(spec, begin, finish, cfg);
  }

  lemma OverlayNameNamed(i: nat)
    ensures Paths.Named(OverlayName(i))
    ensures OverlayName(i) != "cloud-init-seed.iso" && Paths.Named("cloud-init-seed.iso")
  {
    var name := OverlayName(i);
    assert name[0] == 'o' && |name| > 8;
    assert '/' !in "overlay-" && '/' !in ".img";
    assert "cloud-init-seed.iso"[0] == 'c';
  }

  /** Overlay files of different disks are different, and none is the seed image. */
  lemma OverlayPathsDistinct(localDir: string, i: nat, j: nat)
    ensures OverlayPath(localDir, i) == OverlayPath(localDir, j) <==> i == j
    ensures OverlayPath(localDir, i) != SeedPath(localDir)
  {
    OverlayNameNamed(i);
    OverlayNameNamed(j);
    if OverlayPath(localDir, i) == OverlayPath(localDir, j) {
      Paths.JoinNameInjective(localDir, OverlayName(i), OverlayName(j));
      assert OverlayName(i)[8..|OverlayName(i)| - 4] == Itoa(i);
      assert OverlayName(j)[8..|OverlayName(j)| - 4] == Itoa(j);
      ItoaInjective(i, j);
    }
    if OverlayPath(localDir, i) == SeedPath(localDir) {
      Paths.JoinNameInjective(localDir, OverlayName(i), "cloud-init-seed.iso");
    }
  }

  /** What the hypervisor must be told about disk `i`, given the disk the task asked for. */
  function Attached(disk: Disk, i: nat, localDir: string, sameXfs: nat -> Option<bool>): DiskSetting {
    var reflink := sameXfs(i) == Some(true);
    if disk.ephemeralOverlay then
      DiskSetting(OverlayPath(localDir, i), if reflink then disk.imageType else "qcow2", disk.readonly,
                  reflink, !reflink)
    else
      DiskSetting(disk.path, disk.imageType, disk.readonly, false, false)
  }

  /** The disks read back from the command line of a launched configuration. */
  ghost function ReadDisks(cfg: Config, resources: Option<Allocation>, socketBase: string, taskID: string)
    : Option<seq<DiskSetting>>
    requires !Guest(resources).TooSmall?
  {
    match ReadArgs(Args(cfg, resources, socketBase, taskID).value)
    case None => None
    case Some(s) => Some(s.disks)
  }

  /** From Start through printing: every disk that asks for an ephemeral overlay is attached only
      through its own overlay file, with direct=on exactly for reflink copies and backing_files=on
      over qcow2 exactly otherwise; every other disk is attached as asked. */
  lemma DisksAttached(spec: TaskSpec, begin: BeginEnv, finish: FinishEnv, cfg: Config, socketBase: string)
    requires Launches(spec, begin, finish, cfg) && !Guest(spec.resources).TooSmall?
    requires CommaFree(Asked(cfg, spec.resources, socketBase, spec.ident.id))
    ensures var asked := Prepared(spec.job, finish.pulled, spec.localDir).disk;
            var read := ReadDisks(cfg, spec.resources, socketBase, spec.ident.id);
            && read.Some? && |read.value| == |asked|
            && (forall i :: 0 <= i < |asked| ==> read.value[i] == Attached(asked[i], i, spec.localDir, finish.sameXfs))
            && (forall i, j :: 0 <= i < j < |asked| && asked[i].ephemeralOverlay && asked[j].ephemeralOverlay ==>
                 read.value[i].path != read.value[j].path)
  {
    LaunchedConfig(spec, begin, finish, cfg);
    ReadBack(cfg, spec.resources, socketBase, spec.ident.id);
    AttachedAsOverlaid(Prepared(spec.job, finish.pulled, spec.localDir).disk, cfg.disk, spec.localDir, finish.sameXfs);
  }

  lemma AttachedAsOverlaid(asked: seq<Disk>, launched: seq<Disk>, localDir: string, sameXfs: nat -> Option<bool>)
    requires |launched| == |asked|
    requires forall i :: 0 <= i < |asked| ==> launched[i] == Overlaid(asked[i], i, localDir, sameXfs)
    ensures forall i :: 0 <= i < |asked| ==> AskedDisks(launched)[i] == Attached(asked[i], i, localDir, sameXfs)
    ensures forall i, j :: 0 <= i < j < |asked| && asked[i].ephemeralOverlay && asked[j].ephemeralOverlay ==>
              AskedDisks(launched)[i].path != AskedDisks(launched)[j].path
  {
    forall i, j | 0 <= i < j < |asked| && asked[i].ephemeralOverlay && asked[j].ephemeralOverlay
      ensures AskedDisks(launched)[i].path != AskedDisks(launched)[j].path
    {
      OverlayPathsDistinct(localDir, i, j);
    }
  }

  /** Without an OCI image the job's own disks come first and the seed image is the last disk,
      read-only. */
  lemma SeedAttachedLast(spec: TaskSpec, begin: BeginEnv, finish: FinishEnv, cfg: Config, socketBase: string)
    requires spec.job.ociImage == "" && WantsSeed(spec.job)
    requires Launches(spec, begin, finish, cfg) && !Guest(spec.resources).TooSmall?
    ensures var disks := spec.job.disk;
            var read := ReadDisks(cfg, spec.resources, socketBase, spec.ident.id);
            CommaFree(Asked(cfg, spec.resources, socketBase, spec.ident.id)) ==>
            && read.Some? && |read.value| == |disks| + 1
            && read.value[|disks|] == DiskSetting(SeedPath(spec.localDir), "", true, false, false)
            && (forall i :: 0 <= i < |disks| ==> read.value[i] == Attached(disks[i], i, spec.localDir, finish.sameXfs))
            && (forall i :: 0 <= i < |disks| && disks[i].ephemeralOverlay ==>
                 read.value[i].path != read.value[|disks|].path)
  {
    if CommaFree(Asked(cfg, spec.resources, socketBase, spec.ident.id)) {
      DisksAttached(spec, begin, finish, cfg, socketBase);
    }
    var asked := Prepared(spec.job, finish.pulled, spec.localDir).disk;
    assert asked == spec.job.disk + [SeedDisk(spec.localDir)];
    forall i | 0 <= i < |spec.job.disk| ensures OverlayPath(spec.localDir, i) != SeedPath(spec.localDir) {
      OverlayPathsDistinct(spec.localDir, i, i);
    }
  }

  /** A start that builds a seed ISO launches with it, as one disk more than the job and the image ask
      for, if and only if there is no OCI image; with one, the launched disks are the overlaid disks of
      the merge, without the ISO that was built. */
  lemma SeedSurvives(spec: TaskSpec, begin: BeginEnv, finish: FinishEnv, cfg: Config)
    requires Launches(spec, begin, finish, cfg) && WantsSeed(BeforeDownload(spec.job, Seen(begin)))
    requires spec.job.ociImage != "" && finish.pulled.Pulled? ==> finish.pulled.metadata == Seen(begin)
    ensures EarlyConfig(spec, begin).value.disk
            == BeforeDownload(spec.job, Seen(begin)).disk + [SeedDisk(spec.localDir)]
    ensures |cfg.disk| == |BeforeDownload(spec.job, Seen(begin)).disk| + 1 <==> spec.job.ociImage == ""
    ensures spec.job.ociImage != "" ==>
      cfg.disk == OverlaidAll(Merged(finish.pulled.metadata, finish.pulled.workDir, spec.job).disk, spec.localDir,
          finish.sameXfs)
  {
    LaunchedConfig(spec, begin, finish, cfg);
  }
}
