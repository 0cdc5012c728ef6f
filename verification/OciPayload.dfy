/** How an image's metadata and the job's own settings become one configuration (`chdriver/oci_payload.go`). */
module OciPayload {
  import opened Prelude
  import opened TaskConfig
  import Paths
  import Text

  function ResolvePath(baseDir: string, value: string): string {
    if value == "" || Paths.IsAbs(value) then value else Paths.JoinPath(baseDir, value)
  }

  function ResolveDisks(baseDir: string, disks: seq<Disk>): (r: seq<Disk>)
    ensures |r| == |disks|
    ensures forall i :: 0 <= i < |r| ==> r[i] == disks[i].(path := ResolvePath(baseDir, disks[i].path))
  {
    seq(|disks|, i requires 0 <= i < |disks| => disks[i].(path := ResolvePath(baseDir, disks[i].path)))
  }

  /** The configuration an image asks for, with its relative paths resolved against `workDir`. */
  function ImageConfig(metadata: Option<Metadata>, workDir: string): Config {
    match metadata
    case None => EMPTY_CONFIG
    case Some(m) =>
      Config(
        match m.payload
        case None => Payload("", "", "")
        case Some(p) => Payload(ResolvePath(workDir, p.kernel), ResolvePath(workDir, p.initramfs), p.cmdline),
        ResolveDisks(workDir, m.disk),
        match m.console { case None => "" case Some(mode) => mode },
        m.network,
        m.cloudInit,
        "",
        m.serial,
        None)
  }

  function Either(job: string, base: string): string {
    if job != "" then job else base
  }

  /** The job's non-zero settings on top of `base`. */
  function ApplyJob(base: Config, job: Config): Config {
    base.(
      payload := Payload(
        Either(job.payload.kernel, base.payload.kernel),
        Either(job.payload.initramfs, base.payload.initramfs),
        Either(job.payload.cmdline, base.payload.cmdline)),
      disk := if |job.disk| > 0 then job.disk else base.disk,
      console := Either(job.console, base.console),
      network := if |job.network| > 0 then job.network else base.network,
      cloudInit := if job.cloudInit.Some? then job.cloudInit else base.cloudInit,
      serial := Either(job.serial, base.serial),
      balloon := if job.balloon.Some? then job.balloon else base.balloon)
  }

  /** The configuration of an OCI task, merged from metadata whose paths are resolved against `workDir`. */
  function Merged(metadata: Option<Metadata>, workDir: string, job: Config): Config {
    ApplyJob(ImageConfig(metadata, workDir).(ociImage := job.ociImage), job)
  }

  method BuildConfigFromOCIMetadata(metadata: Option<Metadata>, workDir: string) returns (cfg: Config)
    ensures cfg == ImageConfig(metadata, workDir)
  {
    cfg := EMPTY_CONFIG;
    if metadata.None? { return; }
    var m := metadata.value;
    if m.payload.Some? {
      var p := m.payload.value;
      cfg := cfg.(payload := Payload(ResolvePath(workDir, p.kernel), ResolvePath(workDir, p.initramfs), p.cmdline));
    }
    for i := 0 to |m.disk|
      invariant cfg == ImageConfig(metadata, workDir).(
          disk := ResolveDisks(workDir, m.disk[..i]), console := "", network := [], cloudInit := None, serial := "")
    {
      cfg := cfg.(disk := cfg.disk + [m.disk[i].(path := ResolvePath(workDir, m.disk[i].path))]);
    }
    assert m.disk[..|m.disk|] == m.disk;
    if m.console.Some? { cfg := cfg.(console := m.console.value); }
    cfg := cfg.(network := m.network, cloudInit := m.cloudInit, serial := m.serial);
  }

  method ApplyJobConfig(base: Config, job: Config) returns (r: Config)
    ensures r == ApplyJob(base, job)
  {
    var payload := base.payload;
    if job.payload.kernel != "" { payload := payload.(kernel := job.payload.kernel); }
    if job.payload.initramfs != "" { payload := payload.(initramfs := job.payload.initramfs); }
    if job.payload.cmdline != "" { payload := payload.(cmdline := job.payload.cmdline); }
    r := base.(payload := payload);
    if |job.disk| > 0 { r := r.(disk := job.disk); }
    if job.console != "" { r := r.(console := job.console); }
    if |job.network| > 0 { r := r.(network := job.network); }
    if job.cloudInit.Some? { r := r.(cloudInit := job.cloudInit); }
    if job.serial != "" { r := r.(serial := job.serial); }
    if job.balloon.Some? { r := r.(balloon := job.balloon); }
  }

  // ---- Properties ------------------------------------------------------------------------

  /** Resolving a path twice, first against nothing, is resolving it once. */
  lemma ResolveTwice(workDir: string, value: string)
    ensures ResolvePath(workDir, ResolvePath("", value)) == ResolvePath(workDir, value)
  {
    if value != "" && !Paths.IsAbs(value) {
      Paths.CleanRelative(value);
      Paths.JoinCleaned(workDir, value);
      assert Paths.JoinPath("", value) == Paths.Clean(value);
    }
  }

  lemma ResolveDisksTwice(workDir: string, disks: seq<Disk>)
    ensures ResolveDisks(workDir, ResolveDisks("", disks)) == ResolveDisks(workDir, disks)
  {
    var once, twice := ResolveDisks("", disks), ResolveDisks(workDir, ResolveDisks("", disks));
    forall i | 0 <= i < |disks| ensures twice[i] == ResolveDisks(workDir, disks)[i] {
      ResolveTwice(workDir, disks[i].path);
    }
  }

  /** `cfg` with exactly the paths that did not come from the job resolved against `workDir`. */
  function ResolveImagePaths(cfg: Config, job: Config, workDir: string): Config {
    cfg.(
      payload := Payload(
        if job.payload.kernel != "" then cfg.payload.kernel else ResolvePath(workDir, cfg.payload.kernel),
        if job.payload.initramfs != "" then cfg.payload.initramfs else ResolvePath(workDir, cfg.payload.initramfs),
        cfg.payload.cmdline),
      disk := if |job.disk| > 0 then cfg.disk else ResolveDisks(workDir, cfg.disk))
  }

  /** The configuration after the download is the one before it with the image's own kernel,
      initramfs and disk paths resolved; nothing the job wrote and no other field differs. */
  lemma DownloadOnlyResolvesImagePaths(metadata: Option<Metadata>, workDir: string, job: Config)
    ensures Merged(metadata, workDir, job) == ResolveImagePaths(Merged(metadata, "", job), job, workDir)
  {
    if metadata.Some? {
      var m := metadata.value;
      ResolveDisksTwice(workDir, m.disk);
      if m.payload.Some? {
        ResolveTwice(workDir, m.payload.value.kernel);
        ResolveTwice(workDir, m.payload.value.initramfs);
      }
    }
  }

  /** Merging is associative in its overriding argument, the empty job changes nothing, and
      merging the merged configuration of a job over any base gives the same winners as the job. */
  lemma MergeLaws(base: Config, first: Config, second: Config)
    ensures ApplyJob(ApplyJob(base, first), second) == ApplyJob(base, ApplyJob(first, second))
    ensures ApplyJob(base, EMPTY_CONFIG) == base
    ensures ApplyJob(ApplyJob(base, first), first) == ApplyJob(base, first)
    ensures ApplyJob(base, ApplyJob(base, first)) == ApplyJob(base, first)
  {
  }

  // ---- What the functions give, field by field -------------------------------------------------------

  /** `p` is what `written` becomes in `workDir`: itself when empty or absolute, and otherwise the path of
      its components walked from those of `workDir`. */
  predicate Located(workDir: string, written: string, p: string) {
    if written == "" || written[0] == '/' then p == written
    else
      var rooted := workDir != "" && workDir[0] == '/';
      var from := Paths.Walk(rooted, [], Text.Split(workDir, '/'));
      var kept := Paths.Walk(rooted, from, Text.Split(written, '/'));
      if rooted then p == "/" + Text.Join(kept, '/')
      else p == if kept == [] then "." else Text.Join(kept, '/')
  }

  lemma ResolvedLocated(workDir: string, written: string)
    ensures Located(workDir, written, ResolvePath(workDir, written))
  {
    if written != "" && written[0] != '/' {
      if workDir != "" {
        Paths.JoinWalks(workDir, written);
      } else {
        assert [""][..0] == [];
        assert Paths.Walk(false, [], [""]) == Paths.Enter(false, Paths.Walk(false, [], []), "");
      }
    }
  }

  /** In an absolute work directory every relative path becomes absolute. */
  lemma LocatedAbsolute(workDir: string, written: string, p: string)
    requires Paths.IsAbs(workDir) && written != "" && Located(workDir, written, p)
    ensures Paths.IsAbs(p)
  {
  }

  /** Nine settings of the job win where they are set, and those of the base stay where they are not. */
  lemma JobWins(base: Config, job: Config)
    ensures var r := ApplyJob(base, job);
            && (job.payload.kernel != "" ==> r.payload.kernel == job.payload.kernel)
            && (job.payload.kernel == "" ==> r.payload.kernel == base.payload.kernel)
            && (job.payload.initramfs != "" ==> r.payload.initramfs == job.payload.initramfs)
            && (job.payload.initramfs == "" ==> r.payload.initramfs == base.payload.initramfs)
            && (job.payload.cmdline != "" ==> r.payload.cmdline == job.payload.cmdline)
            && (job.payload.cmdline == "" ==> r.payload.cmdline == base.payload.cmdline)
            && (job.disk != [] ==> r.disk == job.disk) && (job.disk == [] ==> r.disk == base.disk)
            && (job.console != "" ==> r.console == job.console) && (job.console == "" ==> r.console == base.console)
            && (job.network != [] ==> r.network == job.network) && (job.network == [] ==> r.network == base.network)
            && (job.cloudInit.Some? ==> r.cloudInit == job.cloudInit)
            && (job.cloudInit.None? ==> r.cloudInit == base.cloudInit)
            && (job.serial != "" ==> r.serial == job.serial) && (job.serial == "" ==> r.serial == base.serial)
            && (job.balloon.Some? ==> r.balloon == job.balloon) && (job.balloon.None? ==> r.balloon == base.balloon)
            && r.ociImage == base.ociImage
  {
  }

  /** Each disk of the image with its path located and nothing else changed. */
  predicate LocatedDisks(workDir: string, written: seq<Disk>, disks: seq<Disk>) {
    && |disks| == |written|
    && forall i :: 0 <= i < |disks| ==>
         && Located(workDir, written[i].path, disks[i].path)
         && disks[i].imageType == written[i].imageType && disks[i].readonly == written[i].readonly
         && disks[i].ephemeralOverlay == written[i].ephemeralOverlay && disks[i].reflinkCopy == written[i].reflinkCopy
  }

  /** Every setting but the disks comes from the job where the job sets it, and otherwise from the field of
      that name in the image's metadata, with kernel and initramfs located. */
  predicate SettingsFrom(r: Config, m: Metadata, workDir: string, job: Config) {
    && (job.payload.kernel != "" ==> r.payload.kernel == job.payload.kernel)
    && (job.payload.initramfs != "" ==> r.payload.initramfs == job.payload.initramfs)
    && (job.payload.cmdline != "" ==> r.payload.cmdline == job.payload.cmdline)
    && (job.payload.kernel == "" && m.payload.Some? ==> Located(workDir, m.payload.value.kernel, r.payload.kernel))
    && (job.payload.initramfs == "" && m.payload.Some? ==>
         Located(workDir, m.payload.value.initramfs, r.payload.initramfs))
    && (job.payload.cmdline == "" && m.payload.Some? ==> r.payload.cmdline == m.payload.value.cmdline)
    && (m.payload.None? ==> r.payload == job.payload)
    && (job.console != "" ==> r.console == job.console)
    && (job.console == "" ==> r.console == if m.console.Some? then m.console.value else "")
    && r.network == (if job.network != [] then job.network else m.network)
    && r.cloudInit == (if job.cloudInit.Some? then job.cloudInit else m.cloudInit)
    && r.serial == (if job.serial != "" then job.serial else m.serial)
    && r.balloon == job.balloon && r.ociImage == job.ociImage
  }

  /** The disks are the job's if it has any, and otherwise the image's with their paths located. */
  predicate DisksFrom(disks: seq<Disk>, m: Metadata, workDir: string, job: Config) {
    if job.disk != [] then disks == job.disk else LocatedDisks(workDir, m.disk, disks)
  }

  lemma MergedFields(m: Metadata, workDir: string, job: Config)
    ensures SettingsFrom(Merged(Some(m), workDir, job), m, workDir, job)
    ensures DisksFrom(Merged(Some(m), workDir, job).disk, m, workDir, job)
  {
    if m.payload.Some? {
      ResolvedLocated(workDir, m.payload.value.kernel);
      ResolvedLocated(workDir, m.payload.value.initramfs);
    }
    forall i | 0 <= i < |m.disk|
      ensures Located(workDir, m.disk[i].path, ResolveDisks(workDir, m.disk)[i].path)
    {
      ResolvedLocated(workDir, m.disk[i].path);
    }
  }

  /** Without metadata the configuration is the job's. */
  lemma MergedWithout(workDir: string, job: Config)
    ensures Merged(None, workDir, job) == job
  {
  }
}
