/** The configuration steps of `StartTask` between decoding the job and launching the VM
    (`chdriver/driver.go:412-514`). */
module Launch {
  import opened Prelude
  import opened Text
  import opened TaskConfig
  import opened OciPayload
  import Paths

  datatype Failure = FetchMetadata | Pull | ReadMetadata | CreateSeed | CreateOverlay(index: nat)

  /** What `PullIntoCache` and the re-read of metadata.json give. */
  datatype Pulled = PullFailed | Unreadable | Pulled(workDir: string, metadata: Option<Metadata>)

  predicate WantsSeed(cfg: Config) {
    cfg.cloudInit.Some? && cfg.cloudInit.value.userData != ""
  }

  function SeedPath(localDir: string): string {
    Paths.JoinPath(localDir, "cloud-init-seed.iso")
  }

  function SeedDisk(localDir: string): Disk {
    Disk(SeedPath(localDir), "", true, false, false)
  }

  function OverlayName(i: nat): string {
    "overlay-" + Itoa(i) + ".img"
  }

  function OverlayPath(localDir: string, i: nat): string {
    Paths.JoinPath(localDir, OverlayName(i))
  }

  /** How the driver treats one disk; `sameXfs` is `None` when the file system probe fails. */
  function Overlaid(disk: Disk, i: nat, localDir: string, sameXfs: nat -> Option<bool>): Disk {
    if !disk.ephemeralOverlay then disk
    else if sameXfs(i) == Some(true) then
      disk.(path := OverlayPath(localDir, i), reflinkCopy := true)
    else
      disk.(path := OverlayPath(localDir, i), reflinkCopy := false, imageType := "qcow2")
  }

  function OverlaidAll(disks: seq<Disk>, localDir: string, sameXfs: nat -> Option<bool>): (r: seq<Disk>)
    ensures |r| == |disks|
    ensures forall i :: 0 <= i < |r| ==> r[i] == Overlaid(disks[i], i, localDir, sameXfs)
  {
    seq(|disks|, i requires 0 <= i < |disks| => Overlaid(disks[i], i, localDir, sameXfs))
  }

  /** `now` is `was` with the first `k` disks treated. */
  ghost predicate OverlaidUpTo(was: seq<Disk>, now: seq<Disk>, k: nat, localDir: string, sameXfs: nat -> Option<bool>) {
    && |now| == |was|
    && forall i :: 0 <= i < |now| ==> now[i] == if i < k then Overlaid(was[i], i, localDir, sameXfs) else was[i]
  }

  predicate AllCreated(disks: seq<Disk>, created: nat -> bool) {
    forall i :: 0 <= i < |disks| && disks[i].ephemeralOverlay ==> created(i)
  }

  /** The driver's own `driverConfig`, which `StartTask` overwrites step by step. */
  class DriverConfig {
    var cfg: Config

    constructor (job: Config)
      ensures cfg == job
    {
      cfg := job;
    }

    method ResolveOCIPayload(fetched: Result<Option<Metadata>, ()>) returns (r: Result<(), Failure>)
      modifies this
      ensures cfg == if old(cfg).ociImage == "" || fetched.Err? then old(cfg) else Merged(fetched.value, "", old(cfg))
      ensures r == if old(cfg).ociImage != "" && fetched.Err? then Err(FetchMetadata) else Ok(())
    {
      if cfg.ociImage == "" { return Ok(()); }
      if fetched.Err? { return Err(FetchMetadata); }
      var base := BuildConfigFromOCIMetadata(fetched.value, "");
      base := base.(ociImage := cfg.ociImage);
      cfg := ApplyJobConfig(base, cfg);
      r := Ok(());
    }

    method AttachSeed(localDir: string, created: bool) returns (r: Result<(), Failure>)
      modifies this
      ensures cfg == if WantsSeed(old(cfg)) && created
                     then old(cfg).(disk := old(cfg).disk + [SeedDisk(localDir)]) else old(cfg)
      ensures r == if WantsSeed(old(cfg)) && !created then Err(CreateSeed) else Ok(())
    {
      if cfg.cloudInit.Some? && cfg.cloudInit.value.userData != "" {
        var isoPath := SeedPath(localDir);
        if !created { return Err(CreateSeed); }
        cfg := cfg.(disk := cfg.disk + [Disk(isoPath, "", true, false, false)]);
      }
      r := Ok(());
    }

    method MaterializeOCIPayload(job: Config, pulled: Pulled) returns (r: Result<(), Failure>)
      modifies this
      ensures cfg == if old(cfg).ociImage == "" || !pulled.Pulled? then old(cfg)
                     else Merged(pulled.metadata, pulled.workDir, job)
      ensures r == if old(cfg).ociImage == "" || pulled.Pulled? then Ok(())
                   else Err(if pulled.PullFailed? then Pull else ReadMetadata)
    {
      if cfg.ociImage == "" { return Ok(()); }
      if pulled.PullFailed? { return Err(Pull); }
      if pulled.Unreadable? { return Err(ReadMetadata); }
      var base := BuildConfigFromOCIMetadata(pulled.metadata, pulled.workDir);
      base := base.(ociImage := job.ociImage);
      cfg := ApplyJobConfig(base, job);
      r := Ok(());
    }

    /** Replaces every disk that wants an ephemeral overlay, stopping at the first one that
        cannot be created. */
    method CreateOverlays(localDir: string, sameXfs: nat -> Option<bool>, created: nat -> bool)
      returns (r: Result<(), Failure>)
      modifies this
      ensures cfg == old(cfg).(disk := cfg.disk)
      ensures r.Ok? <==> AllCreated(old(cfg).disk, created)
      ensures r.Ok? ==> cfg.disk == OverlaidAll(old(cfg).disk, localDir, sameXfs)
      ensures r.Err? ==> r.error.CreateOverlay? && r.error.index < |cfg.disk| && !created(r.error.index)
      ensures r.Err? ==> OverlaidUpTo(old(cfg).disk, cfg.disk, r.error.index, localDir, sameXfs)
    {
      for i := 0 to |cfg.disk|
        invariant cfg == old(cfg).(disk := cfg.disk)
        invariant OverlaidUpTo(old(cfg).disk, cfg.disk, i, localDir, sameXfs)
        invariant AllCreated(old(cfg).disk[..i], created)
      {
        var disk := cfg.disk[i];
        if disk.ephemeralOverlay {
          var overlayPath := OverlayPath(localDir, i);
          var useReflink := sameXfs(i) == Some(true);
          if !created(i) {
            assert old(cfg).disk[i].ephemeralOverlay;
            return Err(CreateOverlay(i));
          }
          cfg := cfg.(disk := cfg.disk[i := cfg.disk[i].(path := overlayPath, reflinkCopy := useReflink)]);
          if !useReflink {
            cfg := cfg.(disk := cfg.disk[i := cfg.disk[i].(imageType := "qcow2")]);
          }
        }
      }
      r := Ok(());
    }
  }

  // ---- The whole pipeline as a function of its inputs --------------------------------------

  /** The configuration while the image is not downloaded yet; taps are brought up from it. */
  function BeforeDownload(job: Config, metadata: Option<Metadata>): Config {
    if job.ociImage == "" then job else Merged(metadata, "", job)
  }

  /** The configuration before overlays are created. The seed ISO of an OCI task is built before
      the download and forgotten after it, because the merge starts again from the job. */
  function Prepared(job: Config, pulled: Pulled, localDir: string): Config
    requires job.ociImage != "" ==> pulled.Pulled?
  {
    if job.ociImage != "" then Merged(pulled.metadata, pulled.workDir, job)
    else if WantsSeed(job) then job.(disk := job.disk + [SeedDisk(localDir)])
    else job
  }

  /** The configuration handed to the hypervisor. */
  function Launched(job: Config, pulled: Pulled, localDir: string, sameXfs: nat -> Option<bool>): Config
    requires job.ociImage != "" ==> pulled.Pulled?
  {
    var cfg := Prepared(job, pulled, localDir);
    cfg.(disk := OverlaidAll(cfg.disk, localDir, sameXfs))
  }
}
