/** The two readings of an image's metadata: the config blob before the download (`internal/oci/oci.go:104-129`)
    and metadata.json after it (`chdriver/oci_payload.go:73-83`). */
module ImageReadings {
  import opened Prelude
  import opened TaskConfig
  import opened OciPayload
  import opened Launch
  import opened LaunchArgs
  import opened Driver
  import opened Registry
  import Protocol = CacheProtocol
  import Safety = CacheSafety

  const METADATA := "metadata.json"

  /** How a metadata document is decoded. */
  type Decoder = Blob -> Result<Option<Metadata>, ()>

  predicate LastWriter(items: seq<Item>, i: nat, name: string) {
    i < |items| && items[i].name == name && forall j :: i < j < |items| ==> items[j].name != name
  }

  /** A file holds what its last writer wrote. */
  lemma {:induction false} FilesOfLast(blobs: map<string, Blob>, items: seq<Item>, i: nat, name: string)
    requires LastWriter(items, i, name)
    ensures name in Files(blobs, items) && Files(blobs, items)[name] == BlobOf(blobs, items[i].digest)
  {
    var k := |items| - 1;
    if i < k {
      assert items[k].name != name;
      FilesOfLast(blobs, items[..k], i, name);
    }
  }

  lemma {:induction false} LastWriterOf(items: seq<Item>, i: nat) returns (last: nat)
    requires i < |items|
    ensures LastWriter(items, last, items[i].name)
    decreases |items| - i
  {
    if j :| i < j < |items| && items[j].name == items[i].name { last := LastWriterOf(items, j); } else { last := i; }
  }

  lemma OneLastWriter(items: seq<Item>, i: nat, j: nat, name: string)
    requires LastWriter(items, i, name) && LastWriter(items, j, name)
    ensures i == j
  {
  }

  function ManifestOf(c: Content, d: string): Manifest
    requires d in c.manifests
  {
    c.manifests[d]
  }

  /** The config blob, or a later layer with the same bytes, is what is written last as metadata.json. */
  ghost predicate KeepsMetadata(c: Content, d: string)
    requires d in c.manifests
  {
    forall i: nat :: LastWriter(Items(ManifestOf(c, d)), i, METADATA) ==>
      BlobOf(c.blobs, Items(ManifestOf(c, d))[i].digest) == BlobOf(c.blobs, ManifestOf(c, d).config.digest)
  }

  /** In an exact directory metadata.json is the config blob if and only if no layer, or only one with the
      same bytes, is the last to be written under that name. */
  lemma MetadataIsConfig(c: Content, s: Protocol.State, d: string)
    requires Safety.Exact(c, s, d) && c.manifests[d].config.digest != ""
    ensures METADATA in Protocol.DirOf(s, d)
    ensures Protocol.DirOf(s, d)[METADATA] == BlobOf(c.blobs, c.manifests[d].config.digest) <==> KeepsMetadata(c, d)
  {
    var items := Items(ManifestOf(c, d));
    assert METADATA[0] != MARKER[0];
    assert items[0].name == METADATA;
    var last := LastWriterOf(items, 0);
    FilesOfLast(c.blobs, items, last, METADATA);
    forall i: nat | LastWriter(items, i, METADATA) ensures i == last { OneLastWriter(items, i, last, METADATA); }
  }

  /** `FetchMetadata` of the manifest a reference resolves to. */
  function FirstReading(c: Content, d: string, decode: Decoder): Result<Option<Metadata>, ()> {
    if d in c.manifests && c.manifests[d].config.digest != "" && c.manifests[d].config.digest in c.blobs
    then decode(c.blobs[c.manifests[d].config.digest])
    else Err(())
  }

  /** The download and the reading of metadata.json; a missing file is empty metadata. */
  function SecondReading(dir: map<string, Blob>, decode: Decoder, workDir: string): Pulled {
    if METADATA !in dir then Pulled(workDir, None)
    else match decode(dir[METADATA])
      case Err(_) => Unreadable
      case Ok(m) => Pulled(workDir, m)
  }

  lemma ReadingsAgree(c: Content, s: Protocol.State, d: string, decode: Decoder, workDir: string)
    requires Safety.Exact(c, s, d) && KeepsMetadata(c, d) && FirstReading(c, d, decode).Ok?
    ensures SecondReading(Protocol.DirOf(s, d), decode, workDir) == Pulled(workDir, FirstReading(c, d, decode).value)
  {
    MetadataIsConfig(c, s, d);
  }

  /** When the reference has not moved and nobody disturbed the resolves for its digest, and no layer
      overwrites the metadata with something else, the configuration launched is the early one with only
      the image's own paths resolved: the networks are the same, and so are all other settings. */
  lemma UnmovedImageKeepsConfig(c: Content, states: seq<Protocol.State>, acts: seq<Protocol.Action>, k: nat, d: string,
                                decode: Decoder, workDir: string, spec: TaskSpec, begin: BeginEnv, finish: FinishEnv,
                                cfg: Config)
    requires Protocol.Run(c, states, acts) && Protocol.ContainedContent(c) && Safety.ResolvesAgree(c, states, acts, d)
    requires k < |states| && Protocol.Complete(states[k], d) && d in c.manifests && KeepsMetadata(c, d)
    requires spec.job.ociImage != "" && Launches(spec, begin, finish, cfg)
    requires begin.fetched == FirstReading(c, d, decode)
    requires finish.pulled == SecondReading(Protocol.DirOf(states[k], d), decode, workDir)
    ensures finish.pulled == Pulled(workDir, Seen(begin))
    ensures cfg.network == EarlyConfig(spec, begin).value.network
    ensures Prepared(spec.job, finish.pulled, spec.localDir)
            == ResolveImagePaths(BeforeDownload(spec.job, Seen(begin)), spec.job, workDir)
  {
    Safety.CompletedExactly(c, states, acts, k, d);
    ReadingsAgree(c, states[k], d, decode, workDir);
    NetworksSurviveDownload(spec, begin, finish, cfg);
    SameMetadataNetworks(Seen(begin), workDir);
    DownloadOnlyResolvesImagePaths(Seen(begin), workDir, spec.job);
  }

  lemma SameMetadataNetworks(m: Option<Metadata>, workDir: string)
    ensures ImageConfig(m, "").network == ImageConfig(m, workDir).network
  {
  }
}
