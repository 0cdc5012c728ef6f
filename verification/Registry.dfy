/** An OCI registry as the driver sees it: mutable tags over immutable manifests and blobs, with
    manifests as in the OCI Image Format Specification v1.1, section "Image Manifest". */
module Registry {
  import opened Prelude
  import opened Text
  import Paths

  type Byte = b: int | 0 <= b < 256

  type Blob = seq<Byte>

  /** `title` is the annotation org.opencontainers.image.title, empty when absent. */
  datatype Descriptor = Descriptor(digest: string, size: int, title: string)

  datatype Manifest = Manifest(config: Descriptor, layers: seq<Descriptor>)

  /** The immutable part of a registry. */
  datatype Content = Content(manifests: map<string, Manifest>, blobs: map<string, Blob>)

  datatype Reference = ByTag(tag: string) | ByDigest(digest: string)

  /** `repo.Resolve`: the manifest digest a reference names at this moment. */
  function Resolve(c: Content, tags: map<string, string>, ref: Reference): (d: Option<string>)
    ensures d.Some? ==> d.value in c.manifests
  {
    var d := match ref
      case ByTag(t) => if t in tags then Some(tags[t]) else None
      case ByDigest(d) => Some(d);
    if d.Some? && d.value in c.manifests then d else None
  }

  /** One file to write: its name in the work directory and the blob that fills it. */
  datatype Item = Item(name: string, digest: string, size: int)

  const MARKER := ".complete"

  /** The components a title leads to from the work directory. `filepath.Join` cleans the path, so that
      `./kernel` and `x/../kernel` both lead to `kernel`. */
  function Place(title: string): seq<string> {
    Paths.Walk(false, [], Split(title, '/'))
  }

  /** The name under which the file of a title is written. */
  function Landing(title: string): string {
    Join(Place(title), '/')
  }

  /** The title does not lead out of the work directory. */
  predicate Stays(title: string) {
    Place(title) == [] || Place(title)[0] != ".."
  }

  function LayerItems(layers: seq<Descriptor>): seq<Item> {
    if layers == [] then []
    else
      var front, last := LayerItems(layers[..|layers| - 1]), layers[|layers| - 1];
      if last.title == "" then front else front + [Item(Landing(last.title), last.digest, last.size)]
  }

  function ConfigItems(config: Descriptor): seq<Item> {
    if config.digest == "" then [] else [Item("metadata.json", config.digest, 0)]
  }

  /** The files of a manifest in the order they are written: config first, then titled layers. */
  function Items(m: Manifest): seq<Item> {
    ConfigItems(m.config) + LayerItems(m.layers)
  }

  function BlobOf(blobs: map<string, Blob>, digest: string): Blob {
    if digest in blobs then blobs[digest] else []
  }

  /** The directory those files make: the last writer of a name wins. */
  function Files(blobs: map<string, Blob>, items: seq<Item>): map<string, Blob> {
    if items == [] then map[]
    else
      var k := |items| - 1;
      Files(blobs, items[..k])[items[k].name := BlobOf(blobs, items[k].digest)]
  }

  /** No title of the manifest leads out of the work directory or to the completion marker. */
  predicate Contained(m: Manifest) {
    && (forall i :: 0 <= i < |m.layers| ==> Stays(m.layers[i].title))
    && forall i :: 0 <= i < |Items(m)| ==> Items(m)[i].name != MARKER
  }

  /** Only the work directory itself is made: a file below it, or in its place, cannot be created. */
  predicate Creatable(item: Item) {
    Paths.Named(item.name)
  }

  lemma {:induction false} FilesNames(blobs: map<string, Blob>, items: seq<Item>)
    ensures forall n :: n in Files(blobs, items) ==> exists i :: 0 <= i < |items| && items[i].name == n
  {
    if items != [] {
      var k := |items| - 1;
      FilesNames(blobs, items[..k]);
      forall n | n in Files(blobs, items) ensures exists i :: 0 <= i < |items| && items[i].name == n {
        if n != items[k].name {
          assert n in Files(blobs, items[..k]);
          var i :| 0 <= i < |items[..k]| && items[..k][i].name == n;
          assert items[i].name == n;
        }
      }
    }
  }

  lemma {:induction false} FilesHas(blobs: map<string, Blob>, items: seq<Item>, i: nat)
    requires i < |items|
    ensures items[i].name in Files(blobs, items)
  {
    if i < |items| - 1 { FilesHas(blobs, items[..|items| - 1], i); }
  }

  lemma FilesSnoc(blobs: map<string, Blob>, items: seq<Item>, i: nat)
    requires i < |items|
    ensures Files(blobs, items[..i + 1]) == Files(blobs, items[..i])[items[i].name := BlobOf(blobs, items[i].digest)]
  {
    assert items[..i + 1][..i] == items[..i];
  }
}
