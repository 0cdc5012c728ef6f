/** `PullIntoCache` and the file writing under it, as one process runs them while it holds the lock
    (`internal/oci/oci.go:47-220`). What the network and the disk do is a parameter. */
module Materialize {
  import opened Prelude
  import opened Registry
  import opened Progress

  /** How fetching one blob into a file goes. */
  datatype Delivery =
    | Refused
    | Uncreatable
    | Streamed(chunks: seq<Blob>, whole: bool)

  function Concat(chunks: seq<Blob>): Blob {
    if chunks == [] then [] else Concat(chunks[..|chunks| - 1]) + chunks[|chunks| - 1]
  }

  function Sizes(chunks: seq<Blob>): (r: seq<int>)
    ensures |r| == |chunks| && forall i :: 0 <= i < |r| ==> r[i] == |chunks[i]|
  {
    seq(|chunks|, i requires 0 <= i < |chunks| => |chunks[i]|)
  }

  /** A fetch delivers a prefix of the blob, and all of it unless it ends in an error, into a file that
      can be created. */
  ghost predicate Faithful(blobs: map<string, Blob>, item: Item, delivery: Delivery) {
    delivery.Streamed? ==>
      && Creatable(item) && item.digest in blobs
      && Concat(delivery.chunks) <= blobs[item.digest]
      && (delivery.whole ==> Concat(delivery.chunks) == blobs[item.digest])
  }

  ghost predicate FaithfulAll(blobs: map<string, Blob>, items: seq<Item>, deliveries: nat -> Delivery) {
    forall k: nat :: k < |items| ==> Faithful(blobs, items[k], deliveries(k))
  }

  predicate Delivered(delivery: Delivery) {
    delivery.Streamed? && delivery.whole
  }

  ghost predicate DeliveredFirst(deliveries: nat -> Delivery, n: nat) {
    forall k: nat :: k < n ==> Delivered(deliveries(k))
  }

  lemma DeliveredNext(deliveries: nat -> Delivery, n: nat)
    requires DeliveredFirst(deliveries, n) && Delivered(deliveries(n))
    ensures DeliveredFirst(deliveries, n + 1)
  {
  }

  /** The directory after fetching one item: a failed fetch leaves the file as far as it came. */
  function AfterFetch(dir: map<string, Blob>, item: Item, delivery: Delivery): map<string, Blob> {
    if delivery.Streamed? then dir[item.name := Concat(delivery.chunks)] else dir
  }

  datatype Outcome = Written | NoManifest | FailedAt(item: nat)

  /** Everything up to the failing item is written in full, and that item as far as it came. */
  ghost predicate Materialized(blobs: map<string, Blob>, was: map<string, Blob>, now: map<string, Blob>,
                               items: seq<Item>, deliveries: nat -> Delivery, r: Outcome) {
    match r
    case Written => now == was + Files(blobs, items) && DeliveredFirst(deliveries, |items|)
    case NoManifest => now == was
    case FailedAt(k) =>
      && k < |items| && DeliveredFirst(deliveries, k) && !Delivered(deliveries(k))
      && now == AfterFetch(was + Files(blobs, items[..k]), items[k], deliveries(k))
  }

  /** How writing the completion marker goes; the file may exist although the call failed. */
  datatype MarkerWrite = MarkerWritten | MarkerNotCreated | MarkerCreatedThenFailed

  function ItemsIn(manifest: Option<Manifest>): seq<Item> {
    if manifest.Some? then Items(manifest.value) else []
  }

  /** What the network and the disk do during one pull, the manifest of the second resolve included. */
  datatype Pull = Pull(lockable: bool, mkdir: bool, manifest: Option<Manifest>, deliveries: nat -> Delivery,
      marker: MarkerWrite)

  ghost predicate Plausible(blobs: map<string, Blob>, pull: Pull) {
    pull.manifest.Some? ==>
      Contained(pull.manifest.value) && FaithfulAll(blobs, Items(pull.manifest.value), pull.deliveries)
  }

  /** What a pull leaves of the directory `was` once its lock file was opened or not, and whether it
      succeeds: `mid` is the directory when the marker's turn comes. */
  ghost predicate Pulled(blobs: map<string, Blob>, was: map<string, Blob>, now: map<string, Blob>,
                         mid: map<string, Blob>, pull: Pull, r: Outcome, ok: bool) {
    if pull.lockable && MARKER in was then ok && now == was
    else if !pull.lockable || !pull.mkdir then !ok && now == was
    else
      && (r.NoManifest? <==> pull.manifest.None?)
      && Materialized(blobs, was, mid, ItemsIn(pull.manifest), pull.deliveries, r)
      && (if r.Written? && !pull.marker.MarkerNotCreated? then now == mid[MARKER := []]
          && (ok <==> pull.marker.MarkerWritten?)
          else now == mid && !ok)
  }

  /** `now` is `was` with directory `d` holding `dir`. */
  ghost predicate Updated(was: map<string, map<string, Blob>>, now: map<string, map<string, Blob>>, d: string,
                          dir: map<string, Blob>) {
    && d in now && now[d] == dir
    && forall e :: e != d ==> (e in now <==> e in was) && (e in was ==> now[e] == was[e])
  }

  /** The files of every directory and the digests whose lock somebody holds. */
  datatype CacheState = CacheState(dirs: map<string, map<string, Blob>>, locked: set<string>)

  function DirIn(dirs: map<string, map<string, Blob>>, d: string): map<string, Blob> {
    if d in dirs then dirs[d] else map[]
  }

  class Cache {
    const blobs: map<string, Blob>
    var dirs: map<string, map<string, Blob>>
    var locked: set<string>

    constructor (blobs: map<string, Blob>)
      ensures this.blobs == blobs && dirs == map[] && locked == {}
    {
      this.blobs := blobs;
      dirs := map[];
      locked := {};
    }

    function Dir(d: string): map<string, Blob>
      reads this`dirs
    {
      DirIn(dirs, d)
    }

    /** Appends to one file of one directory. */
    method Append(d: string, name: string, data: Blob)
      requires d in dirs && name in dirs[d]
      modifies this`dirs
      ensures Updated(old(dirs), dirs, d, old(dirs)[d][name := old(dirs)[d][name] + data])
    {
      dirs := dirs[d := dirs[d][name := dirs[d][name] + data]];
    }

    /** `io.Copy` through the progress reader. */
    method Copy(d: string, name: string, chunks: seq<Blob>, pct: PctReader)
      requires d in dirs && name in dirs[d] && dirs[d][name] == []
      requires pct.total > 0 ==> pct.View() == FRESH
      modifies this`dirs, pct
      ensures Updated(old(dirs), dirs, d, old(dirs)[d][name := Concat(chunks)])
      ensures pct.total > 0 ==> pct.View() == AfterReads(pct.total, Sizes(chunks))
    {
      ghost var was := dirs;
      assert was[d][name := []] == was[d];
      for i := 0 to |chunks|
        invariant Updated(was, dirs, d, was[d][name := Concat(chunks[..i])])
        invariant pct.total > 0 ==> pct.View() == AfterReads(pct.total, Sizes(chunks[..i]))
      {
        TakeOne(chunks, i);
        Append(d, name, chunks[i]);
        if pct.total > 0 { pct.Read(|chunks[i]|); }
      }
      assert chunks[..|chunks|] == chunks;
    }

    /** Streams one blob into one file, reporting progress when `size` is known. */
    method FetchBlobToFile(d: string, item: Item, delivery: Delivery) returns (ok: bool, reports: seq<int>)
      requires d in dirs && Faithful(blobs, item, delivery)
      modifies this`dirs
      ensures Updated(old(dirs), dirs, d, AfterFetch(old(dirs)[d], item, delivery))
      ensures ok == Delivered(delivery)
      ensures reports == if delivery.Streamed? && item.size > 0
                         then AfterReads(item.size, Sizes(delivery.chunks)).reports else []
    {
      if delivery.Refused? || delivery.Uncreatable? { return false, []; }
      dirs := dirs[d := dirs[d][item.name := []]];
      var pct := new PctReader(item.size);
      Copy(d, item.name, delivery.chunks, pct);
      reports := if item.size > 0 then pct.reports else [];
      ok := delivery.whole;
    }

    /** Writes item `k` after the items before it. */
    method WriteItem(d: string, ghost was: map<string, Blob>, ghost items: seq<Item>, item: Item, k: nat,
        delivery: Delivery)
      returns (ok: bool)
      requires k < |items| && items[k] == item && Faithful(blobs, item, delivery)
      requires d in dirs && dirs[d] == was + Files(blobs, items[..k])
      modifies this`dirs
      ensures d in dirs && Updated(old(dirs), dirs, d, dirs[d])
      ensures ok == Delivered(delivery)
      ensures ok ==> dirs[d] == was + Files(blobs, items[..k + 1])
      ensures !ok ==> dirs[d] == AfterFetch(was + Files(blobs, items[..k]), item, delivery)
    {
      var fetched, _ := FetchBlobToFile(d, item, delivery);
      ok := fetched;
      FilesSnoc(blobs, items, k);
    }

    /** The loop over the layers, after the items of the config. */
    method WriteLayers(d: string, ghost was: map<string, Blob>, m: Manifest, start: nat, deliveries: nat -> Delivery)
      returns (r: Outcome)
      requires start == ItemsBefore(m, 0) <= |Items(m)|
      requires Contained(m) && FaithfulAll(blobs, Items(m), deliveries)
      requires DeliveredFirst(deliveries, start)
      requires d in dirs && dirs[d] == was + Files(blobs, Items(m)[..start])
      modifies this`dirs
      ensures d in dirs && Updated(old(dirs), dirs, d, dirs[d])
      ensures !r.NoManifest? && Materialized(blobs, was, dirs[d], Items(m), deliveries, r)
    {
      var written := start;
      for i := 0 to |m.layers|
        invariant written == ItemsBefore(m, i) <= |Items(m)|
        invariant DeliveredFirst(deliveries, written)
        invariant d in dirs && Updated(old(dirs), dirs, d, dirs[d])
        invariant dirs[d] == was + Files(blobs, Items(m)[..written])
      {
        var layer := m.layers[i];
        NextItem(m, i);
        if layer.title == "" { continue; }
        var item := Item(Landing(layer.title), layer.digest, layer.size);
        var ok := WriteItem(d, was, Items(m), item, written, deliveries(written));
        if !ok { return FailedAt(written); }
        DeliveredNext(deliveries, written);
        written := written + 1;
      }
      AllItems(m);
      r := Written;
    }

    /** Writes the config and the titled layers in order, stopping at the first failure.
        `deliveries(k)` is how the `k`-th file goes. */
    method MaterializeImage(d: string, manifest: Option<Manifest>, deliveries: nat -> Delivery) returns (r: Outcome)
      requires d in dirs
      requires manifest.Some? ==> Contained(manifest.value) && FaithfulAll(blobs, Items(manifest.value), deliveries)
      modifies this`dirs
      ensures d in dirs && Updated(old(dirs), dirs, d, dirs[d])
      ensures r.NoManifest? <==> manifest.None?
      ensures Materialized(blobs, old(dirs)[d], dirs[d], ItemsIn(manifest), deliveries, r)
    {
      if manifest.None? { return NoManifest; }
      var m := manifest.value;
      ghost var was, items := dirs[d], Items(m);
      assert was + Files(blobs, []) == was;
      NoItemsBefore(m);
      if m.config.digest == "" {
        r := WriteLayers(d, was, m, 0, deliveries);
      } else {
        var item := Item("metadata.json", m.config.digest, 0);
        assert items[0] == item && items[..0] == [];
        var ok := WriteItem(d, was, items, item, 0, deliveries(0));
        if !ok { return FailedAt(0); }
        r := WriteLayers(d, was, m, 1, deliveries);
      }
    }

    /** The part of `PullIntoCache` that runs under the lock of `d`. */
    method PullLocked(d: string, pull: Pull) returns (ok: bool, ghost mid: map<string, Blob>, ghost r: Outcome)
      requires d in locked && Plausible(blobs, pull) && pull.lockable
      modifies this`dirs
      ensures forall e :: e != d ==> Dir(e) == old(Dir(e))
      ensures Pulled(blobs, old(Dir(d)), Dir(d), mid, pull, r, ok)
    {
      mid, r := map[], NoManifest;
      if MARKER in Dir(d) { return true, mid, r; }
      if !pull.mkdir { return false, mid, r; }
      dirs := dirs[d := Dir(d)];
      var written := MaterializeImage(d, pull.manifest, pull.deliveries);
      mid, r := dirs[d], written;
      if !written.Written? { return false, mid, r; }
      if pull.marker.MarkerNotCreated? { return false, mid, r; }
      dirs := dirs[d := dirs[d][MARKER := []]];
      ok := pull.marker.MarkerWritten?;
    }

    /** Pulls the image whose first resolve gave `first`, waiting for the lock as long as others hold
        it; `granted` is what they have made of the cache when the kernel grants the lock. The lock is
        free again on every way out and no other directory changes under it; `PulledMeans` says what a
        pull makes of its own directory. */
    method PullIntoCache(first: Option<string>, granted: CacheState, pull: Pull)
      returns (r: Option<string>, ghost mid: map<string, Blob>, ghost outcome: Outcome)
      requires first.Some? ==> first.value !in granted.locked
      requires Plausible(blobs, pull)
      modifies this
      ensures r.Some? ==> r == first
      ensures if first.None? || !pull.lockable then r.None? && dirs == old(dirs) && locked == old(locked)
              else locked == granted.locked
                   && (forall e :: e != first.value ==> Dir(e) == DirIn(granted.dirs, e))
                   && Pulled(blobs, DirIn(granted.dirs, first.value), Dir(first.value), mid, pull, outcome, r.Some?)
    {
      mid, outcome := map[], NoManifest;
      if first.None? || !pull.lockable { return None, mid, outcome; }
      var d := first.value;
      Flock(d, granted);
      var ok;
      ok, mid, outcome := PullLocked(d, pull);
      locked := locked - {d};
      r := if ok then Some(d) else None;
    }

    /** Blocks until nobody else holds the lock of `d`. */
    method Flock(d: string, granted: CacheState)
      requires d !in granted.locked
      modifies this
      ensures dirs == granted.dirs && locked == granted.locked + {d}
    {
      dirs, locked := granted.dirs, granted.locked + {d};
    }
  }

  lemma MarkerUntouched(blobs: map<string, Blob>, was: map<string, Blob>, now: map<string, Blob>, pull: Pull,
      r: Outcome)
    requires Plausible(blobs, pull) && MARKER !in was
    requires Materialized(blobs, was, now, ItemsIn(pull.manifest), pull.deliveries, r)
    ensures MARKER !in now
  {
    if pull.manifest.Some? {
      FilesNames(blobs, Items(pull.manifest.value));
      if r.FailedAt? { FilesNames(blobs, Items(pull.manifest.value)[..r.item]); }
    }
  }

  /** A successful pull leaves a complete directory and a complete directory is never changed; a
      directory that was not complete gets the manifest's files over whatever was there, and is
      exactly the manifest's files and the marker when earlier attempts wrote only those names; a
      failed pull leaves no marker unless writing the marker itself is what failed. */
  lemma PulledMeans(blobs: map<string, Blob>, was: map<string, Blob>, now: map<string, Blob>, mid: map<string, Blob>,
                    pull: Pull, r: Outcome, ok: bool)
    requires Plausible(blobs, pull) && Pulled(blobs, was, now, mid, pull, r, ok)
    ensures ok ==> MARKER in now
    ensures MARKER in was ==> now == was && (ok <==> pull.lockable)
    ensures ok && MARKER !in was ==>
              pull.manifest.Some? && now == (was + Files(blobs, ItemsIn(pull.manifest)))[MARKER := []]
    ensures ok && MARKER !in was && was.Keys <= Files(blobs, ItemsIn(pull.manifest)).Keys ==>
              now == Files(blobs, ItemsIn(pull.manifest))[MARKER := []]
    ensures !ok && MARKER !in was && MARKER in now ==> pull.marker.MarkerCreatedThenFailed?
  {
    if pull.lockable && pull.mkdir && MARKER !in was { MarkerUntouched(blobs, was, mid, pull, r); }
  }

  lemma TakeOne(chunks: seq<Blob>, i: nat)
    requires i < |chunks|
    ensures Concat(chunks[..i + 1]) == Concat(chunks[..i]) + chunks[i]
    ensures Sizes(chunks[..i + 1]) == Sizes(chunks[..i]) + [|chunks[i]|]
    ensures forall total :: total > 0 ==>
              AfterReads(total, Sizes(chunks[..i + 1]))
                  == AfterRead(AfterReads(total, Sizes(chunks[..i])), total, |chunks[i]|)
  {
    assert chunks[..i + 1][..i] == chunks[..i];
    assert Sizes(chunks[..i + 1])[..i] == Sizes(chunks[..i]);
  }

  /** How many items come before layer `i`. */
  function ItemsBefore(m: Manifest, i: nat): nat
    requires i <= |m.layers|
  {
    |ConfigItems(m.config)| + |LayerItems(m.layers[..i])|
  }

  lemma NoItemsBefore(m: Manifest)
    ensures ItemsBefore(m, 0) == |ConfigItems(m.config)| <= |Items(m)|
  {
    assert m.layers[..0] == [];
  }

  lemma AllItems(m: Manifest)
    ensures ItemsBefore(m, |m.layers|) == |Items(m)| && Items(m)[..|Items(m)|] == Items(m)
  {
    assert m.layers[..|m.layers|] == m.layers;
  }

  /** The next titled layer is the next item; an untitled one is none. */
  lemma NextItem(m: Manifest, i: nat)
    requires i < |m.layers|
    ensures var k := ItemsBefore(m, i);
            var layer := m.layers[i];
            if layer.title == "" then ItemsBefore(m, i + 1) == k
            else
              && ItemsBefore(m, i + 1) == k + 1 <= |Items(m)|
              && Items(m)[k] == Item(Landing(layer.title), layer.digest, layer.size)
  {
    assert m.layers[..i + 1][..i] == m.layers[..i];
    LayerItemsPrefix(m.layers, i + 1);
  }

  lemma {:induction false} LayerItemsPrefix(layers: seq<Descriptor>, i: nat)
    requires i <= |layers|
    ensures LayerItems(layers[..i]) <= LayerItems(layers)
  {
    if i < |layers| {
      LayerItemsPrefix(layers[..|layers| - 1], i);
      assert layers[..|layers| - 1][..i] == layers[..i];
    } else {
      assert layers[..i] == layers;
    }
  }
}
