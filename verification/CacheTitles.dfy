/** Where the titles of an image's layers lead on disk (`internal/oci/oci.go:147-161`): which titles name one
    file of the work directory, and what goes wrong with the others. */
module CacheTitles {
  import opened Prelude
  import opened Text
  import opened Paths
  import opened Registry
  import opened CacheProtocol
  import opened CacheInvariant

  predicate AllNamed(names: seq<string>) {
    forall i :: 0 <= i < |names| ==> Named(names[i])
  }

  /** The components of the path that `title` leads to from directory `dir`. */
  function Reached(dir: seq<string>, title: string): seq<string> {
    Walk(true, dir, Split(title, '/'))
  }

  /** From `dir` the title leads to something in it. */
  predicate StaysIn(dir: seq<string>, title: string) {
    dir <= Reached(dir, title)
  }

  /** From `dir` the title leads to one name right below it. */
  predicate FileIn(dir: seq<string>, title: string) {
    StaysIn(dir, title) && |Reached(dir, title)| == |dir| + 1
  }

  lemma PlaceOfNames(title: string)
    ensures forall i :: 0 <= i < |Place(title)| ==> Named(Place(title)[i]) || Place(title)[i] == ".."
    ensures Stays(title) <==> AllNamed(Place(title))
  {
    SplitPartsFree(title, '/');
    WalkKept(false, Split(title, '/'));
    WalkDotsFirst(Split(title, '/'));
  }

  /** A title that does not start upwards leads from any directory to its place below it. */
  lemma ReachedBelow(rooted: bool, dir: seq<string>, title: string)
    requires Stays(title)
    ensures Walk(rooted, dir, Split(title, '/')) == dir + Place(title)
  {
    PlaceOfNames(title);
    WalkNormalised(rooted, dir, Split(title, '/'));
    WalkNames(rooted, dir, Place(title));
  }

  /** A title that starts upwards forgets the name of the directory it starts from. */
  lemma ReachedAbove(name: string, title: string)
    requires Named(name) && !Stays(title)
    ensures Reached([name], title) == Walk(true, [], Place(title)[1..])
  {
    var place := Place(title);
    WalkNormalised(true, [name], Split(title, '/'));
    assert place == [".."] + place[1..];
    WalkConcat(true, [name], [".."], place[1..]);
    assert Walk(true, [name], [".."]) == Enter(true, Walk(true, [name], [".."][..0]), "..");
  }

  /** A title stays in the work directory, wherever that is, if and only if its place does not start upwards. */
  lemma StaysExactly(title: string)
    ensures Stays(title) <==> forall dir :: AllNamed(dir) ==> StaysIn(dir, title)
  {
    if Stays(title) {
      forall dir | AllNamed(dir) ensures StaysIn(dir, title) { ReachedBelow(true, dir, title); }
    } else {
      var above := Walk(true, [], Place(title)[1..]);
      ReachedAbove("a", title);
      ReachedAbove("b", title);
      assert AllNamed(["a"]) && AllNamed(["b"]);
      assert ["a"] <= above ==> above[0] == "a";
      assert ["b"] <= above ==> above[0] == "b";
    }
  }

  lemma LandingOfPlace(title: string)
    ensures Named(Landing(title)) <==> |Place(title)| == 1 && Named(Place(title)[0])
    ensures Named(Landing(title)) ==> Place(title) == [Landing(title)] && Stays(title)
  {
    var place := Place(title);
    if |place| > 1 { assert Join(place, '/')[|place[0]|] == '/'; }
  }

  lemma FileEverywhere(title: string)
    requires forall dir :: AllNamed(dir) ==> FileIn(dir, title)
    ensures Named(Landing(title))
  {
    forall dir | AllNamed(dir) ensures StaysIn(dir, title) { assert FileIn(dir, title); }
    StaysExactly(title);
    PlaceOfNames(title);
    LandingOfPlace(title);
    assert AllNamed([]) && FileIn([], title);
    ReachedBelow(true, [], title);
    assert [] + Place(title) == Place(title);
  }

  /** A title names one file of the work directory, wherever that is, if and only if the name it is
      written under is a plain one. */
  lemma FileExactly(title: string)
    ensures Named(Landing(title)) <==> forall dir :: AllNamed(dir) ==> FileIn(dir, title)
  {
    LandingOfPlace(title);
    if Named(Landing(title)) {
      forall dir | AllNamed(dir) ensures FileIn(dir, title) { ReachedBelow(true, dir, title); }
    }
    if forall dir :: AllNamed(dir) ==> FileIn(dir, title) { FileEverywhere(title); }
  }

  // ---- Paths --------------------------------------------------------------------------------------

  /** The file of such a title is the file of the name it is written under. */
  lemma LandingPath(dir: string, title: string)
    requires dir != "" && Named(Landing(title))
    ensures JoinPath(dir, title) == JoinPath(dir, Landing(title))
  {
    LandingOfPlace(title);
    JoinWalks(dir, title);
    ReachedBelow(IsAbs(dir), Walk(IsAbs(dir), [], Split(dir, '/')), title);
    JoinName(dir, Landing(title));
  }

  /** Two such titles are one file if and only if they are written under one name. */
  lemma SameFile(dir: string, a: string, b: string)
    requires dir != "" && Named(Landing(a)) && Named(Landing(b))
    ensures JoinPath(dir, a) == JoinPath(dir, b) <==> Landing(a) == Landing(b)
  {
    LandingPath(dir, a);
    LandingPath(dir, b);
    if JoinPath(dir, a) == JoinPath(dir, b) { JoinNameInjective(dir, Landing(a), Landing(b)); }
  }

  // ---- Titles that fail ------------------------------------------------------------------------------

  lemma SplitTwo(a: string, b: string)
    requires '/' !in a && '/' !in b
    ensures Split(a + "/" + b, '/') == [a, b]
  {
    assert a + "/" + b == a + ['/'] + b;
    SplitConcat(a, b, '/');
    SplitPlain(a, '/');
    SplitPlain(b, '/');
  }

  /** A name after a dot is that name. */
  lemma DottedPlace(name: string)
    requires Named(name)
    ensures Place("./" + name) == [name] && Landing("./" + name) == name
  {
    SplitTwo(".", name);
    assert "./" + name == "." + "/" + name;
    assert Walk(false, [], [".", name]) == Enter(false, Walk(false, [], [".", name][..1]), name);
    assert [".", name][..1] == ["."];
    assert Walk(false, [], ["."]) == Enter(false, Walk(false, [], ["."][..0]), ".");
  }

  /** The file of the title `./.complete` is the completion marker. */
  lemma MarkerTitle(dir: string)
    requires dir != ""
    ensures JoinPath(dir, "./.complete") == JoinPath(dir, ".complete")
    ensures MARKER == ".complete" && Landing("./.complete") == MARKER
  {
    assert Named(MARKER) by { assert MARKER[1] == 'c'; }
    DottedPlace(MARKER);
    assert "./" + MARKER == "./.complete";
    LandingPath(dir, "./.complete");
  }

  lemma EscapingPlace(e: string, name: string)
    requires Named(e) && Named(name)
    ensures Split("../" + e + "/" + name, '/') == [".."] + [e, name]
    ensures Place("../" + e + "/" + name) == [".."] + [e, name]
  {
    var title := "../" + e + "/" + name;
    assert title == ".." + ['/'] + (e + "/" + name);
    SplitConcat("..", e + "/" + name, '/');
    SplitPlain("..", '/');
    SplitTwo(e, name);
    WalkConcat(false, [], [".."], [e, name]);
    assert [".."][..0] == [] && [] + [".."] == [".."];
    assert Walk(false, [], [".."]) == Enter(false, Walk(false, [], []), "..");
    WalkNames(false, [".."], [e, name]);
  }

  lemma UpAndDown(rooted: bool, kept: seq<string>, d: string, e: string, name: string)
    requires Named(d) && Named(e) && Named(name)
    ensures Walk(rooted, kept + [d], [".."] + [e, name]) == kept + [e] + [name]
  {
    WalkConcat(rooted, kept + [d], [".."], [e, name]);
    assert [".."][..0] == [] && (kept + [d])[..|kept|] == kept;
    assert Walk(rooted, kept + [d], [".."]) == Enter(rooted, Walk(rooted, kept + [d], []), "..");
    WalkNames(rooted, kept, [e, name]);
    assert kept + [e, name] == kept + [e] + [name];
  }

  /** From the directory of one digest, the title `../sha256-e/name` is a file of the directory of another. */
  lemma EscapingTitle(cache: string, d: string, e: string, name: string)
    requires cache != "" && Named(d) && Named(e) && Named(name)
    ensures JoinPath(cache + "/" + d, "../" + e + "/" + name) == JoinPath(cache + "/" + e, name)
    ensures !Stays("../" + e + "/" + name)
  {
    EscapingPlace(e, name);
    Below(cache, d);
    Below(cache, e);
    JoinWalks(cache + "/" + d, "../" + e + "/" + name);
    JoinName(cache + "/" + e, name);
    UpAndDown(IsAbs(cache), Walk(IsAbs(cache), [], Split(cache, '/')), d, e, name);
  }

  lemma Below(cache: string, d: string)
    requires cache != "" && Named(d)
    ensures IsAbs(cache + "/" + d) == IsAbs(cache)
    ensures Walk(IsAbs(cache), [], Split(cache + "/" + d, '/')) == Walk(IsAbs(cache), [], Split(cache, '/')) + [d]
  {
    var rooted := IsAbs(cache);
    assert cache + "/" + d == cache + ['/'] + d;
    SplitConcat(cache, d, '/');
    SplitPlain(d, '/');
    WalkConcat(rooted, [], Split(cache, '/'), [d]);
    WalkNames(rooted, Walk(rooted, [], Split(cache, '/')), [d]);
  }

  // ---- Runs with a marker title ------------------------------------------------------------------------

  lemma TwoLayers(a: Descriptor, b: Descriptor)
    requires a.title != "" && b.title != ""
    ensures LayerItems([a, b]) == [Item(Landing(a.title), a.digest, a.size), Item(Landing(b.title), b.digest, b.size)]
  {
    assert [a, b][..1] == [a] && [a][..0] == [];
    assert LayerItems([a]) == [] + [Item(Landing(a.title), a.digest, a.size)];
  }

  /** An image with two empty files. */
  function TwoTitles(first: string, second: string): Content {
    Content(map["d" := Manifest(Descriptor("", 0, ""), [Descriptor("blob", 0, first), Descriptor("blob", 0, second)])],
            map["blob" := []])
  }

  /** Its first title leads to the completion marker, its second to another file. */
  ghost predicate MarkerFirst(c: Content, second: string) {
    && c.manifests.Keys == {"d"} && ItemsOf(c, "d") == [Item(MARKER, "blob", 0), Item(second, "blob", 0)]
    && "blob" in c.blobs && Creatable(Item(MARKER, "blob", 0)) && second != MARKER
  }

  lemma TwoTitlesItems(first: string, second: string)
    requires first != "" && Landing(first) == MARKER && second != "" && Landing(second) != MARKER
    ensures MarkerFirst(TwoTitles(first, second), Landing(second)) && !ContainedContent(TwoTitles(first, second))
  {
    var m := TwoTitles(first, second).manifests["d"];
    assert MARKER[1] == 'c';
    TwoLayers(m.layers[0], m.layers[1]);
    assert Items(m) == [] + LayerItems(m.layers);
    assert Items(m)[0].name == MARKER;
  }

  function Alone(locks: map<string, nat>, dirs: map<string, map<string, Blob>>, phase: Phase): State {
    State(map[], locks, dirs, map[0 := Proc(ByDigest("d"), phase)])
  }

  lemma EarlyWaiting(c: Content, second: string) returns (states: seq<State>, acts: seq<Action>)
    requires MarkerFirst(c, second)
    ensures Run(c, states, acts)
    ensures states[|acts|] == Alone(map[], map[], Waiting("d"))
  {
    states, acts := [State(map[], map[], map[], map[])], [];
    states, acts := GoOn(c, states, acts, Spawn(0, ByDigest("d")), Alone(map[], map[], Begin));
    states, acts := GoOn(c, states, acts, Resolving(0), Alone(map[], map[], Waiting("d")));
  }

  lemma EarlyMissed(c: Content, second: string) returns (states: seq<State>, acts: seq<Action>)
    requires MarkerFirst(c, second)
    ensures Run(c, states, acts)
    ensures states[|acts|] == Alone(map["d" := 0], map["d" := map[]], Missed("d"))
  {
    states, acts := EarlyWaiting(c, second);
    states, acts := GoOn(c, states, acts, Lock(0), Alone(map["d" := 0], map[], Locked("d")));
    states, acts := GoOn(c, states, acts, Check(0), Alone(map["d" := 0], map["d" := map[]], Missed("d")));
  }

  /** With a first layer titled like `./.complete` a directory is complete although no manifest is there in full: its
      puller has only created the first file, and may crash now. */
  lemma EarlyMarker(c: Content, second: string) returns (states: seq<State>, acts: seq<Action>)
    requires MarkerFirst(c, second)
    ensures Run(c, states, acts) && Complete(states[|acts|], "d")
    ensures forall src :: !Contains(c, DirOf(states[|acts|], "d"), src)
  {
    states, acts := EarlyMissed(c, second);
    states, acts := GoOn(c, states, acts, FetchManifest(0),
                         Alone(map["d" := 0], map["d" := map[]], Filling("d", "d", 0, None)));
    states, acts := GoOn(c, states, acts, Create(0),
                         Alone(map["d" := 0], map["d" := map[MARKER := []]], Filling("d", "d", 0, Some(0))));
    FilesHas(c.blobs, ItemsOf(c, "d"), 1);
  }
}
