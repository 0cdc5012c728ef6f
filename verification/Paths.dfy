/** Go's `path/filepath` on Unix: the lexical normaliser behind `Clean` and `Join`. */
module Paths {
  import opened Text

  /** `filepath.IsAbs`. */
  predicate IsAbs(p: string) {
    p != "" && p[0] == '/'
  }

  predicate Skipped(c: string) {
    c == "" || c == "."
  }

  /** A component that names a file or a directory. */
  predicate Named(c: string) {
    c != "" && c != "." && c != ".." && '/' !in c
  }

  /** One component of a path applied to the components kept so far. */
  function Enter(rooted: bool, kept: seq<string>, c: string): seq<string> {
    if Skipped(c) then kept
    else if c != ".." then kept + [c]
    else if kept != [] && kept[|kept| - 1] != ".." then kept[..|kept| - 1]
    else if rooted then kept
    else kept + [".."]
  }

  function Walk(rooted: bool, from: seq<string>, comps: seq<string>): seq<string> {
    if comps == [] then from
    else Enter(rooted, Walk(rooted, from, comps[..|comps| - 1]), comps[|comps| - 1])
  }

  function Render(rooted: bool, kept: seq<string>): string {
    if rooted then "/" + Join(kept, '/')
    else if kept == [] then "."
    else Join(kept, '/')
  }

  /** `filepath.Clean`. */
  function Clean(p: string): string {
    Render(IsAbs(p), Walk(IsAbs(p), [], Split(p, '/')))
  }

  /** `filepath.Join` of two elements: empty leading elements are dropped. */
  function JoinPath(a: string, b: string): string {
    if a != "" then Clean(a + "/" + b)
    else if b != "" then Clean(b)
    else ""
  }

  function TrimSlashes(p: string): string {
    if p != "" && p[|p| - 1] == '/' then TrimSlashes(p[..|p| - 1]) else p
  }

  /** `filepath.Base`. */
  function Base(p: string): string {
    if p == "" then "."
    else if TrimSlashes(p) == "" then "/"
    else AfterLast(TrimSlashes(p), '/')
  }

  // ---- Walking ---------------------------------------------------------------------------

  lemma {:induction false} WalkConcat(rooted: bool, from: seq<string>, xs: seq<string>, ys: seq<string>)
    ensures Walk(rooted, from, xs + ys) == Walk(rooted, Walk(rooted, from, xs), ys)
  {
    if ys == [] {
      assert xs + ys == xs;
    } else {
      var n := |ys| - 1;
      WalkConcat(rooted, from, xs, ys[..n]);
      assert (xs + ys)[..|xs + ys| - 1] == xs + ys[..n];
    }
  }

  /** What a relative walk leaves: only `..` and names without a slash. */
  lemma {:induction false} WalkKept(rooted: bool, comps: seq<string>)
    requires forall i :: 0 <= i < |comps| ==> '/' !in comps[i]
    ensures forall i :: 0 <= i < |Walk(rooted, [], comps)| ==>
              var c := Walk(rooted, [], comps)[i]; Named(c) || (c == ".." && !rooted)
  {
    if comps != [] { WalkKept(rooted, comps[..|comps| - 1]); }
  }

  /** Normalising a relative path first does not change where it leads, from any start. */
  lemma {:induction false} WalkNormalised(rooted: bool, from: seq<string>, comps: seq<string>)
    ensures Walk(rooted, from, Walk(false, [], comps)) == Walk(rooted, from, comps)
  {
    if comps != [] {
      var c := comps[|comps| - 1];
      var before := comps[..|comps| - 1];
      var kept := Walk(false, [], before);
      WalkNormalised(rooted, from, before);
      if Skipped(c) {
      } else if c == ".." && kept != [] && kept[|kept| - 1] != ".." {
        WalkKeptShort(before);
        assert Walk(rooted, from, kept) == Enter(rooted, Walk(rooted, from, kept[..|kept| - 1]), kept[|kept| - 1]);
      } else {
        assert (kept + [c])[..|kept|] == kept;
      }
    }
  }

  /** A walk keeps no component that would be skipped. */
  lemma {:induction false} WalkKeptShort(comps: seq<string>)
    ensures forall i :: 0 <= i < |Walk(false, [], comps)| ==> !Skipped(Walk(false, [], comps)[i])
  {
    if comps != [] { WalkKeptShort(comps[..|comps| - 1]); }
  }

  /** Names lead on from where a walk starts. */
  lemma {:induction false} WalkNames(rooted: bool, from: seq<string>, names: seq<string>)
    requires forall i :: 0 <= i < |names| ==> Named(names[i])
    ensures Walk(rooted, from, names) == from + names
  {
    if names != [] { WalkNames(rooted, from, names[..|names| - 1]); }
  }

  /** A relative walk keeps its `..` at the front. */
  lemma {:induction false} WalkDotsFirst(comps: seq<string>)
    ensures forall i, j :: 0 <= i < j < |Walk(false, [], comps)| && Walk(false, [], comps)[j] == ".." ==>
              Walk(false, [], comps)[i] == ".."
  {
    if comps != [] { WalkDotsFirst(comps[..|comps| - 1]); }
  }

  // ---- Cleaning --------------------------------------------------------------------------

  /** The components of a cleaned relative path lead where the original components lead. */
  lemma CleanRelative(p: string)
    requires p != "" && !IsAbs(p)
    ensures Clean(p) != "" && !IsAbs(Clean(p))
    ensures forall rooted, from ::
              Walk(rooted, from, Split(Clean(p), '/')) == Walk(rooted, from, Split(p, '/'))
  {
    var comps := Split(p, '/');
    var kept := Walk(false, [], comps);
    SplitPartsFree(p, '/');
    WalkKept(false, comps);
    if kept != [] {
      SplitJoin(kept, '/');
      assert Clean(p)[0] == kept[0][0];
    }
    forall rooted, from
      ensures Walk(rooted, from, Split(Clean(p), '/')) == Walk(rooted, from, comps)
    {
      WalkNormalised(rooted, from, comps);
      if kept == [] {
        assert Split(".", '/') == ["."] by { SplitPlain(".", '/'); }
        assert Walk(rooted, from, ["."]) == Enter(rooted, Walk(rooted, from, []), ".") by {
          assert ["."][..0] == [];
        }
      }
    }
  }

  /** Clean(w/Clean(p)) = Clean(w/p) for every relative `p` and every `w`. */
  lemma JoinCleaned(w: string, p: string)
    requires p != "" && !IsAbs(p)
    ensures JoinPath(w, Clean(p)) == JoinPath(w, p)
  {
    CleanRelative(p);
    if w == "" { return; }
    var rooted := IsAbs(w);
    assert w + "/" + p == w + ['/'] + p;
    assert w + "/" + Clean(p) == w + ['/'] + Clean(p);
    SplitConcat(w, p, '/');
    SplitConcat(w, Clean(p), '/');
    WalkConcat(rooted, [], Split(w, '/'), Split(p, '/'));
    WalkConcat(rooted, [], Split(w, '/'), Split(Clean(p), '/'));
  }

  /** Cleaning a cleaned path changes nothing. */
  lemma CleanIdempotent(p: string)
    ensures Clean(Clean(p)) == Clean(p)
  {
    if p == "" {
      assert Clean(p) == "." by { assert Walk(false, [], [""]) == Enter(false, Walk(false, [], [""][..0]), ""); }
      CleanRelative(".");
      assert Walk(false, [], Split(".", '/')) == [] by {
        SplitPlain(".", '/');
        assert Walk(false, [], ["."]) == Enter(false, Walk(false, [], ["."][..0]), ".");
      }
    } else if !IsAbs(p) {
      CleanRelative(p);
    } else {
      var kept := Walk(true, [], Split(p, '/'));
      SplitPartsFree(p, '/');
      WalkKept(true, Split(p, '/'));
      WalkNames(true, [], kept);
      assert [] + kept == kept;
      assert Clean(p)[0] == '/' && Clean(p)[1..] == Join(kept, '/');
      assert Split(Clean(p), '/') == [""] + Split(Join(kept, '/'), '/');
      assert [""][..0] == [];
      assert Walk(true, [], [""]) == Enter(true, Walk(true, [], []), "");
      WalkConcat(true, [], [""], Split(Join(kept, '/'), '/'));
      if kept == [] { assert Split("", '/') == [""]; } else { SplitJoin(kept, '/'); }
    }
  }

  /** Joining a directory and a plain file name: the name becomes the last component. */
  lemma JoinName(dir: string, name: string)
    requires Named(name)
    ensures dir != "" ==>
              JoinPath(dir, name) == Render(IsAbs(dir), Walk(IsAbs(dir), [], Split(dir, '/')) + [name])
    ensures dir == "" ==> JoinPath(dir, name) == name
  {
    SplitPlain(name, '/');
    if dir == "" {
      assert Walk(false, [], [name]) == Enter(false, Walk(false, [], []), name) by {
        assert [name][..0] == [];
      }
      assert [] + [name] == [name];
    } else {
      var rooted := IsAbs(dir);
      var kept := Walk(rooted, [], Split(dir, '/'));
      assert dir + "/" + name == dir + ['/'] + name;
      SplitConcat(dir, name, '/');
      WalkConcat(rooted, [], Split(dir, '/'), [name]);
      assert Walk(rooted, kept, [name]) == Enter(rooted, Walk(rooted, kept, []), name) by {
        assert [name][..0] == [];
      }
    }
  }

  /** Different file names in one directory have different paths. */
  lemma JoinNameInjective(dir: string, a: string, b: string)
    requires Named(a) && Named(b)
    requires JoinPath(dir, a) == JoinPath(dir, b)
    ensures a == b
  {
    JoinName(dir, a);
    JoinName(dir, b);
    if dir != "" {
      var rooted := IsAbs(dir);
      var kept := Walk(rooted, [], Split(dir, '/'));
      SplitPartsFree(dir, '/');
      WalkKept(rooted, Split(dir, '/'));
      assert Join(kept + [a], '/') == Join(kept + [b], '/') by {
        if rooted {
          assert ("/" + Join(kept + [a], '/'))[1..] == Join(kept + [a], '/');
          assert ("/" + Join(kept + [b], '/'))[1..] == Join(kept + [b], '/');
        }
      }
      SplitJoin(kept + [a], '/');
      SplitJoin(kept + [b], '/');
      assert (kept + [a])[|kept|] == a && (kept + [b])[|kept|] == b;
    }
  }

  /** Where joining leads: the components of the directory, and from there those of the other path. */
  lemma JoinWalks(dir: string, title: string)
    requires dir != ""
    ensures JoinPath(dir, title)
            == Render(IsAbs(dir), Walk(IsAbs(dir), Walk(IsAbs(dir), [], Split(dir, '/')), Split(title, '/')))
  {
    assert dir + "/" + title == dir + ['/'] + title;
    SplitConcat(dir, title, '/');
    WalkConcat(IsAbs(dir), [], Split(dir, '/'), Split(title, '/'));
  }

  lemma {:induction false} TrimmedSlashes(p: string)
    ensures exists tail :: p == TrimSlashes(p) + tail && forall i :: 0 <= i < |tail| ==> tail[i] == '/'
    ensures TrimSlashes(p) != "" ==> TrimSlashes(p)[|TrimSlashes(p)| - 1] != '/'
  {
    if p != "" && p[|p| - 1] == '/' {
      TrimmedSlashes(p[..|p| - 1]);
      var tail :| p[..|p| - 1] == TrimSlashes(p) + tail && forall i :: 0 <= i < |tail| ==> tail[i] == '/';
      assert p == TrimSlashes(p) + (tail + "/");
    } else {
      assert p == p + "";
    }
  }

  /** `head` ends a directory, `tail` is nothing but slashes. */
  predicate Around(head: string, tail: string) {
    (head == "" || head[|head| - 1] == '/') && forall i :: 0 <= i < |tail| ==> tail[i] == '/'
  }

  /** `Base` is the last component, whatever slashes follow it. */
  lemma BaseIsLast(p: string)
    requires exists i :: 0 <= i < |p| && p[i] != '/'
    ensures Base(p) != "" && '/' !in Base(p)
    ensures exists head, tail :: p == head + Base(p) + tail && Around(head, tail)
  {
    TrimmedSlashes(p);
    var t := TrimSlashes(p);
    var tail :| p == t + tail && forall i :: 0 <= i < |tail| ==> tail[i] == '/';
    assert t != "";
    AfterLastSuffix(t, '/');
    var head :| t == head + AfterLast(t, '/') && (head == "" || head[|head| - 1] == '/');
    assert p == head + Base(p) + tail && Around(head, tail);
  }
}
