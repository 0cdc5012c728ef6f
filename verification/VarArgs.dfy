/** Job variables given as `-var=KEY=VALUE` arguments, printed one quoted assignment a line
    (`internal/nomadtest/util.go:13-31`), and the reader of that text. */
module VarArgs {
  import opened Prelude
  import opened Text
  import opened GoQuote

  datatype Var = Var(key: string, value: string)

  datatype VarError = Unsupported(arg: string) | Invalid(arg: string)

  const PREFIX := "-var="
  const ASSIGN := " = \""

  // ---- The printer -------------------------------------------------------------------------------

  /** `strings.SplitN(s, "=", 2)`. */
  function SplitAssign(s: string): Option<(string, string)> {
    if s == "" then None
    else if s[0] == '=' then Some(("", s[1..]))
    else match SplitAssign(s[1..])
      case None => None
      case Some((key, value)) => Some(([s[0]] + key, value))
  }

  function ParseArg(arg: string): Result<Var, VarError> {
    if !HasPrefix(arg, PREFIX) then Err(Unsupported(arg))
    else match SplitAssign(arg[|PREFIX|..])
      case None => Err(Invalid(arg))
      case Some((key, value)) => Ok(Var(key, value))
  }

  function Line(isPrint: Printable, v: Var): string {
    v.key + " = " + Quote(isPrint, v.value)
  }

  function Lines(isPrint: Printable, vars: seq<Var>): seq<string> {
    seq(|vars|, i requires 0 <= i < |vars| => Line(isPrint, vars[i]))
  }

  function Arg(v: Var): string {
    "-var=" + v.key + "=" + v.value
  }

  /** `args` are the arguments for `vars`, split at the first `=` of each. */
  predicate Denotes(args: seq<string>, vars: seq<Var>) {
    && |args| == |vars|
    && forall i :: 0 <= i < |vars| ==> args[i] == Arg(vars[i]) && '=' !in vars[i].key
  }

  /** The first argument at fault and what is wrong with it. */
  predicate FirstFault(args: seq<string>, i: nat, e: VarError) {
    && i < |args|
    && (forall j :: 0 <= j < i ==> ParseArg(args[j]).Ok?)
    && (if !HasPrefix(args[i], "-var=") then e == Unsupported(args[i])
        else '=' !in args[i][5..] && e == Invalid(args[i]))
  }

  /** Where a split succeeds, it is at the first `=`; it fails exactly when there is none. */
  lemma {:induction false} SplitAssignExactly(s: string)
    ensures SplitAssign(s).None? <==> '=' !in s
    ensures SplitAssign(s).Some? ==>
              && '=' !in SplitAssign(s).value.0
              && s == SplitAssign(s).value.0 + "=" + SplitAssign(s).value.1
  {
    if s != "" && s[0] != '=' { SplitAssignExactly(s[1..]); }
  }

  lemma ParseArgExactly(arg: string)
    ensures ParseArg(arg).Ok? ==> arg == Arg(ParseArg(arg).value) && '=' !in ParseArg(arg).value.key
    ensures ParseArg(arg).Err? ==> FirstFault([arg], 0, ParseArg(arg).error)
  {
    if HasPrefix(arg, PREFIX) { SplitAssignExactly(arg[|PREFIX|..]); }
  }

  lemma OneMore(isPrint: Printable, args: seq<string>, i: nat, vars: seq<Var>, v: Var)
    requires i < |args| && Denotes(args[..i], vars) && args[i] == Arg(v) && '=' !in v.key
    ensures Denotes(args[..i + 1], vars + [v])
    ensures Lines(isPrint, vars + [v]) == Lines(isPrint, vars) + [Line(isPrint, v)]
  {
  }

  /** The text of the variables the arguments denote, or the first fault. */
  method ParseVarArgs(isPrint: Printable, args: seq<string>) returns (r: Result<string, VarError>)
    ensures r.Ok? ==> exists vars :: Denotes(args, vars) && r.value == Join(Lines(isPrint, vars), '\n')
    ensures r.Err? ==> exists i: nat :: FirstFault(args, i, r.error)
  {
    if |args| == 0 {
      assert Denotes(args, []);
      return Ok("");
    }
    var lines: seq<string> := [];
    ghost var vars: seq<Var> := [];
    for i := 0 to |args|
      invariant Denotes(args[..i], vars) && lines == Lines(isPrint, vars)
      invariant forall j :: 0 <= j < i ==> ParseArg(args[j]).Ok?
    {
      var arg := args[i];
      ParseArgExactly(arg);
      if !HasPrefix(arg, PREFIX) {
        assert FirstFault(args, i, Unsupported(arg));
        return Err(Unsupported(arg));
      }
      var parts := SplitAssign(arg[|PREFIX|..]);
      if parts.None? {
        assert FirstFault(args, i, Invalid(arg));
        return Err(Invalid(arg));
      }
      var v := Var(parts.value.0, parts.value.1);
      OneMore(isPrint, args, i, vars, v);
      lines := lines + [Line(isPrint, v)];
      vars := vars + [v];
    }
    assert args[..|args|] == args;
    r := Ok(Join(lines, '\n'));
  }

  // ---- The reader ---------------------------------------------------------------------------------

  /** Split at the first ` = "`. */
  function SplitLine(s: string): Option<(string, string)> {
    if HasPrefix(s, ASSIGN) then Some(("", s[|ASSIGN|..]))
    else if s == "" then None
    else match SplitLine(s[1..])
      case None => None
      case Some((key, rest)) => Some(([s[0]] + key, rest))
  }

  function ReadLine(s: string): Option<Var> {
    match SplitLine(s)
    case None => None
    case Some((key, rest)) =>
      if rest == "" || rest[|rest| - 1] != '"' then None
      else match UnquoteBody(rest[..|rest| - 1])
        case None => None
        case Some(value) => Some(Var(key, value))
  }

  function ReadLines(lines: seq<string>): (r: Option<seq<Var>>)
    ensures r.Some? ==> |r.value| == |lines|
  {
    if lines == [] then Some([])
    else match (ReadLine(lines[0]), ReadLines(lines[1..]))
      case (Some(v), Some(rest)) => Some([v] + rest)
      case _ => None
  }

  function ReadVars(text: string): Option<seq<Var>> {
    if text == "" then Some([]) else ReadLines(Split(text, '\n'))
  }

  lemma {:induction false} SplitLineOf(key: string, rest: string)
    requires '=' !in key
    ensures SplitLine(key + ASSIGN + rest) == Some((key, rest))
  {
    var s := key + ASSIGN + rest;
    if key == "" {
      assert s == ASSIGN + rest;
      assert s[..|ASSIGN|] == ASSIGN && s[|ASSIGN|..] == rest;
    } else {
      assert s[1] != '=' by { if |key| > 1 { assert s[1] == key[1]; } }
      assert s[..|ASSIGN|][1] != ASSIGN[1];
      assert s[1..] == key[1..] + ASSIGN + rest;
      SplitLineOf(key[1..], rest);
      assert [key[0]] + key[1..] == key;
    }
  }

  lemma LineSplits(isPrint: Printable, v: Var)
    requires '=' !in v.key
    ensures SplitLine(Line(isPrint, v)) == Some((v.key, QuoteBody(isPrint, v.value) + "\""))
  {
    assert Line(isPrint, v) == v.key + ASSIGN + (QuoteBody(isPrint, v.value) + "\"");
    SplitLineOf(v.key, QuoteBody(isPrint, v.value) + "\"");
  }

  lemma ReadLineLine(isPrint: Printable, v: Var)
    requires !isPrint('\n' as int) && '=' !in v.key && Octets(v.value)
    ensures ReadLine(Line(isPrint, v)) == Some(v)
    ensures '\n' in Line(isPrint, v) <==> '\n' in v.key
  {
    var body := QuoteBody(isPrint, v.value);
    UnquoteQuote(isPrint, v.value);
    LineSplits(isPrint, v);
    assert (body + "\"")[..|body|] == body;
  }

  lemma {:induction false} ReadLinesLines(isPrint: Printable, vars: seq<Var>)
    requires !isPrint('\n' as int) && forall i :: 0 <= i < |vars| ==> '=' !in vars[i].key && Octets(vars[i].value)
    ensures ReadLines(Lines(isPrint, vars)) == Some(vars)
  {
    if vars != [] {
      ReadLineLine(isPrint, vars[0]);
      assert Lines(isPrint, vars)[1..] == Lines(isPrint, vars[1..]);
      ReadLinesLines(isPrint, vars[1..]);
      assert [vars[0]] + vars[1..] == vars;
    }
  }

  /** A separator inside a part splits it: reading never gives back as many parts as were joined. */
  lemma {:induction false} SplitCounts(parts: seq<string>, c: char)
    requires |parts| > 0
    ensures |Split(Join(parts, c), c)| >= |parts|
    ensures (exists i :: 0 <= i < |parts| && c in parts[i]) ==> |Split(Join(parts, c), c)| > |parts|
  {
    if c in parts[0] { SplitsMore(parts[0], c); }
    if |parts| > 1 {
      SplitCounts(parts[1..], c);
      SplitConcat(parts[0], Join(parts[1..], c), c);
      assert forall i :: 1 <= i < |parts| ==> parts[i] == parts[1..][i - 1];
    }
  }

  lemma {:induction false} SplitsMore(s: string, c: char)
    requires c in s
    ensures |Split(s, c)| > 1
  {
    if s[0] != c { SplitsMore(s[1..], c); }
  }

  lemma JoinNonempty(parts: seq<string>, c: char)
    requires |parts| > 0 && parts[0] != ""
    ensures Join(parts, c) != ""
  {
  }

  /** Reading the text gives the variables back, whatever their values, exactly when no key contains
      a line break. */
  lemma RoundTrip(isPrint: Printable, vars: seq<Var>)
    requires !isPrint('\n' as int)
    requires forall i :: 0 <= i < |vars| ==> '=' !in vars[i].key && Octets(vars[i].value)
    ensures ReadVars(Join(Lines(isPrint, vars), '\n')) == Some(vars) <==>
            forall i :: 0 <= i < |vars| ==> '\n' !in vars[i].key
  {
    if vars != [] {
      var lines := Lines(isPrint, vars);
      forall i | 0 <= i < |vars| ensures '\n' in lines[i] <==> '\n' in vars[i].key { ReadLineLine(isPrint, vars[i]); }
      JoinNonempty(lines, '\n');
      if forall i :: 0 <= i < |vars| ==> '\n' !in vars[i].key {
        SplitJoin(lines, '\n');
        ReadLinesLines(isPrint, vars);
      } else {
        SplitCounts(lines, '\n');
      }
    }
  }

  /** The arguments determine the variables. */
  lemma DenotesOnce(args: seq<string>, one: seq<Var>, other: seq<Var>)
    requires Denotes(args, one) && Denotes(args, other)
    ensures one == other
  {
    forall i | 0 <= i < |args| ensures one[i] == other[i] { ArgInjective(one[i], other[i]); }
  }

  lemma ArgInjective(a: Var, b: Var)
    requires Arg(a) == Arg(b) && '=' !in a.key && '=' !in b.key
    ensures a == b
  {
    assert a.key + "=" + a.value == Arg(a)[|PREFIX|..];
    assert b.key + "=" + b.value == Arg(b)[|PREFIX|..];
    SplitAssignOf(a.key, a.value);
    SplitAssignOf(b.key, b.value);
  }

  lemma {:induction false} SplitAssignOf(key: string, value: string)
    requires '=' !in key
    ensures SplitAssign(key + "=" + value) == Some((key, value))
  {
    if key != "" {
      assert (key + "=" + value)[1..] == key[1..] + "=" + value;
      SplitAssignOf(key[1..], value);
      assert [key[0]] + key[1..] == key;
    } else {
      assert ("=" + value)[1..] == value && key + "=" + value == "=" + value;
    }
  }
}
