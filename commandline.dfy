/**
  The command-line helpers of package common: the help test and the split of
  the argument list into the plugin's own flags and the arguments passed on to
  trivy. The process's argument list (Go's `os.Args`) is an explicit parameter.
*/
module CommandLine {

  /** The plugin's own flags and their values. */
  type Arguments = map<string, string>

  /** Go's `slices.Contains`: a linear search for `x` in `s`. */
  function Contains<T(==)>(s: seq<T>, x: T): (r: bool)
    ensures r <==> exists i :: 0 <= i < |s| && s[i] == x
  {
    if s == [] then false else s[0] == x || Contains(s[1..], x)
  }

  /** IsHelp: the argument list holds "--help" or "-h". */
  function IsHelp(args: seq<string>): (r: bool)
    ensures r <==> exists i :: 0 <= i < |args| && (args[i] == "--help" || args[i] == "-h")
  {
    Contains(args, "--help") || Contains(args, "-h")
  }

  /** One step of the argument scan: a recognised flag at `pos` with the value
      it takes, or an argument at `pos` passed on unchanged. */
  datatype Token = Flag(pos: nat, name: string, value: string) | Plain(pos: nat, arg: string)

  /** The value a flag at `pos` takes: the next element, or "" when it is last. */
  function ValueAfter(args: seq<string>, pos: nat): string
  {
    if pos + 1 < |args| then args[pos + 1] else ""
  }

  /** Where the scan goes after a token: a flag skips over its value. */
  function Next(t: Token): nat
  {
    match t
    case Flag(pos, _, _) => pos + 2
    case Plain(pos, _) => pos + 1
  }

  /** The tokens of the scan of `args` from index `i` on. */
  function TokensFrom(args: seq<string>, available: seq<string>, i: nat): seq<Token>
    decreases |args| - i
  {
    if i >= |args| then []
    else if Contains(available, args[i]) then [Flag(i, args[i], ValueAfter(args, i))] + TokensFrom(args, available, i + 2)
    else [Plain(i, args[i])] + TokensFrom(args, available, i + 1)
  }

  /** The tokens of the whole scan of `args`. */
  function Tokens(args: seq<string>, available: seq<string>): seq<Token>
  {
    TokensFrom(args, available, 0)
  }

  /** The flag map built by a scan: each flag's value, a later token of a flag
      overriding an earlier one. */
  function Options(ts: seq<Token>): Arguments
  {
    if ts == [] then map[]
    else
      var m := Options(ts[..|ts| - 1]);
      match ts[|ts| - 1]
      case Flag(_, name, value) => m[name := value]
      case Plain(_, _) => m
  }

  /** The arguments a scan passes on, in order. */
  function PassThrough(ts: seq<Token>): seq<string>
  {
    if ts == [] then []
    else
      var init := PassThrough(ts[..|ts| - 1]);
      match ts[|ts| - 1]
      case Flag(_, _, _) => init
      case Plain(_, arg) => init + [arg]
  }

  /** A token says what the argument list holds where it stands. */
  predicate Describes(args: seq<string>, available: seq<string>, t: Token)
  {
    t.pos < |args| &&
    match t
    case Flag(pos, name, value) => args[pos] == name && name in available && value == ValueAfter(args, pos)
    case Plain(pos, arg) => args[pos] == arg && arg !in available
  }

  /** RetrievePluginArguments: scans the arguments with an index; a recognised
      flag takes the next element as its value and skips it, any other element
      is collected; the first collected element (the program name) is dropped.
      The source slices `trivyCommand[1:]` without a check and panics when
      nothing was collected: callers must rule that out. */
  method RetrievePluginArguments(args: seq<string>, availableArguments: seq<string>)
    returns (pluginArgs: Arguments, rest: seq<string>)
    requires PassThrough(Tokens(args, availableArguments)) != []
    ensures pluginArgs == Options(Tokens(args, availableArguments))
    ensures rest == PassThrough(Tokens(args, availableArguments))[1..]
    ensures forall k :: k in pluginArgs ==> k in availableArguments
    ensures forall j :: 0 <= j < |rest| ==> rest[j] !in availableArguments
    ensures |rest| <= |args| - 1
  {
    var trivyCommand: seq<string> := [];
    var parsed: Arguments := map[];
    ghost var done: seq<Token> := [];
    var i := 0;
    while i < |args|
      invariant i <= |args| + 1
      invariant Tokens(args, availableArguments) == done + TokensFrom(args, availableArguments, i)
      invariant parsed == Options(done) && trivyCommand == PassThrough(done)
    {
      ghost var t: Token;
      if Contains(availableArguments, args[i]) {
        if i + 1 >= |args| {
          parsed := parsed[args[i] := ""];
        } else {
          parsed := parsed[args[i] := args[i + 1]];
        }
        t := Flag(i, args[i], ValueAfter(args, i));
        UnfoldScan(args, availableArguments, i);
        i := i + 1; // skip the flag's value
      } else {
        trivyCommand := trivyCommand + [args[i]];
        t := Plain(i, args[i]);
        UnfoldScan(args, availableArguments, i);
      }
      i := i + 1;
      AppendAssociative(done, [t], TokensFrom(args, availableArguments, i));
      ScanStep(done, t);
      done := done + [t];
    }
    assert done == Tokens(args, availableArguments);
    pluginArgs, rest := parsed, trivyCommand[1..];
    OptionsAvailable(args, availableArguments);
    PassThroughNotAvailable(args, availableArguments);
    TokensLength(args, availableArguments, 0);
    PassThroughLength(done);
  }

  /** One step of the scan from `i`. */
  lemma UnfoldScan(args: seq<string>, available: seq<string>, i: nat)
    requires i < |args|
    ensures Contains(available, args[i]) ==>
              TokensFrom(args, available, i) == [Flag(i, args[i], ValueAfter(args, i))] + TokensFrom(args, available, i + 2)
    ensures !Contains(available, args[i]) ==>
              TokensFrom(args, available, i) == [Plain(i, args[i])] + TokensFrom(args, available, i + 1)
  {
  }

  /** Sequence concatenation is associative; stated as a lemma because the
      step of the scan loop is much cheaper to verify with it than without. */
  lemma AppendAssociative<T>(a: seq<T>, b: seq<T>, c: seq<T>)
    ensures a + (b + c) == (a + b) + c
  {
  }

  /** What one more token adds to the flag map and to the pass-through list. */
  lemma ScanStep(ts: seq<Token>, t: Token)
    ensures Options(ts + [t]) == if t.Flag? then Options(ts)[t.name := t.value] else Options(ts)
    ensures PassThrough(ts + [t]) == if t.Plain? then PassThrough(ts) + [t.arg] else PassThrough(ts)
  {
    assert (ts + [t])[..|ts|] == ts;
  }

  /** Every token of the scan from `i` stands at or after `i` and describes the
      argument list truthfully. */
  lemma {:induction false} TokensSound(args: seq<string>, available: seq<string>, i: nat)
    ensures forall j :: 0 <= j < |TokensFrom(args, available, i)| ==>
              i <= TokensFrom(args, available, i)[j].pos && Describes(args, available, TokensFrom(args, available, i)[j])
    decreases |args| - i
  {
    if i < |args| {
      var next := if Contains(available, args[i]) then i + 2 else i + 1;
      TokensSound(args, available, next);
    }
  }

  /** The scan visits the whole list: it starts at `i`, each token starts where
      the previous one ends (a flag's value is skipped, nothing else is), and the
      last token ends past the list. */
  lemma {:induction false} TokensContiguous(args: seq<string>, available: seq<string>, i: nat)
    ensures var ts := TokensFrom(args, available, i);
            && (ts == [] <==> i >= |args|)
            && (ts != [] ==> ts[0].pos == i && Next(ts[|ts| - 1]) >= |args|)
            && forall j :: 0 <= j < |ts| - 1 ==> ts[j + 1].pos == Next(ts[j])
    decreases |args| - i
  {
    if i < |args| {
      var next := if Contains(available, args[i]) then i + 2 else i + 1;
      TokensContiguous(args, available, next);
    }
  }

  /** The scan from `i` yields at most one token per remaining element. */
  lemma {:induction false} TokensLength(args: seq<string>, available: seq<string>, i: nat)
    requires i <= |args|
    ensures |TokensFrom(args, available, i)| <= |args| - i
    decreases |args| - i
  {
    if i < |args| {
      var next := if Contains(available, args[i]) then i + 2 else i + 1;
      if next <= |args| {
        TokensLength(args, available, next);
      }
    }
  }

  /** A name is a key of the flag map exactly when some token is a flag of that name. */
  lemma {:induction false} OptionsKeys(ts: seq<Token>, k: string)
    ensures k in Options(ts) <==> exists j :: 0 <= j < |ts| && ts[j].Flag? && ts[j].name == k
  {
    if ts != [] {
      var init := ts[..|ts| - 1];
      OptionsKeys(init, k);
      assert forall j :: 0 <= j < |init| ==> init[j] == ts[j];
    }
  }

  /** A repeated flag keeps the value of its last occurrence. */
  lemma {:induction false} OptionsLastWins(ts: seq<Token>, j: nat)
    requires j < |ts| && ts[j].Flag?
    requires forall l :: j < l < |ts| && ts[l].Flag? ==> ts[l].name != ts[j].name
    ensures ts[j].name in Options(ts) && Options(ts)[ts[j].name] == ts[j].value
  {
    var init := ts[..|ts| - 1];
    if j < |ts| - 1 {
      assert forall l :: j < l < |init| && init[l].Flag? ==> init[l].name != init[j].name by {
        assert forall l :: 0 <= l < |init| ==> init[l] == ts[l];
      }
      OptionsLastWins(init, j);
    }
  }

  /** Every key of the flag map of a scan is one of the available arguments. */
  lemma OptionsAvailable(args: seq<string>, available: seq<string>)
    ensures forall k :: k in Options(Tokens(args, available)) ==> k in available
  {
    var ts := Tokens(args, available);
    TokensSound(args, available, 0);
    forall k | k in Options(ts)
      ensures k in available
    {
      OptionsKeys(ts, k);
      var j :| 0 <= j < |ts| && ts[j].Flag? && ts[j].name == k;
      assert Describes(args, available, ts[j]);
    }
  }

  /** The value of a flag is the element after its last scanned occurrence, or
      "" when that occurrence is the last element. */
  lemma OptionValue(args: seq<string>, available: seq<string>, j: nat)
    requires j < |Tokens(args, available)| && Tokens(args, available)[j].Flag?
    requires forall l :: j < l < |Tokens(args, available)| && Tokens(args, available)[l].Flag? ==>
               Tokens(args, available)[l].name != Tokens(args, available)[j].name
    ensures var t := Tokens(args, available)[j];
            t.pos < |args| && args[t.pos] in Options(Tokens(args, available)) &&
            Options(Tokens(args, available))[args[t.pos]] == ValueAfter(args, t.pos)
  {
    TokensSound(args, available, 0);
    OptionsLastWins(Tokens(args, available), j);
  }

  /** An argument is passed on exactly when a plain token of the scan holds it. */
  lemma {:induction false} PassThroughIsPlain(ts: seq<Token>, x: string)
    ensures x in PassThrough(ts) <==> exists j :: 0 <= j < |ts| && ts[j].Plain? && ts[j].arg == x
  {
    if ts != [] {
      var init := ts[..|ts| - 1];
      PassThroughIsPlain(init, x);
      assert forall j :: 0 <= j < |init| ==> init[j] == ts[j];
    }
  }

  /** Order is kept: the argument of the plain token at `j` sits in the
      pass-through list right after those of the plain tokens before it. */
  lemma {:induction false} PassThroughAt(ts: seq<Token>, j: nat)
    requires j < |ts| && ts[j].Plain?
    ensures |PassThrough(ts[..j])| < |PassThrough(ts)|
    ensures PassThrough(ts)[|PassThrough(ts[..j])|] == ts[j].arg
  {
    if j < |ts| - 1 {
      var init := ts[..|ts| - 1];
      assert init[..j] == ts[..j] && init[j] == ts[j];
      PassThroughAt(init, j);
    } else {
      assert ts[..|ts| - 1] == ts[..j];
    }
  }

  /** No argument passed on is one of the available arguments. */
  lemma PassThroughNotAvailable(args: seq<string>, available: seq<string>)
    ensures forall x :: x in PassThrough(Tokens(args, available)) ==> x !in available
  {
    var ts := Tokens(args, available);
    TokensSound(args, available, 0);
    forall x | x in PassThrough(ts)
      ensures x !in available
    {
      PassThroughIsPlain(ts, x);
      var j :| 0 <= j < |ts| && ts[j].Plain? && ts[j].arg == x;
      assert Describes(args, available, ts[j]);
    }
  }

  /** A scan passes on at most one argument per token. */
  lemma {:induction false} PassThroughLength(ts: seq<Token>)
    ensures |PassThrough(ts)| <= |ts|
  {
    if ts != [] {
      PassThroughLength(ts[..|ts| - 1]);
    }
  }

  /** When the list starts with something other than a recognised flag (as the
      program name does), that element is the first one collected, so the split
      cannot panic and drops exactly it. */
  lemma ProgramNameCollected(args: seq<string>, available: seq<string>)
    requires args != [] && args[0] !in available
    ensures PassThrough(Tokens(args, available)) != []
    ensures PassThrough(Tokens(args, available))[0] == args[0]
  {
    var ts := Tokens(args, available);
    assert ts[0] == Plain(0, args[0]);
    PassThroughFirst(ts);
  }

  /** A scan whose first token is plain passes that token's argument on first. */
  lemma {:induction false} PassThroughFirst(ts: seq<Token>)
    requires ts != [] && ts[0].Plain?
    ensures PassThrough(ts) != [] && PassThrough(ts)[0] == ts[0].arg
  {
    if |ts| > 1 {
      var init := ts[..|ts| - 1];
      assert init[0] == ts[0];
      PassThroughFirst(init);
    } else {
      assert ts[..0] == [];
    }
  }

  /** The two flags the plugin registers: `trivy-plugin image --plugin-output out.json alpine`
      leaves `--plugin-output` mapped to "out.json" and `image alpine` for trivy. */
  lemma SplitExample()
    ensures var args := ["trivy-plugin", "image", "--plugin-output", "out.json", "alpine"];
            var ts := Tokens(args, ["--plugin-output", "--output"]);
            Options(ts) == map["--plugin-output" := "out.json"] && PassThrough(ts)[1..] == ["image", "alpine"]
  {
    var args := ["trivy-plugin", "image", "--plugin-output", "out.json", "alpine"];
    var available := ["--plugin-output", "--output"];
    assert !Contains(available, "trivy-plugin") && !Contains(available, "image") && !Contains(available, "alpine");
    assert Contains(available, "--plugin-output");
    var ts := [Plain(0, "trivy-plugin"), Plain(1, "image"), Flag(2, "--plugin-output", "out.json"), Plain(4, "alpine")];
    assert TokensFrom(args, available, 4) == ts[3..];
    assert TokensFrom(args, available, 2) == ts[2..];
    assert TokensFrom(args, available, 1) == ts[1..];
    assert Tokens(args, available) == ts;
    ScanStep([], ts[0]);
    ScanStep(ts[..1], ts[1]);
    ScanStep(ts[..2], ts[2]);
    ScanStep(ts[..3], ts[3]);
    assert [] + [ts[0]] == ts[..1] && ts[..1] + [ts[1]] == ts[..2];
    assert ts[..2] + [ts[2]] == ts[..3] && ts[..3] + [ts[3]] == ts;
  }
}
