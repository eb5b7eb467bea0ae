/** Seed encoding (coverage/coverage.go:109-286): one consumer over the whole
    libFuzzer testcase, advanced argument by argument; each type string
    selects one consumer operation and one rendering template; the tokens
    follow the header `go test fuzz v1`, separated by newlines. */
module Encode {

  import opened Outcome
  import opened Text
  import opened FuzzConsumer
  import GoAst
  import Extract

  /** The collaborators the encoder does not interpret: the consumer's
      operations, `%f` formatting of floats and the UTF-8 encoding of the
      runes `GetRune` returns (a `[]rune`). */
  datatype Env = Env(
    ops: Ops,
    formatFloat32: bv32 -> seq<byte>,
    formatFloat64: bv64 -> seq<byte>,
    encodeRunes: seq<int32> -> seq<byte>)

  /** The cases of the `switch` in `libFuzzerSeedToGoSeed`. All integer
      types up to `uint8` share one case shape, rendered with their own
      name. */
  datatype Kind =
    | ByteSlice
    | Str
    | Int(name: string)
    | Uint16
    | Uint32
    | Uint64
    | Rune
    | Float32
    | Float64
    | Bool

  const IntNames: set<string> := {"int", "int8", "int16", "int32", "int64", "uint", "uint8"}

  const Supported: set<string> :=
    IntNames + {"[]uint8", "[]byte", "string", "uint16", "uint32", "uint64", "rune", "float32", "float64", "bool"}

  /** The labels of the `switch` and the case each selects. */
  const Catalog: map<string, Kind> := map[
    "[]uint8" := ByteSlice, "[]byte" := ByteSlice,
    "string" := Str,
    "int" := Int("int"), "int8" := Int("int8"), "int16" := Int("int16"), "int32" := Int("int32"),
    "int64" := Int("int64"), "uint" := Int("uint"), "uint8" := Int("uint8"),
    "uint16" := Uint16, "uint32" := Uint32, "uint64" := Uint64,
    "rune" := Rune,
    "float32" := Float32, "float64" := Float64,
    "bool" := Bool]

  /** Which case a type string selects; `None` is the `default` branch. */
  function Classify(arg: string): Option<Kind> {
    if arg in Catalog then Some(Catalog[arg]) else None
  }

  /** The dispatch table: exactly the supported strings have a case; the
      two byte-slice spellings share one; every integer type up to `uint8`
      shares the `GetInt` case under its own name; `uint16`, `uint32` and
      `uint64` have their own. */
  lemma CatalogTable(arg: string)
    ensures Classify(arg).None? <==> arg !in Supported
    ensures Classify(arg) == Some(ByteSlice) <==> arg == "[]uint8" || arg == "[]byte"
    ensures Classify(arg) == Some(Str) <==> arg == "string"
    ensures (Classify(arg).Some? && Classify(arg).value.Int?) <==> arg in IntNames
    ensures Classify(arg).Some? && Classify(arg).value.Int? ==> Classify(arg).value.name == arg
    ensures Classify(arg) == Some(Uint16) <==> arg == "uint16"
    ensures Classify(arg) == Some(Uint32) <==> arg == "uint32"
    ensures Classify(arg) == Some(Uint64) <==> arg == "uint64"
    ensures Classify(arg) == Some(Rune) <==> arg == "rune"
    ensures Classify(arg) == Some(Float32) <==> arg == "float32"
    ensures Classify(arg) == Some(Float64) <==> arg == "float64"
    ensures Classify(arg) == Some(Bool) <==> arg == "bool"
  {
  }

  /** The type name each rendered token opens with. */
  function Tag(k: Kind): string {
    match k
    case ByteSlice => "[]byte"
    case Str => "string"
    case Int(name) => name
    case Uint16 => "uint16"
    case Uint32 => "uint32"
    case Uint64 => "uint64"
    case Rune => "rune"
    case Float32 => "float32"
    case Float64 => "float64"
    case Bool => "bool"
  }

  /** `<tag>(<payload>)`, the shape of every token. */
  function Wrap(k: Kind, payload: seq<byte>): seq<byte> {
    Lit(Tag(k) + "(") + payload + Lit(")")
  }

  /** A quoted payload: `"` + raw bytes + `"`, with no escaping. */
  function Quote(v: seq<byte>): seq<byte> {
    Lit("\"") + v + Lit("\"")
  }

  /** One case of the `switch`: call the consumer operation of kind `k` on
      the unconsumed bytes and render the value; `None` if the consumer
      fails. */
  function Step(env: Env, k: Kind, rest: seq<byte>): (r: Option<(seq<byte>, seq<byte>)>)
  {
    match k
    case ByteSlice =>
      (match env.ops.getBytes(rest)
       case None => None
       case Some((v, after)) => Some((Wrap(k, Quote(v)), after)))
    case Str =>
      (match env.ops.getString(rest)
       case None => None
       case Some((v, after)) => Some((Wrap(k, Quote(v)), after)))
    case Int(_) =>
      (match env.ops.getInt(rest)
       case None => None
       case Some((v, after)) => Some((Wrap(k, Decimal(v)), after)))
    case Uint16 =>
      (match env.ops.getUint16(rest)
       case None => None
       case Some((v, after)) => Some((Wrap(k, Decimal(v)), after)))
    case Uint32 =>
      (match env.ops.getUint32(rest)
       case None => None
       case Some((v, after)) => Some((Wrap(k, Decimal(v)), after)))
    case Uint64 =>
      (match env.ops.getUint64(rest)
       case None => None
       case Some((v, after)) => Some((Wrap(k, Decimal(v)), after)))
    case Rune =>
      (match env.ops.getRune(rest)
       case None => None
       case Some((v, after)) => Some((Wrap(k, env.encodeRunes(v)), after)))
    case Float32 =>
      (match env.ops.getFloat32(rest)
       case None => None
       case Some((v, after)) => Some((Wrap(k, env.formatFloat32(v)), after)))
    case Float64 =>
      (match env.ops.getFloat64(rest)
       case None => None
       case Some((v, after)) => Some((Wrap(k, env.formatFloat64(v)), after)))
    case Bool =>
      (match env.ops.getBool(rest)
       case None => None
       case Some((v, after)) => Some((Wrap(k, if v then Lit("true") else Lit("false")), after)))
  }

  /** One iteration of the loop: select the case for `arg`, then read and
      render with it. */
  function Next(env: Env, arg: string, rest: seq<byte>): (r: Result<(seq<byte>, seq<byte>)>)
  {
    match Classify(arg)
    case None => Err(UnsupportedType(arg))
    case Some(k) =>
      match Step(env, k, rest)
      case None => Err(ConsumerFailed)
      case Some(step) => Ok(step)
  }

  /** The tokens of the arguments and the bytes the consumer has left, or
      the failure that stops the loop. */
  function Run(env: Env, testcase: seq<byte>, args: seq<string>): (r: Result<(seq<seq<byte>>, seq<byte>)>)
    ensures r.Ok? ==> |r.value.0| == |args|
  {
    if args == [] then Ok(([], testcase))
    else
      match Run(env, testcase, args[..|args| - 1])
      case Err(e) => Err(e)
      case Ok((toks, rest)) =>
        match Next(env, args[|args| - 1], rest)
        case Err(e) => Err(e)
        case Ok((tok, after)) => Ok((toks + [tok], after))
  }

  /** The tokens separated by newlines, none after the last. */
  function Join(toks: seq<seq<byte>>): seq<byte> {
    if toks == [] then []
    else if |toks| == 1 then toks[0]
    else Join(toks[..|toks| - 1]) + [NL] + toks[|toks| - 1]
  }

  /** The tokens each followed by a newline: the builder's contents before
      the last token is written. */
  function Terminated(toks: seq<seq<byte>>): seq<byte> {
    if toks == [] then [] else Terminated(toks[..|toks| - 1]) + toks[|toks| - 1] + [NL]
  }

  const Header: seq<byte> := Lit("go test fuzz v1\n")

  /** The result of `libFuzzerSeedToGoSeed`. */
  function Encode(env: Env, testcase: seq<byte>, args: seq<string>): Result<seq<byte>> {
    match Run(env, testcase, args)
    case Err(e) => Err(e)
    case Ok((toks, _)) => Ok(Header + Join(toks))
  }

  // ---------------------------------------------------------------------
  // Lemmas

  /** Every token is `<tag>(...)`, and a valid consumer leaves a proper
      suffix of the bytes it was given. */
  lemma StepShape(env: Env, k: Kind, rest: seq<byte>)
    requires Step(env, k, rest).Some?
    ensures var (tok, after) := Step(env, k, rest).value;
      Lit(Tag(k) + "(") <= tok && |tok| > |Tag(k)| + 1 && tok[|tok| - 1] == CloseParen &&
      (Valid(env.ops) ==> ProperSuffix(after, rest))
  {
  }

  lemma NextShape(env: Env, arg: string, rest: seq<byte>)
    requires Next(env, arg, rest).Ok?
    ensures var (tok, after) := Next(env, arg, rest).value;
      Classify(arg).Some? && Lit(Tag(Classify(arg).value) + "(") <= tok &&
      tok[|tok| - 1] == CloseParen &&
      (Valid(env.ops) ==> ProperSuffix(after, rest))
  {
    StepShape(env, Classify(arg).value, rest);
  }

  /** A valid consumer reads at least one byte per argument, each argument
      from what the previous ones left. */
  lemma {:induction false} RunConsumes(env: Env, testcase: seq<byte>, args: seq<string>)
    requires Valid(env.ops) && Run(env, testcase, args).Ok?
    ensures var rest := Run(env, testcase, args).value.1;
      |rest| + |args| <= |testcase| && rest == testcase[|testcase| - |rest|..]
  {
    if args != [] {
      var init := args[..|args| - 1];
      RunConsumes(env, testcase, init);
      NextShape(env, args[|args| - 1], Run(env, testcase, init).value.1);
    }
  }

  lemma TerminatedSnoc(toks: seq<seq<byte>>, tok: seq<byte>)
    ensures Terminated(toks + [tok]) == Terminated(toks) + tok + [NL]
  {
    assert (toks + [tok])[..|toks|] == toks;
  }

  lemma {:induction false} TerminatedThenLast(toks: seq<seq<byte>>, tok: seq<byte>)
    ensures Terminated(toks) + tok == Join(toks + [tok])
  {
    var all := toks + [tok];
    assert all[..|all| - 1] == toks;
    if toks != [] {
      var init := toks[..|toks| - 1];
      TerminatedThenLast(init, toks[|toks| - 1]);
      assert init + [toks[|toks| - 1]] == toks;
    }
  }

  /** Once a prefix of the arguments fails, the whole run fails the same way. */
  lemma {:induction false} RunErrPersists(env: Env, testcase: seq<byte>, args: seq<string>, i: nat)
    requires i <= |args| && Run(env, testcase, args[..i]).Err?
    ensures Run(env, testcase, args) == Run(env, testcase, args[..i])
    decreases |args| - i
  {
    if i < |args| {
      assert args[..i + 1][..i] == args[..i];
      RunErrPersists(env, testcase, args, i + 1);
    } else {
      assert args[..i] == args;
    }
  }

  /** The run of `a + b` is the run of `a` followed by the run of `b` on
      the bytes `a` left: one consumer, advanced in argument order. */
  lemma {:induction false} RunSplit(env: Env, testcase: seq<byte>, a: seq<string>, b: seq<string>)
    requires Run(env, testcase, a).Ok?
    ensures Run(env, testcase, a + b) ==
      match Run(env, Run(env, testcase, a).value.1, b)
      case Err(e) => Err(e)
      case Ok((toks, rest)) => Ok((Run(env, testcase, a).value.0 + toks, rest))
  {
    if b == [] {
      assert a + b == a;
      assert Run(env, testcase, a).value.0 + [] == Run(env, testcase, a).value.0;
    } else {
      var b0 := b[..|b| - 1];
      assert (a + b)[..|a + b| - 1] == a + b0;
      RunSplit(env, testcase, a, b0);
      var ta := Run(env, testcase, a).value.0;
      match Run(env, Run(env, testcase, a).value.1, b0)
      case Err(_) =>
      case Ok((toks, rest)) =>
        match Next(env, b[|b| - 1], rest)
        case Err(_) =>
        case Ok((tok, _)) =>
          assert ta + toks + [tok] == ta + (toks + [tok]);
    }
  }

  /** The last iteration of a successful run. */
  lemma RunLast(env: Env, testcase: seq<byte>, args: seq<string>)
    requires args != [] && Run(env, testcase, args).Ok?
    ensures var n := |args| - 1;
      Run(env, testcase, args[..n]).Ok? &&
      Run(env, testcase, args[..n]).value.0 == Run(env, testcase, args).value.0[..n] &&
      Next(env, args[n], Run(env, testcase, args[..n]).value.1) ==
        Ok((Run(env, testcase, args).value.0[n], Run(env, testcase, args).value.1))
  {
    var n := |args| - 1;
    var toks := Run(env, testcase, args[..n]).value.0;
    var tok := Next(env, args[n], Run(env, testcase, args[..n]).value.1).value.0;
    assert (toks + [tok])[..n] == toks;
  }

  /** Every prefix of a successful run succeeds, with a prefix of its
      tokens. */
  lemma {:induction false} RunPrefix(env: Env, testcase: seq<byte>, args: seq<string>, i: nat)
    requires Run(env, testcase, args).Ok? && i <= |args|
    ensures Run(env, testcase, args[..i]).Ok?
    ensures Run(env, testcase, args[..i]).value.0 == Run(env, testcase, args).value.0[..i]
  {
    if i == |args| {
      assert args[..i] == args;
    } else {
      var n := |args| - 1;
      RunLast(env, testcase, args);
      RunPrefix(env, testcase, args[..n], i);
      assert args[..n][..i] == args[..i];
      assert Run(env, testcase, args).value.0[..n][..i] == Run(env, testcase, args).value.0[..i];
    }
  }

  /** Token `k` is the rendering of argument `k`, read from exactly the
      bytes the first `k` arguments left. */
  lemma TokenAt(env: Env, testcase: seq<byte>, args: seq<string>, k: nat)
    requires Run(env, testcase, args).Ok? && k < |args|
    ensures Run(env, testcase, args[..k]).Ok? && Run(env, testcase, args[..k + 1]).Ok?
    ensures Run(env, testcase, args[..k]).value.0 == Run(env, testcase, args).value.0[..k]
    ensures Next(env, args[k], Run(env, testcase, args[..k]).value.1) ==
      Ok((Run(env, testcase, args).value.0[k], Run(env, testcase, args[..k + 1]).value.1))
  {
    var pre := args[..k + 1];
    RunPrefix(env, testcase, args, k + 1);
    RunPrefix(env, testcase, args, k);
    RunLast(env, testcase, pre);
    assert pre[..k] == args[..k] && pre[k] == args[k];
    assert Run(env, testcase, args).value.0[..k + 1][k] == Run(env, testcase, args).value.0[k];
  }

  lemma LastTokenCloses(env: Env, testcase: seq<byte>, args: seq<string>)
    requires args != [] && Run(env, testcase, args).Ok?
    ensures var toks := Run(env, testcase, args).value.0;
      |toks[|toks| - 1]| > 0 && toks[|toks| - 1][|toks[|toks| - 1]| - 1] == CloseParen
  {
    var init := args[..|args| - 1];
    NextShape(env, args[|args| - 1], Run(env, testcase, init).value.1);
  }

  lemma {:induction false} JoinEndsWithLast(toks: seq<seq<byte>>)
    requires toks != [] && |toks[|toks| - 1]| > 0
    ensures |Join(toks)| > 0 && Join(toks)[|Join(toks)| - 1] == toks[|toks| - 1][|toks[|toks| - 1]| - 1]
  {
  }

  /** Output format: the header, then the tokens joined by newlines. With no
      arguments the header is the whole output; otherwise the output ends
      with the closing parenthesis of the last token, not with a newline. */
  lemma {:induction false} EncodeFormat(env: Env, testcase: seq<byte>, args: seq<string>)
    requires Encode(env, testcase, args).Ok?
    ensures Header <= Encode(env, testcase, args).value
    ensures args == [] ==> Encode(env, testcase, args).value == Header
    ensures args != [] ==>
      var out := Encode(env, testcase, args).value;
      out[|out| - 1] == CloseParen && out[|out| - 1] != NL
  {
    var toks := Run(env, testcase, args).value.0;
    if args != [] {
      LastTokenCloses(env, testcase, args);
      JoinEndsWithLast(toks);
    }
  }

  /** Newlines in the joined tokens: exactly the separators, when no token
      holds a newline itself. */
  lemma {:induction false} JoinNewlines(toks: seq<seq<byte>>)
    requires toks != []
    requires forall i | 0 <= i < |toks| :: NL !in toks[i]
    ensures multiset(Join(toks))[NL] == |toks| - 1
  {
    if |toks| > 1 {
      var init := toks[..|toks| - 1];
      JoinNewlines(init);
      assert multiset(Join(toks)) == multiset(Join(init)) + multiset([NL]) + multiset(toks[|toks| - 1]);
    }
  }

  lemma HeaderOneLine()
    ensures |Header| == 16 && Header[15] == NL && multiset(Header)[NL] == 1
  {
    var line := "go test fuzz v1";
    assert forall i | 0 <= i < |line| :: line[i] < 128 as char && line[i] != '\n';
    LitNoNewline(line);
    LitSplit(line, "\n");
    assert Lit("\n") == [NL];
    assert Header == Lit(line) + [NL];
    assert multiset(Header) == multiset(Lit(line)) + multiset([NL]);
  }

  /** When no token holds a newline, the output has one line for the
      header and one per argument: `|args|` newlines, or just the header's
      own when there are no arguments. */
  lemma EncodeLines(env: Env, testcase: seq<byte>, args: seq<string>)
    requires Encode(env, testcase, args).Ok?
    requires forall i | 0 <= i < |args| :: NL !in Run(env, testcase, args).value.0[i]
    ensures multiset(Encode(env, testcase, args).value)[NL] == if args == [] then 1 else |args|
  {
    HeaderOneLine();
    var toks := Run(env, testcase, args).value.0;
    assert multiset(Header + Join(toks)) == multiset(Header) + multiset(Join(toks));
    if args != [] {
      JoinNewlines(toks);
    }
  }

  /** Newlines held inside the tokens themselves. */
  function NewlinesIn(toks: seq<seq<byte>>): nat {
    if toks == [] then 0 else NewlinesIn(toks[..|toks| - 1]) + multiset(toks[|toks| - 1])[NL]
  }

  /** Newlines in the joined tokens: the separators plus those inside the
      tokens. */
  lemma {:induction false} JoinNewlineCount(toks: seq<seq<byte>>)
    requires toks != []
    ensures multiset(Join(toks))[NL] == |toks| - 1 + NewlinesIn(toks)
  {
    var init := toks[..|toks| - 1];
    if |toks| > 1 {
      JoinNewlineCount(init);
      assert multiset(Join(toks)) == multiset(Join(init)) + multiset([NL]) + multiset(toks[|toks| - 1]);
    } else {
      assert init == [];
    }
  }

  lemma {:induction false} NewlinesInAtLeast(toks: seq<seq<byte>>, k: nat)
    requires k < |toks|
    ensures NewlinesIn(toks) >= multiset(toks[k])[NL]
  {
    var init := toks[..|toks| - 1];
    if k < |toks| - 1 {
      NewlinesInAtLeast(init, k);
      assert init[k] == toks[k];
    }
  }

  /** Payloads are not escaped: one token holding a newline gives the
      output more lines than there are arguments. */
  lemma PayloadNewlineAddsLine(env: Env, testcase: seq<byte>, args: seq<string>, k: nat)
    requires Encode(env, testcase, args).Ok? && k < |args|
    requires NL in Run(env, testcase, args).value.0[k]
    ensures multiset(Encode(env, testcase, args).value)[NL] > |args|
  {
    HeaderOneLine();
    var toks := Run(env, testcase, args).value.0;
    assert multiset(Header + Join(toks)) == multiset(Header) + multiset(Join(toks));
    JoinNewlineCount(toks);
    NewlinesInAtLeast(toks, k);
  }

  lemma BytesTokenNewline(env: Env, rest: seq<byte>, v: seq<byte>, after: seq<byte>)
    requires env.ops.getBytes(rest) == Some((v, after)) && NL in v
    ensures Next(env, "[]byte", rest).Ok? && NL in Next(env, "[]byte", rest).value.0
  {
    BytesToken(env, rest, v, after);
    var tok := Lit("[]byte(\"") + v + Lit("\")");
    var i :| 0 <= i < |v| && v[i] == NL;
    assert tok[8 + i] == NL;
  }

  /** In particular a `[]byte` argument whose bytes hold a newline: the
      token copies them as they are. */
  lemma BytesNewlineAddsLine(env: Env, testcase: seq<byte>, args: seq<string>, k: nat)
    requires Encode(env, testcase, args).Ok? && k < |args| && args[k] == "[]byte"
    requires Run(env, testcase, args[..k]).Ok?
    requires env.ops.getBytes(Run(env, testcase, args[..k]).value.1).Some?
    requires NL in env.ops.getBytes(Run(env, testcase, args[..k]).value.1).value.0
    ensures multiset(Encode(env, testcase, args).value)[NL] > |args|
  {
    TokenAt(env, testcase, args, k);
    var rest := Run(env, testcase, args[..k]).value.1;
    BytesTokenNewline(env, rest, env.ops.getBytes(rest).value.0, env.ops.getBytes(rest).value.1);
    PayloadNewlineAddsLine(env, testcase, args, k);
  }

  /** Integer, unsigned and boolean tokens never hold a newline. */
  lemma NumericTokenOneLine(env: Env, k: Kind, rest: seq<byte>)
    requires k.Int? ==> k.name in IntNames
    requires k.Int? || k == Uint16 || k == Uint32 || k == Uint64 || k == Bool
    requires Step(env, k, rest).Some?
    ensures NL !in Step(env, k, rest).value.0
  {
    var tag := Tag(k) + "(";
    assert forall i | 0 <= i < |tag| :: tag[i] != '\n';
    LitNoNewline(tag);
    match k
    case Uint16 => DecimalRoundTrip(env.ops.getUint16(rest).value.0);
    case Uint32 => DecimalRoundTrip(env.ops.getUint32(rest).value.0);
    case Uint64 => DecimalRoundTrip(env.ops.getUint64(rest).value.0);
    case Int(_) => DecimalRoundTrip(env.ops.getInt(rest).value.0);
    case Bool =>
      assert NL !in Lit("true") && NL !in Lit("false");
  }

  /** Every argument costs at least one byte: a testcase shorter than the
      argument list cannot be encoded. */
  lemma ShortTestcaseFails(env: Env, testcase: seq<byte>, args: seq<string>)
    requires Valid(env.ops)
    requires |testcase| < |args|
    ensures Encode(env, testcase, args).Err?
  {
    if Run(env, testcase, args).Ok? {
      RunConsumes(env, testcase, args);
    }
  }

  /** An unsupported type string anywhere makes the encoding fail. If the
      arguments before it decode, the failure names that type: it is found
      when the loop reaches it, after the earlier arguments were read. */
  lemma UnsupportedTypeFails(env: Env, testcase: seq<byte>, args: seq<string>, k: nat)
    requires k < |args| && Classify(args[k]).None?
    ensures Encode(env, testcase, args).Err?
    ensures Run(env, testcase, args[..k]).Ok? ==>
      Encode(env, testcase, args) == Err(UnsupportedType(args[k]))
  {
    if Run(env, testcase, args).Ok? {
      TokenAt(env, testcase, args, k);
    }
    if Run(env, testcase, args[..k]).Ok? {
      assert args[..k + 1][..k] == args[..k];
      RunErrPersists(env, testcase, args, k + 1);
    }
  }

  /** A consumer failure on argument `k` (after the earlier ones decoded)
      makes the whole encoding fail, with no output. */
  lemma ConsumerFailureFails(env: Env, testcase: seq<byte>, args: seq<string>, k: nat)
    requires k < |args| && Classify(args[k]).Some?
    requires Run(env, testcase, args[..k]).Ok?
    requires Step(env, Classify(args[k]).value, Run(env, testcase, args[..k]).value.1).None?
    ensures Encode(env, testcase, args) == Err(ConsumerFailed)
  {
    assert args[..k + 1][..k] == args[..k];
    RunErrPersists(env, testcase, args, k + 1);
  }

  /** `[]uint8` and `[]byte` are the same case: swapping one for the other
      does not change the result. */
  lemma {:induction false} ByteAliases(env: Env, testcase: seq<byte>, args: seq<string>, k: nat)
    requires k < |args| && args[k] == "[]uint8"
    ensures Run(env, testcase, args[k := "[]byte"]) == Run(env, testcase, args)
  {
    var n := |args| - 1;
    var alt := args[k := "[]byte"];
    if k < n {
      assert alt[..n] == args[..n][k := "[]byte"];
      ByteAliases(env, testcase, args[..n], k);
      assert alt[n] == args[n];
    } else {
      assert alt[..n] == args[..n];
      assert forall rest :: Next(env, alt[n], rest) == Next(env, args[n], rest) by {
        assert alt[n] == "[]byte";
        assert Classify("[]byte") == Classify("[]uint8");
      }
    }
    assert Run(env, testcase, alt) ==
      match Run(env, testcase, alt[..n])
      case Err(e) => Err(e)
      case Ok((toks, rest)) =>
        match Next(env, alt[n], rest)
        case Err(e) => Err(e)
        case Ok((tok, after)) => Ok((toks + [tok], after));
  }

  /** All integer types up to `uint8` read through the one `GetInt`: they
      succeed or fail together and leave the same bytes. */
  lemma IntWidthsShareRead(env: Env, a: string, b: string, rest: seq<byte>)
    requires a in IntNames && b in IntNames
    ensures Step(env, Int(a), rest).Some? <==> env.ops.getInt(rest).Some?
    ensures Step(env, Int(a), rest).Some? == Step(env, Int(b), rest).Some?
    ensures Step(env, Int(a), rest).Some? ==>
      Step(env, Int(a), rest).value.1 == Step(env, Int(b), rest).value.1 == env.ops.getInt(rest).value.1
  {
  }

  /** A byte-slice or string token is `<type>("`, exactly the bytes the
      consumer returned, without escaping, and `")`. */
  lemma QuotedPayload(env: Env, k: Kind, rest: seq<byte>)
    requires k == ByteSlice || k == Str
    requires Step(env, k, rest).Some?
    ensures var (tok, after) := Step(env, k, rest).value;
      |tok| >= 10 &&
      tok[..8] == Lit(Tag(k) + "(\"") && tok[|tok| - 2..] == Lit("\")") &&
      (k == ByteSlice ==> env.ops.getBytes(rest) == Some((tok[8..|tok| - 2], after))) &&
      (k == Str ==> env.ops.getString(rest) == Some((tok[8..|tok| - 2], after)))
  {
    var (tok, after) := Step(env, k, rest).value;
    var v := if k == ByteSlice then env.ops.getBytes(rest).value.0 else env.ops.getString(rest).value.0;
    assert tok == Lit(Tag(k) + "(") + (Lit("\"") + v + Lit("\"")) + Lit(")");
    assert tok[8..|tok| - 2] == v;
    LitSplit(Tag(k) + "(", "\"");
    assert Tag(k) + "(" + "\"" == Tag(k) + "(\"";
    assert tok[..8] == Lit(Tag(k) + "(") + Lit("\"");
    LitSplit("\"", ")");
    assert tok[|tok| - 2..] == Lit("\"") + Lit(")");
  }

  /** An integer token is its type name, `(`, the decimal text of the value
      `GetInt` returned, and `)`. */
  lemma IntPayload(env: Env, name: string, rest: seq<byte>)
    requires name in IntNames
    requires Step(env, Int(name), rest).Some?
    ensures var tok := Step(env, Int(name), rest).value.0;
      |tok| >= |name| + 3 &&
      DecimalValue(tok[|name| + 1..|tok| - 1]) == env.ops.getInt(rest).value.0
  {
    var tok := Step(env, Int(name), rest).value.0;
    var v := env.ops.getInt(rest).value.0;
    DecimalRoundTrip(v);
    assert tok == Lit(name + "(") + Decimal(v) + Lit(")");
    assert tok[|name| + 1..|tok| - 1] == Decimal(v);
  }

  /** An unsigned token is its type name, `(`, the decimal text of the
      value its own consumer operation returned, and `)`. */
  lemma UnsignedPayload(env: Env, k: Kind, rest: seq<byte>)
    requires k == Uint16 || k == Uint32 || k == Uint64
    requires Step(env, k, rest).Some?
    ensures var tok := Step(env, k, rest).value.0;
      |tok| >= 9 && tok[..7] == Lit(Tag(k) + "(") && tok[|tok| - 1] == CloseParen &&
      (k == Uint16 ==> DecimalValue(tok[7..|tok| - 1]) == env.ops.getUint16(rest).value.0) &&
      (k == Uint32 ==> DecimalValue(tok[7..|tok| - 1]) == env.ops.getUint32(rest).value.0) &&
      (k == Uint64 ==> DecimalValue(tok[7..|tok| - 1]) == env.ops.getUint64(rest).value.0)
  {
    var tok := Step(env, k, rest).value.0;
    var v: int := match k
      case Uint16 => env.ops.getUint16(rest).value.0
      case Uint32 => env.ops.getUint32(rest).value.0
      case Uint64 => env.ops.getUint64(rest).value.0;
    DecimalRoundTrip(v);
    assert tok == Lit(Tag(k) + "(") + Decimal(v) + Lit(")");
    assert tok[7..|tok| - 1] == Decimal(v);
  }

  /** A boolean token is `bool(true)` exactly when `GetBool` returned true. */
  lemma BoolPayload(env: Env, rest: seq<byte>)
    requires Step(env, Bool, rest).Some?
    ensures Step(env, Bool, rest).value.0 == Lit("bool(true)") <==> env.ops.getBool(rest).value.0
  {
    var tok := Step(env, Bool, rest).value.0;
    assert Lit("bool(true)") == Lit("bool(") + Lit("true") + Lit(")");
    assert Lit("bool(false)") == Lit("bool(") + Lit("false") + Lit(")");
    if !env.ops.getBool(rest).value.0 {
      assert tok[5] != Lit("bool(true)")[5];
    }
  }

  // ---------------------------------------------------------------------
  // The encoder

  /** The body of one `case`: read with the consumer, render the token. */
  method ConsumeArg(c: Consumer, env: Env, k: Kind) returns (tok: Option<seq<byte>>)
    requires c.ops == env.ops
    modifies c
    ensures match Step(env, k, old(c.rest))
      case None => tok == None
      case Some((t, after)) => tok == Some(t) && c.rest == after
  {
    match k {
      case ByteSlice =>
        var v := c.GetBytes();
        if v.None? { return None; }
        tok := Some(Wrap(k, Quote(v.value)));
      case Str =>
        var v := c.GetString();
        if v.None? { return None; }
        tok := Some(Wrap(k, Quote(v.value)));
      case Int(_) =>
        var v := c.GetInt();
        if v.None? { return None; }
        tok := Some(Wrap(k, Decimal(v.value)));
      case Uint16 =>
        var v := c.GetUint16();
        if v.None? { return None; }
        tok := Some(Wrap(k, Decimal(v.value)));
      case Uint32 =>
        var v := c.GetUint32();
        if v.None? { return None; }
        tok := Some(Wrap(k, Decimal(v.value)));
      case Uint64 =>
        var v := c.GetUint64();
        if v.None? { return None; }
        tok := Some(Wrap(k, Decimal(v.value)));
      case Rune =>
        var v := c.GetRune();
        if v.None? { return None; }
        tok := Some(Wrap(k, env.encodeRunes(v.value)));
      case Float32 =>
        var v := c.GetFloat32();
        if v.None? { return None; }
        tok := Some(Wrap(k, env.formatFloat32(v.value)));
      case Float64 =>
        var v := c.GetFloat64();
        if v.None? { return None; }
        tok := Some(Wrap(k, env.formatFloat64(v.value)));
      case Bool =>
        var v := c.GetBool();
        if v.None? { return None; }
        tok := Some(Wrap(k, if v.value then Lit("true") else Lit("false")));
    }
  }

  lemma RunStep(env: Env, testcase: seq<byte>, args: seq<string>, i: nat, toks: seq<seq<byte>>, rest: seq<byte>)
    requires i < |args| && Run(env, testcase, args[..i]) == Ok((toks, rest))
    requires Next(env, args[i], rest).Ok?
    ensures Run(env, testcase, args[..i + 1]) == Ok((toks + [Next(env, args[i], rest).value.0], Next(env, args[i], rest).value.1))
  {
    assert args[..i + 1][..i] == args[..i];
  }

  lemma RunStepFails(env: Env, testcase: seq<byte>, args: seq<string>, i: nat, toks: seq<seq<byte>>, rest: seq<byte>)
    requires i < |args| && Run(env, testcase, args[..i]) == Ok((toks, rest))
    requires Next(env, args[i], rest).Err?
    ensures Encode(env, testcase, args) == Err(Next(env, args[i], rest).error)
  {
    assert args[..i + 1][..i] == args[..i];
    RunErrPersists(env, testcase, args, i + 1);
  }

  /** The builder after writing one more token and, unless it is the last,
      a newline. */
  lemma BuilderStep(b: seq<byte>, toks: seq<seq<byte>>, tok: seq<byte>, i: nat, n: nat)
    requires i < n && b == Header + Terminated(toks)
    ensures i + 1 < n ==> b + tok + [NL] == Header + Terminated(toks + [tok])
    ensures i + 1 == n ==> b + tok == Header + Join(toks + [tok])
  {
    TerminatedSnoc(toks, tok);
    TerminatedThenLast(toks, tok);
  }

  /** One iteration of the loop body, up to writing the token. */
  method EncodeArg(c: Consumer, env: Env, arg: string) returns (r: Result<seq<byte>>)
    requires c.ops == env.ops
    modifies c
    ensures match Next(env, arg, old(c.rest))
      case Err(e) => r == Err(e)
      case Ok((tok, after)) => r == Ok(tok) && c.rest == after
  {
    var k := Classify(arg);
    if k.None? {
      return Err(UnsupportedType(arg));
    }
    var tok := ConsumeArg(c, env, k.value);
    if tok.None? {
      return Err(ConsumerFailed);
    }
    r := Ok(tok.value);
  }

  /** `libFuzzerSeedToGoSeed`: write the header, then for every argument
      read and write its token, and a newline unless it is the last. */
  method LibFuzzerSeedToGoSeed(env: Env, testcase: seq<byte>, args: seq<string>) returns (r: Result<seq<byte>>)
    ensures r == Encode(env, testcase, args)
  {
    var b := Header;
    var c := new Consumer(env.ops, testcase);
    ghost var toks: seq<seq<byte>> := [];
    var i := 0;
    while i < |args|
      invariant 0 <= i <= |args|
      invariant c.ops == env.ops
      invariant Run(env, testcase, args[..i]) == Ok((toks, c.rest))
      invariant i < |args| ==> b == Header + Terminated(toks)
      invariant i == |args| ==> b == Header + Join(toks)
    {
      ghost var rest := c.rest;
      var tok := EncodeArg(c, env, args[i]);
      if tok.Err? {
        RunStepFails(env, testcase, args, i, toks, rest);
        return Err(tok.error);
      }
      RunStep(env, testcase, args, i, toks, rest);
      BuilderStep(b, toks, tok.value, i, |args|);
      b := b + tok.value;
      if i != |args| - 1 {
        b := b + [NL];
      }
      toks := toks + [tok.value];
      i := i + 1;
    }
    assert args[..i] == args;
    r := Ok(b);
  }

  /** `ConvertLibfuzzerSeedToGoSeed`: extraction, then encoding. */
  function Convert(env: Env, parsed: Option<GoAst.File>, testcase: seq<byte>, fuzzerName: string): Result<seq<byte>> {
    match Extract.FuzzArgs(parsed, fuzzerName)
    case Err(e) => Err(e)
    case Ok(args) => Encode(env, testcase, args)
  }

  method ConvertLibfuzzerSeedToGoSeed(env: Env, parsed: Option<GoAst.File>, testcase: seq<byte>, fuzzerName: string)
    returns (r: Result<seq<byte>>)
    ensures r == Convert(env, parsed, testcase, fuzzerName)
  {
    var args := Extract.GetFuzzArgs(parsed, fuzzerName);
    if args.Err? {
      return Err(args.error);
    }
    r := LibFuzzerSeedToGoSeed(env, testcase, args.value);
  }

  /** Both byte-slice spellings render as `[]byte("` + the bytes read +
      `")`. */
  lemma BytesToken(env: Env, rest: seq<byte>, a: seq<byte>, after: seq<byte>)
    requires env.ops.getBytes(rest) == Some((a, after))
    ensures Next(env, "[]byte", rest) == Ok((Lit("[]byte(\"") + a + Lit("\")"), after))
    ensures Next(env, "[]uint8", rest) == Ok((Lit("[]byte(\"") + a + Lit("\")"), after))
  {
    CatalogTable("[]byte");
    CatalogTable("[]uint8");
    assert "[]byte" + "(" == "[]byte(";
    assert "[]byte(" + "\"" == "[]byte(\"" && "\"" + ")" == "\")";
    LitSplit("[]byte(", "\"");
    LitSplit("\"", ")");
    calc {
      Wrap(ByteSlice, Quote(a));
      Lit("[]byte(") + (Lit("\"") + a + Lit("\"")) + Lit(")");
      (Lit("[]byte(") + Lit("\"")) + a + (Lit("\"") + Lit(")"));
      Lit("[]byte(\"") + a + Lit("\")");
    }
    assert Classify("[]byte") == Some(ByteSlice) && Classify("[]uint8") == Some(ByteSlice);
    assert Step(env, ByteSlice, rest) == Some((Wrap(ByteSlice, Quote(a)), after));
  }

  /** A `string` argument renders as `string("` + the string read + `")`. */
  lemma StrToken(env: Env, rest: seq<byte>, v: seq<byte>, after: seq<byte>)
    requires env.ops.getString(rest) == Some((v, after))
    ensures Next(env, "string", rest) == Ok((Lit("string(\"") + v + Lit("\")"), after))
  {
    CatalogTable("string");
    assert "string" + "(" == "string(";
    assert "string(" + "\"" == "string(\"" && "\"" + ")" == "\")";
    LitSplit("string(", "\"");
    LitSplit("\"", ")");
    calc {
      Wrap(Str, Quote(v));
      Lit("string(") + (Lit("\"") + v + Lit("\"")) + Lit(")");
      (Lit("string(") + Lit("\"")) + v + (Lit("\"") + Lit(")"));
      Lit("string(\"") + v + Lit("\")");
    }
    assert Classify("string") == Some(Str);
    assert Step(env, Str, rest) == Some((Wrap(Str, Quote(v)), after));
  }

  /** `uint16`, `uint32` and `uint64` render as `<name>(` + the decimal
      value their own consumer operation returned + `)`. */
  lemma Uint16Token(env: Env, rest: seq<byte>, v: uint16, after: seq<byte>)
    requires env.ops.getUint16(rest) == Some((v, after))
    ensures Next(env, "uint16", rest) == Ok((Lit("uint16(") + Decimal(v) + Lit(")"), after))
  {
    CatalogTable("uint16");
    assert "uint16" + "(" == "uint16(";
  }

  lemma Uint32Token(env: Env, rest: seq<byte>, v: uint32, after: seq<byte>)
    requires env.ops.getUint32(rest) == Some((v, after))
    ensures Next(env, "uint32", rest) == Ok((Lit("uint32(") + Decimal(v) + Lit(")"), after))
  {
    CatalogTable("uint32");
    assert "uint32" + "(" == "uint32(";
  }

  lemma Uint64Token(env: Env, rest: seq<byte>, v: uint64, after: seq<byte>)
    requires env.ops.getUint64(rest) == Some((v, after))
    ensures Next(env, "uint64", rest) == Ok((Lit("uint64(") + Decimal(v) + Lit(")"), after))
  {
    CatalogTable("uint64");
    assert "uint64" + "(" == "uint64(";
  }

  /** A `rune` argument renders as `rune(` + the UTF-8 text of the runes
      read + `)`. */
  lemma RuneToken(env: Env, rest: seq<byte>, v: seq<int32>, after: seq<byte>)
    requires env.ops.getRune(rest) == Some((v, after))
    ensures Next(env, "rune", rest) == Ok((Lit("rune(") + env.encodeRunes(v) + Lit(")"), after))
  {
    CatalogTable("rune");
    assert "rune" + "(" == "rune(";
  }

  /** `float32` and `float64` render as `<name>(` + the `%f` text of the
      value read + `)`. */
  lemma Float32Token(env: Env, rest: seq<byte>, v: bv32, after: seq<byte>)
    requires env.ops.getFloat32(rest) == Some((v, after))
    ensures Next(env, "float32", rest) == Ok((Lit("float32(") + env.formatFloat32(v) + Lit(")"), after))
  {
    CatalogTable("float32");
    assert "float32" + "(" == "float32(";
  }

  lemma Float64Token(env: Env, rest: seq<byte>, v: bv64, after: seq<byte>)
    requires env.ops.getFloat64(rest) == Some((v, after))
    ensures Next(env, "float64", rest) == Ok((Lit("float64(") + env.formatFloat64(v) + Lit(")"), after))
  {
    CatalogTable("float64");
    assert "float64" + "(" == "float64(";
  }

  /** Every integer name up to `uint8` renders as `<name>(` + the decimal
      value `GetInt` returned + `)`. */
  lemma IntToken(env: Env, name: string, rest: seq<byte>, b: int64, after: seq<byte>)
    requires name in IntNames
    requires env.ops.getInt(rest) == Some((b, after))
    ensures Next(env, name, rest) == Ok((Lit(name + "(") + Decimal(b) + Lit(")"), after))
  {
    CatalogTable(name);
  }

  lemma BoolToken(env: Env, rest: seq<byte>, c: bool, after: seq<byte>)
    requires env.ops.getBool(rest) == Some((c, after))
    ensures Next(env, "bool", rest) == Ok((Lit("bool(") + (if c then Lit("true") else Lit("false")) + Lit(")"), after))
  {
    CatalogTable("bool");
    assert "bool" + "(" == "bool(";
  }

  /** The three tokens the consumer's reads turn into, when the signature
      is `([]byte, int, bool)`. */
  lemma BytesIntBoolRun(env: Env, testcase: seq<byte>,
                        a: seq<byte>, b: int64, c: bool, r1: seq<byte>, r2: seq<byte>, r3: seq<byte>)
    requires env.ops.getBytes(testcase) == Some((a, r1))
    requires env.ops.getInt(r1) == Some((b, r2))
    requires env.ops.getBool(r2) == Some((c, r3))
    ensures Run(env, testcase, ["[]byte", "int", "bool"]) == Ok(([
      Lit("[]byte(\"") + a + Lit("\")"),
      Lit("int(") + Decimal(b) + Lit(")"),
      Lit("bool(") + (if c then Lit("true") else Lit("false")) + Lit(")")], r3))
  {
    var args := ["[]byte", "int", "bool"];
    var t1 := Lit("[]byte(\"") + a + Lit("\")");
    var t2 := Lit("int(") + Decimal(b) + Lit(")");
    var t3 := Lit("bool(") + (if c then Lit("true") else Lit("false")) + Lit(")");
    BytesToken(env, testcase, a, r1);
    IntToken(env, "int", r1, b, r2);
    assert "int" + "(" == "int(";
    BoolToken(env, r2, c, r3);
    assert args[..0] == [];
    RunStep(env, testcase, args, 0, [], testcase);
    assert [] + [t1] == [t1] && [t1] + [t2] == [t1, t2] && [t1, t2] + [t3] == [t1, t2, t3];
    RunStep(env, testcase, args, 1, [t1], r1);
    RunStep(env, testcase, args, 2, [t1, t2], r2);
    assert args[..3] == args;
  }

  /** The four lines written for the signature `([]byte, int, bool)`. */
  lemma BytesIntBoolEncode(env: Env, testcase: seq<byte>,
                           a: seq<byte>, b: int64, c: bool, r1: seq<byte>, r2: seq<byte>, r3: seq<byte>)
    requires env.ops.getBytes(testcase) == Some((a, r1))
    requires env.ops.getInt(r1) == Some((b, r2))
    requires env.ops.getBool(r2) == Some((c, r3))
    ensures Encode(env, testcase, ["[]byte", "int", "bool"]) == Ok(Header + (
        (Lit("[]byte(\"") + a + Lit("\")")) + [NL] +
        (Lit("int(") + Decimal(b) + Lit(")")) + [NL] +
        (Lit("bool(") + (if c then Lit("true") else Lit("false")) + Lit(")"))))
  {
    BytesIntBoolRun(env, testcase, a, b, c, r1, r2, r3);
    var t1 := Lit("[]byte(\"") + a + Lit("\")");
    var t2 := Lit("int(") + Decimal(b) + Lit(")");
    var t3 := Lit("bool(") + (if c then Lit("true") else Lit("false")) + Lit(")");
    assert [t1, t2, t3][..2] == [t1, t2] && [t1, t2][..1] == [t1];
    assert Join([t1]) == t1;
    assert Join([t1, t2]) == t1 + [NL] + t2;
    assert Join([t1, t2, t3]) == t1 + [NL] + t2 + [NL] + t3;
    assert Encode(env, testcase, ["[]byte", "int", "bool"]) == Ok(Header + Join([t1, t2, t3]));
  }

  /** Encoding failures are never structural: they are an unsupported type
      string or a consumer failure. */
  lemma {:induction false} RunErrorsDecode(env: Env, testcase: seq<byte>, args: seq<string>)
    ensures Run(env, testcase, args).Err? ==>
      Run(env, testcase, args).error.ConsumerFailed? || Run(env, testcase, args).error.UnsupportedType?
  {
    if args != [] {
      RunErrorsDecode(env, testcase, args[..|args| - 1]);
    }
  }

  /** The failure of the whole conversion tells its origin: it is
      structural exactly when extraction failed; otherwise it comes from
      the encoding of the extracted list. */
  lemma ConvertErrorKind(env: Env, parsed: Option<GoAst.File>, testcase: seq<byte>, fuzzerName: string)
    requires Convert(env, parsed, testcase, fuzzerName).Err?
    ensures Convert(env, parsed, testcase, fuzzerName).error.IsStructural() <==>
      Extract.FuzzArgs(parsed, fuzzerName).Err?
    ensures Extract.FuzzArgs(parsed, fuzzerName).Ok? ==>
      Convert(env, parsed, testcase, fuzzerName) ==
        Err(Run(env, testcase, Extract.FuzzArgs(parsed, fuzzerName).value).error)
  {
    Extract.FuzzArgsStructural(parsed, fuzzerName);
    if Extract.FuzzArgs(parsed, fuzzerName).Ok? {
      RunErrorsDecode(env, testcase, Extract.FuzzArgs(parsed, fuzzerName).value);
    }
  }

  /** End to end: a harness whose `f.Fuzz` literal takes `(t *testing.T,
      a []byte, b int, c bool)` and a testcase from which the consumer reads
      the three values turns into exactly four lines: the header and one
      token per parameter. */
  lemma BytesIntBoolScenario(env: Env, testcase: seq<byte>, body: seq<GoAst.Node>,
                             a: seq<byte>, b: int64, c: bool, r1: seq<byte>, r2: seq<byte>, r3: seq<byte>)
    requires forall i | 0 <= i < |body| :: Extract.NoFuzzCall(body[i])
    requires env.ops.getBytes(testcase) == Some((a, r1))
    requires env.ops.getInt(r1) == Some((b, r2))
    requires env.ops.getBool(r2) == Some((c, r3))
    ensures Convert(env, Some(Extract.BytesIntBoolHarness(body)), testcase, "FuzzX") == Ok(Header + (
        (Lit("[]byte(\"") + a + Lit("\")")) + [NL] +
        (Lit("int(") + Decimal(b) + Lit(")")) + [NL] +
        (Lit("bool(") + (if c then Lit("true") else Lit("false")) + Lit(")"))))
  {
    Extract.BytesIntBoolSignature(body);
    BytesIntBoolEncode(env, testcase, a, b, c, r1, r2, r3);
  }
}
