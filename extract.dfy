/** Signature extraction (coverage/coverage.go:14-107): find the function
    declaration named `fuzzerName`, find every `f.Fuzz(func(...) {...})`
    call inside its body, drop the literal's first parameter field and list
    one type string per remaining declared name.

    The specification functions (`TypeName`, `FieldsArgs`, `VisitArgs`,
    `NodeArgs`, `NodesArgs`, `FileArgs`) say what the walk yields; the
    classes `BodyWalker` and `Walker` are the visitors of the Go code, whose
    methods append to or overwrite their `args` field and are proved against
    those functions. */
module Extract {

  import opened Outcome
  import opened GoAst

  // ---------------------------------------------------------------------
  // Specification

  /** `getArrayType`: the element of an array type must be an identifier. */
  function ArrayTypeName(t: TypeExpr): (r: Result<string>)
    requires t.TArray?
    ensures r.Ok? <==> t.elt.TIdent?
    ensures r.Ok? ==> r.value == "[]" + t.elt.name
    ensures r.Err? ==> r.error == ArrayEltNotIdent
  {
    match t.elt
    case TIdent(name) => Ok("[]" + name)
    case _ => Err(ArrayEltNotIdent)
  }

  /** The type string `addArgs` appends for one declared name of type `t`. */
  function TypeName(t: TypeExpr): (r: Result<string>)
    ensures r.Ok? <==> t.TIdent? || (t.TArray? && t.elt.TIdent?)
    ensures t.TIdent? ==> r == Ok(t.name)
    ensures t.TArray? && t.elt.TIdent? ==> r == Ok("[]" + t.elt.name)
    ensures t.TOther? ==> r == Err(ParamTypeNotIdent)
  {
    if t.TArray? then ArrayTypeName(t)
    else if t.TIdent? then Ok(t.name)
    else Err(ParamTypeNotIdent)
  }

  /** A Go identifier never starts with `[`. */
  predicate IdentLike(s: string) {
    |s| > 0 && s[0] != '['
  }

  predicate WellNamed(t: TypeExpr) {
    match t
    case TIdent(name) => IdentLike(name)
    case TArray(elt) => elt.TIdent? ==> IdentLike(elt.name)
    case TOther => true
  }

  /** The type string determines the type syntax it came from. */
  lemma TypeNameInjective(t1: TypeExpr, t2: TypeExpr)
    requires WellNamed(t1) && WellNamed(t2)
    requires TypeName(t1).Ok? && TypeName(t1) == TypeName(t2)
    ensures t1 == t2
  {
    var s := TypeName(t1).value;
    if t1.TArray? && t2.TArray? {
      assert s[2..] == t1.elt.name && s[2..] == t2.elt.name;
    }
  }

  function Repeat<T>(x: T, n: nat): (r: seq<T>)
    ensures |r| == n && forall i | 0 <= i < n :: r[i] == x
  {
    seq(n, _ => x)
  }

  /** What one parameter field contributes: its type string once per name.
      A field without names contributes nothing, whatever its type. */
  function FieldArgs(f: Field): Result<seq<string>> {
    if |f.names| == 0 then Ok([])
    else match TypeName(f.typ)
      case Err(e) => Err(e)
      case Ok(t) => Ok(Repeat(t, |f.names|))
  }

  /** What `addArgs` appends for a list of fields, field by field. */
  function FieldsArgs(fs: seq<Field>): Result<seq<string>> {
    if fs == [] then Ok([])
    else Concat(FieldsArgs(fs[..|fs| - 1]), FieldArgs(fs[|fs| - 1]))
  }

  /** Independent reference: the declared type of every declared name, in
      order. */
  function NameTypes(fs: seq<Field>): (r: seq<TypeExpr>)
  {
    if fs == [] then []
    else NameTypes(fs[..|fs| - 1]) + Repeat(fs[|fs| - 1].typ, |fs[|fs| - 1].names|)
  }

  function NameCount(fs: seq<Field>): nat {
    if fs == [] then 0 else NameCount(fs[..|fs| - 1]) + |fs[|fs| - 1].names|
  }

  lemma {:induction false} NameTypesLength(fs: seq<Field>)
    ensures |NameTypes(fs)| == NameCount(fs)
  {
    if fs != [] {
      NameTypesLength(fs[..|fs| - 1]);
    }
  }

  /** `addArgs` yields one type string per declared name, in order, and
      fails exactly when some declared name has an unsupported type. */
  lemma {:induction false} FieldsArgsByName(fs: seq<Field>)
    ensures FieldsArgs(fs).Ok? <==>
      forall i | 0 <= i < |NameTypes(fs)| :: TypeName(NameTypes(fs)[i]).Ok?
    ensures FieldsArgs(fs).Ok? ==>
      |FieldsArgs(fs).value| == |NameTypes(fs)| == NameCount(fs) &&
      forall i | 0 <= i < |NameTypes(fs)| :: FieldsArgs(fs).value[i] == TypeName(NameTypes(fs)[i]).value
  {
    NameTypesLength(fs);
    if fs != [] {
      var init, last := fs[..|fs| - 1], fs[|fs| - 1];
      FieldsArgsByName(init);
      var nt := NameTypes(init);
      assert NameTypes(fs) == nt + Repeat(last.typ, |last.names|);
      if FieldsArgs(fs).Ok? {
        assert FieldsArgs(init).Ok? && FieldArgs(last).Ok?;
        forall i | 0 <= i < |NameTypes(fs)|
          ensures TypeName(NameTypes(fs)[i]).Ok?
          ensures FieldsArgs(fs).value[i] == TypeName(NameTypes(fs)[i]).value
        {
          if i >= |nt| {
            assert NameTypes(fs)[i] == last.typ;
          }
        }
      } else if FieldsArgs(init).Err? {
        var i :| 0 <= i < |nt| && TypeName(nt[i]).Err?;
        assert NameTypes(fs)[i] == nt[i];
      } else {
        assert FieldArgs(last).Err?;
        assert NameTypes(fs)[|nt|] == last.typ;
      }
    }
  }

  /** `addArgs` over two runs of fields appends their contributions in order. */
  lemma {:induction false} FieldsArgsSplit(a: seq<Field>, b: seq<Field>)
    ensures FieldsArgs(a + b) == Concat(FieldsArgs(a), FieldsArgs(b))
  {
    if b == [] {
      assert a + b == a;
    } else {
      var b0 := b[..|b| - 1];
      assert (a + b)[..|a + b| - 1] == a + b0;
      FieldsArgsSplit(a, b0);
      ConcatAssoc(FieldsArgs(a), FieldsArgs(b0), FieldArgs(b[|b| - 1]));
    }
  }

  /** `a, b int` contributes `int` twice: one entry per name, not per field. */
  /** One more field whose names all render: the list grows by the type
      string once per name. */
  lemma FieldsArgsStep(fs: seq<Field>, i: nat)
    requires i < |fs| && FieldsArgs(fs[..i]).Ok?
    requires |fs[i].names| > 0 ==> TypeName(fs[i].typ).Ok?
    ensures FieldsArgs(fs[..i + 1]).Ok?
    ensures FieldsArgs(fs[..i + 1]).value == FieldsArgs(fs[..i]).value +
      (if |fs[i].names| == 0 then [] else Repeat(TypeName(fs[i].typ).value, |fs[i].names|))
  {
    assert fs[..i + 1][..i] == fs[..i];
    if |fs[i].names| == 0 {
      assert FieldsArgs(fs[..i]).value + [] == FieldsArgs(fs[..i]).value;
    }
  }

  /** A named field whose type does not render makes the whole list fail
      with that error, whatever follows it. */
  lemma FieldsArgsFailAt(fs: seq<Field>, i: nat)
    requires i < |fs| && FieldsArgs(fs[..i]).Ok?
    requires |fs[i].names| > 0 && TypeName(fs[i].typ).Err?
    ensures FieldsArgs(fs) == Err(TypeName(fs[i].typ).error)
  {
    assert fs[..i + 1][..i] == fs[..i];
    FieldsArgsSplit(fs[..i + 1], fs[i + 1..]);
    assert fs[..i + 1] + fs[i + 1..] == fs;
  }

  lemma SharedTypeFieldRepeats(names: seq<string>, t: string)
    ensures FieldsArgs([Field(names, TIdent(t))]) == Ok(Repeat(t, |names|))
  {
    assert [Field(names, TIdent(t))][..0] == [];
  }

  /** The call `f.Fuzz(...)`: a selector with identifier receiver `f` and
      selector `Fuzz`. */
  predicate IsFuzzCall(n: Node) {
    n.Call? && n.fun.Selector? && n.fun.x.Ident? && n.fun.x.name == "f" && n.fun.sel == "Fuzz"
  }

  /** What `BodyWalker.Visit` appends for the node itself (not its children). */
  function VisitArgs(n: Node): (r: Result<seq<string>>)
    ensures !IsFuzzCall(n) ==> r == Ok([])
    ensures IsFuzzCall(n) && |n.args| == 0 ==> r == Err(NoFuzzArgument)
    ensures IsFuzzCall(n) && |n.args| > 0 && !n.args[0].FuncLit? ==> r == Err(NotFuncLit)
    ensures IsFuzzCall(n) && |n.args| > 0 && n.args[0].FuncLit? && |n.args[0].params| == 0 ==>
      r == Err(NoContextParam)
  {
    if !IsFuzzCall(n) then Ok([])
    else if |n.args| == 0 then Err(NoFuzzArgument)
    else match n.args[0]
      case FuncLit(params, _) =>
        if |params| == 0 then Err(NoContextParam) else FieldsArgs(params[1..])
      case _ => Err(NotFuncLit)
  }

  /** What walking a node with a `BodyWalker` appends: pre-order, the node
      first and then its children in `ast.Walk` order. */
  function NodeArgs(n: Node): Result<seq<string>>
    decreases n, 1
  {
    Concat(VisitArgs(n), ChildArgs(n))
  }

  /** What walking the children of `n` appends. */
  function ChildArgs(n: Node): Result<seq<string>>
    decreases n, 0
  {
    match n
    case Ident(_) => Ok([])
    case Selector(x, _) => NodeArgs(x)
    case Call(fun, args) => Concat(NodeArgs(fun), NodesArgs(args))
    case FuncLit(_, body) => NodesArgs(body)
    case Other(children) => NodesArgs(children)
  }

  function NodesArgs(ns: seq<Node>): Result<seq<string>>
    decreases ns
  {
    if ns == [] then Ok([])
    else Concat(NodesArgs(ns[..|ns| - 1]), NodeArgs(ns[|ns| - 1]))
  }

  /** Walking two runs of nodes appends their contributions in order. */
  lemma {:induction false} NodesArgsSplit(a: seq<Node>, b: seq<Node>)
    ensures NodesArgs(a + b) == Concat(NodesArgs(a), NodesArgs(b))
  {
    if b == [] {
      assert a + b == a;
    } else {
      var b0 := b[..|b| - 1];
      assert (a + b)[..|a + b| - 1] == a + b0;
      NodesArgsSplit(a, b0);
      ConcatAssoc(NodesArgs(a), NodesArgs(b0), NodeArgs(b[|b| - 1]));
    }
  }

  /** No `f.Fuzz` call anywhere in the tree. */
  predicate NoFuzzCall(n: Node)
    decreases n
  {
    !IsFuzzCall(n) &&
    match n
    case Ident(_) => true
    case Selector(x, _) => NoFuzzCall(x)
    case Call(fun, args) => NoFuzzCall(fun) && forall i | 0 <= i < |args| :: NoFuzzCall(args[i])
    case FuncLit(_, body) => forall i | 0 <= i < |body| :: NoFuzzCall(body[i])
    case Other(children) => forall i | 0 <= i < |children| :: NoFuzzCall(children[i])
  }

  /** A body without any `f.Fuzz` call yields the empty list, not an error. */
  lemma {:induction false} NoFuzzCallNoArgs(n: Node)
    requires NoFuzzCall(n)
    ensures NodeArgs(n) == Ok([])
    decreases n
  {
    assert ChildArgs(n) == Ok([]) by {
      match n
      case Ident(_) =>
      case Selector(x, _) => NoFuzzCallNoArgs(x);
      case Call(fun, args) => NoFuzzCallNoArgs(fun); NoFuzzCallsNoArgs(args);
      case FuncLit(_, body) => NoFuzzCallsNoArgs(body);
      case Other(children) => NoFuzzCallsNoArgs(children);
    }
  }

  lemma {:induction false} NoFuzzCallsNoArgs(ns: seq<Node>)
    requires forall i | 0 <= i < |ns| :: NoFuzzCall(ns[i])
    ensures NodesArgs(ns) == Ok([])
    decreases ns
  {
    if ns != [] {
      NoFuzzCallsNoArgs(ns[..|ns| - 1]);
      NoFuzzCallNoArgs(ns[|ns| - 1]);
    }
  }

  /** Every failure of extraction is structural: it is about the shape of
      the harness, never about the testcase. */
  lemma {:induction false} FieldsArgsStructural(fs: seq<Field>)
    ensures FieldsArgs(fs).Err? ==> FieldsArgs(fs).error.IsStructural()
  {
    if fs != [] {
      FieldsArgsStructural(fs[..|fs| - 1]);
    }
  }

  lemma {:induction false} NodeArgsStructural(n: Node)
    ensures NodeArgs(n).Err? ==> NodeArgs(n).error.IsStructural()
    decreases n
  {
    if IsFuzzCall(n) && |n.args| > 0 && n.args[0].FuncLit? && |n.args[0].params| > 0 {
      FieldsArgsStructural(n.args[0].params[1..]);
    }
    assert ChildArgs(n).Err? ==> ChildArgs(n).error.IsStructural() by {
      match n
      case Ident(_) =>
      case Selector(x, _) => NodeArgsStructural(x);
      case Call(fun, args) => NodeArgsStructural(fun); NodesArgsStructural(args);
      case FuncLit(_, body) => NodesArgsStructural(body);
      case Other(children) => NodesArgsStructural(children);
    }
  }

  lemma {:induction false} NodesArgsStructural(ns: seq<Node>)
    ensures NodesArgs(ns).Err? ==> NodesArgs(ns).error.IsStructural()
    decreases ns
  {
    if ns != [] {
      NodesArgsStructural(ns[..|ns| - 1]);
      NodeArgsStructural(ns[|ns| - 1]);
    }
  }

  /** A single `f.Fuzz(func(t *testing.T, ...) {...})` whose body holds no
      further `f.Fuzz` call yields exactly the parameters after the first
      field. */
  lemma FuzzCallArgs(params: seq<Field>, body: seq<Node>)
    requires |params| > 0
    requires forall i | 0 <= i < |body| :: NoFuzzCall(body[i])
    ensures NodeArgs(Call(Selector(Ident("f"), "Fuzz"), [FuncLit(params, body)])) ==
      FieldsArgs(params[1..])
  {
    var lit := FuncLit(params, body);
    NoFuzzCallsNoArgs(body);
    assert NodeArgs(lit) == Ok([]);
    assert [lit][..0] == [];
    assert NodesArgs([lit]) == Ok([]);
    assert NodeArgs(Selector(Ident("f"), "Fuzz")) == Ok([]);
    match FieldsArgs(params[1..])
    case Ok(a) => assert a + [] + [] == a;
    case Err(_) =>
  }

  /** A harness `FuzzX` whose body calls `f.Fuzz(func(t *testing.T, a []byte,
      b int, c bool) { body })`. */
  function BytesIntBoolHarness(body: seq<Node>): File {
    [FuncDecl("FuzzX", Some([Call(Selector(Ident("f"), "Fuzz"), [FuncLit([
      Field(["t"], TOther),
      Field(["a"], TArray(TIdent("byte"))),
      Field(["b"], TIdent("int")),
      Field(["c"], TIdent("bool"))], body)])]))]
  }

  /** Its signature is the list of parameter types after the first. */
  lemma BytesIntBoolSignature(body: seq<Node>)
    requires forall i | 0 <= i < |body| :: NoFuzzCall(body[i])
    ensures FuzzArgs(Some(BytesIntBoolHarness(body)), "FuzzX") == Ok(["[]byte", "int", "bool"])
  {
    var harness := BytesIntBoolHarness(body);
    var params := harness[0].body.value[0].args[0].params;
    var call := harness[0].body.value[0];
    var fs := params[1..];
    assert "[]" + "byte" == "[]byte";
    assert Repeat("[]byte", 1) == ["[]byte"] && Repeat("int", 1) == ["int"] && Repeat("bool", 1) == ["bool"];
    assert FieldArgs(fs[0]) == Ok(["[]byte"]);
    assert FieldArgs(fs[1]) == Ok(["int"]);
    assert FieldArgs(fs[2]) == Ok(["bool"]);
    assert fs[..1][..0] == [] && fs[..2][..1] == fs[..1] && fs[..3][..2] == fs[..2] && fs[..3] == fs;
    assert FieldsArgs(fs[..1]) == Ok(["[]byte"]);
    assert ["[]byte"] + ["int"] == ["[]byte", "int"] && ["[]byte", "int"] + ["bool"] == ["[]byte", "int", "bool"];
    assert fs[..2][1] == fs[1];
    assert FieldsArgs(fs[..2]) == Ok(["[]byte", "int"]);
    assert FieldsArgs(fs) == Ok(["[]byte", "int", "bool"]);
    FuzzCallArgs(params, body);
    assert [call][..0] == [];
    assert NodesArgs([call]) == Ok(["[]byte", "int", "bool"]);
    assert harness[..0] == [];
    assert FileArgs(harness[..0], "FuzzX") == Ok([]);
  }

  /** Does declaration `d` match the fuzzer name? */
  predicate Matches(d: Decl, fuzzerName: string) {
    d.FuncDecl? && d.name == fuzzerName
  }

  /** The list a matching declaration produces on its own. */
  function BodyArgs(d: Decl): Result<seq<string>>
    requires d.FuncDecl?
  {
    match d.body
    case None => Err(NoBody)
    case Some(stmts) => NodesArgs(stmts)
  }

  /** `Walker.Visit` on one declaration: a matching declaration replaces the
      list collected so far, any other declaration keeps it. */
  function DeclArgs(d: Decl, fuzzerName: string, prev: seq<string>): (r: Result<seq<string>>)
    ensures !Matches(d, fuzzerName) ==> r == Ok(prev)
  {
    if Matches(d, fuzzerName) then BodyArgs(d) else Ok(prev)
  }

  /** Walking a whole file, declaration by declaration. */
  function FileArgs(ds: File, fuzzerName: string): Result<seq<string>> {
    if ds == [] then Ok([])
    else match FileArgs(ds[..|ds| - 1], fuzzerName)
      case Err(e) => Err(e)
      case Ok(prev) => DeclArgs(ds[|ds| - 1], fuzzerName, prev)
  }

  /** `getFuzzArgs`: a parse failure, or the walk of the parsed file. */
  function FuzzArgs(parsed: Option<File>, fuzzerName: string): Result<seq<string>> {
    match parsed
    case None => Err(ParseError)
    case Some(ds) => FileArgs(ds, fuzzerName)
  }

  /** A parse failure, a nil body and every failure of the body walk are
      structural errors. */
  lemma {:induction false} FuzzArgsStructural(parsed: Option<File>, fuzzerName: string)
    ensures FuzzArgs(parsed, fuzzerName).Err? ==> FuzzArgs(parsed, fuzzerName).error.IsStructural()
  {
    if parsed.Some? {
      FileArgsStructural(parsed.value, fuzzerName);
    }
  }

  lemma {:induction false} FileArgsStructural(ds: File, fuzzerName: string)
    ensures FileArgs(ds, fuzzerName).Err? ==> FileArgs(ds, fuzzerName).error.IsStructural()
  {
    if ds != [] {
      FileArgsStructural(ds[..|ds| - 1], fuzzerName);
      var d := ds[|ds| - 1];
      if Matches(d, fuzzerName) && d.body.Some? {
        NodesArgsStructural(d.body.value);
      }
    }
  }

  /** With no declaration of that name the result is the empty list, not
      an error. */
  lemma {:induction false} NoMatchEmpty(ds: File, fuzzerName: string)
    requires forall k | 0 <= k < |ds| :: !Matches(ds[k], fuzzerName)
    ensures FileArgs(ds, fuzzerName) == Ok([])
  {
    if ds != [] {
      NoMatchEmpty(ds[..|ds| - 1], fuzzerName);
    }
  }

  /** The walk fails exactly when some matching declaration fails on its own
      (an earlier failure aborts even if a later declaration would match). */
  lemma {:induction false} FileArgsFails(ds: File, fuzzerName: string)
    ensures FileArgs(ds, fuzzerName).Err? <==>
      exists k | 0 <= k < |ds| :: Matches(ds[k], fuzzerName) && BodyArgs(ds[k]).Err?
  {
    if ds != [] {
      var init := ds[..|ds| - 1];
      FileArgsFails(init, fuzzerName);
      if FileArgs(init, fuzzerName).Err? {
        var k :| 0 <= k < |init| && Matches(init[k], fuzzerName) && BodyArgs(init[k]).Err?;
        assert ds[k] == init[k];
      } else if FileArgs(ds, fuzzerName).Err? {
        assert Matches(ds[|ds| - 1], fuzzerName) && BodyArgs(ds[|ds| - 1]).Err?;
      } else {
        forall k | 0 <= k < |ds| && Matches(ds[k], fuzzerName)
          ensures BodyArgs(ds[k]).Ok?
        {
          if k < |init| {
            assert ds[k] == init[k];
          }
        }
      }
    }
  }

  /** On success the list is the one of the LAST matching declaration: a
      later match overwrites an earlier one. */
  lemma {:induction false} LastMatchWins(ds: File, fuzzerName: string, k: nat)
    requires k < |ds| && Matches(ds[k], fuzzerName)
    requires forall j | k < j < |ds| :: !Matches(ds[j], fuzzerName)
    requires FileArgs(ds, fuzzerName).Ok?
    ensures FileArgs(ds, fuzzerName) == BodyArgs(ds[k])
  {
    var init := ds[..|ds| - 1];
    if k < |ds| - 1 {
      assert init[k] == ds[k];
      forall j | k < j < |init| ensures !Matches(init[j], fuzzerName) {
        assert init[j] == ds[j];
      }
      LastMatchWins(init, fuzzerName, k);
    }
  }

  /** Once a prefix of the file fails, the whole walk fails the same way. */
  lemma {:induction false} FileArgsErrPersists(ds: File, fuzzerName: string, i: nat)
    requires i <= |ds| && FileArgs(ds[..i], fuzzerName).Err?
    ensures FileArgs(ds, fuzzerName) == FileArgs(ds[..i], fuzzerName)
    decreases |ds| - i
  {
    if i < |ds| {
      assert ds[..i + 1][..i] == ds[..i];
      FileArgsErrPersists(ds, fuzzerName, i + 1);
    } else {
      assert ds[..i] == ds;
    }
  }

  // ---------------------------------------------------------------------
  // The visitors

  /** Collects the arguments of the `f.Fuzz` calls found in one body. */
  class BodyWalker {
    var args: seq<string>
    const fuzzerName: string

    constructor (fuzzerName: string)
      ensures args == [] && this.fuzzerName == fuzzerName
    {
      args := [];
      this.fuzzerName := fuzzerName;
    }

    method AddArg(arg: string)
      modifies this
      ensures args == old(args) + [arg]
    {
      args := args + [arg];
    }

    /** `addArgs`: for every field, for every name, append its type string. */
    method AddArgs(fs: seq<Field>) returns (st: Result<()>)
      modifies this
      ensures match FieldsArgs(fs)
        case Ok(a) => st == Ok(()) && args == old(args) + a
        case Err(e) => st == Err(e)
    {
      var i := 0;
      while i < |fs|
        invariant 0 <= i <= |fs|
        invariant FieldsArgs(fs[..i]).Ok?
        invariant args == old(args) + FieldsArgs(fs[..i]).value
      {
        var names, typ := fs[i].names, fs[i].typ;
        var j := 0;
        while j < |names|
          invariant 0 <= j <= |names|
          invariant j > 0 ==> TypeName(typ).Ok?
          invariant args == old(args) + FieldsArgs(fs[..i]).value +
            (if j == 0 then [] else Repeat(TypeName(typ).value, j))
        {
          if typ.TArray? {
            var a := ArrayTypeName(typ);
            if a.Err? {
              FieldsArgsFailAt(fs, i);
              return Err(a.error);
            }
            AddArg(a.value);
          } else if typ.TIdent? {
            AddArg(typ.name);
          } else {
            FieldsArgsFailAt(fs, i);
            return Err(ParamTypeNotIdent);
          }
          assert Repeat(TypeName(typ).value, j + 1) ==
            (if j == 0 then [] else Repeat(TypeName(typ).value, j)) + [TypeName(typ).value];
          j := j + 1;
        }
        FieldsArgsStep(fs, i);
        i := i + 1;
      }
      assert fs[..i] == fs;
      st := Ok(());
    }

    /** `BodyWalker.Visit`: act on one node, not on its children. */
    method Visit(n: Node) returns (st: Result<()>)
      modifies this
      ensures match VisitArgs(n)
        case Ok(a) => st == Ok(()) && args == old(args) + a
        case Err(e) => st == Err(e)
    {
      st := Ok(());
      if n.Call? && n.fun.Selector? {
        var aa := n.fun;
        if aa.x.Ident? {
          if aa.x.name == "f" && aa.sel == "Fuzz" {
            if |n.args| == 0 {
              return Err(NoFuzzArgument);
            }
            var funcArg := n.args[0];
            if !funcArg.FuncLit? {
              return Err(NotFuncLit);
            }
            if |funcArg.params| == 0 {
              return Err(NoContextParam);
            }
            st := AddArgs(funcArg.params[1..]);
          }
        }
      }
    }

    /** `ast.Walk(walker, n)`: visit `n`, then walk its children in order. */
    method Walk(n: Node) returns (st: Result<()>)
      modifies this
      ensures match NodeArgs(n)
        case Ok(a) => st == Ok(()) && args == old(args) + a
        case Err(e) => st == Err(e)
      decreases n, 1
    {
      st := Visit(n);
      if st.Ok? {
        st := WalkChildren(n);
      }
    }

    /** Walks the children of `n` in `ast.Walk` order. */
    method WalkChildren(n: Node) returns (st: Result<()>)
      modifies this
      ensures match ChildArgs(n)
        case Ok(a) => st == Ok(()) && args == old(args) + a
        case Err(e) => st == Err(e)
      decreases n, 0
    {
      st := Ok(());
      match n {
        case Ident(_) =>
        case Selector(x, _) =>
          st := Walk(x);
        case Call(fun, args) =>
          st := Walk(fun);
          if st.Ok? {
            st := WalkList(args);
          }
        case FuncLit(_, body) =>
          st := WalkList(body);
        case Other(children) =>
          st := WalkList(children);
      }
    }

    /** Walks a list of nodes in order. */
    method WalkList(ns: seq<Node>) returns (st: Result<()>)
      modifies this
      ensures match NodesArgs(ns)
        case Ok(a) => st == Ok(()) && args == old(args) + a
        case Err(e) => st == Err(e)
      decreases ns
    {
      var i := 0;
      while i < |ns|
        invariant 0 <= i <= |ns|
        invariant NodesArgs(ns[..i]).Ok?
        invariant args == old(args) + NodesArgs(ns[..i]).value
      {
        assert ns[..i + 1][..i] == ns[..i];
        st := Walk(ns[i]);
        if st.Err? {
          NodesArgsSplit(ns[..i + 1], ns[i + 1..]);
          assert ns[..i + 1] + ns[i + 1..] == ns;
          return;
        }
        i := i + 1;
      }
      assert ns[..i] == ns;
      st := Ok(());
    }
  }

  /** The top-level visitor: every matching declaration overwrites `args`
      with what a fresh `BodyWalker` collects from its body. */
  class Walker {
    var args: seq<string>
    const fuzzerName: string

    constructor (fuzzerName: string)
      ensures args == [] && this.fuzzerName == fuzzerName
    {
      args := [];
      this.fuzzerName := fuzzerName;
    }

    method Visit(d: Decl) returns (st: Result<()>)
      modifies this
      ensures match DeclArgs(d, fuzzerName, old(args))
        case Ok(a) => st == Ok(()) && args == a
        case Err(e) => st == Err(e)
    {
      st := Ok(());
      if d.FuncDecl? && d.name == fuzzerName {
        if d.body.None? {
          // ast.Walk dereferences the nil body
          return Err(NoBody);
        }
        var bw := new BodyWalker(fuzzerName);
        st := bw.WalkList(d.body.value);
        if st.Ok? {
          args := bw.args;
        }
      }
    }
  }

  /** `getFuzzArgs` over an already-parsed file (`None` if it did not parse). */
  method GetFuzzArgs(parsed: Option<File>, fuzzerName: string) returns (r: Result<seq<string>>)
    ensures r == FuzzArgs(parsed, fuzzerName)
  {
    if parsed.None? {
      return Err(ParseError);
    }
    var ds := parsed.value;
    var w := new Walker(fuzzerName);
    var i := 0;
    while i < |ds|
      invariant 0 <= i <= |ds|
      invariant FileArgs(ds[..i], fuzzerName) == Ok(w.args)
    {
      assert ds[..i + 1][..i] == ds[..i];
      var st := w.Visit(ds[i]);
      if st.Err? {
        FileArgsErrPersists(ds, fuzzerName, i + 1);
        return Err(st.error);
      }
      i := i + 1;
    }
    assert ds[..i] == ds;
    r := Ok(w.args);
  }
}
