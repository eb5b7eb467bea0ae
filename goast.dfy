/** The part of an already-parsed Go file (package go/ast) that the
    signature extractor looks at. Parsing itself is not modelled: the
    extractor receives either a parsed file or a parse failure. */
module GoAst {

  import opened Outcome

  /** Type syntax of a parameter: an identifier (`int`, `string`), an array
      or slice type `[]Elt` / `[N]Elt` (the length is irrelevant here), or
      any other shape (pointer, map, struct, qualified name, ...). */
  datatype TypeExpr =
    | TIdent(name: string)
    | TArray(elt: TypeExpr)
    | TOther

  /** One field of a parameter list: `a, b int` has two names and one type;
      an unnamed parameter `int` has no names. */
  datatype Field = Field(names: seq<string>, typ: TypeExpr)

  /** Expressions and statements, with their children in the order in which
      `ast.Walk` visits them. */
  datatype Node =
    | Ident(name: string)
    | Selector(x: Node, sel: string)              // x.sel
    | Call(fun: Node, args: seq<Node>)            // fun(args...)
    | FuncLit(params: seq<Field>, body: seq<Node>) // func(params) { body }
    | Other(children: seq<Node>)                  // any other node

  /** Top-level declarations: a function declaration (a nil body is `None`)
      or any other declaration, which holds no function declaration. */
  datatype Decl =
    | FuncDecl(name: string, body: Option<seq<Node>>)
    | OtherDecl

  type File = seq<Decl>
}
