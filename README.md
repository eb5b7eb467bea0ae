# libFuzzer seed to Go corpus entry

A Dafny model of `coverage/coverage.go`, which turns a libFuzzer testcase
(a raw byte buffer) into an entry of Go's native fuzzing corpus. It works
in two steps.

1. **Signature extraction** (`getFuzzArgs`).
   - It looks through the parsed harness file for the function declaration
     named `fuzzerName`.
   - In that body, every call `f.Fuzz(func(t *testing.T, ...) {...})`
     drops its literal's first parameter field.
   - Each declared name in the remaining fields appends one type string:
     the identifier (`int`) or `"[]" + element` (`[]byte`).
2. **Seed encoding** (`libFuzzerSeedToGoSeed`).
   - One consumer from `go-fuzz-headers` is created over the whole
     testcase.
   - The consumer advances once per type string, in order.
   - Each type string selects a consumer read and a rendering template,
     for example `int(42)`, `[]byte("...")` or `bool(true)`.
   - The tokens follow the header `go test fuzz v1`, separated by
     newlines, with no newline after the last one.

Files:

- `outcome.dfy`: `Option`, `Result` and the `Error` variants. Each `panic`
  of the Go code becomes an `Error`.
- `goast.dfy`: the part of `go/ast` the extractor inspects.
- `extract.dfy`:
  - Specification functions: `TypeName`, `FieldsArgs`, `VisitArgs`,
    `NodeArgs`, `FileArgs` and `FuzzArgs`.
  - The visitor classes `BodyWalker` and `Walker`, whose methods update
    `args` in place.
  - `GetFuzzArgs`, a loop over the declarations.
  - Each method is proved equal to its specification function.
- `text.dfy`: bytes, ASCII literals, and the decimal text written by
  `strconv.Itoa` and `%d`, with its round trip.
- `consumer.dfy`: the consumer as an object whose `rest` field holds the
  unread bytes.
  - Each `Get...` method delegates to an injected operation.
  - The operation either fails or returns a value and the bytes left.
  - `Valid` states the contract the encoder relies on: a successful read
    returns a proper suffix.
- `encode.dfy`:
  - The dispatch table, one `Step` per `case`, and `Run`/`Join`/`Encode`
    as specification functions.
  - The imperative `LibFuzzerSeedToGoSeed`. Its loop keeps the builder
    contents and the consumer state equal to `Run` on the arguments seen
    so far.
  - `ConvertLibfuzzerSeedToGoSeed`.

Where the code differs from a plain reading of its purpose, the model
follows the code:

- **No matching declaration or no `f.Fuzz` call.** The result is the empty
  argument list, not an error (`getFuzzArgs` returns `w.args, nil`). The
  encoder then writes only the header.
- **Later matches.** A later matching declaration overwrites the list. Each
  `f.Fuzz` call inside a body appends to it.
- **Unsupported types are found late.** A type outside the switch is only
  detected when the loop reaches it, after earlier arguments consumed
  bytes.
- **No escaping.** `[]byte` and `string` payloads are written between
  double quotes without escaping. A payload holding a newline therefore
  adds a line to the output, so the output no longer has one line per
  argument. A payload holding `"` or `\` is not a valid Go string literal
  either.
- **Runes.** `GetRune` returns a `[]rune`. A `rune` token is `rune(` + the
  UTF-8 encoding of those runes +
  `)`. This is `string(randRune)`, not a quoted character literal.
- **Shared integer read.** `int`, `int8`, `int16`, `int32`, `int64`, `uint`
  and `uint8` all read through `GetInt` and render its value in decimal
  under their own name.
- **Nil body.** A matching declaration without a body makes `ast.Walk`
  dereference a nil `*ast.BlockStmt`. That panics, and the model gives
  `Err(NoBody)`.

## Model

| member | source | states |
|---|---|---|
| Extract.ArrayTypeName | coverage/coverage.go:88-91 | `getArrayType` succeeds exactly when the element type is an identifier, with `"[]" + name`; otherwise the failed `.(*ast.Ident)` assertion (`ArrayEltNotIdent`) |
| Extract.TypeName | coverage/coverage.go:75-79 | a parameter type renders exactly when it is an identifier (its name) or an array of an identifier (`"[]" + name`); any other shape is the failed `.(*ast.Ident)` assertion |
| Extract.TypeNameInjective | coverage/coverage.go:75-79 | for non-empty identifiers that do not start with `[`, distinct parameter types render to distinct strings, so the list determines the types |
| Extract.FieldsArgsByName | coverage/coverage.go:72-82 | `addArgs` succeeds exactly when every declared name's type renders; the list has one entry per declared name, and entry `i` is the rendering of the type of the `i`-th name |
| Extract.FieldsArgsSplit | coverage/coverage.go:73 | fields are processed in order: the list for `a + b` is the list for `a` followed by the list for `b`, and the first failure wins |
| Extract.FieldsArgsStep | coverage/coverage.go:73-80 | one more field whose names all render extends the list by its type string once per name; a field without names adds nothing |
| Extract.FieldsArgsFailAt | coverage/coverage.go:74-78 | a named field whose type does not render fails the whole list with that error, whatever fields follow it |
| Extract.FieldsArgsStructural | coverage/coverage.go:75-78 | every failure of `addArgs` is a structural error |
| Extract.NodesArgsStructural | coverage/coverage.go:50-69 | every failure of the body walk is a structural error |
| Extract.SharedTypeFieldRepeats | coverage/coverage.go:73-79 | a field `a, b int` contributes its type once per name: `["int", "int"]` |
| Extract.VisitArgs | coverage/coverage.go:50-69 | a node other than a call `f.Fuzz(...)` contributes nothing; a call with no argument, a first argument that is not a function literal, or a literal with no parameter field fails; otherwise the list of the literal's fields after the first |
| Extract.NodesArgsSplit | coverage/coverage.go:36 | statements are walked in order: the list for `a + b` is the list for `a` followed by the list for `b` |
| Extract.NoFuzzCallsNoArgs | coverage/coverage.go:55-58 | a body that contains no `f.Fuzz` call contributes the empty list |
| Extract.FuzzCallArgs | coverage/coverage.go:56-63 | a call `f.Fuzz(func(params) { body })`, with no nested call in the body, contributes exactly the list of `params[1:]` |
| Extract.DeclArgs | coverage/coverage.go:28-38 | a declaration that does not match the fuzzer name leaves the list unchanged |
| Extract.NoMatchEmpty | coverage/coverage.go:99-106 | with no declaration named `fuzzerName` the result is the empty list, not an error |
| Extract.FileArgsFails | coverage/coverage.go:23-41 | walking the file fails exactly when some matching declaration's body fails |
| Extract.LastMatchWins | coverage/coverage.go:37 | on success the list is the one of the last matching declaration |
| Extract.FileArgsErrPersists | coverage/coverage.go:105 | a failure in the first `i` declarations is the failure of the whole walk |
| Extract.FuzzArgsStructural | coverage/coverage.go:93-107 | every failure of extraction (parse failure, nil body, body walk) is a structural error |
| Extract.BytesIntBoolSignature | coverage/coverage.go:93-107 | the harness `f.Fuzz(func(t *testing.T, a []byte, b int, c bool) {...})` yields `["[]byte", "int", "bool"]` |
| Extract.BodyWalker.constructor | coverage/coverage.go:30-35 | a body walker starts with an empty list and the fuzzer name |
| Extract.BodyWalker.AddArg | coverage/coverage.go:84-86 | `addArg` appends one string to `args` |
| Extract.BodyWalker.AddArgs | coverage/coverage.go:72-82 | the nested loops append exactly `FieldsArgs(fs)` to `args`, or fail with its error |
| Extract.BodyWalker.Visit | coverage/coverage.go:50-69 | visiting one node appends exactly `VisitArgs(n)` to `args`, or fails with its error |
| Extract.BodyWalker.Walk | coverage/coverage.go:36 | the pre-order walk of a node appends exactly `NodeArgs(n)` (the node itself, then its children), or fails with its error |
| Extract.Walker.constructor | coverage/coverage.go:99-104 | a file walker starts with an empty list and the fuzzer name |
| Extract.Walker.Visit | coverage/coverage.go:23-41 | a matching declaration replaces `args` with its body's list (a nil body fails); any other declaration leaves `args` unchanged |
| Extract.GetFuzzArgs | coverage/coverage.go:93-107 | the loop over the declarations returns `FuzzArgs`: a parse failure, or the walk of the file |
| Text.DigitsRoundTrip | coverage/coverage.go:156 | reading back the decimal digits of a natural number gives that number |
| Text.DecimalRoundTrip | coverage/coverage.go:156 | the `strconv.Itoa` text of an integer is well formed, reads back to that integer, and holds neither a newline nor `)` |
| FuzzConsumer.Consumer.constructor | coverage/coverage.go:129 | the consumer starts over the whole testcase |
| FuzzConsumer.Consumer.GetBytes | coverage/coverage.go:134 | a failed read leaves the unread bytes unchanged; a successful read returns the value and advances to the bytes the operation left |
| FuzzConsumer.Consumer.GetString | coverage/coverage.go:143 | as `GetBytes`, for strings |
| FuzzConsumer.Consumer.GetInt | coverage/coverage.go:152 | as `GetBytes`, for `GetInt` |
| FuzzConsumer.Consumer.GetUint16 | coverage/coverage.go:215 | as `GetBytes`, for `GetUint16` |
| FuzzConsumer.Consumer.GetUint32 | coverage/coverage.go:224 | as `GetBytes`, for `GetUint32` |
| FuzzConsumer.Consumer.GetUint64 | coverage/coverage.go:233 | as `GetBytes`, for `GetUint64` |
| FuzzConsumer.Consumer.GetRune | coverage/coverage.go:242 | as `GetBytes`, for `GetRune`, whose value is a `[]rune` |
| FuzzConsumer.Consumer.GetFloat32 | coverage/coverage.go:251 | as `GetBytes`, for `GetFloat32` |
| FuzzConsumer.Consumer.GetFloat64 | coverage/coverage.go:262 | as `GetBytes`, for `GetFloat64` |
| FuzzConsumer.Consumer.GetBool | coverage/coverage.go:273 | as `GetBytes`, for `GetBool` |
| Encode.CatalogTable | coverage/coverage.go:132-283 | exactly the 17 `case` labels select a case: both byte-slice spellings select one case, the seven integer names select the `GetInt` case under their own name, and every other label selects its own case; anything else is `default` |
| Encode.StepShape | coverage/coverage.go:133-280 | every token starts with `<type>(` and ends with `)`; with a valid consumer it leaves a proper suffix of the bytes it started from |
| Encode.NextShape | coverage/coverage.go:130-283 | one loop iteration that succeeds selects a case, writes a token ending in `)`, and advances the consumer |
| Encode.RunConsumes | coverage/coverage.go:129-130 | a valid consumer reads at least one byte per argument; the unread bytes are a suffix of the testcase |
| Encode.RunErrPersists | coverage/coverage.go:135-137 | once a prefix of the arguments fails, the whole encoding fails with that error |
| Encode.RunSplit | coverage/coverage.go:129-130 | one consumer is threaded through the arguments: the run of `a + b` is the run of `a`, then the run of `b` on the bytes `a` left |
| Encode.RunLast | coverage/coverage.go:130-284 | the last iteration of a successful run renders the last argument from the bytes the earlier ones left, after the tokens of the earlier ones |
| Encode.RunPrefix | coverage/coverage.go:130 | every prefix of a successful run succeeds, with the matching prefix of the tokens |
| Encode.TokenAt | coverage/coverage.go:130-283 | token `k` renders argument `k`, read from exactly the bytes the first `k` arguments left |
| Encode.EncodeFormat | coverage/coverage.go:126-141 | the output starts with the header; with no arguments it is the header; otherwise it ends with the last token's `)` and not with a newline |
| Encode.HeaderOneLine | coverage/coverage.go:127 | the header is the 16 bytes `go test fuzz v1\n`, with exactly one newline |
| Encode.JoinNewlines | coverage/coverage.go:139-141 | when no token holds a newline, the joined tokens hold exactly one newline fewer than there are tokens |
| Encode.EncodeLines | coverage/coverage.go:127-141 | when no token holds a newline, the output holds one newline per argument, or just the header's when there are none |
| Encode.JoinNewlineCount | coverage/coverage.go:139-141 | the joined tokens hold one newline per separator plus those inside the tokens |
| Encode.PayloadNewlineAddsLine | coverage/coverage.go:138-141 | a token holding a newline gives the output more newlines than there are arguments |
| Encode.BytesTokenNewline | coverage/coverage.go:134-138 | bytes holding a newline give a `[]byte` token holding a newline, since they are copied without escaping |
| Encode.BytesNewlineAddsLine | coverage/coverage.go:133-141 | a `[]byte` argument whose bytes hold a newline gives the output more newlines than there are arguments |
| Encode.NumericTokenOneLine | coverage/coverage.go:151-240 | integer, unsigned and boolean tokens never hold a newline |
| Encode.ShortTestcaseFails | coverage/coverage.go:129-137 | with a valid consumer, a testcase shorter than the argument list cannot be encoded |
| Encode.UnsupportedTypeFails | coverage/coverage.go:281-282 | a type string outside the switch makes the encoding fail; if the arguments before it decode, it fails with `UnsupportedType` naming that string |
| Encode.ConsumerFailureFails | coverage/coverage.go:134-137 | a consumer failure on an argument, after the earlier ones decoded, makes the whole encoding fail with no output |
| Encode.ByteAliases | coverage/coverage.go:133 | writing `[]byte` for `[]uint8` anywhere in the list does not change the result |
| Encode.IntWidthsShareRead | coverage/coverage.go:151-213 | all seven integer names succeed or fail with `GetInt` and leave the same bytes |
| Encode.QuotedPayload | coverage/coverage.go:138-147 | a byte-slice or string token is `<type>("`, exactly the bytes the consumer returned without escaping, and `")` |
| Encode.IntPayload | coverage/coverage.go:156 | the text between the parentheses of an integer token reads back to the value `GetInt` returned |
| Encode.UnsignedPayload | coverage/coverage.go:214-238 | a `uint16`, `uint32` or `uint64` token is `<type>(`, text that reads back to the value its own consumer operation returned, and `)` |
| Encode.BoolPayload | coverage/coverage.go:277 | a boolean token is `bool(true)` exactly when `GetBool` returned true |
| Encode.BytesToken | coverage/coverage.go:133-138 | a `[]byte` or `[]uint8` argument renders as `[]byte("` + the bytes `GetBytes` read + `")` |
| Encode.StrToken | coverage/coverage.go:142-147 | a `string` argument renders as `string("` + the string `GetString` read + `")` |
| Encode.IntToken | coverage/coverage.go:151-213 | each of the seven integer names renders as `<name>(` + the decimal value `GetInt` read + `)` |
| Encode.Uint16Token | coverage/coverage.go:214-219 | a `uint16` argument renders as `uint16(` + the decimal value `GetUint16` read + `)` |
| Encode.Uint32Token | coverage/coverage.go:223-228 | a `uint32` argument renders as `uint32(` + the decimal value `GetUint32` read + `)` |
| Encode.Uint64Token | coverage/coverage.go:232-237 | a `uint64` argument renders as `uint64(` + the decimal value `GetUint64` read + `)` |
| Encode.RuneToken | coverage/coverage.go:241-246 | a `rune` argument renders as `rune(` + the UTF-8 text of the runes `GetRune` read + `)` |
| Encode.Float32Token | coverage/coverage.go:250-257 | a `float32` argument renders as `float32(` + the `%f` text of the value `GetFloat32` read + `)` |
| Encode.Float64Token | coverage/coverage.go:261-268 | a `float64` argument renders as `float64(` + the `%f` text of the value `GetFloat64` read + `)` |
| Encode.BoolToken | coverage/coverage.go:272-277 | a `bool` argument renders as `bool(true)` or `bool(false)` |
| Encode.BytesIntBoolRun | coverage/coverage.go:129-283 | for `([]byte, int, bool)` the three tokens are read in order from the bytes each earlier read left |
| Encode.BytesIntBoolEncode | coverage/coverage.go:125-286 | for `([]byte, int, bool)` the output is the header and the three tokens joined by newlines |
| Encode.BytesIntBoolScenario | coverage/coverage.go:115-122 | end to end: that harness and a testcase the consumer can read give exactly those four lines |
| Encode.ConsumeArg | coverage/coverage.go:132-283 | one `case` body: reads with the consumer and returns the token of `Step`, advancing the consumer exactly as `Step` says |
| Encode.EncodeArg | coverage/coverage.go:132-283 | the `switch`: the token and consumer state of `Next`, or the `default` and consumer-failure errors |
| Encode.LibFuzzerSeedToGoSeed | coverage/coverage.go:125-286 | the loop over the arguments returns `Encode`: the header, then the tokens of `Run`, separated by newlines; or the first error |
| Encode.RunErrorsDecode | coverage/coverage.go:134-137 | every failure of the encoding loop is a consumer failure or an unsupported type |
| Encode.ConvertErrorKind | coverage/coverage.go:115-122 | a failed conversion has a structural error exactly when extraction failed; otherwise its error is the encoding loop's |
| Encode.ConvertLibfuzzerSeedToGoSeed | coverage/coverage.go:115-122 | extraction then encoding: an extraction failure is returned as is, otherwise the encoding of the extracted list |

## Left out

- Parsing of the harness source (`parser.ParseFile`, `token.FileSet`) is not modelled. The extractor receives a parsed file or a parse failure (`ParseError`).
- The unused `fset` and `src` fields of both walkers are not modelled.
- The byte-reading algorithms of `go-fuzz-headers` are not modelled. They are a foreign library. Each operation is a function value that fails or returns a value and the bytes left.
- `%f` formatting of `float32` and `float64` is an uninterpreted function of the value's bits. It is floating-point formatting.
- The UTF-8 encoding of the runes (`string(randRune)`) is an uninterpreted function.
- How `GetRune` builds its `[]rune` is not modelled. The library is not part of this model, and the op only returns a sequence of `int32` values.
- The debug print `fmt.Println(argNumber)` is not modelled. It is I/O and does not affect the result.
- Machine-width integers are not modelled. Values are unbounded integers in the ranges of their Go types, and `strconv.Itoa` of an `int` is its decimal text.
- Node kinds of `go/ast` other than identifiers, selectors, calls and function literals are one generic node with children, in `ast.Walk` order.
- Calls inside type expressions (array lengths, function-literal result types) are not walked. A `f.Fuzz` call cannot appear there in a harness.
- Non-function declarations hold no function declaration. `ast.Walk` over a `GenDecl` cannot reach a `*ast.FuncDecl`.
- The `panic` mechanics are not modelled. Every panic is an `Error` value, and no partial output is returned.
- The consumer's error values are not modelled. Every consumer error is the single `ConsumerFailed`.
