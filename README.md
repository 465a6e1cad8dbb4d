# c-code-an: a Dafny model of the call-graph core of ca.go

ca.go reads C source files and builds a call graph of the functions they
define. It then serves a picture of that graph: a root function with its
callees in a row beneath it. This project models the sequential core of
that pipeline and proves properties of it:

- **Normalisation** (`Scanner.Normalize`). The bytes of one file become
  `fstr`, a single line. The code trims the ends, turns every newline and
  tab into a space, and trims white space again.
- **Definition filter** (`Scanner.IsDefinition`). It decides which
  `FetchFunction` matches, each a `(name, params)` pair, are registered as
  definitions.
- **Body extraction** (`Scanner.GetFuncBody`). It finds `name + params` in
  `fstr` and then counts braces.
- **The write-once registry** `CFuncList` (`CallGraph.Registry`). Its
  methods are `addNewFunc` and the registration loop of `getFuncList`.
- **The call relation** of `buildCallTree`. `a` calls `b` exactly when the
  registered name `b` occurs anywhere in the body of `a`. `called` is the
  inverse of `calling`.
- **The root list** of the index page: the functions that call something.
- **The layout** (`Layout`). This covers the root box of `createFuncGraph`,
  the `chlen` width sums, and the single row of callee boxes laid out by
  `createChildrenGraph`.

Strings are `seq<char>`, and one `char` stands for one byte of a Go string.
The Go functions `strings.Index`, `Contains`, `Trim`, `TrimSpace` and
`Replace` are defined in `GoStrings`. Go iterates maps in a random order,
and the model handles this in two ways:

- Where the order cannot matter (`buildCallTree`, the `chlen` sums, the root
  list), the loops pick elements with `:|`, so the proofs hold for every
  order.
- Where the order is visible (the left-to-right order of the child boxes),
  it is an explicit parameter, `order`.

`CFunc` holds pointer maps `calling` and `called`. The model keeps them as
sets of registry keys inside a `map<string, CFunc>`. The registry is a
class whose methods update that map.

Where the code and its design description disagree, the model follows the
code:

- The normalisation replaces each newline and each tab by one space. It does
  not collapse runs of white space into one. `Scanner.SpaceOut` keeps the
  length.
- The body is not "from the first `{` to the matching `}`".
  - `bstart` is the constant 1 once a `{` is met at depth 0, not the
    position of that `{`.
  - `bsize` counts every byte consumed from the end of the signature.
  - So when a `{` is met, the slice starts one byte after the first byte
    that follows the signature, and ends one byte past the matching `}`
    (`Scanner.ExtractExample`). When no `{` is met, `bstart` stays 0 and
    the slice is everything after the signature.
- The slice runs past the end of the buffer in two cases
  (`Scanner.BodyFitsMeaning`). In both, a `{` was met at depth 0 and the
  scan consumed the whole rest of the buffer.
  - The matching `}` is the last byte of the buffer
    (`Scanner.ExtractAtEndExample`). A file that ends right after its last
    function is such a case, and so is a file of a single definition.
  - The `{` is never closed, for example because a `{` inside a string
    literal is counted (`Scanner.UnclosedExample`).
  The Go code then reads the byte past `len` out of the slice's capacity,
  or panics. The model does not go past the end: the precondition
  `BodyDefined` excludes both cases.
- There is no call-pattern matching and no list of suppressed names. An edge
  `fn -> k` exists whenever the text `k` occurs in the body of `fn`. This
  includes `k == fn`, and a name that is only part of a longer identifier.
- The picture has one level: the root and the row of its direct callees.
  `createChildrenGraph` is not recursive.

## Model

| member | source | states |
|---|---|---|
| GoStrings.Index | ca.go:329 | `strings.Index`: -1 exactly when `sub` occurs nowhere; otherwise an offset where `sub` occurs, with no occurrence before it; 0 for an empty `sub` |
| GoStrings.Contains | ca.go:203 | `strings.Contains` is true exactly when `sub` occurs at some offset |
| GoStrings.Trim | ca.go:370 | `strings.Trim` result is empty or starts and ends with a byte outside the cut set, and holds only bytes of the input |
| GoStrings.TrimExact | ca.go:370 | any split of a string into a cut-set prefix, a middle that starts and ends outside the cut set, and a cut-set suffix is the one `Trim` makes |
| GoStrings.TrimSpace | ca.go:370 | `strings.TrimSpace` result neither starts nor ends with ASCII white space |
| GoStrings.Replace | ca.go:370 | `strings.Replace(s, old, new, -1)` for single bytes keeps the length, replaces a byte exactly when it equals `old`, and leaves no `old` when `old != new` |
| GoStrings.ContainsByte | ca.go:379 | containing a one-byte string is the same as containing that byte |
| GoStrings.IndexOfByte | ca.go:380 | the first occurrence of a one-byte string is the first position of that byte, and the prefix before it does not hold the byte |
| Scanner.SpaceOut | ca.go:370 | the two `Replace` calls keep the length, leave no newline and no tab, and change exactly the newlines and tabs into spaces |
| Scanner.Normalize | ca.go:370 | `fstr` holds no newline and no tab, and neither starts nor ends with white space |
| Scanner.NormalizeClean | ca.go:370 | a string with no newline or tab that neither starts nor ends with white space is its own normalisation |
| Scanner.NormalizeIdempotent | ca.go:370 | normalising twice gives the same as normalising once |
| Scanner.TrimSurrounded | ca.go:370 | trimming ignores any cut-set bytes added at either end |
| Scanner.TrimBeforeSpaceOut | ca.go:370 | trimming white-space bytes before the replacements and the final `TrimSpace` has no effect on the result |
| Scanner.NormalizeIsTrimSpaceOfSpaceOut | ca.go:370 | the three leading trims are redundant: `fstr` is the source with newlines and tabs made spaces, then trimmed of white space |
| Scanner.IsDefinition | ca.go:374-403 | the definition of the accept/reject decision, with no contract of its own; `DefinitionNeedsTypeOrVoid`, `FirstParamDecides` and the examples below characterise it |
| Scanner.FirstParam | ca.go:380-381 | `strings.Split(params, ",")[0]` is the prefix of `params` that ends just before a comma and holds no comma |
| Scanner.DefinitionNeedsTypeOrVoid | ca.go:374-403 | an accepted match is not a control keyword, and its parameter text contains `void` or a space |
| Scanner.FirstParamDecides | ca.go:379-388 | for a non-keyword with a comma and no `void`, the match is accepted exactly when a space comes before the first comma |
| Scanner.VoidExamples | ca.go:378-402 | `void` anywhere in the parameters, even inside `avoid`, accepts the match |
| Scanner.KeywordExample | ca.go:374 | `while (void)` is rejected |
| Scanner.CommaTypedExample | ca.go:379-387 | `(int a, b)` is accepted: the first parameter holds a space |
| Scanner.CommaUntypedExample | ca.go:379-383 | `(a, int b)` is rejected: a space after the first comma does not count |
| Scanner.SingleParamExamples | ca.go:389-396 | without a comma, `(T)` is rejected and `(T x)` accepted |
| Scanner.Scan | ca.go:336-349 | the definition of the byte loop, continued from a given state, with no contract of its own; `ScanMeaning` characterises it |
| Scanner.BodyExtent | ca.go:332-349 | the definition of `bstart` and `bsize` after the loop, with no contract of its own; `BodyExtentMeaning` characterises it |
| Scanner.ScanMeaning | ca.go:336-349 | from any point of the loop where `brace_count` is the number of `{` minus the number of `}` consumed: the loop stops at the first `}` that brings the depth to 0, or at the end; `bstart` ends as 1 exactly when it was 1 or a `{` is met at depth 0 |
| Scanner.BodyExtentMeaning | ca.go:332-349 | `bsize` is the length up to and including the first `}` that brings the depth back to 0, or the whole remainder when there is none; `bstart` is 1 exactly when a `{` is met at depth 0 before that, and 0 otherwise |
| Scanner.After | ca.go:329-330 | the scan starts right after the first occurrence of the signature, or at `len(figure)-1` when there is none |
| Scanner.BodyFitsMeaning | ca.go:350 | the slice `body[bstart:bstart+bsize]` stays inside the body exactly unless a `{` opened the scan and the scan ran to the last byte |
| Scanner.ScanBody | ca.go:332-349 | the byte loop, with invariant `brace_count == #'{' - #'}'` over the bytes consumed, returns the `bstart` and `bsize` that `BodyExtentMeaning` characterises |
| Scanner.FuncBody | ca.go:328-352 | the definition of the bytes `getFuncBody` returns, with no contract of its own; `GetFuncBody` computes it, and `BodyExtentMeaning` with `After` says what it is |
| Scanner.GetFuncBody | ca.go:328-352 | returns `body[bstart:bstart+bsize]`, where `body` begins after the first occurrence of `figure` |
| Scanner.ExtractExample | ca.go:328-352 | for `f(){{}}x` the body is `{}}x`: it starts one byte after the first `{` and ends one byte past the matching `}` |
| Scanner.ExtractAtEndExample | ca.go:350 | for `f(){}` the slice would run one byte past the end of the buffer |
| Scanner.UnclosedExample | ca.go:336-350 | a body whose `{` at depth 0 is never closed, here because of a `{` inside a string literal, also makes the slice run past its end |
| CallGraph.NewFunc | ca.go:97-102 | the definition of the entry `addNewFunc` creates, with no contract of its own; `AddFunc` and `IngestFirstWins` say where it is stored |
| CallGraph.AddFunc | ca.go:93-103 | registering adds exactly the key `name`, leaves every existing entry unchanged, and stores the new entry only when the name was free |
| CallGraph.AddFuncWellFormed | ca.go:93-103 | registration keeps well-formedness: entries stored under their own names, all edges between registered names, `called` the inverse of `calling` |
| CallGraph.Step | ca.go:374-403 | the definition of one pass of the loop, with no contract of its own: register the match when the filter accepts it |
| CallGraph.Ingest | ca.go:373-405 | the definition of the registry after the loop, with no contract of its own; `IngestKeys`, `IngestKeeps`, `IngestFirstWins`, `IngestWellFormed` and `IngestNoEdges` characterise it |
| CallGraph.Accepted | ca.go:373-405 | the definition of the set of names the filter lets through, with no contract of its own; `IngestKeys` relates it to the registry |
| CallGraph.IngestKeys | ca.go:373-405 | after the loop the registry's keys are the old keys plus exactly the names of the accepted matches |
| CallGraph.IngestKeeps | ca.go:373-405 | the loop never replaces an entry that was already registered |
| CallGraph.IngestFirstWins | ca.go:373-405 | a new name gets the entry of the first accepted match carrying it |
| CallGraph.IngestWellFormed | ca.go:373-405 | the loop keeps the registry well formed |
| CallGraph.IngestNoEdges | ca.go:373-405 | the loop adds no edge |
| CallGraph.Edges | ca.go:200-209 | the definition of the pairs the nested loops turn into edges, with no contract of its own; `CallTreeMeaning` and `CallTreeFromNoEdges` characterise the result |
| CallGraph.Callees | ca.go:204 | the definition of the edge targets out of `n`, with no contract of its own |
| CallGraph.Callers | ca.go:205 | the definition of the edge sources into `n`, with no contract of its own |
| CallGraph.AddEdges | ca.go:203-205 | inserting edges in both directions keeps the keys; `CallTreeMeaning` characterises the entries |
| CallGraph.CallTree | ca.go:200-209 | the definition of the registry after `buildCallTree`, with no contract of its own; `Registry.BuildCallTree` computes it, and `CallTreeMeaning`, `CallTreeFromNoEdges`, `CallTreeWellFormed` and `CallTreeIdempotent` characterise it |
| CallGraph.CallTreeMeaning | ca.go:200-209 | `buildCallTree` keeps the keys, names, parameters and bodies; `b` is in `calling(a)` exactly when it was before or `a` calls `b`; `a` is in `called(b)` exactly when it was before or `a` calls `b` |
| CallGraph.CallTreeFromNoEdges | ca.go:200-209 | from a registry without edges, `k` is in `calling(fn)` exactly when `k` is registered and occurs in the body of `fn`, and `fn` is in `called(k)` exactly then |
| CallGraph.CallTreeWellFormed | ca.go:200-209 | `buildCallTree` keeps the registry well formed |
| CallGraph.CallTreeIdempotent | ca.go:200-209 | running `buildCallTree` a second time changes nothing |
| CallGraph.Roots | ca.go:274-280 | the definition of the root set, with no contract of its own; `Registry.RootCandidates` computes it, and `RootsAfterBuild` characterises it |
| CallGraph.RootsAfterBuild | ca.go:274-280 | after registration and `buildCallTree`, the roots are exactly the functions whose body contains a registered name |
| CallGraph.Registry.constructor | ca.go:87 | the registry starts empty and well formed |
| CallGraph.Registry.AddNewFunc | ca.go:93-111 | a taken name returns `Already exist: name` and leaves the registry unchanged; a free name returns no error and adds exactly that entry; well-formedness is kept |
| CallGraph.Registry.GetFuncList | ca.go:370-405 | normalises the source and leaves the registry as the registration loop over the matches defines it; well-formedness is kept |
| CallGraph.Registry.BuildCallTree | ca.go:200-209 | for every visiting order of the two nested map loops, the new registry is the call tree of the old one; well-formedness is kept |
| CallGraph.Registry.RootCandidates | ca.go:274-280 | the listed names are exactly the roots, each listed once |
| Layout.Frame | ca.go:172-188 | `w = len(name)*pix`, `h = eh`, `umpx = dmpx` the middle of the box rounded down, `umpy = y`, `dmpy = y + eh`, `tx = x + w - w/2`, `ty = y + eh - pix`, `chsw = umpx - chlen/2`, `chsh = dmpy + deltah + eh` |
| Layout.Span | ca.go:183-186 | the width of a list of names is at least `deltaw` per name |
| Layout.SetSpan | ca.go:183-186 | the definition of `chlen` over a set of names, with no contract of its own; `SetSpanRemove` and `SpanOfEnumeration` characterise it, and `CallingSpan` computes it |
| Layout.SetSpanRemove | ca.go:183-186 | the `chlen` sum does not depend on the order of summation: any callee can be summed first |
| Layout.SpanOfEnumeration | ca.go:183-186 | summing along any enumeration of a set of names gives that set's `chlen` |
| Layout.CallingSpan | ca.go:183-186 | the `chlen` loop, for every map order, computes the sum of `len(k)*pix + deltaw` over the callees |
| Layout.ChildrenAdjacent | ca.go:124-136 | consecutive child boxes are exactly `deltaw` apart |
| Layout.ChildrenApart | ca.go:124-136 | a later child starts at least `deltaw` after an earlier one ends, so boxes never overlap |
| Layout.RowExtent | ca.go:119-136 | the row, one gap included, ends exactly the summed widths of `order` (its `chlen`) after `chsw` |
| Layout.RowKeys | ca.go:118-135 | a finished row that holds only callees holds every callee |
| Layout.ChildAt | ca.go:122-143 | the definition of the box of the `i`-th child in `order`, with no contract of its own; `ChildrenAdjacent`, `ChildrenApart` and `RowExtent` characterise the row, and `PlaceChild` computes one box |
| Layout.PlaceChild | ca.go:122-143 | the box of child `i` sits at `y = chsh`, `x = chsw + sum over earlier children of (w + deltaw)`, with its own callees' `chlen` |
| Layout.CreateChildrenGraph | ca.go:113-146 | for any order of the callees, there is exactly one box per callee, and the `i`-th box in that order is the box at its place in the row |
| Layout.CreateFuncGraph | ca.go:170-198 | an unknown path gives no diagram; a registered one gives the root box at `(sw, sh)` with `chlen` over its callees, and its row of callee boxes |
| Layout.RowCentred | ca.go:183-191 | the row of callees starts at most `chlen/2` left of the root's down port and ends, one gap included, at most `(chlen+1)/2` right of it |

## Left out

- The `FetchFunction` regular expression (ca.go:89, 371-372) is Go's `regexp` library. Its matches on `fstr` are a parameter of `GetFuncList`, in left-to-right order; the full match text `v[0]` is not modelled because `addNewFunc` does not use it.
- File I/O, the directory walk (`fileParse`, `filepath.Walk`), `main` and pprof profiling: these are I/O with no logic to prove. `GetFuncList` takes the bytes of the file as a parameter.
- HTTP routing, template rendering, `drawGraph` and all SVG output. `createFuncGraph` returns the boxes instead of drawing them, and "No exit in global list" is the `None` result.
- `dumpFuncCall`, `dumpCallTree` and `dumpFuncList` only print.
- Go's random map iteration order is not modelled as such. The loops choose with `:|`, or take the order as a parameter (`order` in `CreateChildrenGraph` and `CreateFuncGraph`).
- `TrimSpace` removes only the ASCII white-space bytes space, `\t`, `\n`, `\v`, `\f` and `\r`. Go also removes Unicode white space, which is not modelled.
- Scanner.GetFuncBody: does not model the slice reading past `len` into the buffer's capacity. The precondition `BodyDefined` excludes the two cases where that happens: the matching `}` is the last byte (`ExtractAtEndExample`), or a `{` at depth 0 is never closed (`UnclosedExample`).
- CallGraph.Registry.GetFuncList: requires `IngestDefined`, so that no accepted match reaches that out-of-range slice. The error `addNewFunc` returns is dropped, as in the Go code.
- CallGraph.Registry.AddNewFunc: the unused parameter `funFigure` is left out.
- Pointer aliasing is not modelled. `CFunc` is a value, and `calling` and `called` are name sets. After `buildCallTree`, `fn.calling[k]` is the registry entry of `k`, so the model reads `funcs[k]` where the Go code follows the pointer.
- Layout.CreateChildrenGraph: returns the `children` map instead of writing it into `root`. The `fn == nil || len(fn.calling) == 0` early return is not modelled separately, because the loop over an empty `order` gives the same empty map that `CreateFuncGraph` uses. The loop body is the separate method `PlaceChild`.
- The `level` field, the global `level`, and the constants `gw`, `gh` and `ew` only feed drawing or are never read.
- Integers are unbounded. Go's `int` is 64 bits, and no realistic name length or callee count comes near overflow.
- Commented-out code (ca.go:105-108, 292-325, 408-417) is not part of the program.
