/**
 * The lexical part of ca.go: the normalisation of a source unit into one
 * line, the filter that decides which `FetchFunction` matches are function
 * definitions, and `getFuncBody`, the brace-counting extraction of a body.
 */
module Scanner {
  import opened GoStrings

  // ---------------------------------------------------------------------------
  // Normalisation (ca.go:370)
  // ---------------------------------------------------------------------------

  /** Every newline and tab of `s` turned into a space. */
  function SpaceOut(s: string): (r: string)
    ensures |r| == |s| && '\n' !in r && '\t' !in r
    ensures forall k :: 0 <= k < |s| ==> r[k] == (if s[k] == '\n' || s[k] == '\t' then ' ' else s[k])
  {
    var n := Replace(s, '\n', ' ');
    var r := Replace(n, '\t', ' ');
    assert forall k :: 0 <= k < |r| ==> r[k] != '\n';
    r
  }

  /**
   * The expression that turns the bytes of a source unit into `fstr`: trim
   * newlines, then tabs, then spaces from both ends, replace every newline and
   * every tab by a space, and trim white space from both ends.
   */
  function Normalize(src: string): (r: string)
    ensures '\n' !in r && '\t' !in r
    ensures r == [] || (r[0] !in ASCII_SPACE && r[|r| - 1] !in ASCII_SPACE)
  {
    TrimSpace(SpaceOut(Trim(Trim(Trim(src, {'\n'}), {'\t'}), {' '})))
  }

  /** A string that starts and ends with no byte of `cut` is its own trim. */
  lemma TrimTrimmed(s: string, cut: set<char>)
    requires s == [] || (s[0] !in cut && s[|s| - 1] !in cut)
    ensures Trim(s, cut) == s
  {
    TrimExact(s, cut, 0, |s|);
  }

  lemma SpaceOutClean(r: string)
    requires '\n' !in r && '\t' !in r
    ensures SpaceOut(r) == r
  {
    var spaced := SpaceOut(r);
    assert forall k :: 0 <= k < |r| ==> spaced[k] == r[k];
  }

  lemma NormalizeClean(r: string)
    requires '\n' !in r && '\t' !in r
    requires r == [] || (r[0] !in ASCII_SPACE && r[|r| - 1] !in ASCII_SPACE)
    ensures Normalize(r) == r
  {
    TrimTrimmed(r, {'\n'});
    var t1 := Trim(r, {'\n'});
    TrimTrimmed(t1, {'\t'});
    var t2 := Trim(t1, {'\t'});
    TrimTrimmed(t2, {' '});
    var t3 := Trim(t2, {' '});
    SpaceOutClean(t3);
    TrimTrimmed(t3, ASCII_SPACE);
  }

  /** Normalising a normalised string changes nothing. */
  lemma NormalizeIdempotent(src: string)
    ensures Normalize(Normalize(src)) == Normalize(src)
  {
    NormalizeClean(Normalize(src));
  }

  /** Trimming ignores any bytes of `cut` added in front of a string. */
  lemma TrimPrefixed(a: string, x: string, cut: set<char>)
    requires AllIn(a, cut)
    ensures Trim(a + x, cut) == Trim(x, cut)
  {
    var y := a + x;
    var lo := TrimStart(x, cut, 0);
    var hi := TrimStop(x, cut, lo, |x|);
    forall k | 0 <= k < |y| && !(|a| + lo <= k < |a| + hi) ensures y[k] in cut {
      if k < |a| {
        assert y[k] == a[k];
      } else {
        assert y[k] == x[k - |a|];
      }
    }
    if lo == hi {
      TrimExact(y, cut, |y|, |y|);
    } else {
      assert y[|a| + lo] == x[lo] && y[|a| + hi - 1] == x[hi - 1];
      TrimExact(y, cut, |a| + lo, |a| + hi);
      assert y[|a| + lo..|a| + hi] == x[lo..hi];
    }
  }

  /** Trimming ignores any bytes of `cut` added behind a string. */
  lemma TrimSuffixed(x: string, b: string, cut: set<char>)
    requires AllIn(b, cut)
    ensures Trim(x + b, cut) == Trim(x, cut)
  {
    var y := x + b;
    var lo := TrimStart(x, cut, 0);
    var hi := TrimStop(x, cut, lo, |x|);
    forall k | 0 <= k < |y| && !(lo <= k < hi) ensures y[k] in cut {
      if k < |x| {
        assert y[k] == x[k];
      } else {
        assert y[k] == b[k - |x|];
      }
    }
    if lo == hi {
      TrimExact(y, cut, |y|, |y|);
    } else {
      assert y[lo] == x[lo] && y[hi - 1] == x[hi - 1];
      TrimExact(y, cut, lo, hi);
      assert y[lo..hi] == x[lo..hi];
    }
  }

  /** Trimming ignores any bytes of `cut` added around a string. */
  lemma TrimSurrounded(a: string, x: string, b: string, cut: set<char>)
    requires AllIn(a, cut) && AllIn(b, cut)
    ensures Trim(a + x + b, cut) == Trim(x, cut)
  {
    TrimPrefixed(a, x + b, cut);
    TrimSuffixed(x, b, cut);
    assert a + x + b == a + (x + b);
  }

  lemma SpaceOutAppend(a: string, b: string)
    ensures SpaceOut(a + b) == SpaceOut(a) + SpaceOut(b)
  {
    var l, r := SpaceOut(a + b), SpaceOut(a) + SpaceOut(b);
    assert forall k :: 0 <= k < |l| ==> l[k] == r[k];
  }

  lemma SpaceOutWhite(a: string, cut: set<char>)
    requires cut <= ASCII_SPACE && AllIn(a, cut)
    ensures AllIn(SpaceOut(a), ASCII_SPACE)
  {
  }

  /** What `Trim` removes: a prefix and a suffix of bytes of `cut`. */
  lemma TrimSplit(s: string, cut: set<char>) returns (a: string, b: string)
    ensures s == a + Trim(s, cut) + b && AllIn(a, cut) && AllIn(b, cut)
  {
    var lo := TrimStart(s, cut, 0);
    var hi := TrimStop(s, cut, lo, |s|);
    a, b := s[..lo], s[hi..];
    assert s == a + s[lo..hi] + b;
  }

  /** Trimming a set of white-space bytes before `SpaceOut` and `TrimSpace` has no effect. */
  lemma TrimBeforeSpaceOut(s: string, cut: set<char>)
    requires cut <= ASCII_SPACE
    ensures TrimSpace(SpaceOut(Trim(s, cut))) == TrimSpace(SpaceOut(s))
  {
    var t := Trim(s, cut);
    var a, b := TrimSplit(s, cut);
    SpaceOutAppend(a + t, b);
    SpaceOutAppend(a, t);
    SpaceOutWhite(a, cut);
    SpaceOutWhite(b, cut);
    assert SpaceOut(s) == SpaceOut(a) + SpaceOut(t) + SpaceOut(b);
    TrimSurrounded(SpaceOut(a), SpaceOut(t), SpaceOut(b), ASCII_SPACE);
  }

  /**
   * The three leading trims of the normalisation are redundant: `fstr` is the
   * source with every newline and tab made a space, trimmed of white space.
   */
  lemma NormalizeIsTrimSpaceOfSpaceOut(src: string)
    ensures Normalize(src) == TrimSpace(SpaceOut(src))
  {
    var t1 := Trim(src, {'\n'});
    var t2 := Trim(t1, {'\t'});
    TrimBeforeSpaceOut(t2, {' '});
    TrimBeforeSpaceOut(t1, {'\t'});
    TrimBeforeSpaceOut(src, {'\n'});
  }

  // ---------------------------------------------------------------------------
  // Definition filter (ca.go:374-403)
  // ---------------------------------------------------------------------------

  /** The control-flow keywords whose `name (...) {` shape is not a definition. */
  const KEYWORDS: set<string> := {"if", "switch", "for", "while"}

  /** The parameter text before its first comma (`strings.Split(params, ",")[0]`). */
  function FirstParam(params: string): (r: string)
    requires Contains(params, ",")
    ensures |r| < |params| && params[|r|] == ','
    ensures r == params[..|r|] && ',' !in r
  {
    IndexOfByte(params, ',');
    params[..Index(params, ",")]
  }

  /**
   * Whether a match of `FetchFunction` with this name and parameter text is
   * registered as a function definition.
   */
  function IsDefinition(name: string, params: string): bool
  {
    if name in KEYWORDS then false
    else if Contains(params, "void") then true
    else if Contains(params, ",") then Contains(FirstParam(params), " ")
    else Contains(params, " ")
  }

  /** Accepted parameter text names `void` or has a space (a type and a name). */
  lemma DefinitionNeedsTypeOrVoid(name: string, params: string)
    requires IsDefinition(name, params)
    ensures name !in KEYWORDS
    ensures Contains(params, "void") || Contains(params, " ")
  {
    if !Contains(params, "void") && Contains(params, ",") {
      var j :| OccursAt(FirstParam(params), " ", j);
      assert OccursAt(params, " ", j);
    }
  }

  /** With a comma and no `void`, a space after the first comma does not help. */
  lemma FirstParamDecides(name: string, params: string)
    requires name !in KEYWORDS && !Contains(params, "void") && Contains(params, ",")
    ensures IsDefinition(name, params) <==> exists j :: 0 <= j < |FirstParam(params)| && params[j] == ' '
  {
    var f := FirstParam(params);
    if IsDefinition(name, params) {
      var j :| OccursAt(f, " ", j);
      assert f[j] == ' ';
    } else {
      forall j | 0 <= j < |f| ensures params[j] != ' ' {
        assert !OccursAt(f, " ", j);
        assert f[j..j + 1] == [f[j]];
      }
    }
  }

  /** A `void` anywhere in the parameters, even inside a longer word, accepts the match. */
  lemma VoidExamples()
    ensures IsDefinition("main", "(void)")
    ensures IsDefinition("f", "(avoid)")
  {
    assert OccursAt("(void)", "void", 1);
    assert OccursAt("(avoid)", "void", 2);
  }

  /** The control keywords are rejected whatever follows them. */
  lemma KeywordExample()
    ensures !IsDefinition("while", "(void)")
  {
  }

  /** With a comma, only the text before the first comma is tested for a space. */
  lemma CommaTypedExample()
    ensures IsDefinition("f", "(int a, b)")
  {
    ContainsHead("(int a, b)", "void");
    assert OccursAt("(int a, b)", ",", 6);
    assert "(int a, b)"[..6] == "(int a" && ',' !in "(int a";
    IndexOfFirst("(int a, b)", ",", 6);
    assert OccursAt("(int a", " ", 4);
  }

  /** A space after the first comma does not make a definition. */
  lemma CommaUntypedExample()
    ensures !IsDefinition("f", "(a, int b)")
  {
    ContainsHead("(a, int b)", "void");
    assert "(a, int b)"[2..3] == ",";
    assert "(a, int b)"[0] == '(' && "(a, int b)"[1] == 'a';
    IndexOfFirst("(a, int b)", ",", 2);
    assert "(a, int b)"[..2] == "(a";
    ContainsByte("(a", ' ');
  }

  /** Without a comma, a single parameter needs a space: `(T)` is rejected, `(T x)` accepted. */
  lemma SingleParamExamples()
    ensures !IsDefinition("f", "(T)")
    ensures IsDefinition("f", "(T x)")
  {
    ContainsHead("(T)", "void");
    ContainsHead("(T x)", "void");
    ContainsByte("(T)", ',');
    ContainsByte("(T x)", ',');
    ContainsByte("(T)", ' ');
    assert OccursAt("(T x)", " ", 2);
  }

  // ---------------------------------------------------------------------------
  // Body extraction: getFuncBody (ca.go:328-352)
  // ---------------------------------------------------------------------------

  /** Brace depth of a prefix: the number of `{` minus the number of `}`. */
  function Depth(s: string): int
  {
    (multiset(s)['{'] as int) - multiset(s)['}']
  }

  /** The `n`-byte prefix of `body` ends with a `}` that brings the depth back to 0. */
  predicate ClosesAt(body: string, n: int)
  {
    1 <= n <= |body| && body[n - 1] == '}' && Depth(body[..n]) == 0
  }

  /** `body[k]` is a `{` met at depth 0. */
  predicate OpensAt(body: string, k: int)
  {
    0 <= k < |body| && body[k] == '{' && Depth(body[..k]) == 0
  }

  /** The two results of the scan: `bstart` and `bsize`. */
  datatype Extent = Extent(start: nat, size: nat)

  /**
   * The byte loop of `getFuncBody`, continued from `i` bytes consumed, depth
   * `count` and `bstart` equal to `start`.
   */
  function Scan(body: string, i: nat, count: int, start: nat): Extent
    requires i <= |body|
    decreases |body| - i
  {
    if i == |body| then Extent(start, i)
    else if body[i] == '{' then Scan(body, i + 1, count + 1, if count == 0 then 1 else start)
    else if body[i] == '}' then
      if count - 1 == 0 then Extent(start, i + 1) else Scan(body, i + 1, count - 1, start)
    else Scan(body, i + 1, count, start)
  }

  /** `bstart` and `bsize` after the loop. */
  function BodyExtent(body: string): Extent
  {
    Scan(body, 0, 0, 0)
  }

  lemma DepthStep(body: string, i: nat)
    requires i < |body|
    ensures Depth(body[..i + 1]) == Depth(body[..i]) + (if body[i] == '{' then 1 else if body[i] == '}' then -1 else 0)
  {
    assert body[..i + 1] == body[..i] + [body[i]];
  }

  lemma {:induction false} ScanMeaning(body: string, i: nat, count: int, start: nat)
    requires i <= |body| && count == Depth(body[..i]) && start <= 1
    ensures var e := Scan(body, i, count, start);
      && i <= e.size <= |body| && e.start <= 1
      && (e.size == |body| || ClosesAt(body, e.size))
      && (forall n :: i < n < e.size ==> !ClosesAt(body, n))
      && (e.start == 1 <==> start == 1 || exists k :: i <= k < e.size && OpensAt(body, k))
    decreases |body| - i
  {
    if i < |body| {
      DepthStep(body, i);
      var c := body[i];
      if c == '{' {
        ScanMeaning(body, i + 1, count + 1, if count == 0 then 1 else start);
        if count == 0 {
          assert OpensAt(body, i);
        }
      } else if c == '}' && count - 1 == 0 {
        assert ClosesAt(body, i + 1);
      } else {
        ScanMeaning(body, i + 1, count + (if c == '}' then -1 else 0), start);
        assert !OpensAt(body, i);
      }
    }
  }

  /**
   * The loop consumes bytes up to and including the first `}` that brings the
   * depth back to 0, or all of `body` when there is none; `bstart` is 1
   * exactly when a `{` was met at depth 0 on the way, and 0 otherwise.
   */
  lemma BodyExtentMeaning(body: string)
    ensures var e := BodyExtent(body);
      && e.size <= |body| && e.start <= 1
      && (e.size == |body| || ClosesAt(body, e.size))
      && (forall n :: 0 < n < e.size ==> !ClosesAt(body, n))
      && (e.start == 1 <==> exists k :: 0 <= k < e.size && OpensAt(body, k))
  {
    assert body[..0] == [];
    ScanMeaning(body, 0, 0, 0);
  }

  /** Where the scan begins: just past the first occurrence of `figure`, or at `len(figure)-1` when there is none. */
  function After(buf: string, figure: string): (r: string)
    requires |figure| <= |buf| + 1
    ensures forall i :: OccursAt(buf, figure, i) && (forall j :: 0 <= j < i ==> !OccursAt(buf, figure, j))
                        ==> r == buf[i + |figure|..]
    ensures !Contains(buf, figure) ==> |figure| >= 1 && r == buf[|figure| - 1..]
  {
    var index := Index(buf, figure);
    buf[index + |figure|..]
  }

  /** The slice `body[bstart : bstart+bsize]` stays inside the body. */
  predicate BodyFits(body: string)
  {
    BodyExtent(body).start + BodyExtent(body).size <= |body|
  }

  /** The slice stays inside exactly unless a `{` opened the scan and it ran to the last byte. */
  lemma BodyFitsMeaning(body: string)
    ensures !BodyFits(body) <==> BodyExtent(body).start == 1 && BodyExtent(body).size == |body|
  {
    BodyExtentMeaning(body);
  }

  /** `getFuncBody` neither panics nor reads past the end of the buffer. */
  predicate BodyDefined(buf: string, figure: string)
  {
    |figure| <= |buf| + 1 && BodyFits(After(buf, figure))
  }

  /** The bytes `getFuncBody(buf, figure)` returns. */
  function FuncBody(buf: string, figure: string): string
    requires BodyDefined(buf, figure)
  {
    var body := After(buf, figure);
    var e := BodyExtent(body);
    body[e.start..e.start + e.size]
  }

  /**
   * The byte loop of `getFuncBody`: it keeps the brace depth of the bytes
   * consumed and stops after the `}` that brings it back to 0.
   */
  method ScanBody(body: string) returns (bstart: nat, bsize: nat)
    ensures Extent(bstart, bsize) == BodyExtent(body)
  {
    var braceCount := 0;
    bsize := 0;
    bstart := 0;
    while bsize < |body|
      invariant bsize <= |body|
      invariant braceCount == Depth(body[..bsize])
      invariant Scan(body, bsize, braceCount, bstart) == BodyExtent(body)
    {
      var c := body[bsize];
      DepthStep(body, bsize);
      bsize := bsize + 1;
      if c == '{' {
        if braceCount == 0 {
          bstart := 1;
        }
        braceCount := braceCount + 1;
      } else if c == '}' {
        braceCount := braceCount - 1;
        if braceCount == 0 {
          break;
        }
      }
    }
  }

  /** `getFuncBody`: find `figure`, then count braces until the body closes. */
  method GetFuncBody(buf: string, figure: string) returns (r: string)
    requires BodyDefined(buf, figure)
    ensures r == FuncBody(buf, figure)
  {
    var body := After(buf, figure);
    var bstart, bsize := ScanBody(body);
    r := body[bstart..bstart + bsize];
  }

  /**
   * A body closed before the end of the buffer: the slice starts one byte
   * after the opening brace and ends one byte past the closing brace.
   */
  lemma ExtractExample()
    ensures BodyDefined("f(){{}}x", "f()")
    ensures FuncBody("f(){{}}x", "f()") == "{}}x"
  {
    assert After("f(){{}}x", "f()") == "{{}}x";
    assert BodyExtent("{{}}x") == Extent(1, 4);
  }

  /** A body whose closing brace is the last byte of the buffer makes the slice run past its end. */
  lemma ExtractAtEndExample()
    ensures !BodyDefined("f(){}", "f()")
  {
    assert After("f(){}", "f()") == "{}";
    assert BodyExtent("{}") == Extent(1, 2);
  }

  /**
   * A body whose `{` at depth 0 is never closed, here because a `{` inside a
   * string literal is counted, also makes the slice run past its end.
   */
  lemma UnclosedExample()
    ensures !BodyFits(" { \"{\" }")
  {
    assert BodyExtent(" { \"{\" }") == Extent(1, 8);
  }
}
