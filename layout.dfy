/**
 * The box geometry of the call-graph picture of ca.go: the root box that
 * `createFuncGraph` places for the requested function, the `chlen` sums over
 * a set of callees, and the single row of callee boxes that
 * `createChildrenGraph` lays out left to right under the root.
 */
module Layout {
  import opened CallGraph

  /** `constGraph.pix`: the width of one character, in pixels. */
  const PIX := 5
  /** `constGraph.eh`: the height of a box. */
  const EH := 15
  /** `constGraph.sw` and `constGraph.sh`: where the root box is placed. */
  const SW := 1000
  const SH := 40
  /** `constGraph.deltaw`: the horizontal gap between neighbouring boxes. */
  const DELTA_W := 20
  /** `constGraph.deltah`: part of the vertical distance from a box to its children. */
  const DELTA_H := 40

  datatype Option<T> = None | Some(value: T)

  /**
   * A `CFuncGraph` without its `children` and `level` fields: the corner
   * `(x, y)`, the label anchor `(tx, ty)`, the size, the up and down ports
   * and the point where the row of its children starts.
   */
  datatype Box = Box(name: string, x: int, y: int, tx: int, ty: int, w: int, h: int,
                     umpx: int, umpy: int, dmpx: int, dmpy: int, chsw: int, chsh: int)

  /** The root box and the boxes of its callees, keyed by name. */
  datatype Diagram = Diagram(root: Box, children: map<string, Box>)

  /**
   * The box for `name` with corner `(x, y)`, whose callees take `chlen`
   * pixels side by side. Every quantity is non-negative where the program
   * divides, so Go's truncating `/` and Dafny's `/` agree.
   */
  function Frame(name: string, x: int, y: int, chlen: nat): (b: Box)
    ensures b.name == name && b.x == x && b.y == y && b.w == |name| * PIX && b.h == EH
    ensures b.umpx == b.dmpx && b.w - 1 <= 2 * (b.umpx - x) <= b.w
    ensures b.umpy == y && b.dmpy == y + b.h
    ensures b.w <= 2 * (b.tx - x) <= b.w + 1 && b.ty == y + b.h - PIX
    ensures chlen - 1 <= 2 * (b.umpx - b.chsw) <= chlen
    ensures b.chsh == b.dmpy + DELTA_H + EH
  {
    var w := |name| * PIX;
    var umpx := x + w / 2;
    var dmpy := y + EH;
    Box(name, x, y, x + |name| * PIX - (|name| * PIX) / 2, y + EH - PIX, w, EH,
        umpx, y, x + w / 2, dmpy, umpx - chlen / 2, dmpy + DELTA_H + EH)
  }

  // ---------------------------------------------------------------------------
  // chlen: the width a set of callees takes (ca.go:139-142, 182-185)
  // ---------------------------------------------------------------------------

  /** The width one callee adds to `chlen`: its box and one gap. */
  function Width(k: string): nat
  {
    |k| * PIX + DELTA_W
  }

  /** The total width of the names of `ks`, in this order. */
  function Span(ks: seq<string>): (r: nat)
    ensures r >= DELTA_W * |ks|
  {
    if ks == [] then 0 else Span(ks[..|ks| - 1]) + Width(ks[|ks| - 1])
  }

  ghost function Pick(s: set<string>): string
    requires s != {}
  {
    var k :| k in s; k
  }

  /** The total width of the names of `s`, summed in an arbitrary order. */
  ghost function SetSpan(s: set<string>): nat
  {
    if s == {} then 0 else Width(Pick(s)) + SetSpan(s - {Pick(s)})
  }

  /** Any element can be summed first: the total does not depend on the order of summation. */
  lemma SetSpanRemove(s: set<string>, k: string)
    requires k in s
    ensures SetSpan(s) == Width(k) + SetSpan(s - {k})
  {
    var p := Pick(s);
    if p != k {
      SetSpanRemove(s - {p}, k);
      SetSpanRemove(s - {k}, p);
      assert s - {p} - {k} == s - {k} - {p};
    }
  }

  /** `ks` lists the elements of `s`, each once. */
  predicate Enumerates(ks: seq<string>, s: set<string>)
  {
    (forall i, j :: 0 <= i < j < |ks| ==> ks[i] != ks[j]) && (forall k :: k in ks ==> k in s) && (forall k :: k in s ==> k in ks)
  }

  /** Summing along any enumeration of a set gives the set's total. */
  lemma {:induction false} SpanOfEnumeration(ks: seq<string>, s: set<string>)
    requires Enumerates(ks, s)
    ensures Span(ks) == SetSpan(s)
    decreases |ks|
  {
    if ks == [] {
      assert s == {};
    } else {
      var last := ks[|ks| - 1];
      var front := ks[..|ks| - 1];
      assert Enumerates(front, s - {last}) by {
        forall k | k in front ensures k in s - {last} {
          var i :| 0 <= i < |front| && front[i] == k;
          assert ks[i] == k;
        }
        forall k | k in s - {last} ensures k in front {
          var i :| 0 <= i < |ks| && ks[i] == k;
          assert i != |ks| - 1;
          assert front[i] == k;
        }
      }
      SpanOfEnumeration(front, s - {last});
      SetSpanRemove(s, last);
    }
  }

  /** The `chlen` loop: the widths of the callees in `calling`, in map order. */
  method CallingSpan(calling: set<string>) returns (chlen: nat)
    ensures chlen == SetSpan(calling)
  {
    chlen := 0;
    var todo := calling;
    while todo != {}
      invariant todo <= calling
      invariant chlen + SetSpan(todo) == SetSpan(calling)
      decreases |todo|
    {
      var k :| k in todo;
      SetSpanRemove(todo, k);
      chlen := chlen + |k| * PIX + DELTA_W;
      todo := todo - {k};
    }
  }

  // ---------------------------------------------------------------------------
  // The row of children: createChildrenGraph (ca.go:113-146)
  // ---------------------------------------------------------------------------

  /** The box of the `i`-th child in `order`: placed after the widths of the children before it. */
  ghost function ChildAt(root: Box, funcs: Funcs, order: seq<string>, i: int): Box
    requires 0 <= i < |order| && order[i] in funcs
  {
    Frame(order[i], root.chsw + Span(order[..i]), root.chsh, SetSpan(funcs[order[i]].calling))
  }

  lemma SpanStep(ks: seq<string>, i: int)
    requires 0 <= i < |ks|
    ensures Span(ks[..i + 1]) == Span(ks[..i]) + Width(ks[i])
  {
    assert ks[..i + 1][..i] == ks[..i];
  }

  /** Prefix widths only grow. */
  lemma {:induction false} SpanMonotone(ks: seq<string>, i: int, j: int)
    requires 0 <= i <= j <= |ks|
    ensures Span(ks[..i]) + DELTA_W * (j - i) <= Span(ks[..j])
    decreases j - i
  {
    if i < j {
      SpanMonotone(ks, i, j - 1);
      SpanStep(ks, j - 1);
    }
  }

  /** Neighbouring children are exactly `deltaw` apart. */
  lemma ChildrenAdjacent(root: Box, funcs: Funcs, order: seq<string>, i: int)
    requires 0 <= i && i + 1 < |order| && order[i] in funcs && order[i + 1] in funcs
    ensures ChildAt(root, funcs, order, i + 1).x
            == ChildAt(root, funcs, order, i).x + ChildAt(root, funcs, order, i).w + DELTA_W
  {
    SpanStep(order, i);
  }

  /** Children never overlap: a later child starts at least `deltaw` after an earlier one ends. */
  lemma ChildrenApart(root: Box, funcs: Funcs, order: seq<string>, i: int, j: int)
    requires 0 <= i < j < |order| && order[i] in funcs && order[j] in funcs
    ensures ChildAt(root, funcs, order, i).x + ChildAt(root, funcs, order, i).w + DELTA_W
            <= ChildAt(root, funcs, order, j).x
  {
    SpanStep(order, i);
    SpanMonotone(order, i + 1, j);
  }

  /** The row ends, one gap included, exactly `Span(order)` pixels after it starts. */
  lemma RowExtent(root: Box, funcs: Funcs, order: seq<string>)
    requires |order| > 0 && order[|order| - 1] in funcs
    ensures var last := ChildAt(root, funcs, order, |order| - 1);
            last.x + last.w + DELTA_W == root.chsw + Span(order)
  {
    SpanStep(order, |order| - 1);
    assert order[..|order|] == order;
  }

  /** The first `i` children of `order` are in `children`, each at its place in the row. */
  ghost predicate RowBuilt(children: map<string, Box>, root: Box, funcs: Funcs, order: seq<string>, i: int)
  {
    && 0 <= i <= |order|
    && (forall j {:trigger order[j]} :: 0 <= j < i ==> order[j] in funcs && order[j] in children && children[order[j]] == ChildAt(root, funcs, order, j))
  }

  /** Adding the box of child `i` extends the row by one. */
  lemma RowBuiltStep(children: map<string, Box>, root: Box, funcs: Funcs, order: seq<string>, i: int, calling: set<string>)
    requires RowBuilt(children, root, funcs, order, i) && i < |order|
    requires Enumerates(order, calling) && calling <= funcs.Keys
    ensures RowBuilt(children[order[i] := ChildAt(root, funcs, order, i)], root, funcs, order, i + 1)
  {
  }

  /** A finished row has a box for every callee and for nothing else. */
  lemma RowKeys(children: map<string, Box>, root: Box, funcs: Funcs, order: seq<string>, calling: set<string>)
    requires RowBuilt(children, root, funcs, order, |order|)
    requires Enumerates(order, calling) && children.Keys <= calling
    ensures children.Keys == calling
  {
    forall k | k in calling ensures k in children {
      var j :| 0 <= j < |order| && order[j] == k;
    }
  }

  /** One pass of the loop of `createChildrenGraph`: the box of child `i`, at `(sw, sh)`. */
  method PlaceChild(root: Box, funcs: Funcs, order: seq<string>, i: int, sw: int, sh: int) returns (graph: Box)
    requires 0 <= i < |order| && order[i] in funcs
    requires sw == root.chsw + Span(order[..i]) && sh == root.chsh
    ensures graph == ChildAt(root, funcs, order, i)
    ensures sw + graph.w + DELTA_W == root.chsw + Span(order[..i + 1])
  {
    var k := order[i];
    var chlen := CallingSpan(funcs[k].calling);
    graph := Frame(k, sw, sh, chlen);
    SpanStep(order, i);
  }

  /**
   * `createChildrenGraph`: one box per callee of `fn`, in the order `order`
   * in which the map is visited, each placed after the previous one.
   */
  method CreateChildrenGraph(root: Box, fn: CFunc, funcs: Funcs, order: seq<string>) returns (children: map<string, Box>)
    requires Enumerates(order, fn.calling) && fn.calling <= funcs.Keys
    ensures children.Keys == fn.calling
    ensures forall i :: 0 <= i < |order| ==> order[i] in funcs && children[order[i]] == ChildAt(root, funcs, order, i)
  {
    children := map[];
    var sw := root.chsw;
    var sh := root.chsh;
    for i := 0 to |order|
      invariant children.Keys <= fn.calling
      invariant sw == root.chsw + Span(order[..i])
      invariant RowBuilt(children, root, funcs, order, i)
    {
      var k := order[i];
      var graph := PlaceChild(root, funcs, order, i, sw, sh);
      RowBuiltStep(children, root, funcs, order, i, fn.calling);
      children := children[k := graph];
      sw := sw + graph.w + DELTA_W;
    }
    RowKeys(children, root, funcs, order, fn.calling);
  }

  // ---------------------------------------------------------------------------
  // The root box: createFuncGraph (ca.go:170-196)
  // ---------------------------------------------------------------------------

  /**
   * `createFuncGraph` for the path `name`: nothing when no such function is
   * registered, otherwise the root box at `(sw, sh)` and, when it calls
   * something, the row of its callees in the order `order`.
   */
  method CreateFuncGraph(funcs: Funcs, name: string, order: seq<string>) returns (d: Option<Diagram>)
    requires WellFormed(funcs)
    requires name in funcs ==> Enumerates(order, funcs[name].calling)
    ensures d.None? <==> name !in funcs
    ensures name in funcs ==>
              && d.Some?
              && d.value.root == Frame(name, SW, SH, Span(order))
              && d.value.children.Keys == funcs[name].calling
              && forall i :: 0 <= i < |order| ==> order[i] in funcs && d.value.children[order[i]] == ChildAt(d.value.root, funcs, order, i)
  {
    if name !in funcs {
      return None;
    }
    var fn := funcs[name];
    assert EntryOk(funcs, name);
    var chlen := CallingSpan(fn.calling);
    SpanOfEnumeration(order, fn.calling);
    var root := Frame(fn.name, SW, SH, chlen);
    var children: map<string, Box> := map[];
    if |fn.calling| != 0 {
      children := CreateChildrenGraph(root, fn, funcs, order);
    }
    d := Some(Diagram(root, children));
  }

  /**
   * In a diagram, the row of callees is centred under the root's down port:
   * it starts at most half its width, rounded up, left of the port and ends,
   * gap included, at most half its width, rounded up, right of it.
   */
  lemma RowCentred(root: Box, funcs: Funcs, order: seq<string>, name: string)
    requires root == Frame(name, SW, SH, Span(order))
    requires |order| > 0 && order[|order| - 1] in funcs
    ensures var last := ChildAt(root, funcs, order, |order| - 1);
            && 2 * (root.dmpx - root.chsw) <= Span(order)
            && 2 * (last.x + last.w + DELTA_W - root.dmpx) <= Span(order) + 1
  {
    RowExtent(root, funcs, order);
  }
}
