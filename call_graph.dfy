/**
 * The global function list of ca.go (`CFuncList`): registration of the
 * definitions found in a source unit (`addNewFunc`, the loop of
 * `getFuncList`), the call relation computed by `buildCallTree`, and the
 * list of functions that `showFuncList` offers as roots of a call graph.
 */
module CallGraph {
  import opened GoStrings
  import opened Scanner

  /**
   * A registered function, `CFunc`. Its `calling` and `called` maps are keyed
   * by function name and point at registry entries, so they are modelled by
   * their key sets.
   */
  datatype CFunc = CFunc(name: string, params: string, body: string, calling: set<string>, called: set<string>)

  /** The two named groups of one `FetchFunction` match: `funcName` and `funcParams` (with its parentheses). */
  datatype Match = Match(name: string, params: string)

  /** The `error` that `addNewFunc` returns. */
  datatype Outcome = Ok | Failed(msg: string)

  type Funcs = map<string, CFunc>

  /** Entry `n` is stored under its own name and its edges end at registered functions. */
  predicate EntryOk(funcs: Funcs, n: string)
  {
    n in funcs && funcs[n].name == n && funcs[n].calling <= funcs.Keys && funcs[n].called <= funcs.Keys
  }

  /** `b` is in `calling` of `a` exactly when `a` is in `called` of `b`. */
  predicate EdgeOk(funcs: Funcs, a: string, b: string)
  {
    a in funcs && b in funcs && (b in funcs[a].calling <==> a in funcs[b].called)
  }

  /**
   * What the registry keeps true: every entry is stored under its own name,
   * every edge ends at a registered function, and `called` is the inverse
   * of `calling`.
   */
  predicate WellFormed(funcs: Funcs)
  {
    && (forall n {:trigger EntryOk(funcs, n)} :: n in funcs ==> EntryOk(funcs, n))
    && (forall a, b {:trigger EdgeOk(funcs, a, b)} :: a in funcs && b in funcs ==> EdgeOk(funcs, a, b))
  }

  /** No entry has an edge yet, as after `getFuncList` and before `buildCallTree`. */
  predicate NoEdges(funcs: Funcs)
  {
    forall n :: n in funcs ==> funcs[n].calling == {} && funcs[n].called == {}
  }

  // ---------------------------------------------------------------------------
  // Registration: addNewFunc (ca.go:93-111)
  // ---------------------------------------------------------------------------

  /** The entry `addNewFunc` creates: the body is cut from `buf` after `name + params`, and both maps are empty. */
  function NewFunc(buf: string, name: string, params: string): CFunc
    requires BodyDefined(buf, name + params)
  {
    CFunc(name, params, FuncBody(buf, name + params), {}, {})
  }

  /** `addNewFunc` does not panic: either the name is taken, or the body can be cut. */
  predicate AddDefined(funcs: Funcs, buf: string, name: string, params: string)
  {
    name in funcs || BodyDefined(buf, name + params)
  }

  /** The registry after `addNewFunc(buf, _, name, params)`: write-once, the first entry under a name stays. */
  function AddFunc(funcs: Funcs, buf: string, name: string, params: string): (r: Funcs)
    requires AddDefined(funcs, buf, name, params)
    ensures r.Keys == funcs.Keys + {name}
    ensures forall n :: n in funcs ==> r[n] == funcs[n]
    ensures name !in funcs ==> r[name] == NewFunc(buf, name, params)
  {
    if name in funcs then funcs else funcs[name := NewFunc(buf, name, params)]
  }

  /** Registration keeps the registry well formed. */
  lemma AddFuncWellFormed(funcs: Funcs, buf: string, name: string, params: string)
    requires AddDefined(funcs, buf, name, params) && WellFormed(funcs)
    ensures WellFormed(AddFunc(funcs, buf, name, params))
  {
    var r := AddFunc(funcs, buf, name, params);
    forall n | n in r ensures EntryOk(r, n) {
      if n in funcs {
        assert EntryOk(funcs, n);
      }
    }
    forall a, b | a in r && b in r ensures EdgeOk(r, a, b) {
      if a in funcs && b in funcs {
        assert EdgeOk(funcs, a, b);
      } else if a in funcs {
        assert EntryOk(funcs, a);
      } else if b in funcs {
        assert EntryOk(funcs, b);
      }
    }
  }

  // ---------------------------------------------------------------------------
  // The registration loop of getFuncList (ca.go:370-405)
  // ---------------------------------------------------------------------------

  /** The filter of the loop: the match is registered exactly when it looks like a definition. */
  predicate Accepts(m: Match)
  {
    IsDefinition(m.name, m.params)
  }

  /** One iteration of the loop on `fstr`. */
  function Step(funcs: Funcs, fstr: string, m: Match): Funcs
    requires !Accepts(m) || AddDefined(funcs, fstr, m.name, m.params)
  {
    if Accepts(m) then AddFunc(funcs, fstr, m.name, m.params) else funcs
  }

  /** No iteration of the loop over `ms` panics. */
  predicate IngestDefined(funcs: Funcs, fstr: string, ms: seq<Match>)
    decreases |ms|
  {
    ms == [] ||
    ((!Accepts(ms[0]) || AddDefined(funcs, fstr, ms[0].name, ms[0].params))
     && IngestDefined(Step(funcs, fstr, ms[0]), fstr, ms[1..]))
  }

  /** The registry after the loop over the matches `ms` of `fstr`. */
  function Ingest(funcs: Funcs, fstr: string, ms: seq<Match>): Funcs
    requires IngestDefined(funcs, fstr, ms)
    decreases |ms|
  {
    if ms == [] then funcs else Ingest(Step(funcs, fstr, ms[0]), fstr, ms[1..])
  }

  /** The names of the matches the filter lets through. */
  function Accepted(ms: seq<Match>): set<string>
  {
    set i | 0 <= i < |ms| && Accepts(ms[i]) :: ms[i].name
  }

  lemma AcceptedCons(ms: seq<Match>)
    requires ms != []
    ensures Accepted(ms) == (if Accepts(ms[0]) then {ms[0].name} else {}) + Accepted(ms[1..])
  {
    var rest := ms[1..];
    forall n | n in Accepted(ms) ensures n in (if Accepts(ms[0]) then {ms[0].name} else {}) + Accepted(rest) {
      var i :| 0 <= i < |ms| && Accepts(ms[i]) && ms[i].name == n;
      if i > 0 {
        assert rest[i - 1] == ms[i];
      }
    }
  }

  /** The loop registers exactly the accepted names, on top of what was there. */
  lemma {:induction false} IngestKeys(funcs: Funcs, fstr: string, ms: seq<Match>)
    requires IngestDefined(funcs, fstr, ms)
    ensures Ingest(funcs, fstr, ms).Keys == funcs.Keys + Accepted(ms)
    decreases |ms|
  {
    if ms != [] {
      IngestKeys(Step(funcs, fstr, ms[0]), fstr, ms[1..]);
      AcceptedCons(ms);
    } else {
      assert Accepted(ms) == {};
    }
  }

  /** An entry already registered is never replaced. */
  lemma {:induction false} IngestKeeps(funcs: Funcs, fstr: string, ms: seq<Match>, n: string)
    requires IngestDefined(funcs, fstr, ms) && n in funcs
    ensures n in Ingest(funcs, fstr, ms) && Ingest(funcs, fstr, ms)[n] == funcs[n]
    decreases |ms|
  {
    if ms != [] {
      IngestKeeps(Step(funcs, fstr, ms[0]), fstr, ms[1..], n);
    }
  }

  /** A new name gets the entry of the first accepted match that carries it. */
  lemma {:induction false} IngestFirstWins(funcs: Funcs, fstr: string, ms: seq<Match>, i: int)
    requires IngestDefined(funcs, fstr, ms)
    requires 0 <= i < |ms| && Accepts(ms[i]) && ms[i].name !in funcs
    requires forall j :: 0 <= j < i ==> !(Accepts(ms[j]) && ms[j].name == ms[i].name)
    ensures BodyDefined(fstr, ms[i].name + ms[i].params) && ms[i].name in Ingest(funcs, fstr, ms)
    ensures Ingest(funcs, fstr, ms)[ms[i].name] == NewFunc(fstr, ms[i].name, ms[i].params)
    decreases |ms|
  {
    var next := Step(funcs, fstr, ms[0]);
    if i == 0 {
      IngestKeeps(next, fstr, ms[1..], ms[0].name);
    } else {
      assert ms[1..][i - 1] == ms[i];
      forall j | 0 <= j < i - 1 ensures !(Accepts(ms[1..][j]) && ms[1..][j].name == ms[i].name) {
        assert ms[1..][j] == ms[j + 1];
      }
      IngestFirstWins(next, fstr, ms[1..], i - 1);
    }
  }

  /** The loop keeps the registry well formed. */
  lemma {:induction false} IngestWellFormed(funcs: Funcs, fstr: string, ms: seq<Match>)
    requires IngestDefined(funcs, fstr, ms) && WellFormed(funcs)
    ensures WellFormed(Ingest(funcs, fstr, ms))
    decreases |ms|
  {
    if ms != [] {
      if Accepts(ms[0]) {
        AddFuncWellFormed(funcs, fstr, ms[0].name, ms[0].params);
      }
      IngestWellFormed(Step(funcs, fstr, ms[0]), fstr, ms[1..]);
    }
  }

  /** Registration adds no edge. */
  lemma {:induction false} IngestNoEdges(funcs: Funcs, fstr: string, ms: seq<Match>)
    requires IngestDefined(funcs, fstr, ms) && NoEdges(funcs)
    ensures NoEdges(Ingest(funcs, fstr, ms))
    decreases |ms|
  {
    if ms != [] {
      IngestNoEdges(Step(funcs, fstr, ms[0]), fstr, ms[1..]);
    }
  }

  // ---------------------------------------------------------------------------
  // The call relation: buildCallTree (ca.go:200-209)
  // ---------------------------------------------------------------------------

  /** `a` calls `b`: both are registered and the name `b` occurs anywhere in the body of `a`. */
  predicate Calls(funcs: Funcs, a: string, b: string)
  {
    a in funcs && b in funcs && Contains(funcs[a].body, b)
  }

  /** Every pair the nested loops of `buildCallTree` turn into an edge. */
  function Edges(funcs: Funcs): set<(string, string)>
  {
    set a, b | a in funcs && b in funcs && Contains(funcs[a].body, b) :: (a, b)
  }

  /** The targets of the edges of `e` that leave `n`. */
  function Callees(e: set<(string, string)>, n: string): set<string>
  {
    set p | p in e && p.0 == n :: p.1
  }

  /** The sources of the edges of `e` that enter `n`. */
  function Callers(e: set<(string, string)>, n: string): set<string>
  {
    set p | p in e && p.1 == n :: p.0
  }

  /** The registry with the edges `e` inserted in both directions. */
  function AddEdges(funcs: Funcs, e: set<(string, string)>): (r: Funcs)
    ensures r.Keys == funcs.Keys
  {
    map n | n in funcs :: funcs[n].(calling := funcs[n].calling + Callees(e, n), called := funcs[n].called + Callers(e, n))
  }

  /** The registry after `buildCallTree`. */
  function CallTree(funcs: Funcs): Funcs
  {
    AddEdges(funcs, Edges(funcs))
  }

  /**
   * `cur` is `base` with the edges `e` inserted, stated entry by entry and
   * edge by edge; this is the form the loops of `buildCallTree` maintain.
   */
  ghost predicate Linked(cur: Funcs, base: Funcs, e: set<(string, string)>)
  {
    && cur.Keys == base.Keys
    && (forall n :: n in cur ==> cur[n].name == base[n].name && cur[n].params == base[n].params && cur[n].body == base[n].body)
    && (forall n, b :: n in cur ==> (b in cur[n].calling <==> b in base[n].calling || (n, b) in e))
    && (forall n, a :: n in cur ==> (a in cur[n].called <==> a in base[n].called || (a, n) in e))
  }

  lemma AddEdgesLinked(base: Funcs, e: set<(string, string)>)
    ensures Linked(AddEdges(base, e), base, e)
  {
  }

  /** The entry-by-entry description determines the registry. */
  lemma LinkedIsAddEdges(cur: Funcs, base: Funcs, e: set<(string, string)>)
    requires Linked(cur, base, e)
    ensures cur == AddEdges(base, e)
  {
    var r := AddEdges(base, e);
    forall n | n in cur ensures cur[n] == r[n] {
      assert cur[n].calling == r[n].calling;
      assert cur[n].called == r[n].called;
    }
  }

  /**
   * Whether the nested loops have visited the pair `(a, b)`, given the names
   * `outerLeft` the outer loop has still to take and the names `innerLeft`
   * the inner loop over `fn` has still to take.
   */
  predicate Visited(a: string, b: string, outerLeft: set<string>, fn: string, innerLeft: set<string>)
  {
    a !in outerLeft || (a == fn && b !in innerLeft)
  }

  /** Entry `n` has the name, parameters and body it had in `base`. */
  ghost predicate Kept(cur: Funcs, base: Funcs, n: string)
  {
    n in cur && n in base && cur[n].name == base[n].name && cur[n].params == base[n].params && cur[n].body == base[n].body
  }

  /** Entry `n` of `cur` holds the edge `n -> b` exactly when `base` did or the pair was visited and is a call. */
  ghost predicate CallingDone(cur: Funcs, base: Funcs, outerLeft: set<string>, fn: string, innerLeft: set<string>, n: string, b: string)
  {
    n in cur && n in base &&
    (b in cur[n].calling <==> b in base[n].calling || (Calls(base, n, b) && Visited(n, b, outerLeft, fn, innerLeft)))
  }

  /** Entry `n` of `cur` records the caller `a` exactly when `base` did or the pair was visited and is a call. */
  ghost predicate CalledDone(cur: Funcs, base: Funcs, outerLeft: set<string>, fn: string, innerLeft: set<string>, n: string, a: string)
  {
    n in cur && n in base &&
    (a in cur[n].called <==> a in base[n].called || (Calls(base, a, n) && Visited(a, n, outerLeft, fn, innerLeft)))
  }

  /** The state of the nested loops: `cur` is `base` with the edges of the visited pairs inserted. */
  ghost predicate Progress(cur: Funcs, base: Funcs, outerLeft: set<string>, fn: string, innerLeft: set<string>)
  {
    && cur.Keys == base.Keys
    && (forall n {:trigger Kept(cur, base, n)} :: n in cur ==> Kept(cur, base, n))
    && (forall n, b {:trigger CallingDone(cur, base, outerLeft, fn, innerLeft, n, b)} ::
          n in cur ==> CallingDone(cur, base, outerLeft, fn, innerLeft, n, b))
    && (forall n, a {:trigger CalledDone(cur, base, outerLeft, fn, innerLeft, n, a)} ::
          n in cur ==> CalledDone(cur, base, outerLeft, fn, innerLeft, n, a))
  }

  /** One turn of the inner loop: the pair `(fn, k)` is visited, and linked when `k` occurs in the body of `fn`. */
  lemma ProgressStep(cur: Funcs, base: Funcs, outerLeft: set<string>, fn: string, innerLeft: set<string>, k: string)
    requires Progress(cur, base, outerLeft, fn, innerLeft) && fn in outerLeft && fn in base && k in base
    ensures var mid := cur[fn := cur[fn].(calling := cur[fn].calling + {k})];
            var linked := mid[k := mid[k].(called := mid[k].called + {fn})];
            Progress(if Contains(cur[fn].body, k) then linked else cur, base, outerLeft, fn, innerLeft - {k})
  {
    var mid := cur[fn := cur[fn].(calling := cur[fn].calling + {k})];
    var linked := mid[k := mid[k].(called := mid[k].called + {fn})];
    var nxt := if Contains(cur[fn].body, k) then linked else cur;
    assert Kept(cur, base, fn) && Kept(cur, base, k);
    forall n | n in nxt ensures Kept(nxt, base, n) {
      assert Kept(cur, base, n);
    }
    forall n, b | n in nxt ensures CallingDone(nxt, base, outerLeft, fn, innerLeft - {k}, n, b) {
      assert CallingDone(cur, base, outerLeft, fn, innerLeft, n, b);
    }
    forall n, a | n in nxt ensures CalledDone(nxt, base, outerLeft, fn, innerLeft - {k}, n, a) {
      assert CalledDone(cur, base, outerLeft, fn, innerLeft, n, a);
    }
  }

  /** The start of an inner loop: with nothing visited from the current name, which name it is does not matter. */
  lemma ProgressRestart(cur: Funcs, base: Funcs, outerLeft: set<string>, fn: string, next: string)
    requires Progress(cur, base, outerLeft, fn, base.Keys)
    ensures Progress(cur, base, outerLeft, next, base.Keys)
  {
    forall n | n in cur ensures Kept(cur, base, n) {
      assert Kept(cur, base, n);
    }
    forall n, b | n in cur ensures CallingDone(cur, base, outerLeft, next, base.Keys, n, b) {
      assert CallingDone(cur, base, outerLeft, fn, base.Keys, n, b);
    }
    forall n, a | n in cur ensures CalledDone(cur, base, outerLeft, next, base.Keys, n, a) {
      assert CalledDone(cur, base, outerLeft, fn, base.Keys, n, a);
    }
  }

  /** The end of an inner loop: every pair from `fn` is visited, so `fn` leaves the outer loop. */
  lemma ProgressNext(cur: Funcs, base: Funcs, outerLeft: set<string>, fn: string, next: string)
    requires Progress(cur, base, outerLeft, fn, {})
    ensures Progress(cur, base, outerLeft - {fn}, next, base.Keys)
  {
    forall n | n in cur ensures Kept(cur, base, n) {
      assert Kept(cur, base, n);
    }
    forall n, b | n in cur ensures CallingDone(cur, base, outerLeft - {fn}, next, base.Keys, n, b) {
      assert CallingDone(cur, base, outerLeft, fn, {}, n, b);
    }
    forall n, a | n in cur ensures CalledDone(cur, base, outerLeft - {fn}, next, base.Keys, n, a) {
      assert CalledDone(cur, base, outerLeft, fn, {}, n, a);
    }
  }

  /** The end of the outer loop: every pair is visited, and the registry is the call tree. */
  lemma ProgressDone(cur: Funcs, base: Funcs, fn: string)
    requires Progress(cur, base, {}, fn, base.Keys)
    ensures cur == CallTree(base)
  {
    forall n | n in cur ensures Kept(cur, base, n) {
      assert Kept(cur, base, n);
    }
    forall n, b | n in cur ensures b in cur[n].calling <==> b in base[n].calling || (n, b) in Edges(base) {
      assert CallingDone(cur, base, {}, fn, base.Keys, n, b);
    }
    forall n, a | n in cur ensures a in cur[n].called <==> a in base[n].called || (a, n) in Edges(base) {
      assert CalledDone(cur, base, {}, fn, base.Keys, n, a);
    }
    assert Linked(cur, base, Edges(base));
    LinkedIsAddEdges(cur, base, Edges(base));
  }

  /** What `buildCallTree` changes: only the edges, and only by adding the call relation to them. */
  lemma CallTreeMeaning(funcs: Funcs)
    ensures CallTree(funcs).Keys == funcs.Keys
    ensures forall n :: n in funcs ==>
      && CallTree(funcs)[n].name == funcs[n].name
      && CallTree(funcs)[n].params == funcs[n].params
      && CallTree(funcs)[n].body == funcs[n].body
    ensures forall a, b :: a in funcs ==> (b in CallTree(funcs)[a].calling <==> b in funcs[a].calling || Calls(funcs, a, b))
    ensures forall a, b :: b in funcs ==> (a in CallTree(funcs)[b].called <==> a in funcs[b].called || Calls(funcs, a, b))
  {
    var t := CallTree(funcs);
    forall a, b | a in funcs ensures b in t[a].calling <==> b in funcs[a].calling || Calls(funcs, a, b) {
      if Calls(funcs, a, b) {
        assert (a, b) in Edges(funcs);
      }
    }
    forall a, b | b in funcs ensures a in t[b].called <==> a in funcs[b].called || Calls(funcs, a, b) {
      if Calls(funcs, a, b) {
        assert (a, b) in Edges(funcs);
      }
    }
  }

  /** Starting from no edges, `calling` of `a` holds exactly the registered names its body contains, and `called` is its inverse. */
  lemma CallTreeFromNoEdges(funcs: Funcs)
    requires NoEdges(funcs)
    ensures forall a, b :: a in funcs ==> (b in CallTree(funcs)[a].calling <==> b in funcs && Contains(funcs[a].body, b))
    ensures forall a, b :: b in funcs ==> (a in CallTree(funcs)[b].called <==> a in funcs && Contains(funcs[a].body, b))
  {
    CallTreeMeaning(funcs);
  }

  /** `buildCallTree` keeps the registry well formed. */
  lemma CallTreeWellFormed(funcs: Funcs)
    requires WellFormed(funcs)
    ensures WellFormed(CallTree(funcs))
  {
    var t := CallTree(funcs);
    CallTreeMeaning(funcs);
    forall n | n in t ensures EntryOk(t, n) {
      assert EntryOk(funcs, n);
    }
    forall a, b | a in t && b in t ensures EdgeOk(t, a, b) {
      assert EdgeOk(funcs, a, b);
    }
  }

  /** Running `buildCallTree` a second time adds nothing. */
  lemma CallTreeIdempotent(funcs: Funcs)
    ensures CallTree(CallTree(funcs)) == CallTree(funcs)
  {
    var t := CallTree(funcs);
    CallTreeMeaning(funcs);
    CallTreeMeaning(t);
    AddEdgesLinked(funcs, Edges(funcs));
    assert Linked(CallTree(t), funcs, Edges(funcs));
    LinkedIsAddEdges(CallTree(t), funcs, Edges(funcs));
  }

  // ---------------------------------------------------------------------------
  // The root list of showFuncList (ca.go:274-280)
  // ---------------------------------------------------------------------------

  /** The functions offered on the index page: those that call something. */
  function Roots(funcs: Funcs): set<string>
  {
    set n | n in funcs && funcs[n].calling != {}
  }

  /** After registration and `buildCallTree`, the roots are the functions whose body mentions a registered name. */
  lemma RootsAfterBuild(funcs: Funcs)
    requires NoEdges(funcs)
    ensures forall n :: n in Roots(CallTree(funcs)) <==> n in funcs && exists k :: k in funcs && Contains(funcs[n].body, k)
  {
    CallTreeFromNoEdges(funcs);
    forall n | n in funcs && (exists k :: k in funcs && Contains(funcs[n].body, k)) ensures n in Roots(CallTree(funcs)) {
      var k :| k in funcs && Contains(funcs[n].body, k);
      assert k in CallTree(funcs)[n].calling;
    }
  }

  // ---------------------------------------------------------------------------
  // The global registry
  // ---------------------------------------------------------------------------

  /** `CFuncList`, the registry every step of the program reads and updates. */
  class Registry {
    var funcs: Funcs

    ghost predicate Valid()
      reads this
    {
      WellFormed(funcs)
    }

    /** The empty list of `make(map[string]*CFunc, 10000)`. */
    constructor ()
      ensures Valid() && funcs == map[]
    {
      funcs := map[];
    }

    /** `addNewFunc`: register `name` unless it is taken; the match text `funFigure` is unused and left out. */
    method AddNewFunc(buf: string, name: string, params: string) returns (res: Outcome)
      requires Valid() && AddDefined(funcs, buf, name, params)
      modifies this
      ensures Valid()
      ensures funcs == AddFunc(old(funcs), buf, name, params)
      ensures res == (if name in old(funcs) then Failed("Already exist: " + name) else Ok)
    {
      if name in funcs {
        return Failed("Already exist: " + name);
      }
      AddFuncWellFormed(funcs, buf, name, params);
      var body := GetFuncBody(buf, name + params);
      funcs := funcs[name := CFunc(name, params, body, {}, {})];
      res := Ok;
    }

    /**
     * `getFuncList` on the bytes `src` of one file: normalise, then register
     * every match that passes the filter. `matches` are the matches of
     * `FetchFunction` on the normalised string, in order.
     */
    method GetFuncList(src: string, matches: seq<Match>)
      requires Valid() && IngestDefined(funcs, Normalize(src), matches)
      modifies this
      ensures Valid()
      ensures funcs == Ingest(old(funcs), Normalize(src), matches)
    {
      var fstr := Normalize(src);
      var i := 0;
      while i < |matches|
        invariant 0 <= i <= |matches| && Valid()
        invariant IngestDefined(funcs, fstr, matches[i..])
        invariant Ingest(funcs, fstr, matches[i..]) == Ingest(old(funcs), fstr, matches)
      {
        var m := matches[i];
        assert matches[i..][1..] == matches[i + 1..];
        if Accepts(m) {
          var _ := AddNewFunc(fstr, m.name, m.params);
        }
        i := i + 1;
      }
    }

    /** `buildCallTree`: for every pair of entries, in any order, add the edge when the second name occurs in the first body. */
    method BuildCallTree()
      requires Valid()
      modifies this
      ensures Valid()
      ensures funcs == CallTree(old(funcs))
    {
      var fs := funcs;
      ghost var m0 := fs;
      var outer := fs.Keys;
      while outer != {}
        invariant outer <= m0.Keys
        invariant Progress(fs, m0, outer, "", m0.Keys)
        decreases |outer|
      {
        var fn :| fn in outer;
        ProgressRestart(fs, m0, outer, "", fn);
        var inner := fs.Keys;
        while inner != {}
          invariant inner <= m0.Keys
          invariant Progress(fs, m0, outer, fn, inner)
          decreases |inner|
        {
          var k :| k in inner;
          ProgressStep(fs, m0, outer, fn, inner, k);
          if Contains(fs[fn].body, k) {
            fs := fs[fn := fs[fn].(calling := fs[fn].calling + {k})];
            fs := fs[k := fs[k].(called := fs[k].called + {fn})];
          }
          inner := inner - {k};
        }
        ProgressNext(fs, m0, outer, fn, "");
        outer := outer - {fn};
      }
      ProgressDone(fs, m0, "");
      funcs := fs;
      CallTreeWellFormed(m0);
    }

    /** The names the index page lists: every entry whose `calling` map is not empty, each once. */
    method RootCandidates() returns (names: seq<string>)
      ensures forall n :: n in names <==> n in Roots(funcs)
      ensures forall i, j :: 0 <= i < j < |names| ==> names[i] != names[j]
    {
      names := [];
      var todo := funcs.Keys;
      while todo != {}
        invariant todo <= funcs.Keys
        invariant forall n :: n in names <==> n in Roots(funcs) && n !in todo
        invariant forall i, j :: 0 <= i < j < |names| ==> names[i] != names[j]
        decreases |todo|
      {
        var fn :| fn in todo;
        if funcs[fn].calling != {} {
          names := names + [fn];
        }
        todo := todo - {fn};
      }
    }
  }
}
