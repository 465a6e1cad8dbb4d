/**
 * The few functions of Go's `strings` package that ca.go relies on, on byte
 * strings: one `char` of a Dafny `string` stands for one byte of a Go string.
 */
module GoStrings {

  /** The ASCII white-space bytes that `strings.TrimSpace` removes. */
  const ASCII_SPACE: set<char> := {' ', '\t', '\n', '\U{B}', '\U{C}', '\r'}

  /** `sub` occurs in `s` at byte offset `i`. */
  predicate OccursAt(s: string, sub: string, i: int)
  {
    0 <= i && i + |sub| <= |s| && s[i..i + |sub|] == sub
  }

  /** Every byte of `s` belongs to `cut`. */
  predicate AllIn(s: string, cut: set<char>)
  {
    forall k :: 0 <= k < |s| ==> s[k] in cut
  }

  /** The first occurrence of `sub` in `s` at or after offset `i`, or -1. */
  function IndexFrom(s: string, sub: string, i: nat): (r: int)
    decreases |s| - i
    ensures r == -1 || (i <= r && OccursAt(s, sub, r))
    ensures r == -1 ==> forall j :: i <= j ==> !OccursAt(s, sub, j)
    ensures r != -1 ==> forall j :: i <= j < r ==> !OccursAt(s, sub, j)
  {
    if i + |sub| > |s| then -1
    else if s[i..i + |sub|] == sub then i
    else IndexFrom(s, sub, i + 1)
  }

  /** `strings.Index`: the offset of the first occurrence of `sub` in `s`, or -1. */
  function Index(s: string, sub: string): (r: int)
    ensures r == -1 <==> forall j :: !OccursAt(s, sub, j)
    ensures r != -1 ==> OccursAt(s, sub, r) && forall j :: 0 <= j < r ==> !OccursAt(s, sub, j)
    ensures sub == [] ==> r == 0
  {
    IndexFrom(s, sub, 0)
  }

  /** `strings.Contains`, which Go defines as `Index(s, sub) >= 0`. */
  function Contains(s: string, sub: string): (r: bool)
    ensures r <==> exists j :: OccursAt(s, sub, j)
  {
    Index(s, sub) >= 0
  }

  /** The first offset at or after `i` whose byte is not in `cut`, or `|s|`. */
  function TrimStart(s: string, cut: set<char>, i: nat): (k: nat)
    requires i <= |s|
    decreases |s| - i
    ensures i <= k <= |s|
    ensures forall m :: i <= m < k ==> s[m] in cut
    ensures k == |s| || s[k] !in cut
  {
    if i < |s| && s[i] in cut then TrimStart(s, cut, i + 1) else i
  }

  /** The least end `k`, down from `j` but not below `lo`, such that `s[k..j]` is made of bytes of `cut`. */
  function TrimStop(s: string, cut: set<char>, lo: nat, j: nat): (k: nat)
    requires lo <= j <= |s|
    decreases j - lo
    ensures lo <= k <= j
    ensures forall m :: k <= m < j ==> s[m] in cut
    ensures k == lo || s[k - 1] !in cut
  {
    if lo < j && s[j - 1] in cut then TrimStop(s, cut, lo, j - 1) else j
  }

  /**
   * `strings.Trim(s, cutset)` with the bytes of `cutset` given as a set:
   * `s` without its longest prefix and its longest suffix made of bytes of `cut`.
   */
  function Trim(s: string, cut: set<char>): (r: string)
    ensures r == [] || (r[0] !in cut && r[|r| - 1] !in cut)
    ensures forall c :: c in r ==> c in s
  {
    var lo := TrimStart(s, cut, 0);
    s[lo..TrimStop(s, cut, lo, |s|)]
  }

  /**
   * Trim is characterised by where it cuts: any split of `s` into a prefix and
   * a suffix of bytes of `cut` around a middle that starts and ends outside
   * `cut` is the one `Trim` makes.
   */
  lemma TrimExact(s: string, cut: set<char>, i: int, j: int)
    requires 0 <= i <= j <= |s|
    requires forall k :: 0 <= k < i ==> s[k] in cut
    requires forall k :: j <= k < |s| ==> s[k] in cut
    requires i < j ==> s[i] !in cut && s[j - 1] !in cut
    ensures Trim(s, cut) == s[i..j]
  {
    var lo := TrimStart(s, cut, 0);
    var hi := TrimStop(s, cut, lo, |s|);
    assert lo == (if i == j then |s| else i);
    assert i < j ==> hi == j;
  }

  /** `strings.TrimSpace`, for the ASCII white-space bytes. */
  function TrimSpace(s: string): (r: string)
    ensures r == [] || (r[0] !in ASCII_SPACE && r[|r| - 1] !in ASCII_SPACE)
  {
    Trim(s, ASCII_SPACE)
  }

  /** `strings.Replace(s, old, new, -1)` for a one-byte `old` and a one-byte `new`. */
  function Replace(s: string, oldByte: char, newByte: char): (r: string)
    ensures |r| == |s|
    ensures forall k :: 0 <= k < |s| ==> r[k] == (if s[k] == oldByte then newByte else s[k])
    ensures oldByte != newByte ==> oldByte !in r
  {
    if s == [] then [] else [if s[0] == oldByte then newByte else s[0]] + Replace(s[1..], oldByte, newByte)
  }

  /** A one-byte string is contained exactly when that byte occurs. */
  lemma ContainsByte(s: string, c: char)
    ensures Contains(s, [c]) <==> c in s
  {
    if c in s {
      var k :| 0 <= k < |s| && s[k] == c;
      assert OccursAt(s, [c], k);
    }
    if Contains(s, [c]) {
      var j :| OccursAt(s, [c], j);
      assert s[j] == s[j..j + 1][0];
    }
  }

  /** An occurrence preceded by no copy of the first byte of `sub` is the first one. */
  lemma IndexOfFirst(s: string, sub: string, i: int)
    requires OccursAt(s, sub, i) && |sub| > 0
    requires forall j :: 0 <= j < i ==> s[j] != sub[0]
    ensures Index(s, sub) == i
  {
    var r := Index(s, sub);
    assert s[r] == s[r..r + |sub|][0];
  }

  /** Every occurrence of a non-empty `sub` starts with its first byte. */
  lemma ContainsHead(s: string, sub: string)
    requires |sub| > 0
    ensures Contains(s, sub) ==> sub[0] in s
  {
    if Contains(s, sub) {
      var j :| OccursAt(s, sub, j);
      assert s[j] == s[j..j + |sub|][0];
    }
  }

  /** The first occurrence of a one-byte string is the first position of that byte. */
  lemma IndexOfByte(s: string, c: char)
    ensures Index(s, [c]) >= 0 <==> c in s
    ensures Index(s, [c]) >= 0 ==> s[Index(s, [c])] == c && c !in s[..Index(s, [c])]
  {
    ContainsByte(s, c);
    var i := Index(s, [c]);
    if i >= 0 {
      assert s[i] == s[i..i + 1][0];
      forall k | 0 <= k < i ensures s[k] != c {
        assert !OccursAt(s, [c], k);
        assert s[k..k + 1] == [s[k]];
      }
    }
  }
}
