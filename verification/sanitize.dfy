/**
 * The filename sanitizer applied to every child title before it becomes a
 * path segment: each maximal run of the characters \ / : " * ? < > | is
 * replaced by a single underscore (a left-to-right regular-expression
 * substitution of `[...]+`), and the result is trimmed of whitespace as
 * Python's `str.strip()` does.
 */
module Sanitizer {

  /** The characters the substitution replaces. */
  predicate IsReserved(c: char) {
    c == '\\' || c == '/' || c == ':' || c == '"' || c == '*' ||
    c == '?' || c == '<' || c == '>' || c == '|'
  }

  /** Python's `str.isspace()`: the characters `str.strip()` removes. */
  predicate IsSpace(c: char) {
    var n := c as int;
    (9 <= n <= 13) || (28 <= n <= 32) || n == 0x85 || n == 0xA0 ||
    n == 0x1680 || (0x2000 <= n <= 0x200A) || n == 0x2028 || n == 0x2029 ||
    n == 0x202F || n == 0x205F || n == 0x3000
  }

  ghost predicate NoReserved(s: string) {
    forall i :: 0 <= i < |s| ==> !IsReserved(s[i])
  }

  /** No whitespace at either end. */
  ghost predicate Trimmed(s: string) {
    s == [] || (!IsSpace(s[0]) && !IsSpace(s[|s| - 1]))
  }

  /** Length of the run of reserved characters at the front of `s`. */
  function RunLength(s: string): (n: nat)
    ensures n <= |s|
    ensures forall i :: 0 <= i < n ==> IsReserved(s[i])
    ensures n < |s| ==> !IsReserved(s[n])
  {
    if s != [] && IsReserved(s[0]) then 1 + RunLength(s[1..]) else 0
  }

  /** The substitution: every maximal run of reserved characters becomes "_". */
  function Collapse(s: string): (r: string)
    ensures NoReserved(r)
    ensures |r| <= |s|
    decreases |s|
  {
    if s == [] then []
    else if IsReserved(s[0]) then "_" + Collapse(s[RunLength(s)..])
    else [s[0]] + Collapse(s[1..])
  }

  /** Length of the run of whitespace at the front of `s`. */
  function Lead(s: string): (n: nat)
    ensures n <= |s|
    ensures forall k :: 0 <= k < n ==> IsSpace(s[k])
    ensures n < |s| ==> !IsSpace(s[n])
  {
    if s != [] && IsSpace(s[0]) then 1 + Lead(s[1..]) else 0
  }

  /** Where the run of whitespace ending at `hi` starts, looking no further left than `lo`. */
  function Trail(s: string, lo: nat, hi: nat): (n: nat)
    requires lo <= hi <= |s|
    ensures lo <= n <= hi
    ensures forall k :: n <= k < hi ==> IsSpace(s[k])
    ensures lo < n ==> !IsSpace(s[n - 1])
    decreases hi
  {
    if lo < hi && IsSpace(s[hi - 1]) then Trail(s, lo, hi - 1) else hi
  }

  /** `str.strip()`: the result is trimmed, and a trimmed string is left as it is. */
  function Strip(s: string): (r: string)
    ensures Trimmed(r)
    ensures Trimmed(s) ==> r == s
  {
    var lo := Lead(s);
    s[lo..Trail(s, lo, |s|)]
  }

  /**
   * `str.strip()` keeps a slice of `s` and removes only whitespace: every
   * character before the slice and every character after it is a space.
   */
  lemma StripRemovesSpace(s: string)
    ensures var lo := Lead(s); var hi := Trail(s, lo, |s|);
      Strip(s) == s[lo..hi] &&
      (forall k :: 0 <= k < lo ==> IsSpace(s[k])) && (forall k :: hi <= k < |s| ==> IsSpace(s[k]))
  {
  }

  /** The sanitizer of scraper.py, line 13. */
  function Sanitize(name: string): (r: string)
    ensures NoReserved(r)
    ensures Trimmed(r)
  {
    var c := Collapse(name);
    var lo := Lead(c);
    NoReservedSlice(c, lo, Trail(c, lo, |c|));
    Strip(c)
  }

  lemma NoReservedSlice(s: string, i: int, j: int)
    requires 0 <= i <= j <= |s| && NoReserved(s)
    ensures NoReserved(s[i..j])
  {
    assert forall k :: 0 <= k < j - i ==> s[i..j][k] == s[i + k];
  }

  /** A string without reserved characters passes the substitution unchanged. */
  lemma {:induction false} CollapseKeeps(s: string)
    requires NoReserved(s)
    ensures Collapse(s) == s
  {
    if s != [] {
      CollapseKeeps(s[1..]);
    }
  }

  lemma RunLengthOfRun(r: string, v: string)
    requires forall i :: 0 <= i < |r| ==> IsReserved(r[i])
    requires v == [] || !IsReserved(v[0])
    ensures RunLength(r + v) == |r|
    decreases |r|
  {
    if r != [] {
      assert (r + v)[1..] == r[1..] + v;
      RunLengthOfRun(r[1..], v);
    }
  }

  lemma RunLengthWithin(u: string, w: string)
    requires RunLength(u) < |u|
    ensures RunLength(u + w) == RunLength(u)
    decreases |u|
  {
    if IsReserved(u[0]) {
      assert (u + w)[1..] == u[1..] + w;
      RunLengthWithin(u[1..], w);
    }
  }

  /** Collapse peels one leading unit: a whole run, or one ordinary character. */
  lemma CollapseFront(s: string)
    requires s != []
    ensures IsReserved(s[0]) ==> Collapse(s) == "_" + Collapse(s[RunLength(s)..])
    ensures !IsReserved(s[0]) ==> Collapse(s) == [s[0]] + Collapse(s[1..])
  {
  }

  /**
   * Each maximal run of reserved characters becomes exactly one "_": a run
   * `r` that is not extended by `u` on the left or by `v` on the right is
   * replaced by a single underscore and the text around it is processed
   * independently.
   */
  lemma CollapseRun(u: string, r: string, v: string)
    requires u == [] || !IsReserved(u[|u| - 1])
    requires |r| > 0 && forall i :: 0 <= i < |r| ==> IsReserved(r[i])
    requires v == [] || !IsReserved(v[0])
    ensures Collapse(u + r + v) == Collapse(u) + "_" + Collapse(v)
  {
    CollapseRunRight(u, r, v);
    Associative(u, r, v);
    Associative(Collapse(u), "_", Collapse(v));
  }

  lemma Associative<T>(a: seq<T>, b: seq<T>, c: seq<T>)
    ensures a + b + c == a + (b + c)
  {
  }

  /** CollapseRun with the concatenations grouped to the right, by induction on `u`. */
  lemma {:induction false} CollapseRunRight(u: string, r: string, v: string)
    requires u == [] || !IsReserved(u[|u| - 1])
    requires |r| > 0 && forall i :: 0 <= i < |r| ==> IsReserved(r[i])
    requires v == [] || !IsReserved(v[0])
    ensures Collapse(u + (r + v)) == Collapse(u) + ("_" + Collapse(v))
    decreases |u|
  {
    if u == [] {
      CollapseRunAtFront(r, v);
      assert u + (r + v) == r + v;
    } else {
      var k := if IsReserved(u[0]) then RunLength(u) else 1;
      var head: string := if IsReserved(u[0]) then "_" else [u[0]];
      CollapseStep(u, r + v, k);
      var rest := u[k..];
      assert rest == [] || rest[|rest| - 1] == u[|u| - 1];
      CollapseRunRight(rest, r, v);
      Associative(head, Collapse(rest), "_" + Collapse(v));
    }
  }

  lemma CollapseRunAtFront(r: string, v: string)
    requires |r| > 0 && forall i :: 0 <= i < |r| ==> IsReserved(r[i])
    requires v == [] || !IsReserved(v[0])
    ensures Collapse(r + v) == "_" + Collapse(v)
  {
    RunLengthOfRun(r, v);
    assert (r + v)[|r|..] == v;
    CollapseFront(r + v);
  }

  /** The first unit of `u` is processed the same way whatever follows `u`. */
  lemma CollapseStep(u: string, w: string, k: nat)
    requires u != [] && k == (if IsReserved(u[0]) then RunLength(u) else 1)
    requires !IsReserved(u[|u| - 1])
    ensures k <= |u|
    ensures Collapse(u + w) == (if IsReserved(u[0]) then "_" else [u[0]]) + Collapse(u[k..] + w)
    ensures Collapse(u) == (if IsReserved(u[0]) then "_" else [u[0]]) + Collapse(u[k..])
  {
    if IsReserved(u[0]) {
      RunLengthWithin(u, w);
    }
    assert (u + w)[k..] == u[k..] + w;
    assert (u + w)[0] == u[0];
    CollapseFront(u + w);
    CollapseFront(u);
  }

  /** Sanitizing a sanitized name changes nothing. */
  lemma {:induction false} SanitizeIdempotent(name: string)
    ensures Sanitize(Sanitize(name)) == Sanitize(name)
  {
    var once := Sanitize(name);
    CollapseKeeps(once);
  }
}
