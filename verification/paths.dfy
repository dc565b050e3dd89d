/**
 * The part of Python's `pathlib` (POSIX flavour) that the crawler relies on,
 * for relative paths: `Path(s)` parses a string, `str(p)` renders it,
 * `p / name` appends a segment, `p.parent` drops the last one and
 * `p.with_suffix('.pdf')` rewrites the extension of the last one.
 *
 * A path is its list of segments; the empty list is `Path('.')`.
 */
module Paths {

  datatype Path = Path(parts: seq<string>)

  /** `Path('.')`, whose `str` is "." */
  const HERE := Path([])

  /** What `pathlib` keeps as a segment: not empty, not ".", no separator. */
  predicate ValidSegment(x: string) {
    x != "" && x != "." && '/' !in x
  }

  predicate ValidPath(p: Path) {
    forall i :: 0 <= i < |p.parts| ==> ValidSegment(p.parts[i])
  }

  /** A string that `Path` reads as a relative path. */
  predicate Relative(s: string) {
    s == [] || s[0] != '/'
  }

  /** Index of the first `c` in `s`, or |s| when there is none. */
  function IndexOf(s: string, c: char): (i: nat)
    ensures i <= |s|
    ensures i < |s| ==> s[i] == c
    ensures forall k :: 0 <= k < i ==> s[k] != c
  {
    if s == [] then 0 else if s[0] == c then 0 else 1 + IndexOf(s[1..], c)
  }

  /** The pieces of `s` between separators, in order. */
  function Split(s: string): (pieces: seq<string>)
    ensures |pieces| >= 1
    ensures forall i :: 0 <= i < |pieces| ==> '/' !in pieces[i]
    decreases |s|
  {
    var i := IndexOf(s, '/');
    if i == |s| then [s] else [s[..i]] + Split(s[i + 1..])
  }

  /** `pathlib` drops empty and "." pieces. */
  function Clean(pieces: seq<string>): (parts: seq<string>)
    requires forall i :: 0 <= i < |pieces| ==> '/' !in pieces[i]
    ensures forall i :: 0 <= i < |parts| ==> ValidSegment(parts[i])
    ensures |parts| <= |pieces|
  {
    if pieces == [] then []
    else if pieces[0] == "" || pieces[0] == "." then Clean(pieces[1..])
    else [pieces[0]] + Clean(pieces[1..])
  }

  /** `Path(s)` for a relative `s`. */
  function Parse(s: string): (p: Path)
    requires Relative(s)
    ensures ValidPath(p)
  {
    Path(Clean(Split(s)))
  }

  /** The segments joined by "/". */
  function Render(parts: seq<string>): string
    requires parts != []
  {
    if |parts| == 1 then parts[0] else parts[0] + "/" + Render(parts[1..])
  }

  /** `str(p)`. */
  function Format(p: Path): string {
    if p.parts == [] then "." else Render(p.parts)
  }

  lemma SplitAt(a: string, b: string)
    requires '/' !in a
    ensures Split(a + "/" + b) == [a] + Split(b)
  {
    var s := a + "/" + b;
    assert forall k :: 0 <= k < |a| ==> s[k] == a[k];
    assert s[|a|] == '/';
    assert IndexOf(s, '/') == |a|;
    assert s[..|a|] == a;
    assert s[|a| + 1..] == b;
  }

  lemma SplitWhole(a: string)
    requires '/' !in a
    ensures Split(a) == [a]
  {
    assert IndexOf(a, '/') == |a|;
  }

  /** Rendering valid segments and parsing the text back gives the segments. */
  lemma {:induction false} ParseRender(parts: seq<string>)
    requires parts != []
    requires forall i :: 0 <= i < |parts| ==> ValidSegment(parts[i])
    ensures Relative(Render(parts))
    ensures Clean(Split(Render(parts))) == parts
  {
    if |parts| == 1 {
      SplitWhole(parts[0]);
    } else {
      var tail := parts[1..];
      ParseRender(tail);
      SplitAt(parts[0], Render(tail));
      assert Render(parts) == parts[0] + "/" + Render(tail);
      assert [parts[0]] + Split(Render(tail)) != [];
      assert ([parts[0]] + Split(Render(tail)))[1..] == Split(Render(tail));
    }
  }

  /** `Path(str(p)) == p` for every path `pathlib` can build. */
  lemma ParseFormat(p: Path)
    requires ValidPath(p)
    ensures Relative(Format(p))
    ensures Parse(Format(p)) == p
  {
    if p.parts == [] {
      assert Split(".") == ["."];
    } else {
      ParseRender(p.parts);
    }
  }

  /**
   * `p / name` for a name without a separator: the name is appended as one
   * segment, except that "" and "." leave the path as it is.
   */
  function Join(p: Path, name: string): (r: Path)
    requires '/' !in name
    ensures r == if name == "" || name == "." then p else Path(p.parts + [name])
  {
    SplitWhole(name);
    Path(p.parts + Parse(name).parts)
  }

  /** `p.parent`: the path without its last segment ("." stays "."). */
  function Parent(p: Path): (r: Path)
    ensures |p.parts| > 0 ==> p.parts == r.parts + [p.parts[|p.parts| - 1]]
    ensures |p.parts| == 0 ==> r == p
  {
    if p.parts == [] then p else Path(p.parts[..|p.parts| - 1])
  }

  /** Index of the last `c` in `s`, or -1 when there is none. */
  function LastIndexOf(s: string, c: char): (i: int)
    ensures -1 <= i < |s|
    ensures i >= 0 ==> s[i] == c
    ensures forall k :: i < k < |s| ==> s[k] != c
  {
    if s == [] then -1
    else if s[|s| - 1] == c then |s| - 1
    else LastIndexOf(s[..|s| - 1], c)
  }

  /**
   * Where `pathlib`'s suffix of `name` starts: at the last "." of the name,
   * provided that dot is neither the first nor the last character; |name|
   * when the name has no suffix.
   */
  function SuffixStart(name: string): (i: nat)
    ensures i <= |name|
    ensures i < |name| ==> 0 < i < |name| - 1 && name[i] == '.' && forall k :: i < k < |name| ==> name[k] != '.'
    ensures i == |name| ==> forall k :: 0 < k < |name| - 1 && name[k] == '.' ==> name[|name| - 1] == '.'
  {
    var i := LastIndexOf(name, '.');
    if 0 < i < |name| - 1 then i else |name|
  }

  /** The last segment with its suffix, if any, replaced by ".pdf". */
  function PdfName(name: string): (r: string)
    ensures |r| >= 4 && r[|r| - 4..] == ".pdf"
    ensures ValidSegment(name) ==> ValidSegment(r)
    ensures r == name[..SuffixStart(name)] + ".pdf"
  {
    var r := name[..SuffixStart(name)] + ".pdf";
    assert forall k :: 0 <= k < |r| - 4 ==> r[k] == name[k];
    r
  }

  /** `p` and every path above it, down to ".": what `p.mkdir(parents=True)` leaves existing. */
  function Ancestors(p: Path): (r: set<Path>)
    ensures forall q :: q in r <==> |q.parts| <= |p.parts| && q.parts == p.parts[..|q.parts|]
  {
    var r := set k | 0 <= k <= |p.parts| :: Path(p.parts[..k]);
    assert forall q: Path :: |q.parts| <= |p.parts| && q.parts == p.parts[..|q.parts|] ==> q == Path(p.parts[..|q.parts|]);
    r
  }

  /**
   * `p.with_suffix('.pdf')`, which `pathlib` refuses (ValueError) for a
   * path with an empty name, that is for `Path('.')`.
   */
  function PdfOf(p: Path): (r: Path)
    requires p.parts != []
    ensures |r.parts| == |p.parts|
    ensures Parent(r) == Parent(p)
    ensures r.parts[|r.parts| - 1] == PdfName(p.parts[|p.parts| - 1])
    ensures ValidPath(p) ==> ValidPath(r)
  {
    var n := |p.parts|;
    Path(p.parts[..n - 1] + [PdfName(p.parts[n - 1])])
  }
}
