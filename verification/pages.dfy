/**
 * What the crawler learns from one fetched listing page, and the marker test
 * that decides what kind of page it is (scraper.py, lines 68, 89 and 101).
 *
 * Fetching and HTML parsing are outside the model: a page is its text
 * together with the links an HTML parser would select from it, already
 * resolved against the page's URL.
 */
module Pages {
  import opened Wrappers

  type Url = string

  /** The primary link of one `post-N` block: its resolved href and its raw text. */
  datatype ChildLink = ChildLink(href: Url, text: string)

  /**
   * One fetched page. `blocks` holds one entry per `post-N` block in document
   * order, `None` for a block without a usable primary link; `pagination` the
   * resolved page-number links in document order; `download` the resolved
   * href of the download link, `None` when there is no such link or its href
   * is empty.
   */
  datatype Page = Page(html: string, blocks: seq<Option<ChildLink>>, pagination: seq<Url>, download: Option<Url>)

  datatype Kind = Container | Asset | Unknown

  const FOLDER_MARKER := "Object Type: Folder"
  const ARCHIVE_MARKER := "Complete Archive"
  const ASSET_MARKER := "Object Type: Asset"

  predicate StartsWith(s: string, prefix: string) {
    |prefix| <= |s| && s[..|prefix|] == prefix
  }

  /** Python's `marker in s`. */
  predicate Contains(s: string, marker: string)
    decreases |s|
  {
    StartsWith(s, marker) || (s != [] && Contains(s[1..], marker))
  }

  /** `marker` occurs in `s` starting at index `i`. */
  predicate OccursAt(s: string, marker: string, i: int) {
    0 <= i <= |s| - |marker| && s[i..i + |marker|] == marker
  }

  /** `marker in s` holds exactly when `marker` occurs at some position of `s`. */
  lemma {:induction false} ContainsAt(s: string, marker: string)
    ensures Contains(s, marker) <==> exists i :: OccursAt(s, marker, i)
    decreases |s|
  {
    if StartsWith(s, marker) {
      assert OccursAt(s, marker, 0);
    } else if s == [] {
    } else {
      ContainsAt(s[1..], marker);
      if exists i :: OccursAt(s, marker, i) {
        var i :| OccursAt(s, marker, i);
        assert i != 0;
        assert OccursAt(s[1..], marker, i - 1);
      }
      if exists j :: OccursAt(s[1..], marker, j) {
        var j :| OccursAt(s[1..], marker, j);
        assert OccursAt(s, marker, j + 1);
      }
    }
  }

  /**
   * The page classifier: a folder or archive marker makes a container, even
   * when the asset marker is present too; otherwise the asset marker makes
   * an asset; otherwise the page is unknown.
   */
  function Classify(html: string): (k: Kind)
    ensures k == Container <==> Contains(html, FOLDER_MARKER) || Contains(html, ARCHIVE_MARKER)
    ensures k == Asset <==> !Contains(html, FOLDER_MARKER) && !Contains(html, ARCHIVE_MARKER) && Contains(html, ASSET_MARKER)
  {
    if Contains(html, FOLDER_MARKER) || Contains(html, ARCHIVE_MARKER) then Container
    else if Contains(html, ASSET_MARKER) then Asset
    else Unknown
  }

  /** A page that carries both markers is a container: the container test comes first. */
  lemma ContainerWins(prefix: string, middle: string, suffix: string)
    ensures Classify(prefix + ASSET_MARKER + middle + ARCHIVE_MARKER + suffix) == Container
    ensures Classify(prefix + ARCHIVE_MARKER + middle + ASSET_MARKER + suffix) == Container
  {
    var s1 := prefix + ASSET_MARKER + middle + ARCHIVE_MARKER + suffix;
    var i1 := |prefix| + |ASSET_MARKER| + |middle|;
    assert OccursAt(s1, ARCHIVE_MARKER, i1);
    ContainsAt(s1, ARCHIVE_MARKER);
    var s2 := prefix + ARCHIVE_MARKER + middle + ASSET_MARKER + suffix;
    assert OccursAt(s2, ARCHIVE_MARKER, |prefix|);
    ContainsAt(s2, ARCHIVE_MARKER);
  }
}
