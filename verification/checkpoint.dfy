/**
 * The checkpoint store: the two durable records `queue.json` (the work list
 * as an ordered list of {path, url} entries) and `seen.json` (the seen
 * URLs), how the crawler starts from them (scraper.py, lines 33-45), how it
 * saves them (lines 106-110 and 114-118) and the final clean-up (lines
 * 121-132).
 *
 * A record is either absent or holds its last saved value; the temporary
 * file, fsync and atomic rename that make each write all-or-nothing are
 * below this level. The seen record is kept as a set: it is written as a
 * list in arbitrary order and read back with `set(...)`.
 */
module Checkpoint {
  import opened Wrappers
  import opened Paths
  import opened Pages
  import opened Worklist

  /** One entry of the queue record: `{'path': str(path), 'url': url}`. */
  datatype Record = Record(path: string, url: Url)

  /** The two records; `None` is a file that does not exist. */
  datatype Store = Store(queueRecord: Option<seq<Record>>, seenRecord: Option<set<Url>>)

  const NO_RECORDS := Store(None, None)

  /** Every task path is one `pathlib` can build. */
  ghost predicate WellFormed(ts: seq<Task>) {
    forall i :: 0 <= i < |ts| ==> ValidPath(ts[i].path)
  }

  /** The queue as it is written: each path rendered with `str`. */
  function Encode(queue: seq<Task>): (rs: seq<Record>)
    ensures |rs| == |queue|
  {
    seq(|queue|, i requires 0 <= i < |queue| => Record(Format(queue[i].path), queue[i].url))
  }

  predicate Decodable(rs: seq<Record>) {
    forall i :: 0 <= i < |rs| ==> Relative(rs[i].path)
  }

  /** The queue as it is read back: each path parsed with `Path(...)`. */
  function Decode(rs: seq<Record>): (queue: seq<Task>)
    requires Decodable(rs)
    ensures |queue| == |rs|
  {
    seq(|rs|, i requires 0 <= i < |rs| => Task(Parse(rs[i].path), rs[i].url))
  }

  /** The saved queue reloads as the same ordered list of (path, url). */
  lemma DecodeEncode(queue: seq<Task>)
    requires WellFormed(queue)
    ensures Decodable(Encode(queue))
    ensures Decode(Encode(queue)) == queue
  {
    var rs := Encode(queue);
    forall i | 0 <= i < |queue|
      ensures Relative(rs[i].path) && Parse(rs[i].path) == queue[i].path
    {
      ParseFormat(queue[i].path);
    }
  }

  /** A checkpoint: both records rewritten, the queue first and then the seen set. */
  function Save(f: Frontier): Store {
    Store(Some(Encode(f.queue)), Some(f.seen))
  }

  predicate Loadable(store: Store) {
    store.queueRecord.Some? ==> Decodable(store.queueRecord.value)
  }

  /**
   * The start of a run. Each record is loaded if present; an absent queue
   * record seeds the queue with the start task and an absent seen record
   * seeds the seen set with the start URL. The two are independent.
   */
  function Load(store: Store, startUrl: Url, startFolder: string): (f: Frontier)
    requires Loadable(store) && Relative(startFolder)
    ensures WellFormed(f.queue)
  {
    var queue := match store.queueRecord
      case None => [Task(Parse(startFolder), startUrl)]
      case Some(rs) => Decode(rs);
    var seen := match store.seenRecord
      case None => {startUrl}
      case Some(urls) => urls;
    Frontier(queue, seen)
  }

  /** With no records, the run starts from a consistent frontier with one task and one URL. */
  lemma FreshStart(startUrl: Url, startFolder: string)
    requires Relative(startFolder)
    ensures var f := Load(NO_RECORDS, startUrl, startFolder);
      Consistent(f) && |f.queue| == |f.seen| == 1 && f.queue[0].url == startUrl
  {
    var f := Load(NO_RECORDS, startUrl, startFolder);
    assert UrlsOf(f.queue) == {startUrl} by {
      assert f.queue[0].url == startUrl;
    }
  }

  /** A run started from a checkpoint has exactly the saved queue, in order, and the saved seen set. */
  lemma ResumeRestores(f: Frontier, startUrl: Url, startFolder: string)
    requires WellFormed(f.queue) && Relative(startFolder)
    ensures Loadable(Save(f))
    ensures Load(Save(f), startUrl, startFolder) == f
  {
    DecodeEncode(f.queue);
  }

  /**
   * The clean-up after the loop. The queue record is rewritten when work is
   * left and deleted otherwise; the seen record is rewritten and then
   * deleted when no work is left.
   */
  function Cleanup(store: Store, f: Frontier): (r: Store)
    ensures f.queue == [] ==> r == NO_RECORDS
    ensures f.queue != [] ==> r == Save(f)
  {
    var afterQueue := if f.queue != [] then store.(queueRecord := Some(Encode(f.queue))) else store.(queueRecord := None);
    var afterSeen := afterQueue.(seenRecord := Some(f.seen));
    if f.queue == [] then afterSeen.(seenRecord := None) else afterSeen
  }
}
