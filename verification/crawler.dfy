/**
 * The crawler as the source runs it: `scrape` (scraper.py, lines 28-134)
 * updates a work list, a seen set and a counter in place. The class keeps
 * those three as fields, beside the parts of the outside world the loop
 * reads and changes: the files and the directories that exist, and the two
 * checkpoint records. Each method is proved against the functions of
 * Worklist, Engine and Checkpoint, whose properties are proved there.
 */
module Scraper {
  import opened Wrappers
  import opened Paths
  import opened Pages
  import opened Worklist
  import opened Checkpoint
  import opened Engine

  class Crawler {
    var queue: seq<Task>
    var seen: set<Url>
    var count: nat
    var files: set<Path>
    var dirs: set<Path>
    var store: Store

    /** The state of the run, as the specification functions see it. */
    function State(): Crawl
      reads this
    {
      Crawl(Frontier(queue, seen), count, Disk(files, dirs), store)
    }

    /** A crawler over the given records and disk, before `scrape` starts. */
    constructor (records: Store, disk: Disk)
      ensures State() == Crawl(Frontier([], {}), 0, disk, records)
    {
      queue, seen, count := [], {}, 0;
      files, dirs := disk.files, disk.dirs;
      store := records;
    }

    /** Load or seed the queue and the seen set, and reset the counter (lines 33-47). */
    method Start(startUrl: Url, startFolder: string)
      requires Loadable(store) && Relative(startFolder)
      modifies this`queue, this`seen, this`count
      ensures State() == old(State()).(frontier := Load(store, startUrl, startFolder), count := 0)
    {
      match store.queueRecord {
        case None => queue := [Task(Parse(startFolder), startUrl)];
        case Some(rs) => queue := Decode(rs);
      }
      match store.seenRecord {
        case None => seen := {startUrl};
        case Some(urls) => seen := urls;
      }
      count := 0;
    }

    /** The gate of lines 78-80 and 85-87. */
    method Enqueue(t: Task)
      modifies this`queue, this`seen
      ensures Frontier(queue, seen) == Offer(old(Frontier(queue, seen)), t)
    {
      if t.url !in seen {
        seen := seen + {t.url};
        queue := queue + [t];
      }
    }

    /** Write both records: the queue first, then the seen set. */
    method SaveCheckpoint()
      modifies this`store
      ensures store == Save(Frontier(queue, seen))
    {
      store := store.(queueRecord := Some(Encode(queue)));
      store := store.(seenRecord := Some(seen));
    }

    /** Lines 72-80: offer one child task per usable primary link, in document order. */
    method OfferChildren(dir: Path, blocks: seq<Option<ChildLink>>)
      modifies this`queue, this`seen
      ensures Frontier(queue, seen) == OfferAll(old(Frontier(queue, seen)), ChildTasks(dir, blocks))
    {
      ghost var start := Frontier(queue, seen);
      var i := 0;
      while i < |blocks|
        invariant 0 <= i <= |blocks|
        invariant Frontier(queue, seen) == OfferAll(start, ChildTasks(dir, blocks[..i]))
      {
        OfferChildSnoc(start, dir, blocks[..i], blocks[i]);
        assert blocks[..i + 1] == blocks[..i] + [blocks[i]];
        match blocks[i] {
          case None =>
          case Some(link) =>
            Enqueue(ChildTask(dir, link));
        }
        i := i + 1;
      }
      assert blocks[..i] == blocks;
    }

    /** Lines 83-87: offer one task per pagination link, for the same directory. */
    method OfferPages(dir: Path, urls: seq<Url>)
      modifies this`queue, this`seen
      ensures Frontier(queue, seen) == OfferAll(old(Frontier(queue, seen)), PageTasks(dir, urls))
    {
      ghost var start := Frontier(queue, seen);
      var i := 0;
      while i < |urls|
        invariant 0 <= i <= |urls|
        invariant Frontier(queue, seen) == OfferAll(start, PageTasks(dir, urls[..i]))
      {
        PageTasksSnoc(dir, urls[..i], urls[i]);
        assert urls[..i + 1] == urls[..i] + [urls[i]];
        OfferAllSnoc(start, PageTasks(dir, urls[..i]), Task(dir, urls[i]));
        Enqueue(Task(dir, urls[i]));
        i := i + 1;
      }
      assert urls[..i] == urls;
    }

    /**
     * One iteration of the loop (lines 51-110). Returns the exception that
     * ends the run, if any; the state is then the one the exception leaves.
     */
    method Step(web: Web) returns (fault: Option<Fault>)
      requires queue != []
      modifies this
      ensures var r := Engine.Step(old(State()), web);
        if fault.None? then r == Next(State()) else r == Halt(fault.value, State())
    {
      ghost var c := State();
      var t := queue[|queue| - 1];
      count := count + 1;
      queue := queue[..|queue| - 1];
      ghost var popped := State();
      assert popped == c.(frontier := c.frontier.(queue := c.frontier.queue[..|c.frontier.queue| - 1]), count := c.count + 1);
      if t.path.parts != [] && (PdfOf(t.path) in files || PdfOf(t.path) in dirs) {
        assert Skipped(t, c.disk);
        return None;
      }
      assert Engine.Step(c, web) == Engine.Visit(popped, t, web);
      fault := Visit(t, web);
    }

    /** Lines 61-66: fetch the page of the popped task. */
    method Visit(t: Task, web: Web) returns (fault: Option<Fault>)
      modifies this
      ensures var r := Engine.Visit(old(State()), t, web);
        if fault.None? then r == Next(State()) else r == Halt(fault.value, State())
    {
      var response := web.fetch(t.url);
      if response.HttpError? {
        return Some(FetchFailed(t.url));
      }
      fault := Handle(t, response.page, web);
    }

    /** Lines 68-110: act on the fetched page by its kind, then checkpoint every tenth iteration. */
    method Handle(t: Task, page: Page, web: Web) returns (fault: Option<Fault>)
      modifies this
      ensures var r := Engine.Handle(old(State()), t, page, web);
        if fault.None? then r == Next(State()) else r == Halt(fault.value, State())
    {
      var kind := Classify(page.html);
      if kind == Container {
        dirs := dirs + Ancestors(t.path);
        OfferChildren(t.path, page.blocks);
        OfferPages(t.path, page.pagination);
      } else if kind == Asset && page.download.Some? {
        if t.path.parts == [] {
          return Some(EmptyName);
        }
        var pdf := PdfOf(t.path);
        if !web.download(page.download.value) {
          return Some(DownloadFailed(page.download.value));
        }
        dirs := dirs + Ancestors(Parent(t.path));
        files := files + {pdf};
      }
      if count % CHECKPOINT_EVERY == 0 {
        SaveCheckpoint();
      }
      return None;
    }

    /** The clean-up after the loop (lines 121-132). */
    method Finish()
      modifies this`store
      ensures store == Cleanup(old(store), Frontier(queue, seen))
    {
      if queue != [] {
        store := store.(queueRecord := Some(Encode(queue)));
      } else {
        store := store.(queueRecord := None);
      }
      store := store.(seenRecord := Some(seen));
      if queue == [] {
        store := store.(seenRecord := None);
      }
    }

    /**
     * `scrape` (lines 33-132) over a finite `bound` of URLs that holds the
     * loaded queue and every link of every container page in it. The run is
     * the one Engine.Run specifies; a completed run leaves no records, and an
     * interrupted one leaves records that reload as the frontier it held.
     */
    method Scrape(startUrl: Url, startFolder: string, web: Web, stop: nat -> bool, ghost bound: set<Url>)
      returns (outcome: Outcome)
      requires Loadable(store) && Relative(startFolder)
      requires Closed(web, bound) && UrlsOf(Load(store, startUrl, startFolder).queue) <= bound
      modifies this
      ensures var start := old(State()).(frontier := Load(old(store), startUrl, startFolder), count := 0);
        RunResult(outcome, State()) == Run(start, web, stop, bound)
      ensures outcome == Completed ==> queue == [] && store == NO_RECORDS
      ensures outcome == Interrupted ==> Loadable(store) && Load(store, startUrl, startFolder) == Frontier(queue, seen)
    {
      Start(startUrl, startFolder);
      ghost var start := State();
      while queue != []
        invariant UrlsOf(queue) <= bound && WellFormed(queue)
        invariant Run(State(), web, stop, bound) == Run(start, web, stop, bound)
        decreases Measure(Frontier(queue, seen), bound)
      {
        if stop(count) {
          SaveCheckpoint();
          ResumeRestores(Frontier(queue, seen), startUrl, startFolder);
          return Interrupted;
        }
        ghost var before := State();
        StepMeasure(before, web, bound);
        StepWellFormed(before, web);
        var fault := Step(web);
        if fault.Some? {
          return Failed(fault.value);
        }
      }
      Finish();
      return Completed;
    }
  }
}
