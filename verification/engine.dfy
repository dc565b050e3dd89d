/**
 * The crawl engine as a specification: one iteration of the `while queue`
 * loop of `scrape` (scraper.py, lines 50-110) as the function Step, and a
 * whole run, from the loaded frontier to its outcome, as the function Run.
 *
 * The network is the parameter `web`: a listing fetch that either fails
 * (`raise_for_status` raises) or yields a page, and a download that either
 * fails or succeeds. The filesystem is the set of files and the set of
 * directories that exist. The interrupt is the parameter
 * `stop`, polled with the iteration count at the top of each iteration.
 */
module Engine {
  import opened Wrappers
  import opened Sanitizer
  import opened Paths
  import opened Pages
  import opened Worklist
  import opened Checkpoint

  /** What the crawler sees of the filesystem: the files and the directories that exist. */
  datatype Disk = Disk(files: set<Path>, dirs: set<Path>)

  /** `Path.exists()`: true for a file and for a directory alike. */
  predicate Exists(p: Path, disk: Disk) {
    p in disk.files || p in disk.dirs
  }

  /** The result of a listing fetch. */
  datatype Response = HttpError | Ok(page: Page)

  /** The network: listing fetches, and downloads (`true` when the download succeeds). */
  datatype Web = Web(fetch: Url -> Response, download: Url -> bool)

  /** The state of a run: the frontier, the iteration counter, the disk and the records. */
  datatype Crawl = Crawl(frontier: Frontier, count: nat, disk: Disk, store: Store)

  /**
   * The exceptions that end a run: a failed listing fetch, `with_suffix` on
   * the path "." (an asset page at the start folder), a failed download.
   */
  datatype Fault = FetchFailed(url: Url) | EmptyName | DownloadFailed(url: Url)

  /** An iteration either continues the loop or raises, leaving the state `at`. */
  datatype StepResult = Next(after: Crawl) | Halt(fault: Fault, at: Crawl)

  datatype Outcome = Completed | Interrupted | Failed(fault: Fault)

  datatype RunResult = RunResult(outcome: Outcome, final: Crawl)

  const CHECKPOINT_EVERY := 10

  /** The segment a child link's text becomes: `sanitize(text or 'untitled')`. */
  function Title(text: string): (title: string)
    ensures '/' !in title
    ensures NoReserved(title) && Trimmed(title)
  {
    var title := Sanitize(if text == "" then "untitled" else text);
    assert forall i :: 0 <= i < |title| ==> title[i] != '/';
    title
  }

  /** The usable primary links of the blocks, in document order. */
  function Links(blocks: seq<Option<ChildLink>>): seq<ChildLink>
    decreases |blocks|
  {
    if blocks == [] then []
    else Links(blocks[..|blocks| - 1]) + match blocks[|blocks| - 1] case None => [] case Some(l) => [l]
  }

  /** The task of one child link: its href, targeting `dir / title`. */
  function ChildTask(dir: Path, link: ChildLink): Task {
    Task(Join(dir, Title(link.text)), link.href)
  }

  /** One child task per usable link, in document order. */
  function ChildTasks(dir: Path, blocks: seq<Option<ChildLink>>): seq<Task> {
    var links := Links(blocks);
    seq(|links|, i requires 0 <= i < |links| => ChildTask(dir, links[i]))
  }

  /** One task per pagination link, targeting the same `dir`. */
  function PageTasks(dir: Path, urls: seq<Url>): seq<Task> {
    seq(|urls|, i requires 0 <= i < |urls| => Task(dir, urls[i]))
  }

  /** The container expansion: child links first, then pagination links, through the gate. */
  function Expand(f: Frontier, dir: Path, page: Page): Frontier {
    OfferAll(OfferAll(f, ChildTasks(dir, page.blocks)), PageTasks(dir, page.pagination))
  }

  /** Every URL a container page links to. */
  function LinkUrls(page: Page): set<Url> {
    var links := Links(page.blocks);
    (set i | 0 <= i < |links| :: links[i].href) + (set i | 0 <= i < |page.pagination| :: page.pagination[i])
  }

  /**
   * The skip rule: a task below the start folder is dropped when something,
   * a file or a directory, exists at its `.pdf` path.
   */
  predicate Skipped(t: Task, disk: Disk) {
    t.path.parts != [] && Exists(PdfOf(t.path), disk)
  }

  /** The periodic checkpoint at the end of a completed iteration. */
  function Checkpointed(c: Crawl): Crawl {
    if c.count % CHECKPOINT_EVERY == 0 then c.(store := Save(c.frontier)) else c
  }

  /** One iteration of the loop (lines 51-110), on a non-empty queue. */
  function Step(c: Crawl, web: Web): StepResult
    requires c.frontier.queue != []
  {
    var q := c.frontier.queue;
    var t := q[|q| - 1];
    var popped := c.(frontier := c.frontier.(queue := q[..|q| - 1]), count := c.count + 1);
    if Skipped(t, c.disk) then Next(popped) else Visit(popped, t, web)
  }

  /** Fetch the popped task's page (lines 61-66); a failed fetch ends the run. */
  function Visit(c: Crawl, t: Task, web: Web): StepResult {
    match web.fetch(t.url)
    case HttpError => Halt(FetchFailed(t.url), c)
    case Ok(page) => Handle(c, t, page, web)
  }

  /** Act on a fetched page by its kind (lines 68-110), then checkpoint on the cadence. */
  function Handle(c: Crawl, t: Task, page: Page, web: Web): StepResult {
    match Classify(page.html)
    case Container =>
      var disk := c.disk.(dirs := c.disk.dirs + Ancestors(t.path));
      Next(Checkpointed(c.(frontier := Expand(c.frontier, t.path, page), disk := disk)))
    case Asset =>
      if page.download.None? then Next(Checkpointed(c))
      else if t.path.parts == [] then Halt(EmptyName, c)
      else if !web.download(page.download.value) then Halt(DownloadFailed(page.download.value), c)
      else
        var disk := Disk(c.disk.files + {PdfOf(t.path)}, c.disk.dirs + Ancestors(Parent(t.path)));
        Next(Checkpointed(c.(disk := disk)))
    case Unknown => Next(Checkpointed(c))
  }

  /** The state an iteration leaves, whether it continues or raises. */
  function StepState(r: StepResult): Crawl {
    match r
    case Next(after) => after
    case Halt(_, at) => at
  }

  /** Every container page reachable from `bound` links only into `bound`. */
  ghost predicate Closed(web: Web, bound: set<Url>) {
    forall u :: u in bound && web.fetch(u).Ok? && Classify(web.fetch(u).page.html) == Container ==>
      LinkUrls(web.fetch(u).page) <= bound
  }

  /** The termination measure of the loop. */
  function Measure(f: Frontier, bound: set<Url>): nat {
    |bound - f.seen| + |f.queue|
  }

  lemma LinksSnoc(blocks: seq<Option<ChildLink>>, b: Option<ChildLink>)
    ensures Links(blocks + [b]) == Links(blocks) + match b case None => [] case Some(l) => [l]
  {
    assert (blocks + [b])[..|blocks|] == blocks;
  }

  lemma ChildTasksSnoc(dir: Path, blocks: seq<Option<ChildLink>>, b: Option<ChildLink>)
    ensures ChildTasks(dir, blocks + [b]) ==
      ChildTasks(dir, blocks) + match b case None => [] case Some(l) => [ChildTask(dir, l)]
  {
    LinksSnoc(blocks, b);
  }

  /** Offering the child tasks of one more block is one more offer, or none for a block without a link. */
  lemma OfferChildSnoc(f: Frontier, dir: Path, blocks: seq<Option<ChildLink>>, b: Option<ChildLink>)
    ensures OfferAll(f, ChildTasks(dir, blocks + [b])) ==
      match b case None => OfferAll(f, ChildTasks(dir, blocks)) case Some(l) => Offer(OfferAll(f, ChildTasks(dir, blocks)), ChildTask(dir, l))
  {
    ChildTasksSnoc(dir, blocks, b);
    var cs := ChildTasks(dir, blocks);
    match b {
      case None =>
        assert cs + [] == cs;
      case Some(l) =>
        OfferAllSnoc(f, cs, ChildTask(dir, l));
    }
  }

  lemma PageTasksSnoc(dir: Path, urls: seq<Url>, u: Url)
    ensures PageTasks(dir, urls + [u]) == PageTasks(dir, urls) + [Task(dir, u)]
  {
  }

  lemma OfferAllSnoc(f: Frontier, ts: seq<Task>, t: Task)
    ensures OfferAll(f, ts + [t]) == Offer(OfferAll(f, ts), t)
  {
    assert (ts + [t])[..|ts|] == ts;
  }

  /** Offering two lists one after the other is offering their concatenation. */
  lemma {:induction false} OfferAllConcat(f: Frontier, a: seq<Task>, b: seq<Task>)
    ensures OfferAll(OfferAll(f, a), b) == OfferAll(f, a + b)
    decreases |b|
  {
    if b == [] {
      assert a + b == a;
    } else {
      var init, t := b[..|b| - 1], b[|b| - 1];
      assert b == init + [t];
      OfferAllConcat(f, a, init);
      assert a + b == (a + init) + [t];
      OfferAllSnoc(f, a + init, t);
    }
  }

  /** The URLs of a page's tasks are its link URLs, whatever the target directory. */
  lemma ChildTaskUrls(dir: Path, blocks: seq<Option<ChildLink>>)
    ensures var links := Links(blocks);
      UrlsOf(ChildTasks(dir, blocks)) == set i | 0 <= i < |links| :: links[i].href
  {
    var links := Links(blocks);
    var cs := ChildTasks(dir, blocks);
    forall u | u in (set i | 0 <= i < |links| :: links[i].href)
      ensures u in UrlsOf(cs)
    {
      var i :| 0 <= i < |links| && links[i].href == u;
      assert cs[i].url == u;
    }
  }

  lemma PageTaskUrls(dir: Path, urls: seq<Url>)
    ensures UrlsOf(PageTasks(dir, urls)) == set i | 0 <= i < |urls| :: urls[i]
  {
    var ps := PageTasks(dir, urls);
    forall u | u in (set i | 0 <= i < |urls| :: urls[i])
      ensures u in UrlsOf(ps)
    {
      var i :| 0 <= i < |urls| && urls[i] == u;
      assert ps[i].url == u;
    }
  }

  /** The URLs of a page's tasks are exactly its link URLs. */
  lemma TaskUrls(dir: Path, page: Page)
    ensures UrlsOf(ChildTasks(dir, page.blocks) + PageTasks(dir, page.pagination)) == LinkUrls(page)
  {
    UrlsOfConcat(ChildTasks(dir, page.blocks), PageTasks(dir, page.pagination));
    ChildTaskUrls(dir, page.blocks);
    PageTaskUrls(dir, page.pagination);
  }

  /** Child and pagination tasks of a well-formed directory have well-formed paths. */
  lemma ChildTasksWellFormed(dir: Path, page: Page)
    requires ValidPath(dir)
    ensures WellFormed(ChildTasks(dir, page.blocks) + PageTasks(dir, page.pagination))
  {
    var cs, ps := ChildTasks(dir, page.blocks), PageTasks(dir, page.pagination);
    var all := cs + ps;
    forall i | 0 <= i < |all|
      ensures ValidPath(all[i].path)
    {
      if i < |cs| {
        assert all[i] == cs[i];
      } else {
        assert all[i] == ps[i - |cs|];
      }
    }
  }

  /**
   * A container page appends, after the rest of the queue, the reference
   * NewTasks of its child tasks followed by its pagination tasks: children
   * target `dir / title`, pagination keeps `dir`, both in document order,
   * and only URLs not seen before are taken.
   */
  lemma ExpandAppends(f: Frontier, dir: Path, page: Page)
    ensures var ts := ChildTasks(dir, page.blocks) + PageTasks(dir, page.pagination);
      Expand(f, dir, page) == Frontier(f.queue + NewTasks(f.seen, ts), f.seen + LinkUrls(page))
  {
    var ts := ChildTasks(dir, page.blocks) + PageTasks(dir, page.pagination);
    OfferAllConcat(f, ChildTasks(dir, page.blocks), PageTasks(dir, page.pagination));
    OfferAllAppendsNewTasks(f, ts);
    TaskUrls(dir, page);
  }

  lemma PopConsistent(f: Frontier)
    requires f.queue != [] && Consistent(f) && WellFormed(f.queue)
    ensures var g := f.(queue := f.queue[..|f.queue| - 1]);
      Consistent(g) && WellFormed(g.queue)
  {
    var q := f.queue;
    var rest := q[..|q| - 1];
    assert forall i :: 0 <= i < |rest| ==> rest[i] == q[i];
    assert UrlsOf(rest) <= UrlsOf(q);
  }

  lemma PopMeasure(f: Frontier, bound: set<Url>)
    requires f.queue != [] && UrlsOf(f.queue) <= bound
    ensures var g := f.(queue := f.queue[..|f.queue| - 1]);
      UrlsOf(g.queue) <= bound && Measure(g, bound) + 1 == Measure(f, bound)
  {
    var q := f.queue;
    var rest := q[..|q| - 1];
    assert forall i :: 0 <= i < |rest| ==> rest[i] == q[i];
  }

  /** The expansion keeps the frontier consistent and well-formed, and grows queue and seen set together. */
  lemma ExpandInvariant(f: Frontier, dir: Path, page: Page)
    requires Consistent(f) && WellFormed(f.queue) && ValidPath(dir)
    ensures var g := Expand(f, dir, page);
      Consistent(g) && WellFormed(g.queue) && f.seen <= g.seen &&
      |g.queue| - |f.queue| == |g.seen| - |f.seen|
  {
    var cs, ps := ChildTasks(dir, page.blocks), PageTasks(dir, page.pagination);
    var ts := cs + ps;
    var g := Expand(f, dir, page);
    OfferAllConcat(f, cs, ps);
    OfferAllConsistent(f, ts);
    OfferAllGrowsTogether(f, ts);
    OfferAllAppendsNewTasks(f, ts);
    NewTasksFresh(f.seen, ts);
    ChildTasksWellFormed(dir, page);
    var added := NewTasks(f.seen, ts);
    assert g.queue == f.queue + added;
    forall i | 0 <= i < |g.queue|
      ensures ValidPath(g.queue[i].path)
    {
      if i >= |f.queue| {
        assert g.queue[i] == added[i - |f.queue|];
      }
    }
  }

  /** The expansion keeps the queued paths well-formed, whatever the frontier held before. */
  lemma ExpandWellFormed(f: Frontier, dir: Path, page: Page)
    requires WellFormed(f.queue) && ValidPath(dir)
    ensures WellFormed(Expand(f, dir, page).queue)
  {
    var ts := ChildTasks(dir, page.blocks) + PageTasks(dir, page.pagination);
    var g := Expand(f, dir, page);
    ExpandAppends(f, dir, page);
    NewTasksFresh(f.seen, ts);
    ChildTasksWellFormed(dir, page);
    var added := NewTasks(f.seen, ts);
    forall i | 0 <= i < |g.queue|
      ensures ValidPath(g.queue[i].path)
    {
      if i >= |f.queue| {
        assert g.queue[i] == added[i - |f.queue|];
      }
    }
  }

  /** Within a closed `bound`, the expansion of a page at a URL of `bound` keeps the measure. */
  lemma ExpandMeasure(f: Frontier, dir: Path, page: Page, bound: set<Url>)
    requires UrlsOf(f.queue) <= bound && LinkUrls(page) <= bound
    ensures var g := Expand(f, dir, page);
      UrlsOf(g.queue) <= bound && Measure(g, bound) == Measure(f, bound) &&
      (f.seen <= bound ==> g.seen <= bound)
  {
    var cs, ps := ChildTasks(dir, page.blocks), PageTasks(dir, page.pagination);
    var ts := cs + ps;
    var g := Expand(f, dir, page);
    TaskUrls(dir, page);
    OfferAllConcat(f, cs, ps);
    OfferAllKeepsMeasure(f, ts, bound);
    OfferAllAppendsNewTasks(f, ts);
    NewTasksFresh(f.seen, ts);
    UrlsOfConcat(f.queue, NewTasks(f.seen, ts));
  }

  /** The iteration of task `t` fetches a container page and expands it. */
  predicate Expanding(t: Task, disk: Disk, web: Web) {
    !Skipped(t, disk) && web.fetch(t.url).Ok? && Classify(web.fetch(t.url).page.html) == Container
  }

  lemma HandleFrontier(c: Crawl, t: Task, page: Page, web: Web)
    ensures var d := StepState(Handle(c, t, page, web));
      d.count == c.count &&
      d.frontier == (if Classify(page.html) == Container then Expand(c.frontier, t.path, page) else c.frontier)
  {
  }

  /** An iteration pops the last task and expands it when it is a container page, and counts once. */
  lemma StepFrontier(c: Crawl, web: Web)
    requires c.frontier.queue != []
    ensures var q := c.frontier.queue;
      var t := q[|q| - 1];
      var rest := c.frontier.(queue := q[..|q| - 1]);
      var d := StepState(Step(c, web));
      d.count == c.count + 1 &&
      d.frontier == (if Expanding(t, c.disk, web) then Expand(rest, t.path, web.fetch(t.url).page) else rest)
  {
    var q := c.frontier.queue;
    var t := q[|q| - 1];
    var popped := c.(frontier := c.frontier.(queue := q[..|q| - 1]), count := c.count + 1);
    if !Skipped(t, c.disk) && web.fetch(t.url).Ok? {
      HandleFrontier(popped, t, web.fetch(t.url).page, web);
    }
  }

  /**
   * One iteration keeps the frontier consistent (every queued URL seen, none
   * queued twice) and its paths well-formed; the seen set only grows; and
   * `count + |queue| - |seen|` does not change, since every task appended
   * brings exactly one new URL.
   */
  lemma StepInvariant(c: Crawl, web: Web)
    requires c.frontier.queue != [] && Consistent(c.frontier) && WellFormed(c.frontier.queue)
    ensures var d := StepState(Step(c, web));
      Consistent(d.frontier) && WellFormed(d.frontier.queue) && c.frontier.seen <= d.frontier.seen &&
      d.count + |d.frontier.queue| - |d.frontier.seen| == c.count + |c.frontier.queue| - |c.frontier.seen|
  {
    var q := c.frontier.queue;
    var t := q[|q| - 1];
    var popped := c.frontier.(queue := q[..|q| - 1]);
    PopConsistent(c.frontier);
    StepFrontier(c, web);
    if Expanding(t, c.disk, web) {
      ExpandInvariant(popped, t.path, web.fetch(t.url).page);
    }
  }

  /** An iteration keeps the queued paths well-formed, whether or not the frontier is consistent. */
  lemma StepWellFormed(c: Crawl, web: Web)
    requires c.frontier.queue != [] && WellFormed(c.frontier.queue)
    ensures WellFormed(StepState(Step(c, web)).frontier.queue)
  {
    var q := c.frontier.queue;
    var t := q[|q| - 1];
    var popped := c.frontier.(queue := q[..|q| - 1]);
    assert forall i :: 0 <= i < |popped.queue| ==> popped.queue[i] == q[i];
    StepFrontier(c, web);
    if Expanding(t, c.disk, web) {
      ExpandWellFormed(popped, t.path, web.fetch(t.url).page);
    }
  }

  /**
   * Within a closed `bound` that holds every queued URL, an iteration keeps
   * every queued URL inside `bound` and lowers |bound - seen| + |queue| by
   * exactly one: the loop terminates when the reachable URLs are finite.
   */
  lemma StepMeasure(c: Crawl, web: Web, bound: set<Url>)
    requires c.frontier.queue != [] && Closed(web, bound) && UrlsOf(c.frontier.queue) <= bound
    ensures var d := StepState(Step(c, web));
      UrlsOf(d.frontier.queue) <= bound && Measure(d.frontier, bound) + 1 == Measure(c.frontier, bound) &&
      (c.frontier.seen <= bound ==> d.frontier.seen <= bound)
  {
    var q := c.frontier.queue;
    var t := q[|q| - 1];
    var popped := c.frontier.(queue := q[..|q| - 1]);
    PopMeasure(c.frontier, bound);
    StepFrontier(c, web);
    if Expanding(t, c.disk, web) {
      assert t.url in UrlsOf(q);
      ExpandMeasure(popped, t.path, web.fetch(t.url).page, bound);
    }
  }

  lemma HandleStore(c: Crawl, t: Task, page: Page, web: Web)
    ensures var r := Handle(c, t, page, web);
      (r.Halt? ==> r.at == c) &&
      (r.Next? ==> r.after.store == (if c.count % CHECKPOINT_EVERY == 0 then Save(r.after.frontier) else c.store))
  {
  }

  /**
   * The records change only through a checkpoint: an iteration that raises
   * leaves records and disk as they were; one that continues has saved its
   * final frontier exactly when it was not skipped and its count is a
   * multiple of ten.
   */
  lemma StepStore(c: Crawl, web: Web)
    requires c.frontier.queue != []
    ensures var r := Step(c, web);
      var t := c.frontier.queue[|c.frontier.queue| - 1];
      (r.Halt? ==> r.at.store == c.store && r.at.disk == c.disk) &&
      (r.Next? ==>
         (r.after.store == (if !Skipped(t, c.disk) && (c.count + 1) % CHECKPOINT_EVERY == 0 then Save(r.after.frontier) else c.store)))
  {
    var q := c.frontier.queue;
    var t := q[|q| - 1];
    var popped := c.(frontier := c.frontier.(queue := q[..|q| - 1]), count := c.count + 1);
    if Skipped(t, c.disk) {
      assert Step(c, web) == Next(popped);
    } else if web.fetch(t.url).HttpError? {
      assert Step(c, web) == Halt(FetchFailed(t.url), popped);
    } else {
      assert Step(c, web) == Handle(popped, t, web.fetch(t.url).page, web);
      HandleStore(popped, t, web.fetch(t.url).page, web);
    }
  }

  /**
   * Iterations without effect: a skipped task, an unknown page, and an asset
   * page without a download link each consume the popped task and leave the
   * rest of the queue, the seen set and the disk as they were.
   */
  lemma StepWithoutEffect(c: Crawl, web: Web)
    requires c.frontier.queue != []
    requires var t := c.frontier.queue[|c.frontier.queue| - 1];
      Skipped(t, c.disk) ||
      (web.fetch(t.url).Ok? && Classify(web.fetch(t.url).page.html) == Unknown) ||
      (web.fetch(t.url).Ok? && Classify(web.fetch(t.url).page.html) == Asset && web.fetch(t.url).page.download.None?)
    ensures var r := Step(c, web);
      var q := c.frontier.queue;
      r.Next? && r.after.frontier == Frontier(q[..|q| - 1], c.frontier.seen) &&
      r.after.disk == c.disk && r.after.count == c.count + 1
  {
  }

  /** Handling a page only adds to the disk. */
  lemma HandleDiskGrows(c: Crawl, t: Task, page: Page, web: Web)
    ensures var d := StepState(Handle(c, t, page, web)).disk;
      c.disk.files <= d.files && c.disk.dirs <= d.dirs
  {
    match Classify(page.html)
    case Container =>
    case Asset =>
    case Unknown =>
  }

  /** An iteration only adds to the disk: nothing that exists stops existing. */
  lemma StepDiskGrows(c: Crawl, web: Web)
    requires c.frontier.queue != []
    ensures var d := StepState(Step(c, web)).disk;
      c.disk.files <= d.files && c.disk.dirs <= d.dirs
  {
    var q := c.frontier.queue;
    var t := q[|q| - 1];
    var popped := c.(frontier := c.frontier.(queue := q[..|q| - 1]), count := c.count + 1);
    if !Skipped(t, c.disk) && web.fetch(t.url).Ok? {
      assert Step(c, web) == Handle(popped, t, web.fetch(t.url).page, web);
      HandleDiskGrows(popped, t, web.fetch(t.url).page, web);
    }
  }

  /**
   * A folder whose own name already has the `.pdf` suffix (say "Report.pdf")
   * is created at exactly its `.pdf` path, so once its page is handled every
   * task for that folder, its pagination pages included, is skipped.
   */
  lemma PdfNamedFolderSkipsItsPages(c: Crawl, t: Task, page: Page, web: Web)
    requires t.path.parts != [] && PdfOf(t.path) == t.path && Classify(page.html) == Container
    ensures var d := StepState(Handle(c, t, page, web));
      forall u :: Skipped(Task(t.path, u), d.disk)
  {
    assert t.path in Ancestors(t.path);
  }

  /**
   * A whole run from `c`: the loop ends with an empty queue (the records are
   * then cleaned up), with an interrupt polled at the top of an iteration
   * (the frontier is then saved), or with an iteration that raises.
   */
  ghost function Run(c: Crawl, web: Web, stop: nat -> bool, bound: set<Url>): RunResult
    requires Closed(web, bound) && UrlsOf(c.frontier.queue) <= bound
    decreases Measure(c.frontier, bound)
  {
    if c.frontier.queue == [] then RunResult(Completed, c.(store := Cleanup(c.store, c.frontier)))
    else if stop(c.count) then RunResult(Interrupted, c.(store := Save(c.frontier)))
    else
      StepMeasure(c, web, bound);
      match Step(c, web)
      case Halt(fault, at) => RunResult(Failed(fault), at)
      case Next(after) => Run(after, web, stop, bound)
  }

  /**
   * What every run keeps: the frontier stays consistent and well-formed,
   * the seen set only grows, and it stays within `bound` if it started there.
   */
  lemma {:induction false} RunInvariant(c: Crawl, web: Web, stop: nat -> bool, bound: set<Url>)
    requires Closed(web, bound) && UrlsOf(c.frontier.queue) <= bound
    requires Consistent(c.frontier) && WellFormed(c.frontier.queue)
    ensures var d := Run(c, web, stop, bound).final;
      Consistent(d.frontier) && WellFormed(d.frontier.queue) && c.frontier.seen <= d.frontier.seen &&
      (c.frontier.seen <= bound ==> d.frontier.seen <= bound)
    decreases Measure(c.frontier, bound)
  {
    if c.frontier.queue != [] && !stop(c.count) {
      StepMeasure(c, web, bound);
      StepInvariant(c, web);
      match Step(c, web)
      case Halt(_, _) =>
      case Next(after) =>
        assert Run(c, web, stop, bound) == Run(after, web, stop, bound);
        RunInvariant(after, web, stop, bound);
    }
  }

  /**
   * What every run balances: `count + |queue| - |seen|` and `count + Measure`
   * are the same at the end as at the start, since each iteration counts
   * once, and adds as many tasks as new URLs while it lowers the measure by one.
   */
  lemma {:induction false} RunBalance(c: Crawl, web: Web, stop: nat -> bool, bound: set<Url>)
    requires Closed(web, bound) && UrlsOf(c.frontier.queue) <= bound
    requires Consistent(c.frontier) && WellFormed(c.frontier.queue)
    ensures var d := Run(c, web, stop, bound).final;
      d.count + |d.frontier.queue| - |d.frontier.seen| == c.count + |c.frontier.queue| - |c.frontier.seen| &&
      d.count + Measure(d.frontier, bound) == c.count + Measure(c.frontier, bound)
    decreases Measure(c.frontier, bound)
  {
    if c.frontier.queue != [] && !stop(c.count) {
      StepMeasure(c, web, bound);
      StepInvariant(c, web);
      match Step(c, web)
      case Halt(_, _) =>
      case Next(after) =>
        StepFrontier(c, web);
        assert Run(c, web, stop, bound) == Run(after, web, stop, bound);
        RunBalance(after, web, stop, bound);
        var m, m' := Measure(c.frontier, bound), Measure(after.frontier, bound);
        assert after.count == c.count + 1 && m' + 1 == m;
    }
  }

  /**
   * How a run ends: a completed run has an empty queue and no records left;
   * an interrupted run has pending work and has saved exactly its frontier.
   */
  lemma {:induction false} RunOutcome(c: Crawl, web: Web, stop: nat -> bool, bound: set<Url>)
    requires Closed(web, bound) && UrlsOf(c.frontier.queue) <= bound
    ensures var r := Run(c, web, stop, bound);
      (r.outcome == Completed ==> r.final.frontier.queue == [] && r.final.store == NO_RECORDS) &&
      (r.outcome == Interrupted ==> r.final.frontier.queue != [] && r.final.store == Save(r.final.frontier))
    decreases Measure(c.frontier, bound)
  {
    if c.frontier.queue != [] && !stop(c.count) {
      StepMeasure(c, web, bound);
      match Step(c, web)
      case Halt(_, _) =>
      case Next(after) => RunOutcome(after, web, stop, bound);
    }
  }

  /**
   * A fresh run (no records) over a closed `bound` that holds the start URL
   * queues only URLs of `bound` and iterates at most |bound| times; when it
   * completes, it has iterated exactly once per URL it ever queued, so no
   * URL was queued twice.
   */
  lemma FreshRun(startUrl: Url, startFolder: string, disk: Disk, web: Web, stop: nat -> bool, bound: set<Url>)
    requires Relative(startFolder) && Closed(web, bound) && startUrl in bound
    ensures var c := Crawl(Load(NO_RECORDS, startUrl, startFolder), 0, disk, NO_RECORDS);
      UrlsOf(c.frontier.queue) <= bound &&
      var r := Run(c, web, stop, bound);
      r.final.frontier.seen <= bound && r.final.count <= |bound| &&
      (r.outcome == Completed ==> r.final.count == |r.final.frontier.seen|)
  {
    var c := Crawl(Load(NO_RECORDS, startUrl, startFolder), 0, disk, NO_RECORDS);
    FreshStart(startUrl, startFolder);
    assert UrlsOf(c.frontier.queue) == {startUrl} by {
      assert c.frontier.queue[0].url == startUrl;
    }
    RunInvariant(c, web, stop, bound);
    RunBalance(c, web, stop, bound);
    RunOutcome(c, web, stop, bound);
    var r := Run(c, web, stop, bound);
    var d := r.final;
    assert |c.frontier.queue| == |c.frontier.seen| == 1;
    assert d.count + |d.frontier.queue| == |d.frontier.seen|;
    assert Measure(c.frontier, bound) == |bound| by {
      assert bound - c.frontier.seen == bound - {startUrl};
      assert |bound - {startUrl}| == |bound| - 1;
    }
    assert d.count + Measure(d.frontier, bound) == |bound|;
  }

  /** After an interrupt, the next run starts from exactly the frontier the interrupted run held. */
  lemma InterruptResumes(c: Crawl, web: Web, stop: nat -> bool, bound: set<Url>, startUrl: Url, startFolder: string)
    requires Closed(web, bound) && UrlsOf(c.frontier.queue) <= bound
    requires Consistent(c.frontier) && WellFormed(c.frontier.queue) && Relative(startFolder)
    ensures var r := Run(c, web, stop, bound);
      r.outcome == Interrupted ==>
        Loadable(r.final.store) && Load(r.final.store, startUrl, startFolder) == r.final.frontier
  {
    var r := Run(c, web, stop, bound);
    RunInvariant(c, web, stop, bound);
    RunOutcome(c, web, stop, bound);
    if r.outcome == Interrupted {
      ResumeRestores(r.final.frontier, startUrl, startFolder);
    }
  }

  /**
   * The state the handler of the interrupt leaves when the interrupt arrives
   * after the pop of an iteration, during its fetch say: the popped task is
   * in neither the saved queue nor the unsaved work, while its URL is saved
   * as seen.
   */
  function InterruptAfterPop(c: Crawl): Crawl
    requires c.frontier.queue != []
  {
    var q := c.frontier.queue;
    var popped := c.(frontier := c.frontier.(queue := q[..|q| - 1]), count := c.count + 1);
    popped.(store := Save(popped.frontier))
  }

  /**
   * An interrupt after the pop loses the popped task: the reloaded frontier
   * has its URL in the seen set but not in the queue, and since the gate
   * never admits a seen URL, no later expansion queues it again.
   */
  lemma InterruptAfterPopLosesTask(c: Crawl, startUrl: Url, startFolder: string)
    requires c.frontier.queue != [] && Consistent(c.frontier) && WellFormed(c.frontier.queue) && Relative(startFolder)
    ensures Loadable(InterruptAfterPop(c).store)
    ensures var t := c.frontier.queue[|c.frontier.queue| - 1];
      var f := Load(InterruptAfterPop(c).store, startUrl, startFolder);
      t.url in f.seen && t.url !in UrlsOf(f.queue) &&
      forall ts :: t.url !in UrlsOf(OfferAll(f, ts).queue)
  {
    var q := c.frontier.queue;
    var t := q[|q| - 1];
    var rest := c.frontier.(queue := q[..|q| - 1]);
    PopConsistent(c.frontier);
    ResumeRestores(rest, startUrl, startFolder);
    assert t.url !in UrlsOf(rest.queue) by {
      assert forall i :: 0 <= i < |rest.queue| ==> rest.queue[i] == q[i];
    }
    forall ts: seq<Task>
      ensures t.url !in UrlsOf(OfferAll(rest, ts).queue)
    {
      OfferAllAppendsNewTasks(rest, ts);
      NewTasksUrls(rest.seen, ts);
      UrlsOfConcat(rest.queue, NewTasks(rest.seen, ts));
    }
  }
}
