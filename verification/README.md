# A verified model of the archive crawler's engine

`scraper.py` crawls a digital archive. It starts from one listing URL and
walks a LIFO work list of `(path, url)` tasks. It classifies every fetched
page by marker text:
- a folder or complete-archive page queues its children and its
  pagination links;
- an asset page downloads its PDF next to the folder tree;
- any other page is only reported.

Every URL ever queued is remembered in a seen set, so nothing is queued
twice. Every tenth iteration it checkpoints the work list and the seen set
to two records, `queue.json` and `seen.json`. A run started later resumes
from those records. A run that ends with nothing left to do deletes both.

This project models that engine in Dafny and proves what it promises:
- **`Sanitizer`** (sanitize.dfy): the title sanitizer. Each run of reserved
  characters becomes one `_`, then `str.strip()` trims whitespace.
- **`Paths`** (paths.dfy): the `pathlib` operations the crawler uses on
  relative POSIX paths:
  - `Path(s)`, `str(p)`, `p / name`, `p.parent`;
  - `p.with_suffix('.pdf')`.
- **`Pages`** (pages.dfy): a fetched page, as the engine sees it, and the
  marker classifier.
- **`Worklist`** (worklist.dfy): the frontier, i.e. the queue plus the seen
  set, and the single de-duplication gate through which all work is added.
- **`Checkpoint`** (checkpoint.dfy): the two records, how a run starts from
  them, how it saves them, and the final clean-up.
- **`Engine`** (engine.dfy): one iteration of the loop as the function
  `Step`, and a whole run as the function `Run`. Run ends in one of three
  ways: it completes, an interrupt is polled, or an exception ends it.
- **`Scraper`** (crawler.dfy): the class `Crawler`. Its fields are the
  queue, the seen set, the counter, the disk and the records, and its
  methods update them in place as `scrape` does. Each method is proved
  equal to the corresponding function of `Worklist` (the gate `Offer` and
  `OfferAll`), `Engine` or `Checkpoint`.

The outside world becomes parameters:
- the web is a `Web` value: a page (or an HTTP error) per URL, and the
  success of each download;
- the disk is the set of files and the set of directories that exist.
  `exists()` holds for either, and `mkdir(parents=True)` makes a directory
  together with every directory above it;
- an interrupt is a predicate on the iteration counter, polled at the top
  of each iteration.

A page is given with its links already selected and resolved:
- one entry per `post-N` block;
- the pagination links;
- the download link.

Termination of a run is proved over a finite set of URLs `bound` that is
closed under the links of container pages. Each iteration lowers
`|bound - seen| + |queue|` by exactly one.

## Model

| member | source | states |
|---|---|---|
| Sanitizer.Sanitize | scraper.py:12-13 | the sanitized title contains none of the nine reserved characters (backslash, slash, colon, double quote, star, question mark, angle brackets, vertical bar) and has no whitespace at either end |
| Sanitizer.CollapseRun | scraper.py:13 | a maximal run of reserved characters between two ordinary parts becomes exactly one `_`, and the parts on either side are substituted independently |
| Sanitizer.CollapseKeeps | scraper.py:13 | a string without reserved characters is left unchanged by the substitution |
| Sanitizer.Collapse | scraper.py:13 | the substitution leaves no reserved character and never lengthens the string |
| Sanitizer.Strip | scraper.py:13 | `str.strip()` yields a string with no whitespace at either end, and leaves an already trimmed string as it is |
| Sanitizer.StripRemovesSpace | scraper.py:13 | `str.strip()` keeps one slice of its input, and everything it removes before and after that slice is whitespace |
| Sanitizer.SanitizeIdempotent | scraper.py:12-13 | sanitizing twice gives the same string as sanitizing once |
| Paths.Parse | scraper.py:35-37 | `Path(s)` of a relative string has only non-empty segments that are not "." and contain no separator |
| Paths.ParseRender | scraper.py:107 | joining valid segments with "/" and splitting the text again gives back the same segments |
| Paths.ParseFormat | scraper.py:37 | `Path(str(p)) == p` for every path the crawler can build, so a path survives the queue record |
| Paths.Join | scraper.py:80 | `path / title` appends the title as one more segment, except an empty title or "." which leaves the path unchanged |
| Paths.Parent | scraper.py:97 | `path.parent` drops the last segment, and the parent of "." is "." |
| Paths.SuffixStart | scraper.py:58 | the suffix of a name starts at its last dot when that dot is neither the first nor the last character; a name has no suffix exactly when its last dot, if any, is first or last |
| Paths.PdfName | scraper.py:58 | the new name is the name without its suffix followed by ".pdf", so it ends in ".pdf", and it stays a valid segment |
| Paths.Ancestors | scraper.py:69 | the directories `mkdir(parents=True)` leaves existing are exactly the path and every path whose segments are a prefix of its segments |
| Paths.PdfOf | scraper.py:58 | `path.with_suffix('.pdf')` keeps the parent and the number of segments and renames only the last segment |
| Pages.ContainsAt | scraper.py:68 | `marker in html` holds exactly when the marker occurs at some index of the text |
| Pages.Classify | scraper.py:68-101 | a page is a container exactly when it carries the folder or the complete-archive marker; it is an asset exactly when it carries neither and carries the asset marker; otherwise it is unknown |
| Pages.ContainerWins | scraper.py:68 | a page that carries both the archive and the asset marker, in either order, is a container |
| Worklist.OfferAllAppendsNewTasks | scraper.py:78-87 | offering tasks through the gate appends to the end of the queue exactly the reference list of tasks, in order, whose URL is neither seen nor taken by an earlier task, and adds every offered URL to the seen set |
| Worklist.NewTasksUnseen | scraper.py:78-87 | every task the gate appends is one of the offered tasks, with a URL that was not seen |
| Worklist.NewTasksDistinct | scraper.py:78-87 | no two tasks the gate appends share a URL |
| Worklist.NewTasksUrls | scraper.py:78-87 | the URLs the gate appends are exactly the offered URLs that were not already seen |
| Worklist.NewTasksFresh | scraper.py:78-87 | everything the gate appends is fresh: taken from the offered tasks, not seen before, pairwise distinct in URL, and covering every unseen offered URL |
| Worklist.OfferAllConsistent | scraper.py:78-87 | the gate keeps every queued URL in the seen set and no URL queued twice |
| Worklist.OfferAllGrowsTogether | scraper.py:78-87 | the seen set only grows, and the queue grows by exactly as many tasks as the seen set gains URLs |
| Worklist.OfferAllKeepsMeasure | scraper.py:78-87 | when all offered URLs lie in `bound`, the measure (URLs of `bound` not yet seen, plus queued tasks) is unchanged by the gate |
| Checkpoint.DecodeEncode | scraper.py:107 | the saved queue record reads back as the same ordered list of `(path, url)` tasks |
| Checkpoint.Load | scraper.py:33-45 | the loaded or seeded queue has only well-formed paths |
| Checkpoint.FreshStart | scraper.py:35-42 | with no records, the queue holds the single start task, the seen set holds only the start URL, and the frontier is consistent |
| Checkpoint.ResumeRestores | scraper.py:33-45 | starting from a checkpoint restores exactly the saved queue, in order, and the saved seen set |
| Checkpoint.Cleanup | scraper.py:121-132 | after the loop both records are gone when the queue is empty, and both hold the current frontier otherwise |
| Engine.Title | scraper.py:77 | a child's path segment, `sanitize(text or 'untitled')`, has no separator, no reserved character and no edge whitespace |
| Engine.ChildTaskUrls | scraper.py:72-80 | the child tasks of a page carry exactly the hrefs of its usable primary links |
| Engine.PageTaskUrls | scraper.py:83-87 | the pagination tasks carry exactly the pagination URLs |
| Engine.TaskUrls | scraper.py:72-87 | the tasks a container page offers carry exactly its link URLs |
| Engine.ExpandAppends | scraper.py:72-87 | a container page appends, in document order, its new child tasks targeting `path / title` and then its new pagination tasks targeting `path`, and adds all its link URLs to the seen set |
| Engine.ExpandInvariant | scraper.py:72-87 | expanding a container keeps the frontier consistent and well-formed, grows the seen set and grows queue and seen set together |
| Engine.ExpandMeasure | scraper.py:72-87 | expanding a container whose links lie in `bound` keeps every queued URL in `bound` and keeps the measure |
| Engine.StepFrontier | scraper.py:50-87 | an iteration counts once, pops the last task, and changes the rest of the frontier only when it fetches a container page, which it expands |
| Engine.StepInvariant | scraper.py:50-110 | an iteration keeps the frontier consistent and well-formed, only grows the seen set, and keeps the balance (count plus queued tasks minus seen URLs) |
| Engine.StepWellFormed | scraper.py:50-110 | an iteration keeps every queued path well-formed, even from records that are not consistent |
| Engine.StepMeasure | scraper.py:50-87 | within a closed `bound`, an iteration keeps every queued URL in `bound` and lowers the measure (URLs of `bound` not yet seen, plus queued tasks) by exactly one |
| Engine.StepStore | scraper.py:105-110 | an iteration that raises leaves records and disk unchanged; one that continues has checkpointed its final frontier exactly when it was not skipped and its count is a multiple of ten, and otherwise leaves the records unchanged |
| Engine.HandleDiskGrows | scraper.py:68-101 | handling a page only adds files and directories, never removes one |
| Engine.StepDiskGrows | scraper.py:50-110 | an iteration only adds files and directories, never removes one |
| Engine.PdfNamedFolderSkipsItsPages | scraper.py:57-69 | once a folder whose name already ends in ".pdf" is handled, a directory exists at its `.pdf` path, so every task for that folder, its pagination pages included, is skipped |
| Engine.StepWithoutEffect | scraper.py:57-102 | a skipped task (something, a file or a directory, exists at its `.pdf` path), an unknown page and an asset page without a download link each leave the rest of the queue, the seen set and the disk as they were, and count one iteration |
| Engine.RunInvariant | scraper.py:50-110 | over a whole run the frontier stays consistent and well-formed, the seen set only grows, and it stays within `bound` |
| Engine.RunBalance | scraper.py:50-110 | over a whole run, the balance (count plus queued tasks minus seen URLs) and count plus the measure are the same at the end as at the start |
| Engine.RunOutcome | scraper.py:112-132 | a completed run has an empty queue and no records left; an interrupted run has pending work and has saved exactly its frontier |
| Engine.FreshRun | scraper.py:35-87 | a fresh run over a closed, finite `bound` holding the start URL iterates at most as many times as `bound` has URLs; when it completes it has iterated exactly once per URL it ever queued |
| Engine.InterruptResumes | scraper.py:112-119 | after an interrupt, the next run starts from exactly the frontier the interrupted run held |
| Engine.InterruptAfterPopLosesTask | scraper.py:112-119 | after an interrupt that arrives once a task is popped, the reloaded frontier has the task's URL in its seen set but not in its queue, and no later expansion can queue it again |
| Scraper.Crawler.constructor | scraper.py:28-30 | a crawler starts with an empty frontier, a zero count, the given disk and the given records |
| Scraper.Crawler.Start | scraper.py:33-47 | the fields become the loaded or seeded frontier with a zero count; disk and records are untouched |
| Scraper.Crawler.Enqueue | scraper.py:78-87 | the in-place append and `add` are the gate `Offer` |
| Scraper.Crawler.SaveCheckpoint | scraper.py:105-110 | the records become the encoded queue and the seen set |
| Scraper.Crawler.OfferChildren | scraper.py:72-80 | the loop over the blocks leaves the frontier that offering the child tasks through the gate gives |
| Scraper.Crawler.OfferPages | scraper.py:83-87 | the loop over the pagination links leaves the frontier that offering the pagination tasks gives |
| Scraper.Crawler.Handle | scraper.py:68-110 | acting on a fetched page leaves the state that `Engine.Handle` gives, or raises the fault it names |
| Scraper.Crawler.Visit | scraper.py:61-66 | fetching the page leaves the state that `Engine.Visit` gives, or raises the fault it names |
| Scraper.Crawler.Step | scraper.py:50-110 | one in-place iteration leaves exactly the state `Engine.Step` gives, and raises exactly when it raises |
| Scraper.Crawler.Finish | scraper.py:121-132 | the records become `Checkpoint.Cleanup` of the final frontier |
| Scraper.Crawler.Scrape | scraper.py:28-132 | the in-place run ends with the outcome and state `Engine.Run` gives from the loaded frontier; when it completes, the queue is empty and no records remain; after an interrupt, the records reload as the frontier it held |

## Left out

- HTTP: `requests.get` and `raise_for_status` (scraper.py:63-64, 95-96) are the `Web` oracle. A page is a response or an HTTP error. A download either succeeds or fails, and a failure ends the run. Response bodies are not modelled.
- HTML parsing and `urljoin` (scraper.py:66, 72-76, 83-84, 90-92): a page arrives with its blocks, pagination URLs and download URL already selected and resolved.
- Pagination hrefs: a pagination link without an `href` resolves to the page's own URL, so it is given as that URL.
- File writes, `mkdir`, `fsync`, `os.replace` and `unlink` (scraper.py:15-21, 69, 97-99, 128, 132): the disk is the set of existing files and the set of existing directories, and each record is absent or holds its last value. Files other than the downloaded PDFs are given as the initial disk. Write and `mkdir` failures are not modelled, including the `FileExistsError` that `mkdir` raises where a file stands in the way.
- Crash between writes: a crash between the two record writes of a checkpoint is not modelled, since each checkpoint is one step.
- JSON encoding (scraper.py:18, 25): a record holds the list of `{path, url}` pairs directly, and the seen record holds a set, since it is written in arbitrary order and read back with `set(...)`.
- `KeyboardInterrupt` (scraper.py:112-119) is a flag polled at the top of each iteration, which saves the frontier and ends the run.
  - An interrupt in the middle of an iteration is not a case of `Engine.Run`. What the source then saves is `Engine.InterruptAfterPop`, and `Engine.InterruptAfterPopLosesTask` states what it loses (see Findings).
- Scraper.Crawler.Scrape: termination, here and in `Engine.Run`, is proved only for a finite `bound` of URLs that holds the loaded queue and is closed under the links of container pages. The source has no such bound: over a web with ever new linked URLs it need not terminate, and the model says nothing about such a run.
- Absolute paths: `Paths.Parse` requires a relative path. The start folder is relative ("." in the entry point), and every saved path is rendered from a relative one.
- `Paths.PdfName` uses the suffix rule of Python up to 3.12.
- Printing, logging and the `__main__` entry point (scraper.py:38, 45, 62, 94, 102, 134-138) have no effect on the state.
- Fetch failures: the loop catches only `KeyboardInterrupt`. A failed fetch or download, and `with_suffix` on the path "." of an asset page, end the run without a checkpoint. The model follows this code (`Engine.Fault`).
- Cleanup save branch: after the loop the queue is always empty, so the save branch of the final clean-up (scraper.py:122-126) is unreachable. `Checkpoint.Cleanup` still models both branches.

## Findings

| source | as written | input that shows it | evidently intended | confidence | as-written member | corrected member |
|---|---|---|---|---|---|---|
| scraper.py:112-119 | the interrupt handler saves `queue` as it stands, after `queue.pop()` has removed the current task, and the seen set already holds that task's URL | Ctrl-C during `requests.get` of a task whose `.pdf` does not exist yet | a resumed run goes on with every task not yet done | not executed | Engine.InterruptAfterPopLosesTask | Engine.InterruptResumes |
