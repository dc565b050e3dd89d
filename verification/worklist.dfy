/**
 * The crawl frontier: a LIFO work list of (path, url) tasks and the set of
 * every URL ever queued, with the single de-duplication gate through which
 * the crawler adds work (scraper.py, lines 78-80 and 85-87).
 */
module Worklist {
  import opened Paths
  import opened Pages

  /** One unit of pending work: fetch `url`; its results belong under `path`. */
  datatype Task = Task(path: Path, url: Url)

  /** The work list `queue` (popped from the end) and the set `seen`. */
  datatype Frontier = Frontier(queue: seq<Task>, seen: set<Url>)

  function UrlsOf(ts: seq<Task>): set<Url> {
    set i | 0 <= i < |ts| :: ts[i].url
  }

  /** No URL occurs twice among the tasks. */
  ghost predicate DistinctUrls(ts: seq<Task>) {
    forall i, j :: 0 <= i < j < |ts| ==> ts[i].url != ts[j].url
  }

  /** Every queued URL is in the seen set and no URL is queued twice. */
  ghost predicate Consistent(f: Frontier) {
    UrlsOf(f.queue) <= f.seen && DistinctUrls(f.queue)
  }

  /** The gate: a task is appended only if its URL is unseen, and the URL is marked seen at once. */
  function Offer(f: Frontier, t: Task): Frontier {
    if t.url in f.seen then f else Frontier(f.queue + [t], f.seen + {t.url})
  }

  /** The tasks of `ts` offered one after the other, in order. */
  function OfferAll(f: Frontier, ts: seq<Task>): Frontier
    decreases |ts|
  {
    if ts == [] then f else Offer(OfferAll(f, ts[..|ts| - 1]), ts[|ts| - 1])
  }

  /**
   * Reference definition of what offering `ts` appends: the tasks of `ts`, in
   * order, whose URL is neither seen already nor taken by an earlier task.
   */
  function NewTasks(seen: set<Url>, ts: seq<Task>): seq<Task>
    decreases |ts|
  {
    if ts == [] then []
    else if ts[0].url in seen then NewTasks(seen, ts[1..])
    else [ts[0]] + NewTasks(seen + {ts[0].url}, ts[1..])
  }

  lemma UrlsOfSnoc(ts: seq<Task>, t: Task)
    ensures UrlsOf(ts + [t]) == UrlsOf(ts) + {t.url}
  {
    var s := ts + [t];
    assert forall i :: 0 <= i < |ts| ==> s[i] == ts[i];
    assert s[|ts|] == t;
  }

  lemma UrlsOfConcat(a: seq<Task>, b: seq<Task>)
    ensures UrlsOf(a + b) == UrlsOf(a) + UrlsOf(b)
  {
    var s := a + b;
    assert forall i :: 0 <= i < |a| ==> s[i] == a[i];
    forall u | u in UrlsOf(b)
      ensures u in UrlsOf(s)
    {
      var i :| 0 <= i < |b| && b[i].url == u;
      assert s[|a| + i] == b[i];
    }
  }

  lemma UrlsOfCons(t: Task, ts: seq<Task>)
    ensures UrlsOf([t] + ts) == {t.url} + UrlsOf(ts)
  {
    var s := [t] + ts;
    assert s[0] == t;
    forall u | u in UrlsOf(ts)
      ensures u in UrlsOf(s)
    {
      var i :| 0 <= i < |ts| && ts[i].url == u;
      assert s[i + 1] == ts[i];
    }
    assert forall i :: 1 <= i < |s| ==> s[i] == ts[i - 1];
  }

  lemma {:induction false} NewTasksSnoc(seen: set<Url>, ts: seq<Task>, t: Task)
    ensures NewTasks(seen, ts + [t]) == NewTasks(seen, ts) + (if t.url in seen + UrlsOf(ts) then [] else [t])
    decreases |ts|
  {
    var s := ts + [t];
    if ts == [] {
      assert s == [t];
      assert UrlsOf(ts) == {};
    } else {
      assert s[0] == ts[0] && s[1..] == ts[1..] + [t];
      UrlsOfCons(ts[0], ts[1..]);
      assert [ts[0]] + ts[1..] == ts;
      if ts[0].url in seen {
        NewTasksSnoc(seen, ts[1..], t);
      } else {
        NewTasksSnoc(seen + {ts[0].url}, ts[1..], t);
      }
    }
  }

  /**
   * Offering a list of tasks appends exactly the reference NewTasks to the
   * queue, in order, and adds every offered URL to the seen set.
   */
  lemma {:induction false} OfferAllAppendsNewTasks(f: Frontier, ts: seq<Task>)
    ensures OfferAll(f, ts) == Frontier(f.queue + NewTasks(f.seen, ts), f.seen + UrlsOf(ts))
    decreases |ts|
  {
    if ts == [] {
      assert f.queue + [] == f.queue;
      assert UrlsOf(ts) == {};
    } else {
      var init, t := ts[..|ts| - 1], ts[|ts| - 1];
      assert ts == init + [t];
      OfferAllAppendsNewTasks(f, init);
      NewTasksSnoc(f.seen, init, t);
      UrlsOfSnoc(init, t);
    }
  }

  /** Every task the gate appends comes from `ts` and has a URL not seen before. */
  lemma {:induction false} NewTasksUnseen(seen: set<Url>, ts: seq<Task>)
    ensures forall i :: 0 <= i < |NewTasks(seen, ts)| ==> NewTasks(seen, ts)[i] in ts && NewTasks(seen, ts)[i].url !in seen
    decreases |ts|
  {
    if ts != [] {
      var rest := ts[1..];
      assert forall t :: t in rest ==> t in ts;
      if ts[0].url in seen {
        NewTasksUnseen(seen, rest);
      } else {
        var seen' := seen + {ts[0].url};
        NewTasksUnseen(seen', rest);
        var tail := NewTasks(seen', rest);
        assert forall i :: 1 <= i < |tail| + 1 ==> ([ts[0]] + tail)[i] == tail[i - 1];
      }
    }
  }

  /** No two tasks the gate appends share a URL. */
  lemma {:induction false} NewTasksDistinct(seen: set<Url>, ts: seq<Task>)
    ensures DistinctUrls(NewTasks(seen, ts))
    decreases |ts|
  {
    if ts != [] {
      var rest := ts[1..];
      if ts[0].url in seen {
        NewTasksDistinct(seen, rest);
      } else {
        var seen' := seen + {ts[0].url};
        NewTasksDistinct(seen', rest);
        NewTasksUnseen(seen', rest);
        var tail := NewTasks(seen', rest);
        var r := [ts[0]] + tail;
        assert forall i :: 1 <= i < |r| ==> r[i] == tail[i - 1];
      }
    }
  }

  /** The URLs the gate appends are exactly the offered URLs that were not seen. */
  lemma {:induction false} NewTasksUrls(seen: set<Url>, ts: seq<Task>)
    ensures UrlsOf(NewTasks(seen, ts)) == UrlsOf(ts) - seen
    decreases |ts|
  {
    if ts != [] {
      var rest := ts[1..];
      UrlsOfCons(ts[0], rest);
      assert [ts[0]] + rest == ts;
      if ts[0].url in seen {
        NewTasksUrls(seen, rest);
      } else {
        var seen' := seen + {ts[0].url};
        NewTasksUrls(seen', rest);
        UrlsOfCons(ts[0], NewTasks(seen', rest));
      }
    }
  }

  /**
   * What the gate appends is fresh: every appended task comes from `ts`,
   * none has a URL already seen, no two share a URL, and together they
   * cover exactly the offered URLs that were unseen.
   */
  lemma NewTasksFresh(seen: set<Url>, ts: seq<Task>)
    ensures forall i :: 0 <= i < |NewTasks(seen, ts)| ==> NewTasks(seen, ts)[i] in ts
    ensures forall i :: 0 <= i < |NewTasks(seen, ts)| ==> NewTasks(seen, ts)[i].url !in seen
    ensures DistinctUrls(NewTasks(seen, ts))
    ensures UrlsOf(NewTasks(seen, ts)) == UrlsOf(ts) - seen
  {
    NewTasksUnseen(seen, ts);
    NewTasksDistinct(seen, ts);
    NewTasksUrls(seen, ts);
  }

  /** The gate keeps the frontier consistent. */
  lemma OfferAllConsistent(f: Frontier, ts: seq<Task>)
    requires Consistent(f)
    ensures Consistent(OfferAll(f, ts))
  {
    OfferAllAppendsNewTasks(f, ts);
    NewTasksFresh(f.seen, ts);
    var added := NewTasks(f.seen, ts);
    var q := f.queue + added;
    assert forall i :: 0 <= i < |f.queue| ==> q[i] == f.queue[i];
    assert forall i :: |f.queue| <= i < |q| ==> q[i] == added[i - |f.queue|];
    assert forall i :: |f.queue| <= i < |q| ==> q[i].url in UrlsOf(added);
    assert forall i :: 0 <= i < |q| ==> q[i].url in f.seen + UrlsOf(ts);
  }

  /**
   * The queue and the seen set grow by the same amount: every task the gate
   * appends brings one new URL, so `|queue| - |seen|` never changes.
   */
  lemma {:induction false} OfferAllGrowsTogether(f: Frontier, ts: seq<Task>)
    ensures f.seen <= OfferAll(f, ts).seen
    ensures |OfferAll(f, ts).queue| - |f.queue| == |OfferAll(f, ts).seen| - |f.seen|
    decreases |ts|
  {
    if ts != [] {
      OfferAllGrowsTogether(f, ts[..|ts| - 1]);
    }
  }

  /**
   * With `bound` a set containing every offered URL, the quantity
   * |bound - seen| + |queue| is left unchanged by the gate.
   */
  lemma {:induction false} OfferAllKeepsMeasure(f: Frontier, ts: seq<Task>, bound: set<Url>)
    requires UrlsOf(ts) <= bound
    ensures |bound - OfferAll(f, ts).seen| + |OfferAll(f, ts).queue| == |bound - f.seen| + |f.queue|
    decreases |ts|
  {
    if ts != [] {
      var init, t := ts[..|ts| - 1], ts[|ts| - 1];
      assert ts == init + [t];
      UrlsOfSnoc(init, t);
      OfferAllKeepsMeasure(f, init, bound);
      var g := OfferAll(f, init);
      if t.url !in g.seen {
        assert bound - (g.seen + {t.url}) == (bound - g.seen) - {t.url};
        assert t.url in bound - g.seen;
      }
    }
  }
}
