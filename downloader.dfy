/**
  The loops of e621dl.py: judging and saving the posts of a page, paging through one
  search, consuming the work queue batch by batch, and the prefiltering producer
  `prefilter_build_index` that fills the queue.

  The remote side is a parameter: `fetch(search, cursor)` is the page `get_posts`
  returns for a search before a post id, `download(url, path)` is whether
  `download_post` succeeds. The file system is the `files` index (file name to path)
  and the set of paths present on disk; a copy or a successful download makes the path
  present. The two threads are modelled one at a time: the producer stops where it
  would wait for room in the queue, and the consumer stops where it would wait for the
  producer.
*/
module Downloader {
  import opened Wrappers
  import opened PathNames
  import opened CondFormula
  import opened PostFilter
  import opened WorkQueue

  /** The settings and remote oracles the loops use. */
  datatype Config = Config(
    fnmatch: Matcher,
    globalBlacklist: seq<string>,
    includeMd5: bool,
    maxResults: nat,
    fetch: (Search, nat) -> seq<Post>,
    download: (string, string) -> bool)

  /** `files` (file name to the path it was saved to) and the paths `isfile` finds. */
  datatype Disk = Disk(files: map<string, string>, present: set<string>)

  /** What happened to an accepted post (e621dl.py:306-315). */
  datatype Action =
    | AlreadyThere              // the path exists
    | CopiedFrom(source: string)  // saved elsewhere before: duplicated from there
    | Downloaded
    | DownloadFailed

  datatype Outcome = Outcome(post: nat, verdict: Verdict, action: Option<Action>)

  /** The state of the run: the disk, what happened to each post so far, and whether a
      condition raised (which ends the program). */
  datatype Run = Run(disk: Disk, log: seq<Outcome>, raised: bool)

  // ---------------------------------------------------------------------------
  // One post
  // ---------------------------------------------------------------------------

  /** The skip / copy / download decision for an accepted post. */
  function Save(cfg: Config, disk: Disk, post: Post, search: Search): (Action, Disk)
  {
    var filename := Filename(post, cfg.includeMd5);
    var path := PostPath(search.directory, post, cfg.includeMd5);
    if path in disk.present then (AlreadyThere, disk)
    else if filename in disk.files then (CopiedFrom(disk.files[filename]), disk.(present := disk.present + {path}))
    else if cfg.download(post.fileUrl, path) then (Downloaded, Disk(disk.files[filename := path], disk.present + {path}))
    else (DownloadFailed, disk)
  }

  /** An existing path is never overwritten; a known file name is copied from where it
      is, never downloaded; only a successful download adds to the index, under the
      post's file name; the index never loses or changes an entry. */
  lemma SaveSpec(cfg: Config, disk: Disk, post: Post, search: Search)
    ensures var (a, d) := Save(cfg, disk, post, search);
      var filename := Filename(post, cfg.includeMd5);
      var path := PostPath(search.directory, post, cfg.includeMd5);
      && (path in disk.present <==> a == AlreadyThere)
      && (a.CopiedFrom? <==> path !in disk.present && filename in disk.files)
      && (a.CopiedFrom? ==> a.source == disk.files[filename])
      && (a == Downloaded <==> path !in disk.present && filename !in disk.files && cfg.download(post.fileUrl, path))
      && (forall k :: k in disk.files ==> k in d.files && d.files[k] == disk.files[k])
      && (forall k :: k in d.files && k !in disk.files ==> a == Downloaded && k == filename && d.files[k] == path)
      && disk.present <= d.present
      && (a != DownloadFailed ==> path in d.present)
  {
  }

  /** Judging one post, and saving it when accepted; nothing happens after a raise. */
  function StepPost(cfg: Config, search: Search, r: Run, post: Post): Run
  {
    if r.raised then r
    else
      var v := Judge(cfg.fnmatch, post, search, cfg.globalBlacklist);
      if v == ConditionRaised then Run(r.disk, r.log + [Outcome(post.id, v, None)], true)
      else if v != Accepted then r.(log := r.log + [Outcome(post.id, v, None)])
      else
        var (a, d) := Save(cfg, r.disk, post, search);
        Run(d, r.log + [Outcome(post.id, v, Some(a))], false)
  }

  /** The posts handled in order (the `for post in results` loop). */
  function RunPosts(cfg: Config, search: Search, r: Run, posts: seq<Post>): Run
    decreases |posts|
  {
    if posts == [] then r
    else StepPost(cfg, search, RunPosts(cfg, search, r, posts[..|posts| - 1]), posts[|posts| - 1])
  }

  lemma {:induction false} RunPostsAppend(cfg: Config, search: Search, r: Run, a: seq<Post>, b: seq<Post>)
    ensures RunPosts(cfg, search, r, a + b) == RunPosts(cfg, search, RunPosts(cfg, search, r, a), b)
    decreases |b|
  {
    if b == [] {
      assert a + b == a;
    } else {
      assert (a + b)[..|a + b| - 1] == a + b[..|b| - 1];
      RunPostsAppend(cfg, search, r, a, b[..|b| - 1]);
    }
  }

  /** After a raise nothing more happens. */
  lemma {:induction false} RaisedStops(cfg: Config, search: Search, r: Run, posts: seq<Post>)
    requires r.raised
    ensures RunPosts(cfg, search, r, posts) == r
    decreases |posts|
  {
    if posts != [] {
      RaisedStops(cfg, search, r, posts[..|posts| - 1]);
    }
  }

  /** `r2`'s index extends `r1`'s, and every entry it adds is the file name and path of
      an accepted post among `posts` whose download succeeded. */
  predicate IndexGrowsByDownloads(cfg: Config, search: Search, r1: Run, r2: Run, posts: seq<Post>)
  {
    && (forall k :: k in r1.disk.files ==> k in r2.disk.files && r2.disk.files[k] == r1.disk.files[k])
    && (forall k :: k in r2.disk.files && k !in r1.disk.files ==>
          exists i :: 0 <= i < |posts| && DownloadedAs(cfg, search, posts[i], k, r2.disk.files[k]))
    && r1.disk.present <= r2.disk.present
  }

  /** The post was accepted and saved to `path` under `filename` by a successful
      download. */
  predicate DownloadedAs(cfg: Config, search: Search, post: Post, filename: string, path: string)
  {
    && Judge(cfg.fnmatch, post, search, cfg.globalBlacklist) == Accepted
    && filename == Filename(post, cfg.includeMd5)
    && path == PostPath(search.directory, post, cfg.includeMd5)
    && cfg.download(post.fileUrl, path)
  }

  /** Handling posts never loses an index entry, and only successful downloads of
      accepted posts add one; when nothing raised, there is one log entry per post. */
  lemma {:induction false} RunPostsSpec(cfg: Config, search: Search, r: Run, posts: seq<Post>)
    ensures IndexGrowsByDownloads(cfg, search, r, RunPosts(cfg, search, r, posts), posts)
    ensures !r.raised && !RunPosts(cfg, search, r, posts).raised ==>
      |RunPosts(cfg, search, r, posts).log| == |r.log| + |posts|
    decreases |posts|
  {
    if posts != [] {
      var init := posts[..|posts| - 1];
      var post := posts[|posts| - 1];
      var mid := RunPosts(cfg, search, r, init);
      RunPostsSpec(cfg, search, r, init);
      var fin := StepPost(cfg, search, mid, post);
      if !mid.raised && Judge(cfg.fnmatch, post, search, cfg.globalBlacklist) == Accepted {
        SaveSpec(cfg, mid.disk, post, search);
      }
      forall k | k in fin.disk.files && k !in r.disk.files
        ensures exists i :: 0 <= i < |posts| && DownloadedAs(cfg, search, posts[i], k, fin.disk.files[k])
      {
        if k in mid.disk.files {
          var i :| 0 <= i < |init| && DownloadedAs(cfg, search, init[i], k, mid.disk.files[k]);
          assert posts[i] == init[i];
        } else {
          assert DownloadedAs(cfg, search, posts[|posts| - 1], k, fin.disk.files[k]);
        }
      }
      if r.raised {
        RaisedStops(cfg, search, r, init);
      }
    }
  }

  /** The `for post in results` loop. */
  method ProcessPosts(cfg: Config, search: Search, r0: Run, posts: seq<Post>) returns (r: Run)
    ensures r == RunPosts(cfg, search, r0, posts)
  {
    r := r0;
    var i := 0;
    while i < |posts| && !r.raised
      invariant 0 <= i <= |posts|
      invariant r == RunPosts(cfg, search, r0, posts[..i])
    {
      assert posts[..i + 1][..i] == posts[..i];
      var post := posts[i];
      var v := Judge(cfg.fnmatch, post, search, cfg.globalBlacklist);
      if v == ConditionRaised {
        r := Run(r.disk, r.log + [Outcome(post.id, v, None)], true);
      } else if v != Accepted {
        r := r.(log := r.log + [Outcome(post.id, v, None)]);
      } else {
        var filename := Filename(post, cfg.includeMd5);
        var path := PostPath(search.directory, post, cfg.includeMd5);
        var action;
        var disk := r.disk;
        if path in disk.present {
          action := AlreadyThere;
        } else if filename in disk.files {
          action := CopiedFrom(disk.files[filename]);
          disk := disk.(present := disk.present + {path});
        } else if cfg.download(post.fileUrl, path) {
          action := Downloaded;
          disk := Disk(disk.files[filename := path], disk.present + {path});
        } else {
          action := DownloadFailed;
        }
        r := Run(disk, r.log + [Outcome(post.id, v, Some(action))], false);
      }
      i := i + 1;
    }
    if i < |posts| {
      RunPostsAppend(cfg, search, r0, posts[..i], posts[i..]);
      RaisedStops(cfg, search, r, posts[i..]);
      assert posts[..i] + posts[i..] == posts;
    } else {
      assert posts[..i] == posts;
    }
  }

  // ---------------------------------------------------------------------------
  // One search: paging with the cursor
  // ---------------------------------------------------------------------------

  /** The remote side pages downwards: a full page for a cursor ends with a post older
      than the cursor. Without this the search loop of the source need not end. */
  ghost predicate CursorDescends(cfg: Config, search: Search)
  {
    cfg.maxResults >= 1 &&
    forall c: nat :: |cfg.fetch(search, c)| >= cfg.maxResults ==>
      cfg.fetch(search, c)[|cfg.fetch(search, c)| - 1].id < c
  }

  /** The pages a remote search goes through from `cursor`: each page's cursor is the
      previous page's last id, and a short page is the last. */
  function Pages(cfg: Config, search: Search, cursor: nat): (pages: seq<seq<Post>>)
    requires CursorDescends(cfg, search)
    ensures |pages| >= 1 && pages[0] == cfg.fetch(search, cursor)
    decreases cursor
  {
    var results := cfg.fetch(search, cursor);
    var next := NextCursor(results, cfg.maxResults);
    if next == 0 then [results] else [results] + Pages(cfg, search, next)
  }

  /** One step of the paging: after the page at `cursor`, a non-zero next cursor is
      smaller and the remaining pages start from it; a zero one ends the search. */
  lemma PagesStep(cfg: Config, search: Search, cursor: nat)
    requires CursorDescends(cfg, search)
    ensures var next := NextCursor(cfg.fetch(search, cursor), cfg.maxResults);
      && (next != 0 ==> 0 < next < cursor && Pages(cfg, search, cursor)[1..] == Pages(cfg, search, next))
      && (next == 0 ==> Pages(cfg, search, cursor)[1..] == [])
  {
    var results := cfg.fetch(search, cursor);
    var next := NextCursor(results, cfg.maxResults);
    if next != 0 {
      assert |results| >= cfg.maxResults;
      assert ([results] + Pages(cfg, search, next))[1..] == Pages(cfg, search, next);
    }
  }

  /** The pages a search handles: the queued chunk alone when it is non-empty,
      otherwise the remote search from the sentinel cursor. */
  function SearchPages(cfg: Config, search: Search, chunk: seq<Post>): seq<seq<Post>>
    requires CursorDescends(cfg, search)
  {
    if chunk != [] then [chunk] else Pages(cfg, search, Sentinel)
  }

  function Flatten(pages: seq<seq<Post>>): seq<Post>
  {
    if pages == [] then [] else pages[0] + Flatten(pages[1..])
  }

  /** The `while True` loop of one search (e621dl.py:257-320). */
  method RunSearch(cfg: Config, search: Search, chunk: seq<Post>, r0: Run) returns (r: Run)
    requires CursorDescends(cfg, search)
    ensures r == RunPosts(cfg, search, r0, Flatten(SearchPages(cfg, search, chunk)))
  {
    r := r0;
    var cursor: nat := Sentinel;
    var done := false;
    ghost var rest := SearchPages(cfg, search, chunk);
    while !done
      invariant !done ==> rest == (if chunk != [] then [chunk] else Pages(cfg, search, cursor))
      invariant done ==> rest == [] || r.raised
      invariant RunPosts(cfg, search, r, Flatten(rest)) ==
                RunPosts(cfg, search, r0, Flatten(SearchPages(cfg, search, chunk)))
      decreases if done then 0 else 1, cursor
    {
      var results := if chunk != [] then chunk else cfg.fetch(search, cursor);
      var next := NextCursor(results, cfg.maxResults);
      if chunk == [] {
        PagesStep(cfg, search, cursor);
      }
      assert rest == [results] + rest[1..];
      assert Flatten(rest) == results + Flatten(rest[1..]);
      RunPostsAppend(cfg, search, r, results, Flatten(rest[1..]));
      r := ProcessPosts(cfg, search, r, results);
      rest := rest[1..];
      if next == 0 || chunk != [] || r.raised {
        done := true;
      } else {
        cursor := next;
      }
    }
    if r.raised {
      RaisedStops(cfg, search, r, Flatten(rest));
    }
  }

  // ---------------------------------------------------------------------------
  // The work queue: consuming batches
  // ---------------------------------------------------------------------------

  /** Every search run on one chunk, in configuration order. */
  function RunSearches(cfg: Config, searches: seq<Search>, chunk: seq<Post>, r: Run): Run
    requires forall s :: s in searches ==> CursorDescends(cfg, s)
    decreases |searches|
  {
    if searches == [] then r
    else
      var last := searches[|searches| - 1];
      var mid := RunSearches(cfg, searches[..|searches| - 1], chunk, r);
      RunPosts(cfg, last, mid, Flatten(SearchPages(cfg, last, chunk)))
  }

  /** Every batch, oldest first, run through every search. */
  function RunBatches(cfg: Config, searches: seq<Search>, batches: seq<seq<Post>>, r: Run): Run
    requires forall s :: s in searches ==> CursorDescends(cfg, s)
    decreases |batches|
  {
    if batches == [] then r
    else RunBatches(cfg, searches, batches[1..], RunSearches(cfg, searches, batches[0], r))
  }

  /** How the consuming loop stopped. */
  datatype Stop =
    | Finished   // the queue is drained and the producer completed: the queue is reset
    | Waiting    // the queue is drained but the producer has not completed
    | Crashed    // a condition raised

  /** The `for search in searches` loop over one chunk. */
  method RunAllSearches(cfg: Config, searches: seq<Search>, chunk: seq<Post>, r0: Run) returns (r: Run)
    requires forall s :: s in searches ==> CursorDescends(cfg, s)
    ensures r == RunSearches(cfg, searches, chunk, r0)
  {
    r := r0;
    var i := 0;
    while i < |searches|
      invariant 0 <= i <= |searches|
      invariant r == RunSearches(cfg, searches[..i], chunk, r0)
    {
      assert searches[..i + 1][..i] == searches[..i];
      r := RunSearch(cfg, searches[i], chunk, r);
      i := i + 1;
    }
    assert searches[..i] == searches;
  }

  /** The outer loop of `main` (e621dl.py:228-236, 322, 327): take the oldest batch,
      run every search on it, drop it; when the queue is empty, stop and reset it if
      the producer has completed, or stop to wait for it otherwise. */
  method ConsumeQueue(cfg: Config, searches: seq<Search>, q: DownloadQueue<seq<Post>>, r0: Run)
    returns (r: Run, stop: Stop)
    requires forall s :: s in searches ==> CursorDescends(cfg, s)
    requires !r0.raised
    modifies q
    ensures r == RunBatches(cfg, searches, old(q.batches), r0)
    ensures stop == Crashed <==> r.raised
    ensures stop == Finished <==> !r.raised && old(q.completed)
    ensures stop == Finished ==> q.State() == AfterReset(old(q.State()))
    ensures stop == Waiting ==> q.State() == old(q.State()).(batches := [])
    ensures stop == Crashed ==>
      && q.State() == old(q.State()).(batches := q.batches)
      && q.batches != []
      && exists n :: 0 <= n < |old(q.batches)| && q.batches == old(q.batches)[n..]
    ensures old(q.batches) == [] ==> r == r0 && stop != Crashed
  {
    r := r0;
    assert q.batches == old(q.batches)[0..];
    while true
      invariant !r.raised
      invariant RunBatches(cfg, searches, q.batches, r) == RunBatches(cfg, searches, old(q.batches), r0)
      invariant q.State() == old(q.State()).(batches := q.batches)
      invariant exists n :: 0 <= n <= |old(q.batches)| && q.batches == old(q.batches)[n..]
      invariant old(q.batches) == [] ==> q.batches == [] && r == r0
      decreases |q.batches|
    {
      var chunk := q.First();
      if chunk.None? {
        if q.completed {
          q.Reset();
          stop := Finished;
        } else {
          stop := Waiting;
        }
        return;
      }
      r := RunAllSearches(cfg, searches, chunk.value, r);
      if r.raised {
        BatchesAfterRaise(cfg, searches, q.batches[1..], r);
        stop := Crashed;
        return;
      }
      var _ := q.PopLeft();
    }
  }

  /** After a raise the remaining batches change nothing. */
  lemma {:induction false} BatchesAfterRaise(cfg: Config, searches: seq<Search>, batches: seq<seq<Post>>, r: Run)
    requires forall s :: s in searches ==> CursorDescends(cfg, s)
    requires r.raised
    ensures RunBatches(cfg, searches, batches, r) == r
    decreases |batches|
  {
    if batches != [] {
      SearchesAfterRaise(cfg, searches, batches[0], r);
      BatchesAfterRaise(cfg, searches, batches[1..], r);
    }
  }

  lemma {:induction false} SearchesAfterRaise(cfg: Config, searches: seq<Search>, chunk: seq<Post>, r: Run)
    requires forall s :: s in searches ==> CursorDescends(cfg, s)
    requires r.raised
    ensures RunSearches(cfg, searches, chunk, r) == r
    decreases |searches|
  {
    if searches != [] {
      var last := searches[|searches| - 1];
      SearchesAfterRaise(cfg, searches[..|searches| - 1], chunk, r);
      RaisedStops(cfg, last, r, Flatten(SearchPages(cfg, last, chunk)));
    }
  }

  /** Over the whole run of the queue the index never loses or changes an entry, and
      every entry it gains is the file name and path of a post some search accepted
      and downloaded successfully. */
  lemma {:induction false} RunBatchesKeepsIndex(cfg: Config, searches: seq<Search>, batches: seq<seq<Post>>, r: Run, k: string)
    requires forall s :: s in searches ==> CursorDescends(cfg, s)
    ensures var fin := RunBatches(cfg, searches, batches, r);
      && (k in r.disk.files ==> k in fin.disk.files && fin.disk.files[k] == r.disk.files[k])
      && (k in fin.disk.files && k !in r.disk.files ==> exists s, p :: s in searches && DownloadedAs(cfg, s, p, k, fin.disk.files[k]))
    decreases |batches|
  {
    if batches != [] {
      var mid := RunSearches(cfg, searches, batches[0], r);
      RunSearchesKeepsIndex(cfg, searches, batches[0], r, k);
      RunBatchesKeepsIndex(cfg, searches, batches[1..], mid, k);
    }
  }

  lemma {:induction false} RunSearchesKeepsIndex(cfg: Config, searches: seq<Search>, chunk: seq<Post>, r: Run, k: string)
    requires forall s :: s in searches ==> CursorDescends(cfg, s)
    ensures var fin := RunSearches(cfg, searches, chunk, r);
      && (k in r.disk.files ==> k in fin.disk.files && fin.disk.files[k] == r.disk.files[k])
      && (k in fin.disk.files && k !in r.disk.files ==> exists s, p :: s in searches && DownloadedAs(cfg, s, p, k, fin.disk.files[k]))
    decreases |searches|
  {
    if searches != [] {
      var init := searches[..|searches| - 1];
      var last := searches[|searches| - 1];
      var mid := RunSearches(cfg, init, chunk, r);
      RunSearchesKeepsIndex(cfg, init, chunk, r, k);
      var posts := Flatten(SearchPages(cfg, last, chunk));
      RunPostsSpec(cfg, last, mid, posts);
      var fin := RunPosts(cfg, last, mid, posts);
      if k in fin.disk.files && k !in r.disk.files {
        if k in mid.disk.files {
          var s, p :| s in init && DownloadedAs(cfg, s, p, k, mid.disk.files[k]);
          assert s in searches;
        } else {
          var i :| 0 <= i < |posts| && DownloadedAs(cfg, last, posts[i], k, fin.disk.files[k]);
          assert last in searches;
        }
      }
    }
  }

  // ---------------------------------------------------------------------------
  // The producer: prefiltering into the queue
  // ---------------------------------------------------------------------------

  /** The posts of a page the prefilter keeps, in order; `None` when a condition raises
      on one of them. */
  function FilterPage(fnmatch: Matcher, page: seq<Post>, lists: TagLists, cond: Option<Formula>): Option<seq<Post>>
    decreases |page|
  {
    if page == [] then Some([])
    else
      match FilterPage(fnmatch, page[..|page| - 1], lists, cond)
      case None => None
      case Some(kept) =>
        var post := page[|page| - 1];
        var v := PrefilterJudge(fnmatch, post, lists, cond);
        if v == ConditionRaised then None
        else if v == Accepted then Some(kept + [post])
        else Some(kept)
  }

  /** Some post of the page makes the condition raise. */
  predicate SomeRaises(fnmatch: Matcher, page: seq<Post>, lists: TagLists, cond: Option<Formula>)
  {
    exists i :: 0 <= i < |page| && PrefilterJudge(fnmatch, page[i], lists, cond) == ConditionRaised
  }

  /** Filtering fails exactly when the condition raises on some post, and otherwise
      keeps exactly the accepted posts, in order. */
  lemma {:induction false} FilterPageSpec(fnmatch: Matcher, page: seq<Post>, lists: TagLists, cond: Option<Formula>)
    ensures FilterPage(fnmatch, page, lists, cond).None? <==> SomeRaises(fnmatch, page, lists, cond)
    ensures FilterPage(fnmatch, page, lists, cond).Some? ==>
      FilterPage(fnmatch, page, lists, cond).value == AcceptedPosts(fnmatch, page, lists, cond)
    decreases |page|
  {
    if page != [] {
      var init := page[..|page| - 1];
      FilterPageSpec(fnmatch, init, lists, cond);
      SomeRaisesSnoc(fnmatch, page, lists, cond);
    }
  }

  lemma SomeRaisesSnoc(fnmatch: Matcher, page: seq<Post>, lists: TagLists, cond: Option<Formula>)
    requires page != []
    ensures SomeRaises(fnmatch, page, lists, cond) <==>
      SomeRaises(fnmatch, page[..|page| - 1], lists, cond)
      || PrefilterJudge(fnmatch, page[|page| - 1], lists, cond) == ConditionRaised
  {
    var init := page[..|page| - 1];
    if SomeRaises(fnmatch, init, lists, cond) {
      var i :| 0 <= i < |init| && PrefilterJudge(fnmatch, init[i], lists, cond) == ConditionRaised;
      assert page[i] == init[i];
    }
    if SomeRaises(fnmatch, page, lists, cond) {
      var i :| 0 <= i < |page| && PrefilterJudge(fnmatch, page[i], lists, cond) == ConditionRaised;
      if i < |init| { assert init[i] == page[i]; }
    }
  }

  /** The accepted posts of a page, by comprehension. */
  function AcceptedPosts(fnmatch: Matcher, page: seq<Post>, lists: TagLists, cond: Option<Formula>): (kept: seq<Post>)
    ensures forall p :: p in kept ==> PrefilterJudge(fnmatch, p, lists, cond) == Accepted
    ensures forall i :: 0 <= i < |page| && PrefilterJudge(fnmatch, page[i], lists, cond) == Accepted ==> page[i] in kept
    ensures |kept| <= |page|
    decreases |page|
  {
    if page == [] then []
    else
      var post := page[|page| - 1];
      AcceptedPosts(fnmatch, page[..|page| - 1], lists, cond)
        + (if PrefilterJudge(fnmatch, post, lists, cond) == Accepted then [post] else [])
  }

  /** The inner loop of the prefilter (e621dl.py:54-70). */
  method FilterResults(fnmatch: Matcher, page: seq<Post>, lists: TagLists, cond: Option<Formula>)
    returns (kept: Option<seq<Post>>)
    ensures kept == FilterPage(fnmatch, page, lists, cond)
  {
    var filtered: seq<Post> := [];
    var i := 0;
    while i < |page|
      invariant 0 <= i <= |page|
      invariant FilterPage(fnmatch, page[..i], lists, cond) == Some(filtered)
    {
      assert page[..i + 1][..i] == page[..i];
      var v := PrefilterJudge(fnmatch, page[i], lists, cond);
      if v == ConditionRaised {
        FilterPageStops(fnmatch, page, lists, cond, i);
        return None;
      }
      if v == Accepted {
        filtered := filtered + [page[i]];
      }
      i := i + 1;
    }
    assert page[..i] == page;
    kept := Some(filtered);
  }

  lemma FilterPageStops(fnmatch: Matcher, page: seq<Post>, lists: TagLists, cond: Option<Formula>, i: nat)
    requires i < |page| && PrefilterJudge(fnmatch, page[i], lists, cond) == ConditionRaised
    ensures FilterPage(fnmatch, page, lists, cond).None?
  {
    FilterPageSpec(fnmatch, page, lists, cond);
  }

  /** The batches after `start` are the filtered pages, one for one and in order. */
  predicate BatchesFromPages(fnmatch: Matcher, start: seq<seq<Post>>, batches: seq<seq<Post>>,
                             pages: seq<seq<Post>>, lists: TagLists, cond: Option<Formula>)
  {
    && start <= batches && |batches| <= |start| + |pages|
    && forall k :: |start| <= k < |batches| ==>
         FilterPage(fnmatch, pages[k - |start|], lists, cond) == Some(batches[k])
  }

  lemma BatchesFromPagesSnoc(fnmatch: Matcher, start: seq<seq<Post>>, batches: seq<seq<Post>>,
                             pages: seq<seq<Post>>, lists: TagLists, cond: Option<Formula>, kept: seq<Post>)
    requires BatchesFromPages(fnmatch, start, batches, pages, lists, cond)
    requires |batches| < |start| + |pages|
    requires FilterPage(fnmatch, pages[|batches| - |start|], lists, cond) == Some(kept)
    ensures BatchesFromPages(fnmatch, start, batches + [kept], pages, lists, cond)
  {
    assert start <= batches + [kept] by {
      assert (batches + [kept])[..|start|] == batches[..|start|];
    }
  }

  /** A page on which the producer's loop raises: a condition raises on one of its
      posts, or the page is empty and `results[-1]` fails. */
  predicate PageRaises(fnmatch: Matcher, page: seq<Post>, lists: TagLists, cond: Option<Formula>)
  {
    FilterPage(fnmatch, page, lists, cond).None? || page == []
  }

  /** The producer raised on the first page that raises, after queueing the `n` pages
      before it: either filtering page `n` raised, so it was not queued, or page `n - 1`
      was queued empty and `results[-1]` failed. Every page before it was non-empty. */
  predicate FirstRaise(fnmatch: Matcher, pages: seq<seq<Post>>, lists: TagLists, cond: Option<Formula>, n: int)
  {
    || (&& 0 <= n < |pages| && FilterPage(fnmatch, pages[n], lists, cond).None?
        && forall k :: 0 <= k < n ==> pages[k] != [])
    || (&& 0 < n <= |pages| && pages[n - 1] == []
        && forall k :: 0 <= k < n - 1 ==> pages[k] != [])
  }

  /** How the producer stopped. */
  datatype PrefilterStop =
    | NoPrefilter        // the prefilter is empty: nothing to do
    | AlreadyCompleted   // a previous run completed the queue
    | AllPagesDone
    | Raised             // a tag or a condition raised
    | WaitingForRoom(page: nat)  // the queue is full before this page: the thread waits

  /** `prefilter_build_index` (e621dl.py:24-75) over the pages the remote search
      yields; the queue holds at most `maxlen` batches. Whenever it stops for good, by
      returning or raising, the queue is marked completed. */
  method PrefilterBuildIndex(fnmatch: Matcher, prefilter: seq<string>, globalBlacklist: seq<string>,
                             cond: Option<Formula>, pages: seq<seq<Post>>, maxlen: nat,
                             q: DownloadQueue<seq<Post>>)
    returns (stop: PrefilterStop)
    modifies q
    ensures !stop.WaitingForRoom? ==> q.completed
    ensures stop.WaitingForRoom? ==> q.completed == old(q.completed) && |q.batches| >= maxlen
    ensures stop == NoPrefilter <==> prefilter == []
    ensures stop == AlreadyCompleted <==> prefilter != [] && old(q.completed)
    ensures stop == Raised ==>
      || PrefilterLists(prefilter, globalBlacklist).None?
      || exists i :: 0 <= i < |pages| && PageRaises(fnmatch, pages[i], PrefilterLists(prefilter, globalBlacklist).value, cond)
    ensures stop == Raised ==>
      || (PrefilterLists(prefilter, globalBlacklist).None? && q.batches == old(q.batches))
      || (&& PrefilterLists(prefilter, globalBlacklist).Some?
          && FirstRaise(fnmatch, pages, PrefilterLists(prefilter, globalBlacklist).value, cond, |q.batches| - |old(q.batches)|))
    ensures prefilter == [] || old(q.completed) ==> q.batches == old(q.batches)
    ensures |q.batches| <= maxlen || q.batches == old(q.batches)
    ensures q.configHash == old(q.configHash) && q.completedGens == old(q.completedGens)
    ensures old(q.batches) <= q.batches
    ensures q.batches != old(q.batches) ==>
      && PrefilterLists(prefilter, globalBlacklist).Some?
      && BatchesFromPages(fnmatch, old(q.batches), q.batches, pages, PrefilterLists(prefilter, globalBlacklist).value, cond)
    ensures stop.WaitingForRoom? ==> |q.batches| == |old(q.batches)| + stop.page
    ensures stop == AllPagesDone ==> |q.batches| == |old(q.batches)| + |pages|
    ensures (stop.WaitingForRoom? && stop.page > 0) || (stop == AllPagesDone && pages != []) ==>
      var n := |q.batches| - |old(q.batches)|;
      0 < n <= |pages| && pages[n - 1] != [] && q.lastId == pages[n - 1][|pages[n - 1]| - 1].id
    ensures stop == Raised ==>
      var n := |q.batches| - |old(q.batches)|;
      var m := if 0 < n <= |pages| && pages[n - 1] == [] then n - 1 else n;
      && 0 <= m <= |pages|
      && q.lastId == (if m == 0 then old(q.lastId) else pages[m - 1][|pages[m - 1]| - 1].id)
    ensures stop == WaitingForRoom(0) ==> q.lastId == old(q.lastId)
    ensures stop == AllPagesDone ==> forall k :: 0 <= k < |pages| ==> pages[k] != []
    ensures stop.WaitingForRoom? ==> stop.page <= |pages| && forall k :: 0 <= k < stop.page ==> pages[k] != []
    ensures (|| stop == NoPrefilter || stop == AlreadyCompleted || stop == WaitingForRoom(0)
             || PrefilterLists(prefilter, globalBlacklist).None?) ==> q.lastId == old(q.lastId)
  {
    if prefilter == [] {
      q.completed := true;
      return NoPrefilter;
    }
    if q.completed {
      return AlreadyCompleted;
    }
    var lists := PrefilterLists(prefilter, globalBlacklist);
    if lists.None? {
      q.completed := true;
      return Raised;
    }
    stop := QueuePages(fnmatch, lists.value, cond, pages, maxlen, q);
  }

  /** The `for results in ...` loop of the producer, with its lists built: filter each
      page, queue what it keeps, move the cursor to the page's last post. */
  method QueuePages(fnmatch: Matcher, lists: TagLists, cond: Option<Formula>, pages: seq<seq<Post>>,
                    maxlen: nat, q: DownloadQueue<seq<Post>>)
    returns (stop: PrefilterStop)
    requires !q.completed
    modifies q
    ensures stop == AllPagesDone || stop == Raised || stop.WaitingForRoom?
    ensures stop == Raised ==> exists i :: 0 <= i < |pages| && PageRaises(fnmatch, pages[i], lists, cond)
    ensures stop == Raised ==> FirstRaise(fnmatch, pages, lists, cond, |q.batches| - |old(q.batches)|)
    ensures !stop.WaitingForRoom? <==> q.completed
    ensures stop.WaitingForRoom? ==> |q.batches| >= maxlen
    ensures |q.batches| <= maxlen || q.batches == old(q.batches)
    ensures q.configHash == old(q.configHash) && q.completedGens == old(q.completedGens)
    ensures BatchesFromPages(fnmatch, old(q.batches), q.batches, pages, lists, cond)
    ensures stop.WaitingForRoom? ==> |q.batches| == |old(q.batches)| + stop.page
    ensures stop == AllPagesDone ==> |q.batches| == |old(q.batches)| + |pages|
    ensures (stop.WaitingForRoom? && stop.page > 0) || (stop == AllPagesDone && pages != []) ==>
      var n := |q.batches| - |old(q.batches)|;
      0 < n <= |pages| && pages[n - 1] != [] && q.lastId == pages[n - 1][|pages[n - 1]| - 1].id
    ensures stop == Raised ==>
      var n := |q.batches| - |old(q.batches)|;
      var m := if 0 < n <= |pages| && pages[n - 1] == [] then n - 1 else n;
      && 0 <= m <= |pages|
      && q.lastId == (if m == 0 then old(q.lastId) else pages[m - 1][|pages[m - 1]| - 1].id)
    ensures stop == WaitingForRoom(0) ==> q.lastId == old(q.lastId)
    ensures stop == AllPagesDone ==> forall k :: 0 <= k < |pages| ==> pages[k] != []
    ensures stop.WaitingForRoom? ==> stop.page <= |pages| && forall k :: 0 <= k < stop.page ==> pages[k] != []
  {
    var i := 0;
    ghost var start := q.batches;
    while i < |pages|
      invariant 0 <= i <= |pages|
      invariant !q.completed
      invariant |q.batches| <= maxlen || q.batches == start
      invariant q.configHash == old(q.configHash) && q.completedGens == old(q.completedGens)
      invariant start == old(q.batches) && |q.batches| == |start| + i
      invariant BatchesFromPages(fnmatch, start, q.batches, pages, lists, cond)
      invariant i > 0 ==> pages[i - 1] != [] && q.lastId == pages[i - 1][|pages[i - 1]| - 1].id
      invariant forall k :: 0 <= k < i ==> pages[k] != []
      invariant i == 0 ==> q.lastId == old(q.lastId)
    {
      if |q.batches| >= maxlen {
        return WaitingForRoom(i);
      }
      var kept := FilterPage(fnmatch, pages[i], lists, cond);
      if kept.Some? {
        BatchesFromPagesSnoc(fnmatch, start, q.batches, pages, lists, cond, kept.value);
      }
      var ok := QueuePage(fnmatch, lists, cond, pages[i], maxlen, q);
      if !ok {
        q.completed := true;
        assert PageRaises(fnmatch, pages[i], lists, cond);
        assert FirstRaise(fnmatch, pages, lists, cond, |q.batches| - |start|) by {
          if kept.None? {
            assert |q.batches| - |start| == i;
          } else {
            assert pages[i] == [] && |q.batches| - |start| == i + 1;
          }
        }
        return Raised;
      }
      i := i + 1;
    }
    q.completed := true;
    return AllPagesDone;
  }

  /** The body of the producer's loop for one page: filter it, queue what it keeps,
      move the cursor to its last post. `false` when it raises: filtering raised and
      nothing was queued, or the page was empty and `results[-1]` failed after the
      empty batch was queued. */
  method QueuePage(fnmatch: Matcher, lists: TagLists, cond: Option<Formula>, page: seq<Post>,
                   maxlen: nat, q: DownloadQueue<seq<Post>>)
    returns (ok: bool)
    requires |q.batches| < maxlen
    modifies q
    ensures ok <==> !PageRaises(fnmatch, page, lists, cond)
    ensures FilterPage(fnmatch, page, lists, cond).None? ==> q.batches == old(q.batches)
    ensures FilterPage(fnmatch, page, lists, cond).Some? ==>
      q.batches == old(q.batches) + [FilterPage(fnmatch, page, lists, cond).value]
    ensures ok ==> q.lastId == page[|page| - 1].id
    ensures !ok ==> q.lastId == old(q.lastId)
    ensures q.completed == old(q.completed)
    ensures q.configHash == old(q.configHash) && q.completedGens == old(q.completedGens)
  {
    var kept := FilterResults(fnmatch, page, lists, cond);
    if kept.None? {
      return false;
    }
    q.Append(kept.value, maxlen);
    if page == [] {
      return false;
    }
    q.lastId := page[|page| - 1].id;
    return true;
  }

  // ---------------------------------------------------------------------------
  // The producer as written: `storage.append` before any page is queued
  // ---------------------------------------------------------------------------

  /** `prefilter_build_index` as e621dl.py:28-75 has it. `PostsStorage()` only runs
      `pass` (e621dl_lib/local.py:223-224) and `connect()` is never called, so
      `storage.append(results)` at line 48 reads the missing `self.cur` and raises on
      the first page, before the page is filtered or queued; the `finally` then marks
      the queue completed. `PrefilterBuildIndex` is the producer with a connected
      storage, which the rest of the model uses. */
  method PrefilterBuildIndexAsWritten(prefilter: seq<string>, globalBlacklist: seq<string>,
                                      pages: seq<seq<Post>>, q: DownloadQueue<seq<Post>>)
    returns (stop: PrefilterStop)
    modifies q
    ensures q.completed
    ensures q.batches == old(q.batches) && q.lastId == old(q.lastId)
    ensures q.configHash == old(q.configHash) && q.completedGens == old(q.completedGens)
    ensures stop == NoPrefilter <==> prefilter == []
    ensures stop == AlreadyCompleted <==> prefilter != [] && old(q.completed)
    ensures stop == Raised <==>
      prefilter != [] && !old(q.completed) && (PrefilterLists(prefilter, globalBlacklist).None? || pages != [])
    ensures stop == AllPagesDone <==>
      prefilter != [] && !old(q.completed) && PrefilterLists(prefilter, globalBlacklist).Some? && pages == []
  {
    if prefilter == [] {
      q.completed := true;
      return NoPrefilter;
    }
    if q.completed {
      return AlreadyCompleted;
    }
    var lists := PrefilterLists(prefilter, globalBlacklist);
    if lists.None? {
      q.completed := true;
      return Raised;
    }
    if pages != [] {
      // `storage.append(results)`: AttributeError, nothing queued
      q.completed := true;
      return Raised;
    }
    q.completed := true;
    return AllPagesDone;
  }

  /** The prefilter `a` over one page holding one post tagged `a`, on a fresh queue:
      as written the producer queues nothing and raises; with a connected storage it
      queues that page's post. */
  method StorageCrashExample() returns (queuedAsWritten: nat, queuedConnected: nat)
    ensures queuedAsWritten == 0
    ensures queuedConnected == 1
  {
    var post := Post(7, "a", "s", 0, 0, 0, "", "png", "");
    var exact: Matcher := (tag, mask) => tag == mask;
    var prefilter := ["a"];
    var lists := TagLists(["a"], [], []);
    assert PrefilterLists(prefilter, []) == Some(lists) by {
      assert prefilter[1..] == [] && prefilter[0][0] == 'a';
      assert SplitConfigTags(prefilter[1..]) == Some(TagLists([], [], []));
      var t := prefilter[0];
      assert t == "a" && t != [] && t[0] != '-' && t[0] != '~';
      assert [t] + [] == lists.whitelist;
      assert SplitConfigTags(prefilter) == Some(lists);
      assert [] + lists.blacklist == lists.blacklist;
    }
    assert SplitWords(post.tags) == ["a"] by {
      assert !IsWhitespace(post.tags[0]) && WordEnd(post.tags) == 1;
      assert post.tags[..1] == "a" && post.tags[1..] == [];
    }
    assert PrefilterJudge(exact, post, lists, None) == Accepted by {
      assert SomeTagMatches(exact, ["a"], "a");
      assert WhitelistPasses(exact, ["a"], lists.whitelist);
    }
    assert FilterPage(exact, [post], lists, None) == Some([post]) by {
      assert [post][..|[post]| - 1] == [] && [post][|[post]| - 1] == post;
      assert FilterPage(exact, [], lists, None) == Some([]);
      assert [] + [post] == [post];
    }

    var asWritten := new DownloadQueue<seq<Post>>(None);
    var stop1 := PrefilterBuildIndexAsWritten(prefilter, [], [[post]], asWritten);
    queuedAsWritten := |asWritten.batches|;

    var connected := new DownloadQueue<seq<Post>>(None);
    var stop2 := PrefilterBuildIndex(exact, prefilter, [], None, [[post]], DefaultMaxLen, connected);
    queuedConnected := |connected.batches|;
  }
}
