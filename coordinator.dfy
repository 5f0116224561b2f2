/** The master side of 4get.js: a `Fourget` object whose queue, counters
    and watch flag are updated step by step by its handlers — the page
    handler (`'fetch'`), the parse handler with its saturation loop
    (`'parse'`), the worker-report handler and `dispatchDownload`.

    Messages to workers are recorded in `trace`, in sending order, instead
    of crossing a process boundary. Fetch requests, whether made at start-up
    or by the re-poll timer, are counted in `fetchRequests`; the page that
    comes back is the argument of `OnFetch`. Ghost fields keep the
    bookkeeping the source leaves implicit: jobs in flight, jobs handed out
    by the last saturation loop, and page requests not yet answered. */
module Coordinator {
  import opened Naming
  import opened Config
  import opened Protocol
  import ThreadUrl

  /** A page that loaded: whether it carries the closed marker (`.closed`),
      and its file blocks in page order. */
  datatype Page = Page(archived: bool, blocks: seq<FileBlock>)

  /** What the page request delivered. */
  datatype FetchResult = TransportError | Response(statusCode: int, page: Page)

  /** The thread is gone: a request error or any status other than 200. */
  predicate Dead(res: FetchResult) {
    res.TransportError? || res.statusCode != 200
  }

  function Min(a: nat, b: nat): nat {
    if a <= b then a else b
  }

  /** The re-poll delay, 30 seconds. */
  const RetryEveryMs: nat := 30000

  class Fourget {
    const url: string
    const cwd: string
    const workers: nat
    const concurrentDownloads: nat
    const retryEvery: nat
    const useOriginal: bool

    var dir: string
    var files: seq<FileRef>
    var workersFinished: nat
    var watch: bool
    var downloaded: nat
    /** The ids of the forked workers (`Object.keys(cluster.workers)`). */
    var workerIds: seq<nat>
    /** Every message sent to a worker so far. */
    var trace: seq<Message>
    /** Calls of `fetch`: the first one, then one per re-poll timer. */
    var fetchRequests: nat

    /** Jobs sent to a worker and not yet reported on. */
    ghost var inFlight: nat
    /** Jobs the last saturation loop handed out. */
    ghost var cycleDispatched: nat
    /** Page requests not yet answered. */
    ghost var awaitingPage: nat

    /** The clamped settings, and a worker pool that is either not yet
        forked or has the cluster's ids 1..`workers`. */
    ghost predicate Valid()
      reads this`workerIds
    {
      workers <= MaxWorkers && workers <= concurrentDownloads
      && (workerIds == [] || workerIds == Ids(workers))
    }

    /** The state of a new coordinator, before anything is sent. */
    ghost predicate Idle()
      reads this`files, this`inFlight, this`workersFinished, this`cycleDispatched, this`awaitingPage
    {
      files == [] && inFlight == 0 && workersFinished == 0 && cycleDispatched == 0 && awaitingPage == 0
    }

    /** The accounting invariant: every job of the cycle is either still in
        flight or has come back to a worker that found the queue empty, and
        a cycle hands out at most `concurrentDownloads` jobs. While a page
        request is outstanding nothing is queued or in flight. */
    ghost predicate Accounted()
      reads this`files, this`inFlight, this`workersFinished, this`cycleDispatched, this`awaitingPage
    {
      inFlight + workersFinished == cycleDispatched <= concurrentDownloads
      && awaitingPage <= 1
      && (awaitingPage == 1 ==> files == [] && inFlight == 0 && workersFinished == 0 && cycleDispatched == 0)
    }

    /** `Accounted`, just after one job of the cycle was reported on. */
    ghost predicate SlotFreed()
      reads this`inFlight, this`workersFinished, this`cycleDispatched, this`awaitingPage
    {
      inFlight + workersFinished + 1 == cycleDispatched <= concurrentDownloads && awaitingPage == 0
    }

    /** The `dir` notice of a batch: sent to every worker when the batch is
        not empty. */
    ghost function DirNotice(batch: seq<FileRef>): seq<Message>
      reads this`workerIds
    {
      if |batch| > 0 then Route(workerIds, AnyWorker, SetDir(DirPath(cwd, url))) else []
    }

    /** The state the parse handler leaves behind, given the queue, trace,
        directory and in-flight count it found and the parsed batch: the
        queue is the old one twice followed by the batch, the first
        `min(concurrentDownloads, queue length)` entries of which went out
        round-robin, after the directory notice. Each of them is one job in
        flight (`DispatchesJobCount`), unless no worker has been forked yet. */
    ghost predicate ParsedFrom(files0: seq<FileRef>, trace0: seq<Message>, dir0: string,
                               inFlight0: nat, batch: seq<FileRef>)
      reads this`files, this`dir, this`trace, this`inFlight, this`cycleDispatched, this`workerIds
    {
      var q := files0 + files0 + batch;
      var n := Min(concurrentDownloads, |q|);
      var handed := if workerIds == [] then 0 else n;
      && files == q[n..]
      && dir == (if |batch| > 0 then DirPath(cwd, url) else dir0)
      && trace == trace0 + DirNotice(batch) + Dispatches(workerIds, workers, q, n)
      && inFlight == inFlight0 + handed
      && cycleDispatched == handed
    }

    /** The state `dispatchDownload(id)` leaves behind, given the queue,
        trace, finished count and fetch count it found: the head of a
        non-empty queue goes to worker `id`; otherwise the worker counts as
        finished and, once `concurrentDownloads` have finished, either all
        workers are told to shut down (not watching) or the count restarts
        and one more fetch is requested (watching). */
    ghost predicate DispatchedFrom(id: nat, files0: seq<FileRef>, trace0: seq<Message>,
                                   finished0: nat, fetches0: nat)
      reads this`files, this`trace, this`workersFinished, this`fetchRequests, this`watch, this`workerIds
    {
      if files0 != [] then
        && files == files0[1..]
        && trace == trace0 + Route(workerIds, id, Download(files0[0]))
        && workersFinished == finished0
        && fetchRequests == fetches0
      else
        && files == []
        && if finished0 + 1 < concurrentDownloads then
             workersFinished == finished0 + 1 && trace == trace0 && fetchRequests == fetches0
           else if !watch then
             workersFinished == finished0 + 1 && trace == trace0 + Route(workerIds, AnyWorker, Shutdown)
             && fetchRequests == fetches0
           else
             workersFinished == 0 && trace == trace0 && fetchRequests == fetches0 + 1
    }

    /** The ghost counters `dispatchDownload(id)` leaves behind, given the
        queue, finished count and counters it found: a job sent adds the
        jobs its routing hands out to those in flight; a re-poll closes the
        cycle and leaves one more page request outstanding; nothing else
        changes them. */
    ghost predicate CountedFrom(id: nat, files0: seq<FileRef>, finished0: nat,
                                inFlight0: nat, cycle0: nat, awaiting0: nat)
      reads this`inFlight, this`cycleDispatched, this`awaitingPage, this`watch, this`workerIds
    {
      if files0 != [] then
        && inFlight == inFlight0 + JobCount(Route(workerIds, id, Download(files0[0])))
        && cycleDispatched == cycle0 && awaitingPage == awaiting0
      else
        && inFlight == inFlight0
        && if finished0 + 1 >= concurrentDownloads && watch then
             cycleDispatched == 0 && awaitingPage == awaiting0 + 1
           else
             cycleDispatched == cycle0 && awaitingPage == awaiting0
    }

    /** `new Fourget(options)`: each count from the options, else the
        command line, else the core count and eight, then capped at four
        workers and raised to the worker count as `Resolve` says. */
    constructor (url: string, cwd: string, optionWorkers: nat, argWorkers: Argument,
                 optionConcurrent: nat, argConcurrent: Argument, cpuCount: nat)
      ensures this.url == url && this.cwd == cwd
      ensures workers == Resolve(optionWorkers, argWorkers, optionConcurrent, argConcurrent, cpuCount).workers
      ensures concurrentDownloads
              == Resolve(optionWorkers, argWorkers, optionConcurrent, argConcurrent, cpuCount).concurrentDownloads
      ensures retryEvery == RetryEveryMs && useOriginal
      ensures dir == cwd + PathSep && watch && downloaded == 0
      ensures workerIds == [] && trace == [] && fetchRequests == 0
      ensures Valid() && Idle() && Accounted()
    {
      var w := Lookup(optionWorkers, argWorkers, cpuCount);
      var c := Lookup(optionConcurrent, argConcurrent, DefaultConcurrentDownloads);
      if w.n > MaxWorkers {
        w := Num(MaxWorkers);
      }
      if Greater(w, c) {
        c := w;
      }
      this.url := url;
      this.cwd := cwd;
      workers := w.n;
      concurrentDownloads := c.n;
      retryEvery := RetryEveryMs;
      useOriginal := true;
      dir := cwd + PathSep;
      files := [];
      workersFinished := 0;
      watch := true;
      downloaded := 0;
      workerIds := [];
      trace := [];
      fetchRequests := 0;
      inFlight := 0;
      cycleDispatched := 0;
      awaitingPage := 0;
    }

    /** The master's `main`: an invalid thread link stops the run before
        anything happens; otherwise the workers are forked and the first
        fetch is requested. */
    method Start() returns (started: bool)
      requires Valid() && workerIds == []
      modifies this`workerIds, this`fetchRequests, this`awaitingPage
      ensures Valid()
      ensures started == ThreadUrl.ValidateThreadUrl(url)
      ensures started ==> workerIds == Ids(workers) && fetchRequests == old(fetchRequests) + 1
                          && awaitingPage == old(awaitingPage) + 1
      ensures !started ==> workerIds == [] && fetchRequests == old(fetchRequests)
                           && awaitingPage == old(awaitingPage)
      ensures started && old(Idle()) ==> Accounted()
    {
      if !ThreadUrl.ValidateThreadUrl(url) {
        return false;
      }
      var i := 0;
      while i < workers
        invariant 0 <= i <= workers
        invariant workerIds == Ids(i)
        invariant fetchRequests == old(fetchRequests) && awaitingPage == old(awaitingPage)
      {
        workerIds := workerIds + [i + 1];
        i := i + 1;
      }
      Fetch();
      started := true;
    }

    /** `fetch`: one more page request. */
    method Fetch()
      modifies this`fetchRequests, this`awaitingPage
      ensures fetchRequests == old(fetchRequests) + 1
      ensures awaitingPage == old(awaitingPage) + 1
    {
      fetchRequests := fetchRequests + 1;
      awaitingPage := awaitingPage + 1;
    }

    /** The `'fetch'` handler. A dead thread stops watching and nothing
        else happens: no parse, no dispatch and no shutdown. An archived page
        stops watching too but is still parsed and dispatched; an active one
        is parsed with watching left as it was. When the page answers an
        outstanding request the queue is empty, so the doubling of the old
        queue by the parse handler has nothing to double. */
    method OnFetch(res: FetchResult)
      requires Valid()
      modifies this`watch, this`dir, this`files, this`trace, this`awaitingPage, this`inFlight, this`cycleDispatched
      ensures Valid()
      ensures awaitingPage == if old(awaitingPage) > 0 then old(awaitingPage) - 1 else 0
      ensures Dead(res) ==> !watch && files == old(files) && trace == old(trace) && dir == old(dir)
                            && inFlight == old(inFlight) && cycleDispatched == old(cycleDispatched)
      ensures !Dead(res) ==> watch == (old(watch) && !res.page.archived)
      ensures !Dead(res) ==>
                ParsedFrom(old(files), old(trace), old(dir), old(inFlight), FilesOf(res.page.blocks, useOriginal))
      ensures old(Accounted()) && old(awaitingPage) > 0 ==> Accounted()
      ensures !Dead(res) && old(Accounted()) && old(awaitingPage) > 0 ==>
                ParsedFrom([], old(trace), old(dir), 0, FilesOf(res.page.blocks, useOriginal))
    {
      if awaitingPage > 0 {
        awaitingPage := awaitingPage - 1;
      }
      if res.TransportError? || res.statusCode != 200 {
        watch := false;
        return;
      }
      if res.page.archived {
        watch := false;
      }
      Parse(res.page.blocks);
    }

    /** `parse`: one reference per file block, in page order, handed to the
        parse handler. */
    method Parse(blocks: seq<FileBlock>)
      requires Valid()
      modifies this`dir, this`files, this`trace, this`inFlight, this`cycleDispatched
      ensures Valid()
      ensures ParsedFrom(old(files), old(trace), old(dir), old(inFlight), FilesOf(blocks, useOriginal))
      ensures old(awaitingPage) == 0 && old(inFlight) == 0 && old(workersFinished) == 0 ==> Accounted()
    {
      var found: seq<FileRef> := [];
      var i := 0;
      while i < |blocks|
        invariant 0 <= i <= |blocks|
        invariant |found| == i
        invariant forall k :: 0 <= k < i ==> found[k] == FileFor(blocks[k], useOriginal)
      {
        found := found + [FileFor(blocks[i], useOriginal)];
        i := i + 1;
      }
      assert found == FilesOf(blocks, useOriginal);
      OnParse(found);
    }

    /** The `'parse'` handler: the directory notice for a non-empty batch,
        the queue update (the old queue twice, then the batch), and the
        saturation loop. */
    method OnParse(batch: seq<FileRef>)
      requires Valid()
      modifies this`dir, this`files, this`trace, this`inFlight, this`cycleDispatched
      ensures Valid()
      ensures ParsedFrom(old(files), old(trace), old(dir), old(inFlight), batch)
      ensures old(awaitingPage) == 0 && old(inFlight) == 0 && old(workersFinished) == 0 ==> Accounted()
    {
      ghost var ids := workerIds;
      AnnounceDir(batch);
      assert workerIds == ids && workersFinished == old(workersFinished) && awaitingPage == old(awaitingPage);
      ghost var noticed := trace;
      ghost var dir1 := dir;
      files := files + files + batch;
      ghost var q := files;
      ghost var n := Min(concurrentDownloads, |q|);
      Saturate();
      assert workerIds == ids && workersFinished == old(workersFinished) && awaitingPage == old(awaitingPage);
      assert dir == dir1 && trace == noticed + Dispatches(ids, workers, q, n);
      ghost var handed := if ids == [] then 0 else n;
      inFlight := inFlight + handed;
      cycleDispatched := handed;
      assert handed <= concurrentDownloads;
    }

    /** The first step of the parse handler: a non-empty batch sets the
        download directory and announces it to every worker. */
    method AnnounceDir(batch: seq<FileRef>)
      modifies this`dir, this`trace
      ensures dir == if |batch| > 0 then DirPath(cwd, url) else old(dir)
      ensures trace == old(trace) + DirNotice(batch)
    {
      if |batch| > 0 {
        var d := SetAndCreateDir();
        var sent := BroadcastToWorkers(AnyWorker, SetDir(d));
      }
    }

    /** The saturation loop of the parse handler: up to
        `concurrentDownloads` jobs leave the front of the queue, in order, the
        `k`-th to the `k`-th round-robin pick. */
    method Saturate()
      modifies this`files, this`trace
      ensures var n := Min(concurrentDownloads, |old(files)|);
              files == old(files)[n..] && trace == old(trace) + Dispatches(workerIds, workers, old(files), n)
    {
      ghost var q := files;
      ghost var t0 := trace;
      ghost var ids := workerIds;
      var lastWorker := 1;
      var downloadsInProgress := 0;
      while downloadsInProgress < concurrentDownloads && |files| > 0
        invariant workerIds == ids
        invariant downloadsInProgress <= concurrentDownloads && downloadsInProgress <= |q|
        invariant files == q[downloadsInProgress..]
        invariant trace == t0 + Dispatches(ids, workers, q, downloadsInProgress)
        invariant lastWorker == if downloadsInProgress == 0 then 1
                                else RoundRobin(downloadsInProgress - 1, workers) + 1
      {
        SaturationStep(t0, ids, workers, q, downloadsInProgress, lastWorker);
        var file := files[0];
        files := files[1..];
        assert file == q[downloadsInProgress] && files == q[downloadsInProgress + 1..];
        lastWorker := if lastWorker > workers then 1 else lastWorker;
        var sent := BroadcastToWorkers(lastWorker, Download(file));
        lastWorker := lastWorker + 1;
        downloadsInProgress := downloadsInProgress + 1;
      }
      assert downloadsInProgress == Min(concurrentDownloads, |q|);
    }

    /** `setAndCreateDir`: the directory named after the thread URL becomes
        the download directory (creating it on disk is left out). */
    method SetAndCreateDir() returns (d: string)
      modifies this`dir
      ensures dir == DirPath(cwd, url) && d == dir
    {
      dir := DirPath(cwd, url);
      d := dir;
    }

    /** `broadcastToWorkers(id, cmd)`: one message to a truthy known `id`,
        otherwise one to each worker; returns the number of messages. */
    method BroadcastToWorkers(id: nat, cmd: Command) returns (count: nat)
      modifies this`trace
      ensures trace == old(trace) + Route(workerIds, id, cmd)
      ensures count == if id != AnyWorker && id in workerIds then 1 else |workerIds|
    {
      count := 0;
      if id != AnyWorker && id in workerIds {
        trace := trace + [Message(id, cmd)];
        count := count + 1;
      } else {
        var i := 0;
        while i < |workerIds|
          invariant 0 <= i <= |workerIds|
          invariant trace == old(trace) + ToAll(workerIds[..i], cmd)
          invariant count == i
        {
          assert workerIds[..i + 1][..i] == workerIds[..i];
          trace := trace + [Message(workerIds[i], cmd)];
          count := count + 1;
          i := i + 1;
        }
        assert workerIds[..|workerIds|] == workerIds;
      }
    }

    /** The handler for a worker's report: a download is counted (a skip is
        not), then the worker is given its next job by `DispatchDownload`.
        If each report answers a job in flight, the accounting invariant is
        kept, and the cycle can only end when the saturation loop filled every
        download slot. */
    method OnReport(id: nat, report: Report)
      requires Valid()
      modifies this`downloaded, this`files, this`trace, this`workersFinished, this`fetchRequests,
               this`awaitingPage, this`inFlight, this`cycleDispatched
      ensures Valid()
      ensures downloaded == old(downloaded) + (if report == DownloadedFile then 1 else 0)
      ensures DispatchedFrom(id, old(files), old(trace), old(workersFinished), old(fetchRequests))
      ensures CountedFrom(id, old(files), old(workersFinished),
                          if old(inFlight) > 0 then old(inFlight) - 1 else 0,
                          old(cycleDispatched), old(awaitingPage))
      ensures old(Accounted()) && old(inFlight) > 0 && id in workerIds ==> Accounted()
      ensures old(Accounted()) && old(inFlight) > 0 && id in workerIds
              && old(files) == [] && old(workersFinished) + 1 >= concurrentDownloads
              ==> old(cycleDispatched) == concurrentDownloads && old(inFlight) == 1
    {
      if report == DownloadedFile {
        downloaded := downloaded + 1;
      }
      if inFlight > 0 {
        inFlight := inFlight - 1;
      }
      DispatchDownload(id);
    }

    /** `dispatchDownload(id)`. */
    method DispatchDownload(id: nat)
      requires Valid()
      modifies this`files, this`trace, this`workersFinished, this`fetchRequests,
               this`awaitingPage, this`inFlight, this`cycleDispatched
      ensures Valid()
      ensures DispatchedFrom(id, old(files), old(trace), old(workersFinished), old(fetchRequests))
      ensures CountedFrom(id, old(files), old(workersFinished), old(inFlight), old(cycleDispatched), old(awaitingPage))
      ensures old(SlotFreed()) && id in workerIds ==> Accounted()
    {
      if |files| > 0 {
        ghost var ids := workerIds;
        var file := files[0];
        files := files[1..];
        var sent := BroadcastToWorkers(id, Download(file));
        assert workerIds == ids;
        if id != AnyWorker && id in ids {
          RouteOneJob(ids, id, file);
        }
        inFlight := inFlight + JobCount(Route(ids, id, Download(file)));
      } else {
        WorkerFinished(id);
      }
    }

    /** The empty-queue branch of `dispatchDownload(id)`: the worker counts
        as finished, and once `concurrentDownloads` have finished the pool is
        shut down (not watching) or the cycle closes with one more fetch
        requested (watching). */
    method WorkerFinished(id: nat)
      requires Valid() && files == []
      modifies this`trace, this`workersFinished, this`fetchRequests, this`awaitingPage, this`cycleDispatched
      ensures Valid()
      ensures DispatchedFrom(id, [], old(trace), old(workersFinished), old(fetchRequests))
      ensures CountedFrom(id, [], old(workersFinished), inFlight, old(cycleDispatched), old(awaitingPage))
      ensures old(SlotFreed()) ==> Accounted()
    {
      ghost var ids := workerIds;
      workersFinished := workersFinished + 1;
      if workersFinished >= concurrentDownloads {
        if !watch {
          var sent := BroadcastToWorkers(AnyWorker, Shutdown);
          assert workerIds == ids;
        } else {
          workersFinished := 0;
          cycleDispatched := 0;
          Fetch();
          assert workerIds == ids;
        }
      }
    }
  }
}
