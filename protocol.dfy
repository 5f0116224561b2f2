/** The messages the coordinator sends its workers, how `broadcastToWorkers`
    routes them, the round-robin order of the saturation loop, and the
    worker's outcome for one job. */
module Protocol {
  import opened Naming

  /** The `cmd` of a message to a worker, with its `data`. */
  datatype Command = SetDir(path: string) | Download(file: FileRef) | Shutdown

  /** One message sent, with the id of the worker it went to. */
  datatype Message = Message(to: nat, cmd: Command)

  /** The id that stands for `false`: "no particular worker". JavaScript
      treats 0 and `false` alike here, both being falsy. */
  const AnyWorker: nat := 0

  /** The ids the cluster gives `n` forked workers: 1 to n, in order. */
  function Ids(n: nat): (ids: seq<nat>)
    ensures |ids| == n
    ensures forall k :: 0 <= k < n ==> ids[k] == k + 1
    decreases n
  {
    if n == 0 then [] else Ids(n - 1) + [n]
  }

  /** One message per listed worker, in list order. */
  function ToAll(ids: seq<nat>, cmd: Command): (msgs: seq<Message>)
    ensures |msgs| == |ids|
    ensures forall k :: 0 <= k < |ids| ==> msgs[k] == Message(ids[k], cmd)
    decreases |ids|
  {
    if |ids| == 0 then [] else ToAll(ids[..|ids| - 1], cmd) + [Message(ids[|ids| - 1], cmd)]
  }

  /** What `broadcastToWorkers(id, cmd)` sends: one message to `id` when
      that id is truthy and names a live worker, and otherwise one to every
      worker. */
  function Route(ids: seq<nat>, id: nat, cmd: Command): (msgs: seq<Message>)
    ensures id != AnyWorker && id in ids ==> msgs == [Message(id, cmd)]
    ensures !(id != AnyWorker && id in ids) ==>
              |msgs| == |ids| && forall k :: 0 <= k < |ids| ==> msgs[k] == Message(ids[k], cmd)
  {
    if id != AnyWorker && id in ids then [Message(id, cmd)] else ToAll(ids, cmd)
  }

  /** The worker the `k`-th step of the saturation loop picks: 1, 2, ...,
      `workers`, then the same again. With no workers the loop keeps picking
      1. */
  function RoundRobin(k: nat, workers: nat): (id: nat)
    ensures workers > 0 ==> 1 <= id <= workers
    ensures workers > 0 && k < workers ==> id == k + 1
    ensures workers == 0 ==> id == 1
    decreases k
  {
    if workers == 0 then 1
    else if k < workers then k + 1
    else RoundRobin(k - workers, workers)
  }

  /** The picks repeat with period `workers`. */
  lemma RoundRobinPeriodic(k: nat, workers: nat)
    requires workers > 0
    ensures RoundRobin(k + workers, workers) == RoundRobin(k, workers)
  {
  }

  /** The picks agree with the loop's own step: the next pick is the
      previous one plus one, wrapped to 1 once it exceeds `workers`. */
  lemma {:induction false} RoundRobinStep(k: nat, workers: nat)
    ensures RoundRobin(0, workers) == 1
    ensures var next := RoundRobin(k, workers) + 1;
            RoundRobin(k + 1, workers) == if next > workers then 1 else next
    decreases k
  {
    if workers > 0 && k + 1 > workers {
      RoundRobinStep(k - workers, workers);
      assert k + 1 - workers == (k - workers) + 1;
    }
  }

  /** The messages the saturation loop sends for the first `n` jobs of the
      queue `q`, the `k`-th job through `broadcastToWorkers` to the `k`-th
      round-robin pick. */
  function Dispatches(ids: seq<nat>, workers: nat, q: seq<FileRef>, n: nat): (msgs: seq<Message>)
    requires n <= |q|
    decreases n
  {
    if n == 0 then []
    else Dispatches(ids, workers, q, n - 1) + Route(ids, RoundRobin(n - 1, workers), Download(q[n - 1]))
  }

  /** Appending messages is associative. */
  lemma AppendAssoc(a: seq<Message>, b: seq<Message>, c: seq<Message>)
    ensures a + b + c == a + (b + c)
  {
  }

  /** One step of the saturation loop: with `last` the loop's counter after
      `i` steps, the wrapped counter is the `i`-th round-robin pick, and
      sending the `i`-th job to it extends the messages sent so far, `sent`
      followed by the first `i` dispatches, as `Dispatches` says. */
  lemma SaturationStep(sent: seq<Message>, ids: seq<nat>, workers: nat, q: seq<FileRef>, i: nat, last: nat)
    requires i < |q|
    requires last == if i == 0 then 1 else RoundRobin(i - 1, workers) + 1
    ensures var pick := if last > workers then 1 else last;
            && pick == RoundRobin(i, workers)
            && sent + Dispatches(ids, workers, q, i) + Route(ids, pick, Download(q[i]))
               == sent + Dispatches(ids, workers, q, i + 1)
  {
    RoundRobinStep(if i == 0 then 0 else i - 1, workers);
    var pick := if last > workers then 1 else last;
    AppendAssoc(sent, Dispatches(ids, workers, q, i), Route(ids, pick, Download(q[i])));
  }

  /** With the cluster's ids 1..`workers`, the saturation loop sends each job
      once, in queue order, the `k`-th to the `k`-th round-robin pick (never
      outside 1..`workers`). */
  lemma DispatchesRoundRobin(workers: nat, q: seq<FileRef>, n: nat)
    requires workers > 0 && n <= |q|
    ensures var msgs := Dispatches(Ids(workers), workers, q, n);
            |msgs| == n
            && forall k :: 0 <= k < n ==> msgs[k] == Message(RoundRobin(k, workers), Download(q[k]))
  {
    forall k | 0 <= k < n ensures RoundRobin(k, workers) in Ids(workers) {
      assert Ids(workers)[RoundRobin(k, workers) - 1] == RoundRobin(k, workers);
    }
    DispatchesToKnown(Ids(workers), workers, q, n);
  }

  /** When every pick among the first `n` is a known worker, each of the
      first `n` jobs is one message to its pick. */
  lemma {:induction false} DispatchesToKnown(ids: seq<nat>, workers: nat, q: seq<FileRef>, n: nat)
    requires n <= |q|
    requires forall k :: 0 <= k < n ==> RoundRobin(k, workers) in ids
    ensures var msgs := Dispatches(ids, workers, q, n);
            |msgs| == n
            && forall k :: 0 <= k < n ==> msgs[k] == Message(RoundRobin(k, workers), Download(q[k]))
    decreases n
  {
    if n > 0 {
      DispatchesToKnown(ids, workers, q, n - 1);
      var prev := Dispatches(ids, workers, q, n - 1);
      var m := Message(RoundRobin(n - 1, workers), Download(q[n - 1]));
      assert RoundRobin(n - 1, workers) in ids;
      assert Dispatches(ids, workers, q, n) == prev + [m];
    }
  }

  /** The number of download jobs among messages. */
  function JobCount(msgs: seq<Message>): (jobs: nat)
    decreases |msgs|
  {
    if |msgs| == 0 then 0
    else JobCount(msgs[..|msgs| - 1]) + (if msgs[|msgs| - 1].cmd.Download? then 1 else 0)
  }

  /** The job count of two message runs adds up. */
  lemma {:induction false} JobCountAppend(a: seq<Message>, b: seq<Message>)
    ensures JobCount(a + b) == JobCount(a) + JobCount(b)
    decreases |b|
  {
    if |b| > 0 {
      JobCountAppend(a, b[..|b| - 1]);
      assert (a + b)[..|a + b| - 1] == a + b[..|b| - 1];
      assert (a + b)[|a + b| - 1] == b[|b| - 1];
    } else {
      assert a + b == a;
    }
  }

  /** Sending one job to a known worker hands out exactly one job. */
  lemma RouteOneJob(ids: seq<nat>, id: nat, file: FileRef)
    requires id != AnyWorker && id in ids
    ensures JobCount(Route(ids, id, Download(file))) == 1
  {
    assert Route(ids, id, Download(file)) == [] + [Message(id, Download(file))];
  }

  /** With the cluster's ids, or before any worker exists, the saturation
      loop hands out one job per queued file, or none at all. */
  lemma {:induction false} DispatchesJobCount(ids: seq<nat>, workers: nat, q: seq<FileRef>, n: nat)
    requires ids == [] || ids == Ids(workers)
    requires n <= |q|
    ensures JobCount(Dispatches(ids, workers, q, n)) == if ids == [] then 0 else n
    decreases n
  {
    if n > 0 {
      DispatchesJobCount(ids, workers, q, n - 1);
      var id := RoundRobin(n - 1, workers);
      var last := Route(ids, id, Download(q[n - 1]));
      JobCountAppend(Dispatches(ids, workers, q, n - 1), last);
      if ids == [] {
        assert last == [];
      } else {
        assert ids[id - 1] == id;
        RouteOneJob(ids, id, q[n - 1]);
      }
    }
  }

  /** A worker's report on one job. */
  datatype Report = DownloadedFile | SkippedFile

  /** The worker's `downloadFile`: a file already on disk is skipped without
      a request; otherwise the file counts as downloaded when the request
      completes without a request error, whatever its HTTP status (an error
      page is saved like any body), and as skipped on a request error. */
  function WorkerOutcome(onDisk: bool, requestError: bool): (r: Report)
    ensures onDisk ==> r == SkippedFile
    ensures r == DownloadedFile <==> !onDisk && !requestError
  {
    if onDisk then SkippedFile else if requestError then SkippedFile else DownloadedFile
  }
}
