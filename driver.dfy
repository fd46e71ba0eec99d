/**
 * `main`: check the arguments, log the start of the Tor check, build the
 * proxied client, pass the connectivity gate, load the target list, then
 * feed the cleaned targets to the worker and wait for it to drain them.
 *
 * The client construction, the check request and the loading of the target
 * list are not modelled; their outcomes are parameters.
 */
module Driver {
  import opened Results
  import opened Gate
  import opened Dispatch
  import opened Events
  import opened Pool

  /** How a run ends. */
  datatype Exit =
    | ShowedUsage   // fewer than two arguments: the usage text is printed
    | Aborted       // `log.Fatal`: the process stops after logging the error
    | Finished      // the pool drained every target

  /** What loading the target list produced. */
  datatype TargetList = LoadFailed(reason: string) | Loaded(targets: seq<string>)

  /** The run reached the pool: every earlier stage succeeded. */
  predicate ReachesPool(args: seq<string>, client: Outcome, tor: Response, list: TargetList)
  {
    |args| >= 2 && client.Ok? && CheckTor(tor).Ok? && list.Loaded?
  }

  method Scan(args: seq<string>, client: Outcome, tor: Response, list: TargetList,
              fetch: nat -> Outcome, capture: nat -> Outcome)
    returns (exit: Exit, trace: seq<Event>)
    ensures exit == ShowedUsage <==> |args| < 2
    ensures exit == ShowedUsage ==> trace == []
    ensures exit == Finished <==> ReachesPool(args, client, tor, list)
    ensures exit != ShowedUsage ==> |trace| >= 2 && trace[0] == Logged(CheckingTor)
    ensures Logged(TorVerified) in trace <==> |args| >= 2 && client.Ok? && CheckTor(tor).Ok?
    ensures |args| >= 2 && client.Err? ==>
              trace == [Logged(CheckingTor), Logged(Fatal(client.reason))]
    ensures |args| >= 2 && client.Ok? && CheckTor(tor).Err? ==>
              trace == [Logged(CheckingTor), Logged(TorFailed(CheckTor(tor).reason))]
    ensures |args| >= 2 && client.Ok? && CheckTor(tor).Ok? && list.LoadFailed? ==>
              trace == Preamble + [Logged(Fatal(list.reason))]
    ensures exit == Aborted ==> Project(trace, FetchedUrl) == []
    ensures exit == Finished ==> trace == PoolRunTrace(list.targets, fetch, capture)
  {
    if |args| < 2 {
      return ShowedUsage, [];
    }
    trace := [Logged(CheckingTor)];
    if client.Err? {
      trace := trace + [Logged(Fatal(client.reason))];
      NoFetches(trace);
      return Aborted, trace;
    }
    var gate := CheckTor(tor);
    if gate.Err? {
      trace := trace + [Logged(TorFailed(gate.reason))];
      NoFetches(trace);
      return Aborted, trace;
    }
    trace := trace + [Logged(TorVerified)];
    assert trace == Preamble;
    if list.LoadFailed? {
      trace := trace + [Logged(Fatal(list.reason))];
      NoFetches(trace);
      return Aborted, trace;
    }
    var sent := DispatchTargets(list.targets);
    var worked, sessions := Worker(sent, fetch, capture);
    trace := trace + worked;
    assert trace[1] == Logged(TorVerified);
    exit := Finished;
  }

  /** A trace made only of report lines fetches nothing. */
  lemma {:induction false} NoFetches(t: seq<Event>)
    requires forall k :: 0 <= k < |t| ==> t[k].Logged?
    ensures Project(t, FetchedUrl) == []
    decreases |t|
  {
    if t != [] {
      NoFetches(t[..|t| - 1]);
    }
  }

  /** The report lines written before the pool starts, when every gate passes. */
  const Preamble: seq<Event> := [Logged(CheckingTor), Logged(TorVerified)]

  /** The trace of a run that reaches the pool. */
  function PoolRunTrace(list: seq<string>, fetch: nat -> Outcome, capture: nat -> Outcome): (r: seq<Event>)
    ensures |r| >= 2 + 2 * |Dispatched(list)|
    ensures r[0] == Logged(CheckingTor) && r[1] == Logged(TorVerified)
  {
    Preamble + WorkerTrace(Dispatched(list), fetch, capture)
  }

  /** The preamble fetches nothing, logs no success and opens no session. */
  lemma PreambleInert()
    ensures Project(Preamble, FetchedUrl) == []
    ensures Project(Preamble, SucceededUrl) == []
    ensures Project(Preamble, WrotePath) == []
    ensures Replay(Idle, Preamble) == Some(Idle)
  {
    NoFetches(Preamble);
    assert Preamble[..1] == [Logged(CheckingTor)] && Preamble[..1][..0] == [];
    assert Preamble[1..] == [Logged(TorVerified)] && Preamble[1..][1..] == [];
  }

  /** A run that reaches the pool fetches exactly the cleaned targets, in order. */
  lemma ScanFetchesDispatched(list: seq<string>, fetch: nat -> Outcome, capture: nat -> Outcome)
    ensures Project(PoolRunTrace(list, fetch, capture), FetchedUrl) == Dispatched(list)
  {
    PreambleInert();
    ProjectAppend(Preamble, WorkerTrace(Dispatched(list), fetch, capture), FetchedUrl);
    WorkerFetchesEachOnce(Dispatched(list), fetch, capture);
  }

  /** It logs SUCCESS exactly for the cleaned targets whose fetch and screenshot both succeed. */
  lemma ScanSucceeds(list: seq<string>, fetch: nat -> Outcome, capture: nat -> Outcome)
    ensures Project(PoolRunTrace(list, fetch, capture), SucceededUrl)
            == BothSucceeded(Dispatched(list), fetch, capture)
  {
    PreambleInert();
    ProjectAppend(Preamble, WorkerTrace(Dispatched(list), fetch, capture), SucceededUrl);
    WorkerSuccessIff(Dispatched(list), fetch, capture);
  }

  /** It writes exactly the pages and images of the cleaned targets whose stages succeed, in order. */
  lemma ScanWrites(list: seq<string>, fetch: nat -> Outcome, capture: nat -> Outcome)
    ensures Project(PoolRunTrace(list, fetch, capture), WrotePath)
            == ArtifactsWritten(Dispatched(list), fetch, capture)
  {
    PreambleInert();
    ProjectAppend(Preamble, WorkerTrace(Dispatched(list), fetch, capture), WrotePath);
    WorkerWrites(Dispatched(list), fetch, capture);
  }

  /** It keeps the session discipline and ends with every browser session released. */
  lemma ScanReleasesSessions(list: seq<string>, fetch: nat -> Outcome, capture: nat -> Outcome)
    ensures Replay(Idle, PoolRunTrace(list, fetch, capture)) == Some(Idle)
  {
    PreambleInert();
    WorkerSessionsBalanced(Dispatched(list), fetch, capture);
    ReplayThen(Idle, Preamble, Idle, WorkerTrace(Dispatched(list), fetch, capture));
  }

  /**
   * A worked example: of three list entries one is blank and one is padded;
   * the fetch of the first target fails and the second succeeds throughout.
   * Both targets get an outcome line; only the second gets a screenshot and
   * a SUCCESS line.
   */
  lemma ScanExample()
    ensures var targets := Dispatched(["a.com", "", "  b.org  "]);
            var fetch := (i: nat) => if i == 0 then Err("timeout") else Ok;
            var capture := (i: nat) => Ok;
            var t := WorkerTrace(targets, fetch, capture);
            && Project(t, FetchedUrl) == ["a.com", "b.org"]
            && Project(t, CapturedUrl) == ["b.org"]
            && Project(t, SucceededUrl) == ["b.org"]
  {
    var a, b := "a.com", "b.org";
    var targets := Dispatched(["a.com", "", "  b.org  "]);
    DispatchExample();
    assert targets == [a, b];
    var fetch := (i: nat) => if i == 0 then Err("timeout") else Ok;
    var capture := (i: nat) => Ok;
    WorkerFetchesEachOnce(targets, fetch, capture);
    WorkerCapturesOnlyFetched(targets, fetch, capture);
    WorkerSuccessIff(targets, fetch, capture);
    assert targets[..1] == [a] && targets[..1][..0] == [];
    assert FetchSucceeded(targets, fetch) == [b];
    assert BothSucceeded(targets, fetch, capture) == [b];
  }
}
