/**
 * What a run can be observed to do: the lines it appends to the scan report,
 * the artifacts it writes, and the creation and release of browser sessions.
 * A run is described by the sequence of these events in the order they happen.
 */
module Events {
  import opened Results

  /** One line of the scan report. */
  datatype LogLine =
    | CheckingTor                                  // "[INFO] Checking Tor connection..."
    | TorVerified                                  // "[INFO] Tor connection verified"
    | TorFailed(reason: string)                    // "[FATAL] Tor connection failed: ..."
    | Fatal(reason: string)                        // any other fatal startup error
    | HtmlFailed(url: string, reason: string)      // "[ERR] <url> HTML -> ..."
    | ScreenshotFailed(url: string, reason: string) // "[ERR] <url> SCREENSHOT -> ..."
    | Succeeded(url: string)                       // "[INFO] <url> -> SUCCESS"

  datatype Event =
    | FetchAttempted(url: string)       // the GET of a target page is issued
    | Wrote(path: string)               // an artifact file is written
    | SessionCreated                    // a fresh allocator and browser context exist
    | ScreenshotAttempted(url: string)  // navigate, settle and capture run in that context
    | ContextCancelled                  // the browser context is cancelled
    | AllocatorCancelled                // the allocator is cancelled
    | Logged(line: LogLine)             // a line is appended to the scan report

  /** The pieces of a trace picked out by `sel`, in order. */
  function Project(t: seq<Event>, sel: Event -> seq<string>): seq<string>
  {
    if t == [] then [] else Project(t[..|t| - 1], sel) + sel(t[|t| - 1])
  }

  lemma {:induction false} ProjectAppend(a: seq<Event>, b: seq<Event>, sel: Event -> seq<string>)
    ensures Project(a + b, sel) == Project(a, sel) + Project(b, sel)
    decreases |b|
  {
    if b == [] {
      assert a + b == a;
    } else {
      var init := b[..|b| - 1];
      assert (a + b)[..|a + b| - 1] == a + init;
      ProjectAppend(a, init, sel);
    }
  }

  /** The target of a fetch attempt. */
  function FetchedUrl(e: Event): seq<string>
  {
    if e.FetchAttempted? then [e.url] else []
  }

  /** The target of a screenshot attempt. */
  function CapturedUrl(e: Event): seq<string>
  {
    if e.ScreenshotAttempted? then [e.url] else []
  }

  /** The target of a SUCCESS line. */
  function SucceededUrl(e: Event): seq<string>
  {
    if e.Logged? && e.line.Succeeded? then [e.line.url] else []
  }

  /** The target of any per-target outcome line: an error or a success. */
  function OutcomeUrl(e: Event): seq<string>
  {
    if e.Logged? && (e.line.HtmlFailed? || e.line.ScreenshotFailed? || e.line.Succeeded?)
    then [e.line.url] else []
  }

  /** The path of an artifact write. */
  function WrotePath(e: Event): seq<string>
  {
    if e.Wrote? then [e.path] else []
  }

  /**
   * Where a worker stands with its browser session: none open, one open, or
   * its context cancelled while the allocator is still to be cancelled.
   */
  datatype SessionState = Idle | Open | ContextGone

  /**
   * The session discipline: a session is created only when none is open,
   * screenshots run only in an open session, the context is cancelled first
   * and the allocator right after it. `None` marks a violation.
   */
  function Step(st: SessionState, e: Event): Option<SessionState>
  {
    match e
    case SessionCreated => if st == Idle then Some(Open) else None
    case ScreenshotAttempted(_) => if st == Open then Some(Open) else None
    case ContextCancelled => if st == Open then Some(ContextGone) else None
    case AllocatorCancelled => if st == ContextGone then Some(Idle) else None
    case _ => if st == ContextGone then None else Some(st)
  }

  /** Replays a trace against the session discipline. */
  function Replay(st: SessionState, t: seq<Event>): Option<SessionState>
    decreases |t|
  {
    if t == [] then Some(st)
    else match Step(st, t[0])
      case None => None
      case Some(next) => Replay(next, t[1..])
  }

  lemma {:induction false} ReplayAppend(st: SessionState, a: seq<Event>, b: seq<Event>)
    ensures Replay(st, a + b) == (match Replay(st, a) case None => None case Some(mid) => Replay(mid, b))
    decreases |a|
  {
    if a == [] {
      assert a + b == b;
    } else {
      assert (a + b)[0] == a[0];
      assert (a + b)[1..] == a[1..] + b;
      match Step(st, a[0])
      case None =>
      case Some(next) => ReplayAppend(next, a[1..], b);
    }
  }

  /** Sessions waiting for their context to be cancelled. */
  function PendingContexts(st: SessionState): nat
  {
    if st == Open then 1 else 0
  }

  /** Sessions waiting for their allocator to be cancelled. */
  function PendingAllocators(st: SessionState): nat
  {
    if st == Idle then 0 else 1
  }

  /** Along a trace that keeps the discipline, creations and cancellations balance out. */
  lemma {:induction false} ReplayCounts(st: SessionState, t: seq<Event>, final: SessionState)
    requires Replay(st, t) == Some(final)
    ensures multiset(t)[SessionCreated] + PendingContexts(st)
            == multiset(t)[ContextCancelled] + PendingContexts(final)
    ensures multiset(t)[SessionCreated] + PendingAllocators(st)
            == multiset(t)[AllocatorCancelled] + PendingAllocators(final)
    decreases |t|
  {
    if t != [] {
      assert t == [t[0]] + t[1..];
      var next := Step(st, t[0]).value;
      ReplayCounts(next, t[1..], final);
    }
  }

  /**
   * A trace that starts and ends with no open session releases every session
   * it creates exactly once: as many context and allocator cancellations as
   * creations.
   */
  lemma SessionsReleasedOnce(t: seq<Event>)
    requires Replay(Idle, t) == Some(Idle)
    ensures multiset(t)[ContextCancelled] == multiset(t)[SessionCreated]
    ensures multiset(t)[AllocatorCancelled] == multiset(t)[SessionCreated]
  {
    ReplayCounts(Idle, t, Idle);
  }
}
