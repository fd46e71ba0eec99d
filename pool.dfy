/**
 * One worker of the scanning pool. For each target it fetches the page; on a
 * fetch error it logs and moves on, otherwise it creates a throw-away browser
 * session, takes the screenshot, releases the session on both the error and
 * the success path, and logs the outcome.
 *
 * The network and the browser are not modelled: `fetch(i)` and `capture(i)`
 * say how the fetch and the screenshot of the `i`-th target turn out.
 */
module Pool {
  import opened Results
  import opened Artifacts
  import opened Events

  const TorProxy: string := "127.0.0.1:9050"
  const ChromePath: string := "/usr/bin/chromium"

  /**
   * A browser session made by `torChromeContext`: its own headless, unsandboxed
   * allocator that routes traffic through the SOCKS5 proxy, and one context
   * derived from it. `contextLive` and `allocatorLive` say what is not yet cancelled.
   */
  class RenderSession {
    const execPath: string
    const proxyServer: string
    const headless: bool
    const noSandbox: bool
    var contextLive: bool
    var allocatorLive: bool

    constructor ()
      ensures execPath == ChromePath && proxyServer == "socks5://" + TorProxy
      ensures headless && noSandbox
      ensures contextLive && allocatorLive
    {
      execPath := ChromePath;
      proxyServer := "socks5://" + TorProxy;
      headless, noSandbox := true, true;
      allocatorLive := true;
      contextLive := true;
    }

    /** The release closure: cancel the context, then the allocator. */
    method Release() returns (events: seq<Event>)
      requires contextLive && allocatorLive
      modifies this
      ensures !contextLive && !allocatorLive
      ensures events == ReleaseEvents
    {
      contextLive := false;
      events := [ContextCancelled];
      allocatorLive := false;
      events := events + [AllocatorCancelled];
    }
  }

  /** `fetchHTML`: the GET, and the page body written under its sanitized name when it succeeds. */
  function FetchEvents(url: string, fetch: Outcome): (r: seq<Event>)
  {
    [FetchAttempted(url)] + (if fetch.Ok? then [Wrote(HtmlPath(url))] else [])
  }

  /** `takeScreenshot`: navigate, settle and capture, and the image written when it succeeds. */
  function ScreenshotEvents(url: string, capture: Outcome): (r: seq<Event>)
  {
    [ScreenshotAttempted(url)] + (if capture.Ok? then [Wrote(PngPath(url))] else [])
  }

  /** `takeScreenshot` runs only inside a session whose context is still live. */
  method TakeScreenshot(session: RenderSession, url: string, capture: Outcome) returns (events: seq<Event>)
    requires session.contextLive
    ensures events == ScreenshotEvents(url, capture)
  {
    events := [ScreenshotAttempted(url)];
    if capture.Ok? {
      events := events + [Wrote(PngPath(url))];
    }
  }

  /** The release closure's effect: the context is cancelled, then the allocator. */
  const ReleaseEvents: seq<Event> := [ContextCancelled, AllocatorCancelled]

  /** What the worker does for one target. */
  function TaskTrace(url: string, fetch: Outcome, capture: Outcome): (r: seq<Event>)
  {
    if fetch.Err? then
      FetchEvents(url, fetch) + [Logged(HtmlFailed(url, fetch.reason))]
    else if capture.Err? then
      FetchEvents(url, fetch) + [SessionCreated] + ScreenshotEvents(url, capture)
      + [Logged(ScreenshotFailed(url, capture.reason))] + ReleaseEvents
    else
      FetchEvents(url, fetch) + [SessionCreated] + ScreenshotEvents(url, capture)
      + ReleaseEvents + [Logged(Succeeded(url))]
  }

  /** What the worker does for a sequence of targets, one after the other. */
  function WorkerTrace(urls: seq<string>, fetch: nat -> Outcome, capture: nat -> Outcome): (r: seq<Event>)
    ensures |r| >= 2 * |urls|
  {
    if urls == [] then []
    else
      var n := |urls| - 1;
      WorkerTrace(urls[..n], fetch, capture) + TaskTrace(urls[n], fetch(n), capture(n))
  }

  /** The targets whose fetch succeeds, in order. */
  function FetchSucceeded(urls: seq<string>, fetch: nat -> Outcome): seq<string>
  {
    if urls == [] then []
    else
      var n := |urls| - 1;
      FetchSucceeded(urls[..n], fetch) + (if fetch(n).Ok? then [urls[n]] else [])
  }

  /** The targets whose fetch and screenshot both succeed, in order. */
  function BothSucceeded(urls: seq<string>, fetch: nat -> Outcome, capture: nat -> Outcome): seq<string>
  {
    if urls == [] then []
    else
      var n := |urls| - 1;
      BothSucceeded(urls[..n], fetch, capture) + (if fetch(n).Ok? && capture(n).Ok? then [urls[n]] else [])
  }

  /**
   * The artifacts written for a sequence of targets, in order: each target's
   * page when its fetch succeeds, then its image when its screenshot succeeds too.
   */
  function ArtifactsWritten(urls: seq<string>, fetch: nat -> Outcome, capture: nat -> Outcome): seq<string>
  {
    if urls == [] then []
    else
      var n := |urls| - 1;
      ArtifactsWritten(urls[..n], fetch, capture)
      + (if fetch(n).Ok? then [HtmlPath(urls[n])] else [])
      + (if fetch(n).Ok? && capture(n).Ok? then [PngPath(urls[n])] else [])
  }

  /**
   * The worker's loop over the targets it receives. `sessions` are the browser
   * sessions it created; all of them are fully released when it returns.
   */
  method Worker(urls: seq<string>, fetch: nat -> Outcome, capture: nat -> Outcome)
    returns (trace: seq<Event>, ghost sessions: seq<RenderSession>)
    ensures trace == WorkerTrace(urls, fetch, capture)
    ensures |sessions| == |FetchSucceeded(urls, fetch)|
    ensures forall s :: s in sessions ==> !s.contextLive && !s.allocatorLive
  {
    trace, sessions := [], [];
    for i := 0 to |urls|
      invariant trace == WorkerTrace(urls[..i], fetch, capture)
      invariant |sessions| == |FetchSucceeded(urls[..i], fetch)|
      invariant forall s :: s in sessions ==> !s.contextLive && !s.allocatorLive
    {
      assert urls[..i + 1][..i] == urls[..i];
      var url := urls[i];
      var events := FetchEvents(url, fetch(i));
      if fetch(i).Err? {
        events := events + [Logged(HtmlFailed(url, fetch(i).reason))];
        trace := trace + events;
        continue;
      }
      var session := new RenderSession();
      sessions := sessions + [session];
      events := events + [SessionCreated];
      var shot := TakeScreenshot(session, url, capture(i));
      events := events + shot;
      if capture(i).Err? {
        events := events + [Logged(ScreenshotFailed(url, capture(i).reason))];
        var released := session.Release();
        trace := trace + (events + released);
        continue;
      }
      var released := session.Release();
      trace := trace + (events + released + [Logged(Succeeded(url))]);
    }
    assert urls[..|urls|] == urls;
  }

  /** Projections of a single event and of a short trace. */
  lemma ProjectOne(e: Event, sel: Event -> seq<string>)
    ensures Project([e], sel) == sel(e)
  {
    assert [e][..0] == [];
  }

  lemma {:induction false} ProjectTwo(a: seq<Event>, e: Event, sel: Event -> seq<string>)
    ensures Project(a + [e], sel) == Project(a, sel) + sel(e)
  {
    assert (a + [e])[..|a|] == a;
  }

  /** A selector that ignores artifact writes and the creation and release of sessions. */
  ghost predicate Quiet(sel: Event -> seq<string>)
  {
    && (forall p :: sel(Wrote(p)) == [])
    && sel(SessionCreated) == [] && sel(ContextCancelled) == [] && sel(AllocatorCancelled) == []
  }

  /** The fetch stage and the screenshot stage of one target contribute only their attempts. */
  lemma StageProjections(url: string, fetch: Outcome, capture: Outcome, sel: Event -> seq<string>)
    requires Quiet(sel)
    ensures Project(FetchEvents(url, fetch), sel) == sel(FetchAttempted(url))
    ensures Project(ScreenshotEvents(url, capture), sel) == sel(ScreenshotAttempted(url))
  {
    ProjectOne(FetchAttempted(url), sel);
    if fetch.Ok? {
      ProjectTwo([FetchAttempted(url)], Wrote(HtmlPath(url)), sel);
    } else {
      assert FetchEvents(url, fetch) == [FetchAttempted(url)];
    }
    ProjectOne(ScreenshotAttempted(url), sel);
    if capture.Ok? {
      ProjectTwo([ScreenshotAttempted(url)], Wrote(PngPath(url)), sel);
    } else {
      assert ScreenshotEvents(url, capture) == [ScreenshotAttempted(url)];
    }
  }

  /** The release contributes nothing. */
  lemma ReleaseProjection(sel: Event -> seq<string>)
    requires Quiet(sel)
    ensures Project(ReleaseEvents, sel) == []
  {
    ProjectOne(ContextCancelled, sel);
    ProjectTwo([ContextCancelled], AllocatorCancelled, sel);
    assert ReleaseEvents == [ContextCancelled] + [AllocatorCancelled];
  }

  /** A target whose fetch fails: the fetch attempt and the HTML error line. */
  lemma TaskProjectionFetchFailed(url: string, fetch: Outcome, capture: Outcome, sel: Event -> seq<string>)
    requires Quiet(sel) && fetch.Err?
    ensures Project(TaskTrace(url, fetch, capture), sel)
            == sel(FetchAttempted(url)) + sel(Logged(HtmlFailed(url, fetch.reason)))
  {
    StageProjections(url, fetch, capture, sel);
    ProjectTwo(FetchEvents(url, fetch), Logged(HtmlFailed(url, fetch.reason)), sel);
  }

  /** The part of a target's trace up to its screenshot, when the fetch succeeds. */
  lemma TaskProjectionHead(url: string, fetch: Outcome, capture: Outcome, sel: Event -> seq<string>)
    requires Quiet(sel) && fetch.Ok?
    ensures Project(FetchEvents(url, fetch) + [SessionCreated] + ScreenshotEvents(url, capture), sel)
            == sel(FetchAttempted(url)) + sel(ScreenshotAttempted(url))
  {
    var f := FetchEvents(url, fetch);
    StageProjections(url, fetch, capture, sel);
    ProjectTwo(f, SessionCreated, sel);
    ProjectAppend(f + [SessionCreated], ScreenshotEvents(url, capture), sel);
  }

  /** A target whose screenshot fails: fetch and screenshot attempts, then the screenshot error line. */
  lemma TaskProjectionCaptureFailed(url: string, fetch: Outcome, capture: Outcome, sel: Event -> seq<string>)
    requires Quiet(sel) && fetch.Ok? && capture.Err?
    ensures Project(TaskTrace(url, fetch, capture), sel)
            == sel(FetchAttempted(url)) + sel(ScreenshotAttempted(url))
               + sel(Logged(ScreenshotFailed(url, capture.reason)))
  {
    var head := FetchEvents(url, fetch) + [SessionCreated] + ScreenshotEvents(url, capture);
    var line := Logged(ScreenshotFailed(url, capture.reason));
    assert TaskTrace(url, fetch, capture) == head + [line] + ReleaseEvents;
    TaskProjectionHead(url, fetch, capture, sel);
    ReleaseProjection(sel);
    ProjectTwo(head, line, sel);
    ProjectAppend(head + [line], ReleaseEvents, sel);
  }

  /** A target that succeeds: fetch and screenshot attempts, then the SUCCESS line. */
  lemma TaskProjectionSucceeded(url: string, fetch: Outcome, capture: Outcome, sel: Event -> seq<string>)
    requires Quiet(sel) && fetch.Ok? && capture.Ok?
    ensures Project(TaskTrace(url, fetch, capture), sel)
            == sel(FetchAttempted(url)) + sel(ScreenshotAttempted(url)) + sel(Logged(Succeeded(url)))
  {
    var head := FetchEvents(url, fetch) + [SessionCreated] + ScreenshotEvents(url, capture);
    var line := Logged(Succeeded(url));
    assert TaskTrace(url, fetch, capture) == head + ReleaseEvents + [line];
    TaskProjectionHead(url, fetch, capture, sel);
    ReleaseProjection(sel);
    ProjectAppend(head, ReleaseEvents, sel);
    ProjectTwo(head + ReleaseEvents, line, sel);
  }

  /** Each target is fetched once. */
  lemma TaskFetched(url: string, fetch: Outcome, capture: Outcome)
    ensures Project(TaskTrace(url, fetch, capture), FetchedUrl) == [url]
  {
    assert Quiet(FetchedUrl);
    if fetch.Err? {
      TaskProjectionFetchFailed(url, fetch, capture, FetchedUrl);
    } else if capture.Err? {
      TaskProjectionCaptureFailed(url, fetch, capture, FetchedUrl);
    } else {
      TaskProjectionSucceeded(url, fetch, capture, FetchedUrl);
    }
  }

  /** A target's screenshot is attempted exactly when its fetch succeeds. */
  lemma TaskCaptured(url: string, fetch: Outcome, capture: Outcome)
    ensures Project(TaskTrace(url, fetch, capture), CapturedUrl) == (if fetch.Ok? then [url] else [])
  {
    assert Quiet(CapturedUrl);
    if fetch.Err? {
      TaskProjectionFetchFailed(url, fetch, capture, CapturedUrl);
    } else if capture.Err? {
      TaskProjectionCaptureFailed(url, fetch, capture, CapturedUrl);
    } else {
      TaskProjectionSucceeded(url, fetch, capture, CapturedUrl);
    }
  }

  /** A target is logged as SUCCESS exactly when its fetch and its screenshot both succeed. */
  lemma TaskSucceeded(url: string, fetch: Outcome, capture: Outcome)
    ensures Project(TaskTrace(url, fetch, capture), SucceededUrl)
            == (if fetch.Ok? && capture.Ok? then [url] else [])
  {
    assert Quiet(SucceededUrl);
    if fetch.Err? {
      TaskProjectionFetchFailed(url, fetch, capture, SucceededUrl);
    } else if capture.Err? {
      TaskProjectionCaptureFailed(url, fetch, capture, SucceededUrl);
    } else {
      TaskProjectionSucceeded(url, fetch, capture, SucceededUrl);
    }
  }

  /** A target gets exactly one outcome line. */
  lemma TaskOutcome(url: string, fetch: Outcome, capture: Outcome)
    ensures Project(TaskTrace(url, fetch, capture), OutcomeUrl) == [url]
  {
    assert Quiet(OutcomeUrl);
    if fetch.Err? {
      TaskProjectionFetchFailed(url, fetch, capture, OutcomeUrl);
    } else if capture.Err? {
      TaskProjectionCaptureFailed(url, fetch, capture, OutcomeUrl);
    } else {
      TaskProjectionSucceeded(url, fetch, capture, OutcomeUrl);
    }
  }

  /** Splitting a sequence into everything but its last element, and that element. */
  lemma SplitLast<T>(xs: seq<T>)
    requires xs != []
    ensures xs == xs[..|xs| - 1] + [xs[|xs| - 1]]
  {
  }

  /** The worker fetches every target it receives exactly once, in the order received. */
  lemma {:induction false} WorkerFetchesEachOnce(urls: seq<string>, fetch: nat -> Outcome, capture: nat -> Outcome)
    ensures Project(WorkerTrace(urls, fetch, capture), FetchedUrl) == urls
    decreases |urls|
  {
    if urls != [] {
      var n := |urls| - 1;
      var url, f, c := urls[n], fetch(n), capture(n);
      var before, task := WorkerTrace(urls[..n], fetch, capture), TaskTrace(url, f, c);
      assert WorkerTrace(urls, fetch, capture) == before + task;
      WorkerFetchesEachOnce(urls[..n], fetch, capture);
      ProjectAppend(before, task, FetchedUrl);
      TaskFetched(url, f, c);
      SplitLast(urls);
    }
  }

  /** A screenshot is attempted exactly for the targets whose fetch succeeded, in order. */
  lemma {:induction false} WorkerCapturesOnlyFetched(urls: seq<string>, fetch: nat -> Outcome, capture: nat -> Outcome)
    ensures Project(WorkerTrace(urls, fetch, capture), CapturedUrl) == FetchSucceeded(urls, fetch)
    decreases |urls|
  {
    if urls != [] {
      var n := |urls| - 1;
      var url, f, c := urls[n], fetch(n), capture(n);
      var before, task := WorkerTrace(urls[..n], fetch, capture), TaskTrace(url, f, c);
      assert WorkerTrace(urls, fetch, capture) == before + task;
      WorkerCapturesOnlyFetched(urls[..n], fetch, capture);
      ProjectAppend(before, task, CapturedUrl);
      TaskCaptured(url, f, c);
    }
  }

  /** A SUCCESS line is logged for a target exactly when its fetch and its screenshot both succeed. */
  lemma {:induction false} WorkerSuccessIff(urls: seq<string>, fetch: nat -> Outcome, capture: nat -> Outcome)
    ensures Project(WorkerTrace(urls, fetch, capture), SucceededUrl) == BothSucceeded(urls, fetch, capture)
    decreases |urls|
  {
    if urls != [] {
      var n := |urls| - 1;
      var url, f, c := urls[n], fetch(n), capture(n);
      var before, task := WorkerTrace(urls[..n], fetch, capture), TaskTrace(url, f, c);
      assert WorkerTrace(urls, fetch, capture) == before + task;
      WorkerSuccessIff(urls[..n], fetch, capture);
      ProjectAppend(before, task, SucceededUrl);
      TaskSucceeded(url, f, c);
    }
  }

  /** Every target gets exactly one outcome line (an error or SUCCESS), in order. */
  lemma {:induction false} WorkerOneOutcomeEach(urls: seq<string>, fetch: nat -> Outcome, capture: nat -> Outcome)
    ensures Project(WorkerTrace(urls, fetch, capture), OutcomeUrl) == urls
    decreases |urls|
  {
    if urls != [] {
      var n := |urls| - 1;
      var url, f, c := urls[n], fetch(n), capture(n);
      var before, task := WorkerTrace(urls[..n], fetch, capture), TaskTrace(url, f, c);
      assert WorkerTrace(urls, fetch, capture) == before + task;
      WorkerOneOutcomeEach(urls[..n], fetch, capture);
      ProjectAppend(before, task, OutcomeUrl);
      TaskOutcome(url, f, c);
      SplitLast(urls);
    }
  }

  /** Replaying a trace in two parts: the second part starts where the first ends. */
  lemma ReplayThen(st: SessionState, a: seq<Event>, mid: SessionState, b: seq<Event>)
    requires Replay(st, a) == Some(mid)
    ensures Replay(st, a + b) == Replay(mid, b)
  {
    ReplayAppend(st, a, b);
  }

  lemma ReplayOne(st: SessionState, e: Event)
    ensures Replay(st, [e]) == Step(st, e)
  {
    assert [e][1..] == [];
  }

  /** The fetch stage neither opens nor closes a session. */
  lemma ReplayFetch(url: string, fetch: Outcome)
    ensures Replay(Idle, FetchEvents(url, fetch)) == Some(Idle)
  {
    ReplayOne(Idle, FetchAttempted(url));
    if fetch.Ok? {
      ReplayOne(Idle, Wrote(HtmlPath(url)));
      ReplayThen(Idle, [FetchAttempted(url)], Idle, [Wrote(HtmlPath(url))]);
    } else {
      assert FetchEvents(url, fetch) == [FetchAttempted(url)];
    }
  }

  /** The screenshot stage runs inside the open session and leaves it open. */
  lemma ReplayScreenshot(url: string, capture: Outcome)
    ensures Replay(Open, ScreenshotEvents(url, capture)) == Some(Open)
  {
    ReplayOne(Open, ScreenshotAttempted(url));
    if capture.Ok? {
      ReplayOne(Open, Wrote(PngPath(url)));
      ReplayThen(Open, [ScreenshotAttempted(url)], Open, [Wrote(PngPath(url))]);
    } else {
      assert ScreenshotEvents(url, capture) == [ScreenshotAttempted(url)];
    }
  }

  /** The release closure closes the open session, context first. */
  lemma ReplayRelease()
    ensures Replay(Open, ReleaseEvents) == Some(Idle)
  {
    ReplayOne(Open, ContextCancelled);
    ReplayOne(ContextGone, AllocatorCancelled);
    ReplayThen(Open, [ContextCancelled], ContextGone, [AllocatorCancelled]);
    assert ReleaseEvents == [ContextCancelled] + [AllocatorCancelled];
  }

  /**
   * Each target keeps the session discipline and ends with no session open:
   * on both paths that create a session, it is released before the next target.
   */
  lemma TaskReplay(url: string, fetch: Outcome, capture: Outcome)
    ensures Replay(Idle, TaskTrace(url, fetch, capture)) == Some(Idle)
  {
    var fe := FetchEvents(url, fetch);
    ReplayFetch(url, fetch);
    if fetch.Err? {
      var line := Logged(HtmlFailed(url, fetch.reason));
      ReplayOne(Idle, line);
      ReplayThen(Idle, fe, Idle, [line]);
    } else {
      ReplayOne(Idle, SessionCreated);
      ReplayThen(Idle, fe, Idle, [SessionCreated]);
      var started := fe + [SessionCreated];
      var se := ScreenshotEvents(url, capture);
      ReplayScreenshot(url, capture);
      ReplayThen(Idle, started, Open, se);
      var shot := started + se;
      ReplayRelease();
      if capture.Err? {
        var line := Logged(ScreenshotFailed(url, capture.reason));
        ReplayOne(Open, line);
        ReplayThen(Idle, shot, Open, [line]);
        ReplayThen(Idle, shot + [line], Open, ReleaseEvents);
      } else {
        var line := Logged(Succeeded(url));
        ReplayThen(Idle, shot, Open, ReleaseEvents);
        ReplayOne(Idle, line);
        ReplayThen(Idle, shot + ReleaseEvents, Idle, [line]);
      }
    }
  }

  /** The worker's whole trace keeps the session discipline and ends with no session open. */
  lemma {:induction false} WorkerSessionsBalanced(urls: seq<string>, fetch: nat -> Outcome, capture: nat -> Outcome)
    ensures Replay(Idle, WorkerTrace(urls, fetch, capture)) == Some(Idle)
    decreases |urls|
  {
    if urls != [] {
      var n := |urls| - 1;
      var before, task := WorkerTrace(urls[..n], fetch, capture), TaskTrace(urls[n], fetch(n), capture(n));
      assert WorkerTrace(urls, fetch, capture) == before + task;
      WorkerSessionsBalanced(urls[..n], fetch, capture);
      TaskReplay(urls[n], fetch(n), capture(n));
      ReplayThen(Idle, before, Idle, task);
    }
  }

  /** Up to its screenshot, a fetched target has created exactly one session; the release creates none. */
  lemma HeadSessions(url: string, fetch: Outcome, capture: Outcome)
    ensures multiset(FetchEvents(url, fetch) + [SessionCreated] + ScreenshotEvents(url, capture))[SessionCreated] == 1
    ensures multiset(ReleaseEvents)[SessionCreated] == 0
  {
    assert multiset(FetchEvents(url, fetch))[SessionCreated] == 0;
    assert multiset(ScreenshotEvents(url, capture))[SessionCreated] == 0;
  }

  /** One target creates a session exactly when its fetch succeeds. */
  lemma TaskSessions(url: string, fetch: Outcome, capture: Outcome)
    ensures multiset(TaskTrace(url, fetch, capture))[SessionCreated] == (if fetch.Ok? then 1 else 0)
  {
    var fe := FetchEvents(url, fetch);
    var t := TaskTrace(url, fetch, capture);
    if fetch.Err? {
      assert multiset(fe)[SessionCreated] == 0;
      assert t == fe + [Logged(HtmlFailed(url, fetch.reason))];
    } else {
      var head := fe + [SessionCreated] + ScreenshotEvents(url, capture);
      HeadSessions(url, fetch, capture);
      if capture.Err? {
        assert t == head + [Logged(ScreenshotFailed(url, capture.reason))] + ReleaseEvents;
      } else {
        assert t == head + ReleaseEvents + [Logged(Succeeded(url))];
      }
    }
  }

  /**
   * The worker creates one session per successfully fetched target, and cancels
   * exactly as many contexts and as many allocators: each session is released once.
   */
  lemma {:induction false} WorkerSessionCount(urls: seq<string>, fetch: nat -> Outcome, capture: nat -> Outcome)
    ensures multiset(WorkerTrace(urls, fetch, capture))[SessionCreated] == |FetchSucceeded(urls, fetch)|
    ensures multiset(WorkerTrace(urls, fetch, capture))[ContextCancelled] == |FetchSucceeded(urls, fetch)|
    ensures multiset(WorkerTrace(urls, fetch, capture))[AllocatorCancelled] == |FetchSucceeded(urls, fetch)|
    decreases |urls|
  {
    if urls != [] {
      var n := |urls| - 1;
      var before, task := WorkerTrace(urls[..n], fetch, capture), TaskTrace(urls[n], fetch(n), capture(n));
      assert WorkerTrace(urls, fetch, capture) == before + task;
      WorkerSessionCount(urls[..n], fetch, capture);
      TaskSessions(urls[n], fetch(n), capture(n));
      assert multiset(before + task) == multiset(before) + multiset(task);
    }
    WorkerSessionsBalanced(urls, fetch, capture);
    SessionsReleasedOnce(WorkerTrace(urls, fetch, capture));
  }

  /** A target whose fetch fails gets no session, no screenshot attempt and no image. */
  lemma FetchFailureStopsTarget(url: string, fetch: Outcome, capture: Outcome)
    requires fetch.Err?
    ensures SessionCreated !in TaskTrace(url, fetch, capture)
    ensures ScreenshotAttempted(url) !in TaskTrace(url, fetch, capture)
    ensures Wrote(PngPath(url)) !in TaskTrace(url, fetch, capture)
    ensures Wrote(HtmlPath(url)) !in TaskTrace(url, fetch, capture)
  {
    assert TaskTrace(url, fetch, capture) == [FetchAttempted(url), Logged(HtmlFailed(url, fetch.reason))];
    HtmlAndPngDiffer(url, url);
  }

  /** The fetch stage writes the page exactly when the fetch succeeds; the screenshot stage likewise writes the image. */
  lemma StageWrites(url: string, fetch: Outcome, capture: Outcome)
    ensures Project(FetchEvents(url, fetch), WrotePath) == (if fetch.Ok? then [HtmlPath(url)] else [])
    ensures Project(ScreenshotEvents(url, capture), WrotePath) == (if capture.Ok? then [PngPath(url)] else [])
  {
    ProjectOne(FetchAttempted(url), WrotePath);
    if fetch.Ok? {
      ProjectTwo([FetchAttempted(url)], Wrote(HtmlPath(url)), WrotePath);
    } else {
      assert FetchEvents(url, fetch) == [FetchAttempted(url)];
    }
    ProjectOne(ScreenshotAttempted(url), WrotePath);
    if capture.Ok? {
      ProjectTwo([ScreenshotAttempted(url)], Wrote(PngPath(url)), WrotePath);
    } else {
      assert ScreenshotEvents(url, capture) == [ScreenshotAttempted(url)];
    }
  }

  /** The fetch stage followed by a session's creation and the screenshot stage. */
  lemma HeadWrites(url: string, fetch: Outcome, capture: Outcome)
    requires fetch.Ok?
    ensures Project(FetchEvents(url, fetch) + [SessionCreated] + ScreenshotEvents(url, capture), WrotePath)
            == [HtmlPath(url)] + (if capture.Ok? then [PngPath(url)] else [])
  {
    var f := FetchEvents(url, fetch);
    StageWrites(url, fetch, capture);
    ProjectTwo(f, SessionCreated, WrotePath);
    ProjectAppend(f + [SessionCreated], ScreenshotEvents(url, capture), WrotePath);
  }

  /** The release writes nothing. */
  lemma ReleaseWrites()
    ensures Project(ReleaseEvents, WrotePath) == []
  {
    ProjectOne(ContextCancelled, WrotePath);
    ProjectTwo([ContextCancelled], AllocatorCancelled, WrotePath);
    assert ReleaseEvents == [ContextCancelled] + [AllocatorCancelled];
  }

  /**
   * A target writes its page exactly when its fetch succeeds, and then its
   * image exactly when its screenshot succeeds too; nothing else is written.
   */
  lemma TaskWrites(url: string, fetch: Outcome, capture: Outcome)
    ensures Project(TaskTrace(url, fetch, capture), WrotePath)
            == (if fetch.Ok? then [HtmlPath(url)] else [])
               + (if fetch.Ok? && capture.Ok? then [PngPath(url)] else [])
  {
    var f := FetchEvents(url, fetch);
    if fetch.Err? {
      StageWrites(url, fetch, capture);
      ProjectTwo(f, Logged(HtmlFailed(url, fetch.reason)), WrotePath);
    } else {
      var head := f + [SessionCreated] + ScreenshotEvents(url, capture);
      HeadWrites(url, fetch, capture);
      ReleaseWrites();
      if capture.Err? {
        var line := Logged(ScreenshotFailed(url, capture.reason));
        assert TaskTrace(url, fetch, capture) == head + [line] + ReleaseEvents;
        ProjectTwo(head, line, WrotePath);
        ProjectAppend(head + [line], ReleaseEvents, WrotePath);
      } else {
        var line := Logged(Succeeded(url));
        assert TaskTrace(url, fetch, capture) == head + ReleaseEvents + [line];
        ProjectAppend(head, ReleaseEvents, WrotePath);
        ProjectTwo(head + ReleaseEvents, line, WrotePath);
      }
    }
  }

  /** The worker writes exactly the artifacts `ArtifactsWritten` lists, in that order. */
  lemma {:induction false} WorkerWrites(urls: seq<string>, fetch: nat -> Outcome, capture: nat -> Outcome)
    ensures Project(WorkerTrace(urls, fetch, capture), WrotePath) == ArtifactsWritten(urls, fetch, capture)
    decreases |urls|
  {
    if urls != [] {
      var n := |urls| - 1;
      var url, f, c := urls[n], fetch(n), capture(n);
      var before, task := WorkerTrace(urls[..n], fetch, capture), TaskTrace(url, f, c);
      assert WorkerTrace(urls, fetch, capture) == before + task;
      WorkerWrites(urls[..n], fetch, capture);
      ProjectAppend(before, task, WrotePath);
      TaskWrites(url, f, c);
    }
  }
}
