/** The screenshot queue manager (electron/ScreenshotHelper.ts): two bounded
    FIFO queues of PNG file paths, one per view ("queue" for the problem
    screenshots, "solutions" for the debugging ones), filled by captures,
    trimmed by eviction, explicit deletion and clearing. */
module Screenshots {
  import opened Outcomes
  import opened ConfigManager
  import opened HostSystem
  import Base64

  /** `MAX_SCREENSHOTS`. */
  const MaxScreenshots: nat := 5

  datatype View = Queue | Solutions

  /** Whether `process.platform` is `"linux"`. */
  datatype Platform = Linux | OtherPlatform

  /** `path.join(dir, name)` for a directory and a plain file name. */
  function JoinPath(dir: string, name: string): string {
    dir + "/" + name
  }

  /** The options `takeScreenshot` hands to the capture library: the file
      name; `screen` only when a monitor is configured, that is neither
      `undefined` nor `null`; `format: "png"` only on Linux. */
  function CaptureOptionsFor(filename: string, monitor: Monitor, platform: Platform): (o: CaptureOptions)
    ensures o.filename == filename
    ensures o.screen.Some? <==> monitor != NoMonitor && monitor != NullMonitor
    ensures o.screen.Some? ==> o.screen.value == monitor
    ensures o.format.Some? <==> platform == Linux
    ensures o.format.Some? ==> o.format.value == "png"
  {
    CaptureOptions(
      filename,
      if monitor != NoMonitor && monitor != NullMonitor then Some(monitor) else None,
      if platform == Linux then Some("png") else None)
  }

  /** A queue after a successful capture: the new path goes to the back, and
      once the queue would exceed its bound its front entry is shifted off. */
  function Admit(queue: seq<string>, path: string): (r: seq<string>)
    ensures |queue| <= MaxScreenshots ==> |r| <= MaxScreenshots
    ensures r != [] && r[|r| - 1] == path
    ensures |queue| < MaxScreenshots ==> r == queue + [path]
    ensures |queue| >= MaxScreenshots ==> r == queue[1..] + [path]
  {
    var pushed := queue + [path];
    if |pushed| > MaxScreenshots then pushed[1..] else pushed
  }

  /** The entry a capture pushes out of a queue, if any. */
  function Evicted(queue: seq<string>): (r: Option<string>)
    ensures r.Some? <==> |queue| >= MaxScreenshots
    ensures r.Some? ==> r.value == queue[0]
  {
    if |queue| + 1 > MaxScreenshots then Some(queue[0]) else None
  }

  /** The files left once the entry pushed out (if any) has been unlinked;
      an empty path is falsy and is not unlinked. */
  function AfterEviction(files: map<string, Bytes>, evicted: Option<string>): map<string, Bytes> {
    if evicted.Some? && evicted.value != "" then files - {evicted.value} else files
  }

  /** The queue after a series of successful captures of `paths`, in order. */
  function AdmitAll(queue: seq<string>, paths: seq<string>): seq<string>
    decreases |paths|
  {
    if paths == [] then queue else AdmitAll(Admit(queue, paths[0]), paths[1..])
  }

  /** The last `MaxScreenshots` entries of `s` (all of them when there are fewer). */
  function Newest(s: seq<string>): (r: seq<string>)
    ensures |r| <= MaxScreenshots
  {
    if |s| <= MaxScreenshots then s else s[|s| - MaxScreenshots..]
  }

  /** Admitting a path to the newest entries of a history gives the newest
      entries of the history extended by that path. */
  lemma AdmitNewest(s: seq<string>, path: string)
    ensures Admit(Newest(s), path) == Newest(s + [path])
  {
    var t := s + [path];
    if |s| > MaxScreenshots {
      assert t[|t| - MaxScreenshots..] == s[|s| - MaxScreenshots + 1..] + [path];
    } else if |s| == MaxScreenshots {
      assert t[1..] == s[1..] + [path];
    }
  }

  /** Whatever captures happen, a queue holds exactly the newest (at most
      five) paths ever admitted to it, oldest first. */
  lemma {:induction false} AdmitAllNewest(s: seq<string>, paths: seq<string>)
    ensures AdmitAll(Newest(s), paths) == Newest(s + paths)
    decreases |paths|
  {
    if paths == [] {
      assert s + paths == s;
    } else {
      AdmitNewest(s, paths[0]);
      AdmitAllNewest(s + [paths[0]], paths[1..]);
      assert s + [paths[0]] + paths[1..] == s + paths;
    }
  }

  /** A queue within its bound stays within it through any series of
      captures, and then holds the newest entries of its old contents
      followed by the new paths. */
  lemma CapturesKeepNewest(queue: seq<string>, paths: seq<string>)
    requires |queue| <= MaxScreenshots
    ensures AdmitAll(queue, paths) == Newest(queue + paths)
    ensures |AdmitAll(queue, paths)| <= MaxScreenshots
  {
    AdmitAllNewest(queue, paths);
  }

  /** `queue.filter(p => p !== path)`. */
  function Without(queue: seq<string>, path: string): (r: seq<string>)
    ensures forall x :: x in r <==> x in queue && x != path
    ensures |r| <= |queue|
  {
    if queue == [] then []
    else (if queue[0] == path then [] else [queue[0]]) + Without(queue[1..], path)
  }

  /** Filtering distributes over concatenation, so the remaining entries keep
      their order. */
  lemma {:induction false} WithoutAppend(a: seq<string>, b: seq<string>, path: string)
    ensures Without(a + b, path) == Without(a, path) + Without(b, path)
  {
    if a != [] {
      WithoutAppend(a[1..], b, path);
      assert (a + b)[1..] == a[1..] + b;
    } else {
      assert a + b == b;
    }
  }

  /** Filtering removes every occurrence and nothing else: the result is as
      long as the queue less the occurrences of the path. */
  lemma {:induction false} WithoutCount(queue: seq<string>, path: string)
    ensures |Without(queue, path)| == |queue| - multiset(queue)[path]
    ensures forall x :: x != path ==> multiset(Without(queue, path))[x] == multiset(queue)[x]
  {
    if queue != [] {
      WithoutCount(queue[1..], path);
      assert queue == [queue[0]] + queue[1..];
    }
  }

  /** A path that is not in the queue leaves it unchanged; so filtering twice
      is filtering once. */
  lemma {:induction false} WithoutAbsent(queue: seq<string>, path: string)
    requires path !in queue
    ensures Without(queue, path) == queue
  {
    if queue != [] {
      assert queue[0] in queue;
      assert forall x :: x in queue[1..] ==> x in queue;
      WithoutAbsent(queue[1..], path);
      assert queue == [queue[0]] + queue[1..];
    }
  }

  lemma WithoutIdempotent(queue: seq<string>, path: string)
    ensures Without(Without(queue, path), path) == Without(queue, path)
  {
    WithoutAbsent(Without(queue, path), path);
  }

  /** The set of paths in a queue. */
  function Elements(queue: seq<string>): set<string> {
    set p | p in queue
  }

  /** The prefix `data:image/png;base64,` followed by the base64 text of the file. */
  function PreviewUri(png: Bytes): (r: string)
    ensures |"data:image/png;base64,"| <= |r| && r[..|"data:image/png;base64,"|] == "data:image/png;base64,"
    ensures r[|"data:image/png;base64,"|..] == Base64.Encode(png)
    ensures |r| == |"data:image/png;base64,"| + 4 * ((|png| + 2) / 3)
  {
    "data:image/png;base64," + Base64.Encode(png)
  }

  /** What `deleteScreenshot` answers: `{success}` or `{success, error}`. */
  datatype DeleteResult = DeleteResult(success: bool, error: Option<string>)

  /** Shift the front entry off a queue that the push took past its bound
      and unlink its file; an unlink error is only logged. */
  method PushBounded(host: Host, queue: seq<string>, path: string) returns (q: seq<string>)
    modifies host`files
    ensures q == Admit(queue, path)
    ensures host.files == AfterEviction(old(host.files), Evicted(queue))
  {
    q := queue + [path];
    if |q| > MaxScreenshots {
      var removed := q[0];
      q := q[1..];
      if removed != "" {
        var _ := host.Unlink(removed);
      }
    }
  }

  class ScreenshotHelper {
    var screenshotQueue: seq<string>
    var extraScreenshotQueue: seq<string>
    var view: View
    const screenshotDir: string
    const extraScreenshotDir: string
    const platform: Platform
    const configManager: ConfigManager

    /** Both queues within their bound. */
    predicate Bounded()
      reads this
    {
      |screenshotQueue| <= MaxScreenshots && |extraScreenshotQueue| <= MaxScreenshots
    }

    /** The queue the current view captures into and deletes from. */
    function ActiveQueue(): seq<string>
      reads this
    {
      if view == Queue then screenshotQueue else extraScreenshotQueue
    }

    /** The directory the current view's captures are written to. */
    function ActiveDir(): string
      reads this
    {
      if view == Queue then screenshotDir else extraScreenshotDir
    }

    constructor (view: View, configManager: ConfigManager, userData: string, platform: Platform)
      ensures this.view == view && this.configManager == configManager && this.platform == platform
      ensures screenshotDir == JoinPath(userData, "screenshots")
      ensures extraScreenshotDir == JoinPath(userData, "extra_screenshots")
      ensures screenshotQueue == [] && extraScreenshotQueue == []
      ensures Bounded()
    {
      this.view := view;
      this.configManager := configManager;
      this.platform := platform;
      screenshotDir := JoinPath(userData, "screenshots");
      extraScreenshotDir := JoinPath(userData, "extra_screenshots");
      screenshotQueue := [];
      extraScreenshotQueue := [];
    }

    method GetView() returns (v: View)
      ensures v == view
    {
      v := view;
    }

    method SetView(v: View)
      modifies this`view
      ensures view == v
    {
      view := v;
    }

    method GetScreenshotQueue() returns (q: seq<string>)
      ensures q == screenshotQueue
    {
      q := screenshotQueue;
    }

    method GetExtraScreenshotQueue() returns (q: seq<string>)
      ensures q == extraScreenshotQueue
    {
      q := extraScreenshotQueue;
    }

    /** `clearQueues`: unlink every queued file (failures are only logged) and
        empty both queues. */
    method ClearQueues(host: Host)
      modifies this`screenshotQueue, this`extraScreenshotQueue, host`files
      ensures screenshotQueue == [] && extraScreenshotQueue == []
      ensures host.files == old(host.files) - Elements(old(screenshotQueue)) - Elements(old(extraScreenshotQueue))
    {
      var i := 0;
      while i < |screenshotQueue|
        invariant 0 <= i <= |screenshotQueue|
        invariant host.files == old(host.files) - Elements(screenshotQueue[..i])
        modifies host`files
      {
        assert Elements(screenshotQueue[..i + 1]) == Elements(screenshotQueue[..i]) + {screenshotQueue[i]} by {
          assert screenshotQueue[..i + 1] == screenshotQueue[..i] + [screenshotQueue[i]];
        }
        var _ := host.Unlink(screenshotQueue[i]);
        i := i + 1;
      }
      assert screenshotQueue[..i] == screenshotQueue;
      screenshotQueue := [];
      var j := 0;
      ghost var afterFirst := host.files;
      while j < |extraScreenshotQueue|
        invariant 0 <= j <= |extraScreenshotQueue|
        invariant host.files == afterFirst - Elements(extraScreenshotQueue[..j])
        modifies host`files
      {
        assert Elements(extraScreenshotQueue[..j + 1]) == Elements(extraScreenshotQueue[..j]) + {extraScreenshotQueue[j]} by {
          assert extraScreenshotQueue[..j + 1] == extraScreenshotQueue[..j] + [extraScreenshotQueue[j]];
        }
        var _ := host.Unlink(extraScreenshotQueue[j]);
        j := j + 1;
      }
      assert extraScreenshotQueue[..j] == extraScreenshotQueue;
      extraScreenshotQueue := [];
    }

    /** `takeScreenshot`: hide the window, capture into a new file of the
        current view's directory, append it to that view's queue (evicting
        past the bound), show the window and answer the path. When the
        capture throws, the error propagates before the queue is touched and
        before the window is shown again. */
    method TakeScreenshot(host: Host, uuid: string, outcome: CaptureOutcome) returns (r: Result<string>)
      modifies this`screenshotQueue, this`extraScreenshotQueue, host
      ensures var path := JoinPath(ActiveDir(), uuid + ".png");
        var capture := Capture(CaptureOptionsFor(path, configManager.config.screenshot.selectedMonitor, platform));
        && (outcome.Threw? ==>
              && r == Err(outcome.message)
              && host.calls == old(host.calls) + [HideMainWindow, capture]
              && screenshotQueue == old(screenshotQueue)
              && extraScreenshotQueue == old(extraScreenshotQueue)
              && host.files == old(host.files))
        && (outcome.Captured? ==>
              && r == Ok(path)
              && host.calls == old(host.calls) + [HideMainWindow, capture, ShowMainWindow]
              && ActiveQueue() == Admit(old(ActiveQueue()), path)
              && (view == Queue ==> extraScreenshotQueue == old(extraScreenshotQueue))
              && (view == Solutions ==> screenshotQueue == old(screenshotQueue))
              && host.files == AfterEviction(old(host.files)[path := outcome.png], Evicted(old(ActiveQueue()))))
      ensures old(Bounded()) ==> Bounded()
    {
      host.CallWindowHook(HideMainWindow);
      var screenshotConfig := configManager.GetScreenshotConfig();
      var selectedMonitor := screenshotConfig.selectedMonitor;
      var screenshotPath;
      if view == Queue {
        screenshotPath := JoinPath(screenshotDir, uuid + ".png");
        var options := CaptureOptionsFor(screenshotPath, selectedMonitor, platform);
        var captured := host.Screenshot(options, outcome);
        if captured.Err? {
          return Err(captured.error);
        }
        screenshotQueue := PushBounded(host, screenshotQueue, screenshotPath);
      } else {
        screenshotPath := JoinPath(extraScreenshotDir, uuid + ".png");
        var options := CaptureOptionsFor(screenshotPath, selectedMonitor, platform);
        var captured := host.Screenshot(options, outcome);
        if captured.Err? {
          return Err(captured.error);
        }
        extraScreenshotQueue := PushBounded(host, extraScreenshotQueue, screenshotPath);
      }
      host.CallWindowHook(ShowMainWindow);
      r := Ok(screenshotPath);
    }

    /** `getImagePreview`: the file as a PNG data URI; a read error propagates. */
    method GetImagePreview(host: Host, filepath: string) returns (r: Result<string>)
      ensures filepath in host.files ==> r == Ok(PreviewUri(host.files[filepath]))
      ensures filepath !in host.files ==> r == Err(NoSuchFile("open", filepath))
    {
      var data := host.ReadFile(filepath);
      match data
      case Ok(png) => r := Ok(PreviewUri(png));
      case Err(e) => r := Err(e);
    }

    /** `deleteScreenshot`: unlink the file, then drop every occurrence of
        the path from the current view's queue only. An unlink error is
        answered as `{success: false, error}` and changes no queue. */
    method DeleteScreenshot(host: Host, path: string) returns (r: DeleteResult)
      modifies this`screenshotQueue, this`extraScreenshotQueue, host`files
      ensures host.files == old(host.files) - {path}
      ensures path in old(host.files) ==>
        && r == DeleteResult(true, None)
        && ActiveQueue() == Without(old(ActiveQueue()), path)
        && (view == Queue ==> extraScreenshotQueue == old(extraScreenshotQueue))
        && (view == Solutions ==> screenshotQueue == old(screenshotQueue))
      ensures path !in old(host.files) ==>
        && r == DeleteResult(false, Some(NoSuchFile("unlink", path)))
        && screenshotQueue == old(screenshotQueue)
        && extraScreenshotQueue == old(extraScreenshotQueue)
      ensures old(Bounded()) ==> Bounded()
    {
      var unlinked := host.Unlink(path);
      if unlinked.Err? {
        return DeleteResult(false, Some(unlinked.error));
      }
      if view == Queue {
        screenshotQueue := Without(screenshotQueue, path);
      } else {
        extraScreenshotQueue := Without(extraScreenshotQueue, path);
      }
      r := DeleteResult(true, None);
    }
  }

  /** Deleting the same path twice: the second call answers a failure
      instead of throwing, the file is gone either way, and after a first
      call that succeeded the current view's queue no longer holds the path. */
  method DeleteTwice(helper: ScreenshotHelper, host: Host, path: string) returns (first: DeleteResult, second: DeleteResult)
    modifies helper, host
    ensures !second.success && second.error == Some(NoSuchFile("unlink", path))
    ensures first.success ==> path !in helper.ActiveQueue()
    ensures path !in host.files
  {
    first := helper.DeleteScreenshot(host, path);
    second := helper.DeleteScreenshot(host, path);
  }
}
