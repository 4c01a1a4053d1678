/** What the screenshot queue manager touches outside itself: the files on
    disk, the two window hooks it is handed, and the `screenshot-desktop`
    library. The host records every hook call and every capture request so
    that contracts can say what was called, in which order, with what. */
module HostSystem {
  import opened Outcomes
  import opened ConfigManager

  /** The options object handed to `screenshot-desktop`: `filename`, and
      `screen` and `format` only when they were set. */
  datatype CaptureOptions = CaptureOptions(filename: string, screen: Option<Monitor>, format: Option<string>)

  /** A call the screenshot manager makes outside itself: one of the window
      hooks given to `takeScreenshot`, or the capture library with its options. */
  datatype HostCall = HideMainWindow | ShowMainWindow | Capture(options: CaptureOptions)

  /** How one call of the capture library ends: it wrote a PNG to the file
      it was given, or it threw an error with this message. */
  datatype CaptureOutcome = Captured(png: Bytes) | Threw(message: string)

  /** The message Node.js gives for a missing file. */
  function NoSuchFile(syscall: string, path: string): string {
    "ENOENT: no such file or directory, " + syscall + " '" + path + "'"
  }

  class Host {
    /** The files that exist, with their contents. */
    var files: map<string, Bytes>
    /** The hook and capture-library calls made so far, oldest first. */
    var calls: seq<HostCall>

    constructor (files: map<string, Bytes>)
      ensures this.files == files && calls == []
    {
      this.files := files;
      calls := [];
    }

    /** `fs.unlink`: remove a file; it fails exactly when there is no such file. */
    method Unlink(path: string) returns (r: Result<()>)
      modifies this`files
      ensures files == old(files) - {path}
      ensures r == if path in old(files) then Ok(()) else Err(NoSuchFile("unlink", path))
    {
      r := if path in files then Ok(()) else Err(NoSuchFile("unlink", path));
      files := files - {path};
    }

    /** `fs.readFile`: the contents of an existing file. */
    method ReadFile(path: string) returns (r: Result<Bytes>)
      ensures r == if path in files then Ok(files[path]) else Err(NoSuchFile("open", path))
    {
      r := if path in files then Ok(files[path]) else Err(NoSuchFile("open", path));
    }

    /** A call of a window hook, recorded in the trace. */
    method CallWindowHook(call: HostCall)
      requires !call.Capture?
      modifies this`calls
      ensures calls == old(calls) + [call]
    {
      calls := calls + [call];
    }

    /** One call of `screenshot-desktop`: on success the file named in the
        options holds the captured PNG; on failure no file changes. */
    method Screenshot(options: CaptureOptions, outcome: CaptureOutcome) returns (r: Result<()>)
      modifies this`files, this`calls
      ensures calls == old(calls) + [Capture(options)]
      ensures outcome.Captured? ==> r == Ok(()) && files == old(files)[options.filename := outcome.png]
      ensures outcome.Threw? ==> r == Err(outcome.message) && files == old(files)
    {
      calls := calls + [Capture(options)];
      match outcome
      case Captured(png) =>
        files := files[options.filename := png];
        r := Ok(());
      case Threw(message) =>
        r := Err(message);
    }
  }
}
