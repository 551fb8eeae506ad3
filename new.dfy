/** The `new` subcommand (cmd/new.go): compose a snippet in an external editor
    on a temporary file, then save it. The guard chain is a function of what the
    process observes; the temporary file's lifetime is state, kept by the
    TempDir class. */
module NewCmd {
  import opened Wrappers
  import opened Strings
  import opened Api
  import Tags

  const DefaultEditor := "vim"
  const TempFileErrorPrefix := "Error creating temporary file: "
  const EditorErrorPrefix := "Error opening editor: "
  const TempReadErrorPrefix := "Error reading snippet from temp file: "
  const SnippetEmptyMessage := "Snippet is empty, aborting."

  /** What one invocation observes: `$EDITOR`, the temporary file `os.CreateTemp`
      made (or its error), how the editor process ended, what reading the file
      back returns, the resolved settings, the flags, the generated id and
      timestamp, and what the HTTP client reports. */
  datatype Input = Input(
    editorEnv: string,
    tempFile: Attempt<string>,
    editorRun: Attempt<()>,
    fileContent: Attempt<string>,
    settings: Settings,
    tags: string,
    note: string,
    id: string,
    createdAt: string,
    transport: Transport)

  /** The editor program: `$EDITOR` when it is set and not empty, else `vim`. */
  function Editor(editorEnv: string): (e: string)
    ensures e != ""
    ensures editorEnv != "" ==> e == editorEnv
    ensures editorEnv == "" ==> e == DefaultEditor
  {
    if editorEnv == "" then DefaultEditor else editorEnv
  }

  /** The line printed for each way the command ends. Unlike the base command,
      a status of 400 or more prints a fixed message without the body. */
  function Report(o: Outcome): Line
    requires !o.Usage?
  {
    match o
    case TempFileFailed(cause) => Err(TempFileErrorPrefix + cause)
    case EditorFailed(cause) => Err(EditorErrorPrefix + cause)
    case ReadFailed(cause) => Err(TempReadErrorPrefix + cause)
    case EmptyInput => Err(SnippetEmptyMessage)
    case NoUrl => Err(ErrWebhookNotConfigured)
    case TransportError(cause) => Err(SendFailureLine + cause)
    case HttpFailure(_, _) => Err(ErrSavingSnippet)
    case Success => Out(SavedMessage)
  }

  /** `newCmd.Run`, without the temporary file's lifetime (see TempDir).
      Exactly one line is printed, an editor launch is attempted at most once, and at
      most one request is sent, none on the paths that stop before the request
      is built. */
  function Compose(i: Input): (r: Run)
    ensures |r.printed| == 1
    ensures |r.launched| <= 1 && |r.requests| <= 1
    ensures r.requests == [] <==> r.outcome.BeforeRequest()
    ensures !r.outcome.Usage?
  {
    if i.tempFile.Failed? then
      var o := TempFileFailed(i.tempFile.cause);
      Run(o, [], [], [Report(o)])
    else
      var argv := [Editor(i.editorEnv), i.tempFile.value];
      if i.editorRun.Failed? then
        var o := EditorFailed(i.editorRun.cause);
        Run(o, [], [argv], [Report(o)])
      else if i.fileContent.Failed? then
        var o := ReadFailed(i.fileContent.cause);
        Run(o, [], [argv], [Report(o)])
      else if TrimSpace(i.fileContent.value) == "" then Run(EmptyInput, [], [argv], [Report(EmptyInput)])
      else if i.settings.webhookUrl == "" then Run(NoUrl, [], [argv], [Report(NoUrl)])
      else
        var req := PostRequest(i.settings, NewPayload(i.id, i.fileContent.value, i.tags, i.note, i.createdAt));
        var o := Deliver(i.transport);
        Run(o, [req], [argv], [Report(o)])
  }

  /** Once the temporary file exists, the editor launch is attempted exactly
      once, with the file path as its only argument. */
  lemma EditorLaunch(i: Input)
    ensures i.tempFile.Ok? ==> Compose(i).launched == [[Editor(i.editorEnv), i.tempFile.value]]
    ensures i.tempFile.Failed? ==> Compose(i).launched == [] && Compose(i).outcome.ExitCode() == 1
  {
  }

  /** An editor failure exits with status 1 before the file is read: any run
      with the same editor, file and editor failure ends the same way, whatever
      the file content, settings, flags, id, timestamp and transport. */
  lemma EditorFailureFirst(i: Input, j: Input)
    requires i.tempFile.Ok? && i.editorRun.Failed?
    requires j.editorEnv == i.editorEnv && j.tempFile == i.tempFile && j.editorRun == i.editorRun
    ensures Compose(i) == Compose(j)
    ensures Compose(i).outcome == EditorFailed(i.editorRun.cause) && Compose(i).outcome.ExitCode() == 1
    ensures Compose(i).requests == []
  {
  }

  /** A blank snippet aborts with "Snippet is empty, aborting." and status 1
      before the webhook URL is consulted: any run with the same editor, file
      and content ends the same way, whatever the settings, flags, id,
      timestamp and transport. */
  lemma EmptySnippetBeforeUrl(i: Input, j: Input)
    requires i.tempFile.Ok? && i.editorRun.Ok? && i.fileContent.Ok? && IsBlank(i.fileContent.value)
    requires j.editorEnv == i.editorEnv && j.tempFile == i.tempFile
    requires j.editorRun == i.editorRun && j.fileContent == i.fileContent
    ensures Compose(i) == Compose(j)
    ensures Compose(i).outcome == EmptyInput && Compose(i).outcome.ExitCode() == 1
    ensures Compose(i).printed == [Err(SnippetEmptyMessage)] && Compose(i).requests == []
  {
  }

  /** An empty webhook URL exits with status 1 and no request: any run with the
      same editor, file and content and no URL ends the same way, whatever the
      token, flags, id, timestamp and transport. */
  lemma NoUrlNoRequest(i: Input, j: Input)
    requires i.tempFile.Ok? && i.editorRun.Ok? && i.fileContent.Ok? && !IsBlank(i.fileContent.value)
    requires i.settings.webhookUrl == ""
    requires j.editorEnv == i.editorEnv && j.tempFile == i.tempFile
    requires j.editorRun == i.editorRun && j.fileContent == i.fileContent
    requires j.settings.webhookUrl == ""
    ensures Compose(i) == Compose(j)
    ensures Compose(i).outcome == NoUrl && Compose(i).outcome.ExitCode() == 1
    ensures Compose(i).requests == [] && Compose(i).printed == [Err(ErrWebhookNotConfigured)]
  {
  }

  /** Past the guards, the one request carries the file content unchanged and
      the parsed tags, with Authorization exactly when a token is set; a status
      of 400 or more prints the fixed message, whatever the response body; a
      transport failure prints its cause after the capitalised prefix. */
  lemma ComposeRequestAndReply(i: Input, body: string)
    requires i.tempFile.Ok? && i.editorRun.Ok? && i.fileContent.Ok? && !IsBlank(i.fileContent.value)
    requires i.settings.webhookUrl != ""
    ensures var r := Compose(i);
      && |r.requests| == 1
      && FromWire(r.requests[0].body).content == i.fileContent.value
      && FromWire(r.requests[0].body).userTags == Tags.TagList(i.tags)
      && ("Authorization" in r.requests[0].headers <==> i.settings.authToken != "")
      && (i.transport.Response? && i.transport.status >= 400 ==>
            r.outcome.ExitCode() == 1 && r.printed == [Err(ErrSavingSnippet)]
            && Compose(i.(transport := Response(i.transport.status, body))).printed == r.printed)
      && (i.transport.Response? && i.transport.status < 400 ==>
            r.outcome == Success && r.printed == [Out(SavedMessage)])
      && (i.transport.TransportFailure? ==>
            r.outcome.ExitCode() == 1 && r.printed == [Err(SendFailureLine + i.transport.cause)])
  {
  }

  /** The command inlines `sendToWebhook`: past the editor and content guards it
      makes the same decision and sends the same request. */
  lemma ComposeAgreesWithSendToWebhook(i: Input)
    requires i.tempFile.Ok? && i.editorRun.Ok? && i.fileContent.Ok? && !IsBlank(i.fileContent.value)
    ensures var r := Compose(i);
      var w := SendToWebhook(i.settings, i.fileContent.value, i.tags, i.note, i.id, i.createdAt, i.transport);
      r.outcome == w.outcome && r.requests == w.requests
  {
  }

  /** The temporary files that exist. `os.CreateTemp` adds one; the deferred
      `os.Remove` takes it away only when `Run` returns normally, because
      `os.Exit` does not run deferred calls. */
  class TempDir {
    var live: set<string>

    constructor ()
      ensures live == {}
    {
      live := {};
    }

    /** One `new` invocation as written: the run is Compose's; the created file
        is removed on success and left behind on every `os.Exit(1)` after its
        creation. */
    method RunNew(i: Input) returns (r: Run)
      modifies this
      ensures r == Compose(i)
      ensures i.tempFile.Failed? ==> live == old(live)
      ensures i.tempFile.Ok? && r.outcome.Success? ==> live == old(live) - {i.tempFile.value}
      ensures i.tempFile.Ok? && !r.outcome.Success? ==> live == old(live) + {i.tempFile.value}
      ensures i.tempFile.Ok? ==> (i.tempFile.value in live <==> r.outcome.ExitCode() == 1)
    {
      r := Compose(i);
      if i.tempFile.Ok? {
        var path := i.tempFile.value;
        live := live + {path};
        if r.outcome.ExitCode() == 0 {
          live := live - {path};
        }
      }
    }

    /** One `new` invocation with the cleanup the deferred call is there for:
        the created file is removed before the process ends, on every path. */
    method RunNewWithCleanup(i: Input) returns (r: Run)
      modifies this
      ensures r == Compose(i)
      ensures i.tempFile.Failed? ==> live == old(live)
      ensures i.tempFile.Ok? ==> live == old(live) - {i.tempFile.value}
    {
      r := Compose(i);
      if i.tempFile.Ok? {
        var path := i.tempFile.value;
        live := live + {path};
        live := live - {path};
      }
    }
  }

  /** An invocation whose editor exits with an error. */
  function EditorFails(path: string): Input {
    Input("", Ok(path), Failed("exit status 1"), Ok(""), Settings("", ""), "", "", "", "",
          TransportFailure(""))
  }

  /** As written: after an editor failure the temporary file is still there. */
  method LeakOnEditorFailure() returns (left: set<string>)
    ensures left == {"/tmp/devstash-1.md"}
  {
    var d := new TempDir();
    var r := d.RunNew(EditorFails("/tmp/devstash-1.md"));
    left := d.live;
  }

  /** With the cleanup run on every path, the same invocation leaves nothing. */
  method NoLeakWithCleanup() returns (left: set<string>)
    ensures left == {}
  {
    var d := new TempDir();
    var r := d.RunNewWithCleanup(EditorFails("/tmp/devstash-1.md"));
    left := d.live;
  }
}
