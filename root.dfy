/** The base command `devstash` (cmd/root.go): read piped standard input and
    save it. Its `Run` body is a straight chain of guards, each ending the
    invocation early; it is modelled as a function from the inputs the process
    observes to everything the invocation does. */
module RootCmd {
  import opened Wrappers
  import opened Strings
  import opened Api
  import Tags

  const UsageMessage := "Usage: Pipe content into devstash. e.g., 'cat file.txt | devstash'"
  const StdinErrorPrefix := "Error reading from stdin: "
  const InputEmptyMessage := "Error: Input is empty."
  const UrlNotSetMessage := "Error: Webhook URL is not set. Use 'devstash config set webhookUrl ...' or the --webhook-url flag."

  /** What one invocation observes: whether stdin is a character device, what
      reading it all returns, the resolved settings, the `--tags` and `--note`
      flags, the generated id and timestamp, and what the HTTP client reports. */
  datatype Input = Input(
    stdinIsTerminal: bool,
    stdin: Attempt<string>,
    settings: Settings,
    tags: string,
    note: string,
    id: string,
    createdAt: string,
    transport: Transport)

  /** The line printed for each way the command ends. */
  function Report(o: Outcome): Line
    requires !o.TempFileFailed? && !o.EditorFailed?
  {
    match o
    case Usage => Out(UsageMessage)
    case ReadFailed(cause) => Err(StdinErrorPrefix + cause)
    case EmptyInput => Err(InputEmptyMessage)
    case NoUrl => Err(UrlNotSetMessage)
    case TransportError(cause) => Err(SendFailureLine + cause)
    case HttpFailure(code, body) => ErrStatus(code, body)
    case Success => Out(SavedMessage)
  }

  /** `rootCmd.Run`. Exactly one line is printed; at most one request is sent,
      and none on the paths that stop before the request is built. */
  function Save(i: Input): (r: Run)
    ensures |r.printed| == 1 && r.launched == []
    ensures r.requests == [] <==> r.outcome.BeforeRequest()
    ensures |r.requests| <= 1
  {
    if i.stdinIsTerminal then Run(Usage, [], [], [Report(Usage)])
    else if i.stdin.Failed? then
      var o := ReadFailed(i.stdin.cause);
      Run(o, [], [], [Report(o)])
    else if TrimSpace(i.stdin.value) == "" then Run(EmptyInput, [], [], [Report(EmptyInput)])
    else if i.settings.webhookUrl == "" then Run(NoUrl, [], [], [Report(NoUrl)])
    else
      var req := PostRequest(i.settings, NewPayload(i.id, i.stdin.value, i.tags, i.note, i.createdAt));
      var o := Deliver(i.transport);
      Run(o, [req], [], [Report(o)])
  }

  /** A terminal on stdin: usage guidance, exit status 0, and nothing else is
      looked at — the result is the same whatever stdin, settings, flags or
      transport would have been. */
  lemma TerminalShowsUsage(i: Input, j: Input)
    requires i.stdinIsTerminal && j.stdinIsTerminal
    ensures Save(i) == Save(j)
    ensures Save(i).outcome == Usage && Save(i).outcome.ExitCode() == 0
    ensures Save(i).requests == [] && Save(i).printed == [Out(UsageMessage)]
  {
  }

  /** White-space-only input fails with exit status 1 before the webhook URL is
      consulted: any run that reads the same stdin ends the same way, whatever
      its settings, flags, id, timestamp and transport. */
  lemma EmptyInputBeforeUrl(i: Input, j: Input)
    requires !i.stdinIsTerminal && i.stdin.Ok? && IsBlank(i.stdin.value)
    requires j.stdinIsTerminal == i.stdinIsTerminal && j.stdin == i.stdin
    ensures Save(i) == Save(j)
    ensures Save(i).outcome == EmptyInput && Save(i).outcome.ExitCode() == 1
    ensures Save(i).requests == []
  {
  }

  /** An empty webhook URL fails with exit status 1 before any request is built:
      any run with the same stdin and no URL ends the same way, whatever its
      token, flags, id, timestamp and transport. */
  lemma NoUrlBeforeRequest(i: Input, j: Input)
    requires !i.stdinIsTerminal && i.stdin.Ok? && !IsBlank(i.stdin.value)
    requires i.settings.webhookUrl == ""
    requires j.stdinIsTerminal == i.stdinIsTerminal && j.stdin == i.stdin
    requires j.settings.webhookUrl == ""
    ensures Save(i) == Save(j)
    ensures Save(i).outcome == NoUrl && Save(i).outcome.ExitCode() == 1
    ensures Save(i).requests == []
  {
  }

  /** Once every guard has passed, exactly one request goes out: a POST to the
      webhook URL carrying the raw stdin (not trimmed) and the parsed tags, with
      the JSON content type and the token as Authorization exactly when one is
      set. */
  lemma SaveRequest(i: Input)
    requires !i.stdinIsTerminal && i.stdin.Ok? && !IsBlank(i.stdin.value)
    requires i.settings.webhookUrl != ""
    ensures var r := Save(i);
      && |r.requests| == 1
      && r.requests[0].verb == "POST" && r.requests[0].url == i.settings.webhookUrl
      && FromWire(r.requests[0].body).content == i.stdin.value
      && FromWire(r.requests[0].body).userTags == Tags.TagList(i.tags)
      && FromWire(r.requests[0].body).note == i.note
      && r.requests[0].headers["Content-Type"] == ContentTypeJson
      && ("Authorization" in r.requests[0].headers <==> i.settings.authToken != "")
  {
  }

  /** A status of 400 or more exits with status 1 and reports the status code
      and the response body; any other response prints the success message and
      exits with 0; a transport failure exits with 1 and reports its cause. */
  lemma SaveReply(i: Input)
    requires !i.stdinIsTerminal && i.stdin.Ok? && !IsBlank(i.stdin.value)
    requires i.settings.webhookUrl != ""
    ensures var r := Save(i);
      && (i.transport.Response? && i.transport.status >= 400 ==>
            r.outcome.ExitCode() == 1 && r.printed == [ErrStatus(i.transport.status, i.transport.body)])
      && (i.transport.Response? && i.transport.status < 400 ==>
            r.outcome == Success && r.outcome.ExitCode() == 0 && r.printed == [Out(SavedMessage)])
      && (i.transport.TransportFailure? ==>
            r.outcome.ExitCode() == 1 && r.printed == [Err(SendFailureLine + i.transport.cause)])
  {
  }

  /** The command succeeds exactly when stdin is piped, readable and not blank,
      a URL is set and the webhook answers below 400. */
  lemma SaveSucceedsIff(i: Input)
    ensures Save(i).outcome == Success <==>
      && !i.stdinIsTerminal && i.stdin.Ok? && !IsBlank(i.stdin.value)
      && i.settings.webhookUrl != ""
      && i.transport.Response? && i.transport.status < 400
  {
  }

  /** The command inlines `sendToWebhook`: past the input guards it makes the
      same decision and sends the same request. */
  lemma SaveAgreesWithSendToWebhook(i: Input)
    requires !i.stdinIsTerminal && i.stdin.Ok? && !IsBlank(i.stdin.value)
    ensures var r := Save(i);
      var w := SendToWebhook(i.settings, i.stdin.value, i.tags, i.note, i.id, i.createdAt, i.transport);
      r.outcome == w.outcome && r.requests == w.requests
  {
  }
}
