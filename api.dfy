/** The webhook side shared by every command (cmd/api.go): the JSON envelope,
    the POST request built from it, and how the reply is classified. The HTTP
    transport itself is an input: the model receives the transport's result. */
module Api {
  import opened Wrappers
  import Tags

  const ContentTypeJson := "application/json"
  const ErrWebhookNotConfigured := "Error: Webhook URL is not configured. Use 'devstash config set webhookUrl <url>'"
  const ErrSavingSnippet := "Error saving snippet to DevStash."
  /** The error `sendToWebhook` returns when the transport fails. */
  const SendFailurePrefix := "error sending request to webhook: "
  /** The line both commands print to stderr when the transport fails. */
  const SendFailureLine := "Error sending request to webhook: "
  const SavedMessage := "Successfully saved to DevStash!"

  /** The resolved settings (flag, `DEVSTASH_` environment variable or file). */
  datatype Settings = Settings(webhookUrl: string, authToken: string)

  /** The snippet envelope. `id` and `createdAt` are produced by libraries the
      model does not cover (a UUID and an RFC 3339 time) and are taken as given. */
  datatype Payload = Payload(id: string, content: string, userTags: seq<string>, note: string, createdAt: string)

  /** The JSON values the envelope uses. */
  datatype JsonValue = JString(str: string) | JStrings(strs: seq<string>)

  /** The envelope's fields, each written under the key its struct tag names. */
  datatype Key = Id | Content | UserTags | Note | CreatedAt {
    function JsonName(): string {
      match this
      case Id => "id"
      case Content => "content"
      case UserTags => "userTags"
      case Note => "note"
      case CreatedAt => "createdAt"
    }
  }

  /** One member of the JSON object. */
  datatype Member = Member(key: Key, value: JsonValue)

  /** The members `encoding/json` writes for a Payload, in declaration order;
      `note` carries `omitempty`. */
  function Wire(p: Payload): (obj: seq<Member>)
    ensures |obj| == if p.note == "" then 4 else 5
  {
    [Member(Id, JString(p.id)), Member(Content, JString(p.content)),
     Member(UserTags, JStrings(p.userTags))]
    + (if p.note == "" then [] else [Member(Note, JString(p.note))])
    + [Member(CreatedAt, JString(p.createdAt))]
  }

  /** The value of the first member with the key, if any. */
  function Field(obj: seq<Member>, key: Key): (v: Option<JsonValue>)
    ensures v.Some? <==> exists i :: 0 <= i < |obj| && obj[i].key == key
  {
    if obj == [] then None
    else if obj[0].key == key then Some(obj[0].value)
    else Field(obj[1..], key)
  }

  /** A string member as a receiver decoding into the same struct reads it:
      absent members give the empty string. */
  function StringField(obj: seq<Member>, key: Key): string {
    match Field(obj, key)
    case Some(JString(s)) => s
    case _ => ""
  }

  /** Decoding the envelope back into a Payload. */
  function FromWire(obj: seq<Member>): Payload {
    Payload(StringField(obj, Id), StringField(obj, Content),
            match Field(obj, UserTags) case Some(JStrings(ts)) => ts case _ => [],
            StringField(obj, Note), StringField(obj, CreatedAt))
  }

  /** The serialized envelope loses nothing: decoding it gives the payload back,
      the omitted empty note included. */
  lemma WireRoundTrip(p: Payload)
    ensures FromWire(Wire(p)) == p
  {
    WireMembers(p);
    var w := Wire(p);
    if p.note == "" {
      assert Field(w, Note) == None;
    } else {
      FieldAt(w, 3, Note);
    }
  }

  /** Field finds the first member with the key. */
  lemma {:induction false} FieldAt(obj: seq<Member>, i: nat, key: Key)
    requires i < |obj| && obj[i].key == key
    requires forall j :: 0 <= j < i ==> obj[j].key != key
    ensures Field(obj, key) == Some(obj[i].value)
  {
    if i > 0 {
      FieldAt(obj[1..], i - 1, key);
    }
  }

  /** `note` is present exactly when it is not empty; the other four members are
      always present. */
  lemma WireMembers(p: Payload)
    ensures Field(Wire(p), Note).Some? <==> p.note != ""
    ensures Field(Wire(p), Id) == Some(JString(p.id))
    ensures Field(Wire(p), Content) == Some(JString(p.content))
    ensures Field(Wire(p), UserTags) == Some(JStrings(p.userTags))
    ensures Field(Wire(p), CreatedAt) == Some(JString(p.createdAt))
  {
    var w := Wire(p);
    FieldAt(w, 0, Id);
    FieldAt(w, 1, Content);
    FieldAt(w, 2, UserTags);
    if p.note == "" {
      FieldAt(w, 3, CreatedAt);
    } else {
      FieldAt(w, 3, Note);
      FieldAt(w, 4, CreatedAt);
    }
  }

  /** The envelope for one submission: content as given, tags parsed from the
      flag text. */
  function NewPayload(id: string, content: string, tags: string, note: string, createdAt: string): (p: Payload)
    ensures p.content == content && p.note == note
    ensures p.userTags == Tags.TagList(tags)
  {
    Payload(id, content, Tags.TagList(tags), note, createdAt)
  }

  /** The request headers: the JSON content type always, and the token verbatim
      (no scheme prefix) as Authorization exactly when a token is set. */
  function Headers(authToken: string): (h: map<string, string>)
    ensures "Content-Type" in h && h["Content-Type"] == ContentTypeJson
    ensures "Authorization" in h <==> authToken != ""
    ensures "Authorization" in h ==> h["Authorization"] == authToken
    ensures h.Keys <= {"Content-Type", "Authorization"}
  {
    var h := map["Content-Type" := ContentTypeJson];
    if authToken != "" then h["Authorization" := authToken] else h
  }

  datatype Request = Request(verb: string, url: string, headers: map<string, string>, body: seq<Member>)

  /** The one POST a submission makes. */
  function PostRequest(s: Settings, p: Payload): (r: Request)
    ensures r.verb == "POST" && r.url == s.webhookUrl
    ensures FromWire(r.body) == p
  {
    WireRoundTrip(p);
    Request("POST", s.webhookUrl, Headers(s.authToken), Wire(p))
  }

  /** What the HTTP client reports: a transport failure (connection, timeout,
      DNS), or a response with its status code and body. */
  datatype Transport = TransportFailure(cause: string) | Response(status: int, body: string)

  /** How a command invocation ends. */
  datatype Outcome =
    | Usage                              // stdin is a terminal: guidance, normal return
    | ReadFailed(cause: string)          // stdin or the temporary file could not be read
    | TempFileFailed(cause: string)      // the temporary file could not be created
    | EditorFailed(cause: string)        // the editor process failed
    | EmptyInput                         // the content is only white space
    | NoUrl                              // no webhook URL is configured
    | TransportError(cause: string)      // the request did not complete
    | HttpFailure(code: int, body: string) // the webhook answered with status >= 400
    | Success
  {
    /** The guards that stop before any request exists. */
    predicate BeforeRequest() {
      Usage? || ReadFailed? || TempFileFailed? || EditorFailed? || EmptyInput? || NoUrl?
    }

    /** The process exit status: 0 for a normal return, 1 for `os.Exit(1)`. */
    function ExitCode(): (code: int)
      ensures code == 0 <==> Usage? || Success?
    {
      if Usage? || Success? then 0 else 1
    }
  }

  /** Classification of the single attempt: a transport failure, a status of
      400 or more, or success. */
  function Deliver(t: Transport): (o: Outcome)
    ensures o.Success? <==> t.Response? && t.status < 400
    ensures o.HttpFailure? <==> t.Response? && t.status >= 400
    ensures o.TransportError? <==> t.TransportFailure?
    ensures o.HttpFailure? ==> o.code == t.status && o.body == t.body
  {
    match t
    case TransportFailure(cause) => TransportError(cause)
    case Response(status, body) => if status >= 400 then HttpFailure(status, body) else Success
  }

  /** A line written by a command: to standard output, to standard error, or the
      status report of cmd/root.go:105 (status code and response body). */
  datatype Line = Out(text: string) | Err(text: string) | ErrStatus(code: int, body: string)

  /** Everything one invocation does that the model observes: how it ends, the
      requests it sends, the process launches it attempts (program and arguments) and
      the lines it prints. */
  datatype Run = Run(outcome: Outcome, requests: seq<Request>, launched: seq<seq<string>>, printed: seq<Line>)

  /** `sendToWebhook`: no URL fails at once with no request; otherwise exactly
      one POST carrying the content unchanged and the parsed tags, classified
      by Deliver. Only success prints. */
  function SendToWebhook(s: Settings, content: string, tags: string, note: string,
                         id: string, createdAt: string, t: Transport): (r: Run)
    ensures r.requests == [] <==> s.webhookUrl == ""
    ensures s.webhookUrl == "" ==> r.outcome == NoUrl
    ensures |r.requests| <= 1 && r.launched == []
  {
    if s.webhookUrl == "" then Run(NoUrl, [], [], [])
    else
      var o := Deliver(t);
      Run(o, [PostRequest(s, NewPayload(id, content, tags, note, createdAt))], [],
          if o.Success? then [Out(SavedMessage)] else [])
  }

  /** The error value `sendToWebhook` returns; `None` is Go's nil. */
  function SendError(o: Outcome): (e: Option<string>)
    requires o.NoUrl? || !o.BeforeRequest()
    ensures e.None? <==> o.Success?
  {
    match o
    case NoUrl => Some(ErrWebhookNotConfigured)
    case TransportError(cause) => Some(SendFailurePrefix + cause)
    case HttpFailure(_, _) => Some(ErrSavingSnippet)
    case Success => None
  }

  /** The request `sendToWebhook` sends, whenever it sends one, is a POST to the
      configured URL whose envelope holds the content unchanged and the parsed
      tags, with the header rule of Headers. */
  lemma SendToWebhookRequest(s: Settings, content: string, tags: string, note: string,
                             id: string, createdAt: string, t: Transport)
    requires s.webhookUrl != ""
    ensures var r := SendToWebhook(s, content, tags, note, id, createdAt, t);
      && |r.requests| == 1
      && r.requests[0].verb == "POST" && r.requests[0].url == s.webhookUrl
      && FromWire(r.requests[0].body) == Payload(id, content, Tags.TagList(tags), note, createdAt)
      && r.requests[0].headers == Headers(s.authToken)
  {
  }

  /** `sendToWebhook` returns nil exactly when a URL is set and the webhook
      answers below 400; otherwise the error names the cause. */
  lemma SendToWebhookResult(s: Settings, content: string, tags: string, note: string,
                            id: string, createdAt: string, t: Transport)
    ensures var e := SendError(SendToWebhook(s, content, tags, note, id, createdAt, t).outcome);
      && (e.None? <==> s.webhookUrl != "" && t.Response? && t.status < 400)
      && (s.webhookUrl == "" ==> e == Some(ErrWebhookNotConfigured))
      && (s.webhookUrl != "" && t.TransportFailure? ==> e == Some(SendFailurePrefix + t.cause))
      && (s.webhookUrl != "" && t.Response? && t.status >= 400 ==> e == Some(ErrSavingSnippet))
  {
  }
}
