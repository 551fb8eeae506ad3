# devstash-cli, modelled in Dafny

`devstash` is a command-line tool that saves a text snippet to a user-configured
webhook. The base command reads piped standard input, `devstash new` opens an
editor on a temporary file, and either one POSTs a JSON envelope
(`id`, `content`, `userTags`, optional `note`, `createdAt`) to the webhook URL.
`devstash config set/get` edits or reads the `webhookUrl` and `authToken` settings.

This project models the decision logic of those commands. HTTP, the editor
process, the file system calls, UUIDs and clocks are abstracted into inputs.

- `Strings` — `unicode.IsSpace` and `strings.TrimSpace`, with an independent
  characterisation of trimming (`TrimSpaceOf`).
- `Tags` — `parseTags`: `strings.Split` on commas (`Split`, with its inverse
  `Join`), the tag list as a function (`TagList`), and the in-place loop over an
  array (`TrimFields`, called by `ParseTags`), proved equal to it. `TagExamples` holds worked examples.
  The function appears twice in the repository, at cmd/api.go:71-80 and
  cmd/root.go:160-169. The two copies are textually identical, so they are
  modelled once. Both are top-level declarations in package `cmd`, so as the
  two files stand Go rejects the package for redeclaring `parseTags`.
- `Api` — the `Payload` envelope and the members its JSON carries
  (`note` omitted when empty), the request headers, the classification of the one
  HTTP attempt, and `sendToWebhook`.
- `RootCmd` — the guard chain of the base command as a function `Save` from what
  the process observes (is stdin a terminal, what reading it returns, the
  resolved settings, flags, id, timestamp, transport result) to a `Run`: how it
  ends, the requests it sends, the processes it launches and the line it prints.
- `NewCmd` — the guard chain of `new` as `Compose`, and the lifetime of the
  temporary file as the class `TempDir`.
- `ConfigCmd` — the key whitelist, the store update, the choice of the file to
  write and the write itself, as the class `Config`. `get` is the pure lookup `Get`.

Guard ordering is stated as independence: once an earlier guard fires, any
input that agrees on what the earlier guards read gives the same result, whatever
its other fields (settings, flags, id, timestamp, transport) are. "No request on an error path"
is `r.requests == []`.

## Model

| member | source | states |
|---|---|---|
| Strings.TrimSpace | cmd/api.go:72 | the trimmed string has no white space at either end, and it is empty exactly when the input is all white space |
| Strings.TrimSpaceOf | cmd/api.go:77 | trimming removes exactly a white-space prefix and suffix around a trimmed middle |
| Tags.SplitCount | cmd/api.go:75 | splitting on commas gives one field more than there are commas |
| Tags.SplitFieldsCommaFree | cmd/api.go:75 | no field contains a comma |
| Tags.JoinSplit | cmd/api.go:75 | joining the fields with commas gives back the input |
| Tags.SplitJoin | cmd/api.go:75 | splitting a comma-joined list of comma-free fields gives back the list |
| Tags.TagList | cmd/root.go:160-169 | the tag list is empty exactly when the flag is blank, and every tag is trimmed |
| Tags.TrimFields | cmd/api.go:76-78 | the loop keeps the number of fields and replaces field i by its trimmed form |
| Tags.ParseTags | cmd/api.go:71-80 | a blank flag gives no tags, any other flag exactly TagList of the flag |
| Tags.TagListFields | cmd/api.go:75-78 | for a non-blank flag there are commas+1 tags, and tag i is the i-th comma-separated field trimmed |
| Tags.TagListJoin | cmd/api.go:71-80 | round trip: trimmed comma-free tags written as a flag parse back to the same list, except the lone empty tag |
| TagExamples.BlankFlagHasNoTags | cmd/api.go:72-74 | empty or white-space flags give no tags, not one empty tag |
| TagExamples.EmptyFieldsKept | cmd/api.go:75-79 | "a,,b" gives ["a","","b"]: empty fields are kept |
| TagExamples.DuplicatesKept | cmd/api.go:75-79 | duplicates are not removed |
| TagExamples.FieldsTrimmed | cmd/api.go:76-78 | "a, b ,c" gives ["a","b","c"] in order |
| TagExamples.EndToEndTags | cmd/root.go:72 | the flag "py, demo" gives ["py","demo"] |
| Api.WireMembers | cmd/api.go:17-23 | the JSON has `note` exactly when it is non-empty; `id`, `content`, `userTags` and `createdAt` are always present with the payload's values |
| Api.WireRoundTrip | cmd/api.go:17-23 | decoding the serialized envelope gives the payload back |
| Api.NewPayload | cmd/api.go:32-38 | the envelope's content is the argument unchanged, its tags are TagList of the flag, its note the flag |
| Api.Headers | cmd/api.go:50-53 | Content-Type is always application/json; Authorization is present iff the token is non-empty and equals it verbatim; no other header |
| Api.PostRequest | cmd/api.go:45-53 | the request is a POST to the webhook URL whose body decodes to the payload |
| Api.Deliver | cmd/api.go:56-64 | a transport failure is a transport error, a status of 400 or more is a delivery failure carrying status and body, any other status is success |
| Api.SendToWebhook | cmd/api.go:26-68 | no request exactly when the URL is empty, which fails with the not-configured error; otherwise exactly one request |
| Api.SendError | cmd/api.go:29-67 | the returned error is nil exactly on success |
| Api.SendToWebhookRequest | cmd/api.go:32-53 | the one request is a POST to the URL carrying the content unchanged, the parsed tags and the header rule |
| Api.SendToWebhookResult | cmd/api.go:27-67 | nil iff a URL is set and the reply is below 400; otherwise errWebhookNotConfigured, the wrapped transport error, or errSavingSnippet |
| RootCmd.Save | cmd/root.go:28-110 | one line printed, no process launched, at most one request, and no request exactly on the paths that stop before it is built |
| RootCmd.TerminalShowsUsage | cmd/root.go:30-34 | a terminal on stdin prints usage and exits 0 with no request; nothing else is consulted |
| RootCmd.EmptyInputBeforeUrl | cmd/root.go:42-54 | blank stdin exits 1 with no request; any input with the same stdin gives the same run, whatever its settings, flags, id, timestamp and transport |
| RootCmd.NoUrlBeforeRequest | cmd/root.go:51-58 | an empty URL exits 1 with no request; any input with the same stdin and no URL gives the same run, whatever its token, flags, id, timestamp and transport |
| RootCmd.SaveRequest | cmd/root.go:69-93 | the one request carries the raw, untrimmed stdin and the parsed tags, with JSON content type and Authorization iff a token is set |
| RootCmd.SaveReply | cmd/root.go:96-109 | status >= 400 exits 1 reporting status code and body; below 400 prints the success message and exits 0; a transport failure exits 1 printing "Error sending request to webhook: " and its cause |
| RootCmd.SaveSucceedsIff | cmd/root.go:28-110 | success iff stdin is piped, readable, not blank, a URL is set and the reply is below 400 |
| RootCmd.SaveAgreesWithSendToWebhook | cmd/root.go:48-107 | past the input guards the command decides and sends exactly as sendToWebhook does |
| NewCmd.Editor | cmd/new.go:25-29 | the editor is $EDITOR when non-empty, otherwise vim |
| NewCmd.Compose | cmd/new.go:24-120 | one line printed, an editor launch attempted at most once, at most one request, and none on the paths that stop before it is built |
| NewCmd.EditorLaunch | cmd/new.go:32-40 | once the temporary file exists the editor launch is attempted once with the file path as its only argument; a creation failure exits 1 and attempts no launch |
| NewCmd.EditorFailureFirst | cmd/new.go:45-51 | an editor failure exits 1 before the file is read; any input with the same editor, file and failure gives the same run, whatever its content, settings, flags, id, timestamp and transport |
| NewCmd.EmptySnippetBeforeUrl | cmd/new.go:57-66 | a blank snippet prints "Snippet is empty, aborting." and exits 1; any input with the same editor, file and content gives the same run, whatever its settings, flags, id, timestamp and transport |
| NewCmd.NoUrlNoRequest | cmd/new.go:62-66 | an empty URL exits 1 with the not-configured message and no request; any input with the same editor, file and content and no URL gives the same run, whatever its token, flags, id, timestamp and transport |
| NewCmd.ComposeRequestAndReply | cmd/new.go:81-119 | the one request carries the file content unchanged and the parsed tags, with Authorization iff a token is set; status >= 400 prints a fixed message whatever the body; a transport failure prints "Error sending request to webhook: " and its cause |
| NewCmd.ComposeAgreesWithSendToWebhook | cmd/new.go:62-117 | past the editor and content guards the command decides and sends exactly as sendToWebhook does |
| NewCmd.TempDir.RunNew | cmd/new.go:32-37 | the created file is removed when Run returns normally and left in place on every os.Exit(1) after its creation |
| NewCmd.TempDir.RunNewWithCleanup | cmd/new.go:37 | with cleanup on every path, the created file never outlives the invocation |
| NewCmd.LeakOnEditorFailure | cmd/new.go:45-48 | an editor failure leaves the temporary file behind |
| NewCmd.NoLeakWithCleanup | cmd/new.go:37-48 | with the corrected cleanup the same invocation leaves no file |
| ConfigCmd.ConfigTarget | cmd/config.go:37-45 | the write target is the file in use if one was loaded, else the default path under home; a home lookup failure is an error |
| ConfigCmd.DefaultConfigDir | cmd/config.go:44-48 | the default path's directory is <home>/.config/devstash |
| ConfigCmd.Config.Set | cmd/config.go:19-60 | a wrong argument count or a key other than webhookUrl/authToken changes nothing; otherwise the key maps to the value and other keys are unchanged, the directory is created and the whole store written; a failed home lookup returns its cause and creates nothing, a failed MkdirAll returns its cause and creates nothing, a failed write returns its cause with the directory created and no file written |
| ConfigCmd.SetResult.ExitCode | cmd/config.go:23-59 | `set` exits 0 only after a successful write; every failure, a wrong argument count included, exits 1 |
| ConfigCmd.GetResult.ExitCode | cmd/config.go:67-76 | `get` exits 1 only on a wrong argument count; an unset key is reported but exits 0 |
| ConfigCmd.Lookup | cmd/config.go:70 | an unset key reads as the empty string |
| ConfigCmd.Get | cmd/config.go:63-76 | exactly one argument; any key accepted; a non-empty value goes to stdout, an empty one is reported as not set with exit 0 |
| ConfigCmd.GetAfterSet | cmd/config.go:34-75 | after setting a key, get returns the new value, and every other key reads as before |

## Findings

| source | as written | input that shows it | evidently intended | confidence | as-written member | corrected member |
|---|---|---|---|---|---|---|
| cmd/new.go:37-117 | the temporary file is removed by a deferred call, and every later failure ends the process with os.Exit(1), which skips deferred calls | an editor that exits with an error, leaving /tmp/devstash-1.md | the temporary file is removed on every exit path | high, not executed | NewCmd.LeakOnEditorFailure | NewCmd.NoLeakWithCleanup |

`NewCmd.TempDir.RunNew` models the code as written. `NewCmd.TempDir.RunNewWithCleanup`
is the corrected lifetime. Nothing else in the model depends on which of the two is used.

## Left out

- HTTP transport, the 10-second client timeout and `http.NewRequest` errors: the transport's result is an input (`Api.Transport`).
- `json.Marshal` failure: it cannot fail for this struct of strings, so the path is left out. JSON text and escaping are not modelled; only which members are present and their values.
- UUID generation and RFC 3339 timestamps: `id` and `createdAt` are opaque input strings.
- Viper's resolution order (flag, then `DEVSTASH_` environment variable, then YAML file), `AutomaticEnv`, `ReadInConfig` and the YAML format: the resolved `webhookUrl`/`authToken` are inputs (`Api.Settings`) and the store is a plain map.
- ConfigCmd.Get: keys are compared exactly; viper's case-insensitive key handling is not modelled.
- ConfigCmd.Config.Set: `WriteConfigAs` writes all of viper's settings; the model writes the store map. A failed write is modelled as leaving the file untouched, and `MkdirAll` as creating only the parent directory.
- ConfigCmd.DefaultConfigDir: `filepath.Join`/`Clean` are modelled as plain concatenation, for a home directory without a trailing separator.
- ConfigCmd.ParentDir: `filepath.Dir` is modelled for clean paths only; for a file directly under `/` it gives "" where Go gives `/`.
- `initConfig` (cmd/root.go:140-143) calls `cobra.CheckErr` on `os.UserHomeDir` before any command runs, so a failed home lookup exits 1 before the base command's usage check and before `set`; the model treats each command on its own, so `Set`'s HomeFailed path (cmd/config.go:39-43) is reachable in the model but not in the program.
- The editor process, its inherited stdio, `os.CreateTemp` naming (`devstash-*.md`), `os.UserHomeDir`: outcomes are inputs (`Attempt`), paths are given.
- NewCmd.Compose: `launched` records the attempted editor launch. When `exec.Command` cannot find the program, `Run` (cmd/new.go:45) fails without starting a process, and the model still records `[editor, path]`.
- The character-device test on stdin is a boolean input. A failing `os.Stdin.Stat` (which would dereference a nil result) is not modelled.
- Go strings are UTF-8 bytes; the model uses sequences of Unicode characters, so invalid UTF-8 is not modelled.
- Cobra wiring (`Execute`, `init`, flag registration): the argument-count checks are modelled inside `Set` and `Get`.
- `sendToWebhook` is not called by the two commands in cmd/, which inline the same steps; it is modelled on its own and related to them by the two agreement lemmas.
- The `errEmptyInput` and `errSnippetIsEmpty` constants in cmd/errors.go are never referenced. The messages the commands print are modelled as the literals they use.
