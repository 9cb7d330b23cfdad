# git-remote-joystream, modelled in Dafny

`git-remote-joystream` is the git remote helper of the on-chain git proof of
concept: git starts it with a remote name and a URL of the form
`joystream://<chain>/<owner>/<repo>` and talks to it over standard input and
output with the remote-helper protocol (gitremote-helpers(7), section
"COMMANDS"). Its transport client stores pushed packfiles on the chain as
transactions and reads advertised references back through ledger queries.

This project models two parts of it and proves what they do.

- **The command loop** (`cmd/git-remote-joystream/main.go`).
  - `go_strings.dfy` models the Go library calls the loop applies to each line:
    - `bufio.Reader.ReadString('\n')`;
    - `strings.TrimSpace` and `strings.Fields`;
    - `unicode.IsSpace`.
  - `joystream_url.dfy` models the URL pattern `joystream://(.+)/(.+)/(.+)` by what it matches. The match is unanchored, leftmost and greedy. `.` does not cross a line break. The file also models `repository.String`.
  - `remote_helper.dfy` models `cmdRoot` in two forms:
    - the specification function `Serve`/`Run`, which reads standard input as one text;
    - the imperative loop `CmdRoot`, proved equal to `Run`.

  It also models `handleList` and the `handlePushBatch` stub. A line-by-line lemma covers each command: `capabilities`, `list [for-push]`, `push <refspec>`, the blank line that flushes a batch, unknown commands, and the end of input.
- **The Joystream client** (`x/gitService/client/cli/joystreamclient.go`), in `joystream_client.dfy`. It covers:
  - the repository-URI check `^[^/]+/[^/]+$`;
  - `newJoystreamClient` and the URL it builds;
  - the advertised-references query path;
  - the receive-pack session as a class: its status table, `firstErr`, `setStatus`, the `reportStatus` loop, and the call and error order of `ReceivePack`.

The following are parameters of the model, standing for the calls the code makes into other libraries:
- Standard input, as a string.
- Positional arguments, as a sequence of strings.
- `transport.NewEndpoint`, as a function.
- The ledger query and the JSON decoding of its answer, as functions.
- `io.Copy`, `Packfile.Close`, `NewMsgUpdateReferences` and `CompleteAndBroadcastTxCli`, as their outcomes.

Go panics are modelled as panic outcomes, not excluded by preconditions: `args[1]` with too few arguments in `cmdRoot`, and `Path[1:]` on an empty path or a nil decoded answer in `AdvertisedReferences`. `ReceivePack` is the one exception, listed under "## Left out".

Behaviour of the code that the model follows, even where it is surprising:
- A URL with more than three segments is accepted. `joystream://a/b/c/d` gives chain `a/b`, owner `c`, name `d`.
- Unknown commands are skipped silently. The `err` checked after the switch is never assigned.
- `list` writes a blank line, or nothing for a bad request. Its error is dropped.
- `ReceivePack` never records a command status and never sets `unpackErr`, so its report is always the session's initial one.

## Model

| member | source | states |
|---|---|---|
| `GoStrings.ReadLine` | cmd/git-remote-joystream/main.go:161-165 | A line is read only when a '\n' remains. It ends at the first '\n' and is followed by the rest of the input. Without a '\n' the read fails, which the loop treats as the end. |
| `GoStrings.ReadLineOf` | cmd/git-remote-joystream/main.go:161 | A line without '\n' followed by '\n' is read back exactly, leaving the rest. |
| `GoStrings.TrimSpace` | cmd/git-remote-joystream/main.go:167 | The trimmed line is no longer than the line, and it is empty or begins and ends with a non-space character. |
| `GoStrings.TrimSpaceSlice` | cmd/git-remote-joystream/main.go:167 | The result is a slice of the input with only white space cut on either side, and neither of its ends is white space. |
| `GoStrings.Fields` | cmd/git-remote-joystream/main.go:168 | A line has no more fields than characters. |
| `GoStrings.FieldsAreWords` | cmd/git-remote-joystream/main.go:168 | Every field is non-empty and holds no white space. |
| `GoStrings.FieldsEmptyIffBlank` | cmd/git-remote-joystream/main.go:168-170 | A line has no fields exactly when it is all white space. |
| `GoStrings.FieldsOfTrimSpace` | cmd/git-remote-joystream/main.go:167-168 | Splitting the trimmed line gives the same fields as splitting the raw line. |
| `GoStrings.FieldsCons` | cmd/git-remote-joystream/main.go:168 | A word followed by white space splits off as the first field. |
| `JoystreamUrl.Repository.String` | cmd/git-remote-joystream/main.go:138-140 | The rendering is chain, '/', owner, '/', name, in that order and nothing else. |
| `JoystreamUrl.SplitGroups` | cmd/git-remote-joystream/main.go:14 | A split of one line gives three non-empty groups without line breaks that render back to the line. |
| `JoystreamUrl.ParseURL` | cmd/git-remote-joystream/main.go:150-153 | A match gives three non-empty groups, and `joystream://` followed by their rendering occurs in the URL. |
| `JoystreamUrl.SplitGroupsGreedy` | cmd/git-remote-joystream/main.go:14 | If any split of a line into three groups exists, one is found. It takes the longest chain, and with that chain the longest owner. |
| `JoystreamUrl.ParseURLLeftmostGreedy` | cmd/git-remote-joystream/main.go:14 | Any possible match makes the URL accepted. The chosen match starts no later than it, and at the same start it is the greedy one. |
| `JoystreamUrl.ParseURLNone` | cmd/git-remote-joystream/main.go:150-151 | A rejected URL has no match anywhere. |
| `JoystreamUrl.ParseRendered` | cmd/git-remote-joystream/main.go:150-153 | A repository with slash-free owner and name parses back from `joystream://` plus its rendering (round trip). |
| `JoystreamUrl.ParseExample` | cmd/git-remote-joystream/main.go:153 | `joystream://c1/o1/r1` gives `{c1, o1, r1}`, rendered `c1/o1/r1`. |
| `JoystreamUrl.ParseFourSegments` | cmd/git-remote-joystream/main.go:14 | `joystream://a/b/c/d` is accepted with chain `a/b`, owner `c`, name `d`. |
| `RemoteHelper.FormatSlice` | cmd/git-remote-joystream/main.go:122 | The `%v` rendering of a slice is bracketed, and an empty slice renders as `[]`. |
| `RemoteHelper.FormatSliceFields` | cmd/git-remote-joystream/main.go:122 | Between the brackets, the rendering of non-empty words without white space splits back into exactly those words. |
| `RemoteHelper.HandlePushBatch` | cmd/git-remote-joystream/main.go:16-19 | The stub writes one blank line to standard output, whatever the batch and repository. |
| `RemoteHelper.Dispatch` | cmd/git-remote-joystream/main.go:170-195 | A command panics exactly when it is `push` and `cmdRoot` got fewer than two arguments. Otherwise output and handled batches only grow, and only a blank line hands a batch on. |
| `RemoteHelper.Step` | cmd/git-remote-joystream/main.go:167-195 | A line read from input is dispatched on the fields of the raw line, so trimming it first changes nothing. |
| `RemoteHelper.Serve` | cmd/git-remote-joystream/main.go:160-199 | The loop ends with a nil error or an index panic and never returns any other error. Standard output and the handled batches only grow. |
| `RemoteHelper.Run` | cmd/git-remote-joystream/main.go:142-200 | `cmdRoot` fails with an error exactly when it has an argument and the selected URL does not match. It then has written and handled nothing. |
| `RemoteHelper.HandleList` | cmd/git-remote-joystream/main.go:117-130 | No argument or exactly `for-push` writes "\n" and succeeds. Anything else writes nothing and fails with `Bad list request: [..]`. |
| `RemoteHelper.CmdRoot` | cmd/git-remote-joystream/main.go:142-200 | The loop's exit, standard output and handled batches are those of `Run`: URL selection, URL check, then the line-by-line specification. |
| `RemoteHelper.BadURLReadsNothing` | cmd/git-remote-joystream/main.go:143-152 | The URL is `args[0]` with one argument and `args[1]` otherwise. If it does not match, the result is `URL on invalid format: '<url>'`, with no output and nothing handled. |
| `RemoteHelper.ServeLine` | cmd/git-remote-joystream/main.go:160-182 | A complete line is dispatched on the fields of the raw line; trimming makes no difference. |
| `RemoteHelper.BlankLine` | cmd/git-remote-joystream/main.go:170-179 | A blank line with no pending batch changes nothing. With a pending batch it hands the whole batch once to `handlePushBatch`, writes "\n" and empties the batch. |
| `RemoteHelper.CapabilitiesLine` | cmd/git-remote-joystream/main.go:183-184 | `capabilities` writes exactly "push\n\n" and leaves the batch unchanged. |
| `RemoteHelper.ListLine` | cmd/git-remote-joystream/main.go:185-186 | `list` writes "\n" for no argument or `for-push`, otherwise nothing. The loop goes on either way. |
| `RemoteHelper.PushLine` | cmd/git-remote-joystream/main.go:187-190 | With two positional arguments, `push` appends its arguments to the end of the batch and writes nothing. With one it panics. |
| `RemoteHelper.UnknownLine` | cmd/git-remote-joystream/main.go:181-195 | Any other command writes nothing and changes nothing, and the loop goes on. |
| `RemoteHelper.EndOfInput` | cmd/git-remote-joystream/main.go:161-165 | Without a further '\n' the loop ends with a nil error, and a pending batch is dropped unhandled. |
| `RemoteHelper.UnterminatedTailIgnored` | cmd/git-remote-joystream/main.go:161-165 | A final line without '\n' has no effect at all. |
| `RemoteHelper.PushLinesThenBlank` | cmd/git-remote-joystream/main.go:170-190 | `push` lines and then a blank line reach `handlePushBatch` exactly once, as one batch. The batch is whatever was pending plus every refspec in arrival order, and "\n" is written. |
| `RemoteHelper.HandledBatchesNonEmpty` | cmd/git-remote-joystream/main.go:172-178 | Every batch handed to `handlePushBatch` is non-empty. |
| `RemoteHelper.CapabilitiesThenBlank` | cmd/git-remote-joystream/main.go:183-184 | `capabilities` and then a blank line, with no batch pending, writes exactly "push\n\n" and ends. |
| `RemoteHelper.CapabilitiesScenario` | cmd/git-remote-joystream/main.go:142-184 | From a good URL, the input `capabilities` then a blank line gives a nil exit, output "push\n\n" and no batch. |
| `JoystreamClient.SplitRepoURI` | x/gitService/client/cli/joystreamclient.go:31 | An accepted URI is two non-empty slash-free segments joined by '/'. |
| `JoystreamClient.SplitRepoURIComplete` | x/gitService/client/cli/joystreamclient.go:31 | Every such `a/b` is accepted and split into `a` and `b`. |
| `JoystreamClient.BlockchainURL` | x/gitService/client/cli/joystreamclient.go:39 | The URL is `joystream://`, then chain `blockchain`, '/' and the URI. |
| `JoystreamClient.NewJoystreamClient` | x/gitService/client/cli/joystreamclient.go:33-52 | A malformed URI fails with `Repo URI on invalid format: '<uri>'` without creating an endpoint. Otherwise the endpoint is made for `joystream://blockchain/<uri>`; its error is returned as is, and on success the client keeps the endpoint, module name and author. |
| `JoystreamClient.ClientURLParses` | x/gitService/client/cli/joystreamclient.go:39 | The URL built for `a/b` is one the remote helper accepts, as chain `blockchain`, owner `a`, name `b`. |
| `JoystreamClient.QueryPath` | x/gitService/client/cli/joystreamclient.go:86-87 | The query path starts with `custom/<module>/advertisedReferences/` and ends with the endpoint path without its first character, with nothing in between. |
| `JoystreamClient.QueryPathInjective` | x/gitService/client/cli/joystreamclient.go:86-87 | Within one module, two endpoint paths give the same query path exactly when they agree after the first character. |
| `JoystreamClient.QueryPathOfClient` | x/gitService/client/cli/joystreamclient.go:86-87 | For a client built from `uri` whose endpoint path is `/<uri>`, the query is `custom/<module>/advertisedReferences/<uri>`. |
| `JoystreamClient.AdvertisedReferences` | x/gitService/client/cli/joystreamclient.go:83-102 | An empty endpoint path panics before the query. Otherwise the query is made on the query path, and its error is returned as is. Then a decoding error is returned as is, a JSON `null` answer panics on the nil dereference, and any other decoded answer is returned. |
| `JoystreamClient.StatusText` | x/gitService/client/cli/joystreamclient.go:182-185 | A non-nil error's status is its message, and a nil error's is "ok". So the status is "ok" exactly when the error is nil or its message is "ok". |
| `JoystreamClient.EmptyReport` | x/gitService/client/cli/joystreamclient.go:169-194 | With an empty table and no unpack error, the only possible report is `unpack ok` with no command status. |
| `JoystreamClient.FirstErrorAppend` | x/gitService/client/cli/joystreamclient.go:198-200 | Recording one more call keeps a first error that is already set, and otherwise takes the new error. |
| `JoystreamClient.FirstErrorIsFirst` | x/gitService/client/cli/joystreamclient.go:198-200 | The first error is nil exactly when every call passed nil. Otherwise it is the error of a call preceded only by nil errors. |
| `JoystreamClient.FirstErrorStable` | x/gitService/client/cli/joystreamclient.go:198-200 | Once set, the first error never changes, whatever is recorded later. |
| `JoystreamClient.AppliedLookup` | x/gitService/client/cli/joystreamclient.go:197 | A reference is in the table exactly when some call named it, and its entry is the error of the last such call. |
| `JoystreamClient.RpSession.NewReceivePackSession` | x/gitService/client/cli/joystreamclient.go:70-81 | A new session has an empty table and nil `firstErr` and `unpackErr`. |
| `JoystreamClient.RpSession.SetStatus` | x/gitService/client/cli/joystreamclient.go:196-201 | The entry for `ref` becomes `err` and other entries stay. `firstErr` takes `err` only while nil and only for a non-nil `err`. The table and first error remain those of the recorded call sequence. |
| `JoystreamClient.RpSession.Report` | x/gitService/client/cli/joystreamclient.go:169-194 | The unpack status is "ok" or the unpack error's message. There is exactly one command status per table key, none twice and no extras, each carrying that key's status text, in any order. |
| `JoystreamClient.RpSession.ReceivePack` | x/gitService/client/cli/joystreamclient.go:107-143 | The session's report is returned on every path. The packfile is copied, then closed exactly once, before anything else. A copy error wins over a close error. The message carries the endpoint path without its first character, the request's reference updates and the copied bytes. Broadcast happens exactly when all earlier steps succeeded. The error is nil exactly when every step succeeded. |
| `JoystreamClient.ReceivePackOnNewSession` | x/gitService/client/cli/joystreamclient.go:107-143 | On a fresh session, `ReceivePack` reports `unpack ok` with no command status, whatever the outcome of the push. |

## Left out

- Everything written to standard error and all `log.Debug` diagnostics are not modelled; only standard output is.
- `main` and its cobra setup (cmd/git-remote-joystream/main.go:202-214) are not modelled. Because of this, `Run` also covers argument lists cobra would refuse; with no argument, `cmdRoot` itself panics.
- The commented-out bodies of `handlePushBatch` and `ReceivePack` are dead code and are not modelled.
- `handlePushBatch` is modelled as the stub it is: a blank line on standard output.
- `NewUploadPackSession` and `rpSession.Close` only return nil, and are not modelled.
- x/gitService/client/cli/query.go and the vendored packp logger are not part of this model.
- Read errors of standard input other than its end are not modelled: input is a finite text, and any read error ends the loop the same way.
- `transport.NewEndpoint` is a parameter of the model, and so are the ledger query, JSON decoding, `io.Copy`, `Packfile.Close`, `NewMsgUpdateReferences` and `CompleteAndBroadcastTxCli`. Only their outcomes are modelled. How go-git parses a URL into an endpoint path is outside the model, so `QueryPathOfClient` takes that path as a premise.
- The transaction builder, the CLI context and the authentication method are stored by the Go code but never inspected by the modelled logic, and are not modelled.
- The wire encoding of the report-status value (vendored go-git) is not modelled; the report is a value.
- A nil `cmdStatus` map cannot arise, because the only constructor makes an empty one. The nil check in `reportStatus` is therefore not modelled separately, and nil and empty give the same report.
- `JoystreamClient.RpSession.ReceivePack` requires a non-empty endpoint path on the path that reaches `Path[1:]`, where Go would panic. The request is modelled only by its reference updates, which are handed to `NewMsgUpdateReferences` unchanged. Its packfile stream is modelled by the bytes it yields.
- The order of command statuses follows Go's map iteration, which is unspecified. `Report` states the statuses up to order, as a set with no duplicates.
