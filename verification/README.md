# Wiper backend: progress streaming and operation slots, in Dafny

This project models the logic inside the wiper backend's HTTP server
(`backend/server.js`). The server lists block devices. It queues a secure wipe
of one device or a factory reset of the host. When a client opens the
progress stream it launches the queued operation through `sudo`. It turns
`PROGRESS:<n>` lines on the child's stdout into server-sent events. When the
child exits it sends a terminal `done` event carrying a certificate.

Everything is modelled as immutable datatypes and pure functions:

- `Base`: an `Option` type, the `\d` character class, and `startsWith`.
- `Lines`: `split(/\r?\n/)` as a leftmost-separator scanner. It is proved equal
  to a reference definition: split on every line feed, then drop one carriage
  return from the end of every piece except the last. The reference gets a
  split/join round trip and a line count.
- `Progress`: `/PROGRESS:(\d+)/` as a leftmost-marker search with a greedy
  digit run, specified by `IsFirstMatch`. It also covers the events of a
  chunk and the stdout handler, which writes a data frame per event and
  overwrites the log (last write wins). Chunks are handled independently,
  with no carry-over, as the server does.
- `Store`: the per-kind progress log (`NoLog`, `Logged(digits)` or `Damaged`)
  and the way the exit handler reads it back (`Absent`, `Present` or
  `ParseError`).
- `Sse`: the data and `done` frames, and the terminal frame sequences.
- `Disks`: the lsblk filter and the `/api/disks` replies.
- `Requests`: falsy-field validation, the method code, the `sudo` argv and
  the stdin payloads.
- `Server`: the `currentWipe` / `currentFactory` slots, the request files and
  the logs. It has one function per route or child event, and whole-session
  lemmas (attach, chunks, exit).

Behaviours of the server worth knowing, all reproduced by the model:

- The code stores the sudo password in `current_wipe.json` and
  `current_factory.json` (`Server.PostWipe` records it).
- The slots live only in memory, and nothing reads the request files back. After
  a restart, opening a stream is refused (`Server.RestartForgetsRecordedRequest`).
  The stream does not resume.
- When reading the log fails, only the `done {"status":"FAILED"}` frame is sent.
  There is no `data: 100` frame before it.
- A percentage is forwarded as the digit text it was read as. There is no 0–100
  range check (`Progress.CapturesDigitsAfterMarker`).
- A second stream opened while a child runs launches a second child of the same
  request. Nothing locks the slot (`Server.SecondAttachMidRunLaunchesAgain`).

## Model

| member | source | states |
|---|---|---|
| `Lines.FindSeparator` | backend/server.js:87 | finds the leftmost position where `\r?\n` matches; there is no match before it, and none at all when it returns None |
| `Lines.SplitLines` | backend/server.js:87 | a chunk always yields at least one line, and no line contains a line feed |
| `Lines.SplitLinesIsReference` | backend/server.js:87 | the split equals splitting on every `\n` and dropping one trailing `\r` from every piece but the last |
| `Lines.JoinSplitOnLineFeed` | backend/server.js:87 | joining the line-feed pieces with `\n` gives back the chunk |
| `Lines.SplitJoinWithLineFeed` | backend/server.js:87 | splitting the join of LF-free pieces gives back the pieces |
| `Lines.LineCount` | backend/server.js:87 | a chunk with k line feeds yields k + 1 lines, with a partial last line kept |
| `Lines.SplitLinesAfterLine` | backend/server.js:87 | a line ended by `\n` (and not ending in `\r`) is cut off unchanged, and splitting resumes after it |
| `Progress.DigitRun` | backend/server.js:88 | `\d+` is greedy: the longest all-digit prefix |
| `Progress.FindMarker` | backend/server.js:88 | finds the leftmost position where `PROGRESS:` is directly followed by a digit |
| `Progress.MatchProgress` | backend/server.js:88-89 | there is a capture iff some `PROGRESS:` is followed by a digit; the capture is the full digit run of the leftmost such marker |
| `Progress.FirstMatchUnique` | backend/server.js:88-89 | the leftmost match and its capture are unique, so the match specification determines the result |
| `Progress.MatchProgressIsFirstMatch` | backend/server.js:88-89 | any position and digits satisfying the match specification are exactly what the match returns |
| `Progress.MarkerThenDigits` | backend/server.js:88-89 | a line that is `PROGRESS:` followed by any non-empty digit string captures exactly that string |
| `Progress.CapturesDigitsAfterMarker` | backend/server.js:88-90 | `PROGRESS:17` captures `17`; `PROGRESS:0420` forwards `0420` unchanged |
| `Progress.RejectsLowerCaseAndNonDigits` | backend/server.js:88-89 | `progress:17` and `PROGRESS:abc` capture nothing |
| `Progress.SkipsMarkerWithoutDigits` | backend/server.js:88 | a marker with no digit after it is passed over for a later one |
| `Progress.Events` | backend/server.js:87-89 | gives at most one event per line, each a non-empty decimal string |
| `Progress.EventsAppend` | backend/server.js:87-89 | events of consecutive lines concatenate, so events come out in line order |
| `Progress.DataFrames` | backend/server.js:90 | one `data: <v>\n\n` frame per event, in order |
| `Progress.HandleLinesSpec` | backend/server.js:87-93 | the per-line loop writes exactly the events' frames; the log ends up holding the last event, or is unchanged if there was none |
| `Progress.OnStdout` | backend/server.js:86-94 | a chunk's frames are the data frames of its lines' events; the log is the last write |
| `Progress.OnStdoutFrames` | backend/server.js:86-94 | at most one frame per line; every frame carries non-empty digits; the log is left as it was when no frame went out, and otherwise is rewritten to hold the last frame's value |
| `Progress.OneMarkerLine` | backend/server.js:86-94 | `PROGRESS:17\n`-shaped input yields exactly one frame and persists its value |
| `Progress.TwoMarkerLines` | backend/server.js:86-94 | two marker lines in one chunk give two frames in receipt order; the second value is persisted |
| `Progress.BareMarkerAtChunkEndIsIgnored` | backend/server.js:86-94 | a chunk ending in `PROGRESS:` with its digits still to come yields no frame and leaves the log unchanged |
| `Progress.DigitsWithoutMarkerAreIgnored` | backend/server.js:86-94 | the next chunk, `5\n`, yields no frame either: a marker split across chunks is lost |
| `Progress.PartialLineIsMatched` | backend/server.js:86-94 | an unterminated `PROGRESS:1` at a chunk end yields `1` |
| `Store.ReadLog` | backend/server.js:100-102 | a missing file reads as Absent; a damaged file as ParseError; a written record as Present carrying that record |
| `Sse.TerminalFrames` | backend/server.js:98-108 | exactly one `done` frame, at the end; reading successfully gives `data: 100` then `done`, and a failed read gives the `done` frame alone; the certificate is the record, UNKNOWN or FAILED |
| `Sse.TerminalFramesHoldOneDone` | backend/server.js:103-106 | data frames are never `done` frames, so only the last terminal frame is `done`; `100` is a well-formed progress frame |
| `Disks.FilterDisks` | backend/server.js:44-46 | the result is an order-preserving subsequence of the input; it holds exactly the disks not named `loop*`/`sr*`, each as often as in the input |
| `Disks.FilterDisksAppend` | backend/server.js:44-46 | filtering distributes over concatenation, so kept entries keep their relative order |
| `Disks.FilterExample` | backend/server.js:44-46 | `[loop0, sda, sr0]` filters to `[sda]` |
| `Disks.FilterDropsLoopAndSrNamedDisks` | backend/server.js:45 | entries typed `disk` but named `loop1` or `sr1` are dropped by the name tests; `nvme0n1` is kept |
| `Disks.ListDisks` | backend/server.js:40-50 | an exec failure gives 500 `lsblk failed`; unparseable output gives 500 `parse error`; otherwise the filtered list |
| `Requests.AcceptWipe` | backend/server.js:57-59 | accepted iff device, method and password are all non-empty strings; the request holds them unchanged |
| `Requests.AcceptFactory` | backend/server.js:115-116 | accepted iff the password is a non-empty string |
| `Requests.MethodCode` | backend/server.js:76 | the code is `2` iff the method is `random`, and `1` otherwise |
| `Requests.WipeLaunch` | backend/server.js:76-84 | runs `sudo` with argv `-S, wiper, device, code`; stdin is the password and a newline |
| `Requests.FactoryLaunch` | backend/server.js:132-137 | runs `sudo` with argv `-S, factoryreset`; stdin is the password line, then `y\n` |
| `Requests.WipeStdinLines` | backend/server.js:83-84 | read as lines, the wiper's stdin is exactly the password line |
| `Requests.FactoryStdinLines` | backend/server.js:135-137 | read as lines, the factory reset's stdin is the password line, then `y` |
| `Server.PostWipe` | backend/server.js:56-64 | 400 `Missing fields` iff a field is falsy, with the state unchanged; otherwise 200, with the slot and request file set to the new request and everything else unchanged |
| `Server.PostFactory` | backend/server.js:114-121 | 400 `Missing sudoPassword` iff the password is falsy, with the state unchanged; otherwise 200 `Factory reset queued`, with the slot and request file set to the new request and everything else unchanged |
| `Server.Attach` | backend/server.js:66-84 | refused with 400 and the text `No wipe running` / `No factory reset running` iff the slot is empty (no launch then); otherwise launches the request in the slot |
| `Server.OnChunk` | backend/server.js:86-94 | a chunk writes its data frames and overwrites only that kind's log |
| `Server.OnExit` | backend/server.js:98-110 | the slot is emptied whatever the log holds; the terminal frames follow the log; this kind's log and request file and the whole other kind are untouched |
| `Server.OnChunksSpec` | backend/server.js:86-94 | over a run's chunks, the frames are all progress values in order; the log holds the last one; nothing else changes |
| `Server.RunSessionSpec` | backend/server.js:66-110 | a whole stream is refused, with 400 and the route's refusal text, iff nothing is pending; otherwise it is every progress frame, then the terminal frames read from the log as the run left it; the slot ends empty, the log holds the run's last value (or what it held before), the request file is unchanged, and the other kind is untouched |
| `Server.SecondAttachMidRunLaunchesAgain` | backend/server.js:66-84 | while a child runs its slot stays filled, so opening the stream again launches the same request a second time |
| `Server.RunEndsWithLastProgress` | backend/server.js:86-110 | a run that reported progress ends with its last value, then `data: 100`, then `done` carrying that value |
| `Server.SilentRunReusesOldLog` | backend/server.js:98-102 | a run with no progress line gets its certificate from the log an earlier run left |
| `Server.AttachLaunchesLatestRequest` | backend/server.js:56-84 | after two wipe requests the stream launches the later one if it was accepted, and the earlier one otherwise |
| `Server.ExitDropsRequestPostedMidRun` | backend/server.js:56-110 | a request recorded while a child runs is cleared by that child's exit |
| `Server.Restart` | backend/server.js:11-13 | a restart empties both slots and keeps every file |
| `Server.RestartForgetsRecordedRequest` | backend/server.js:11-13 | after a restart, opening either stream is refused |

## Left out

- Express routing, CORS, static and index.html fallback serving, SSE headers, `/api/test` and `app.listen` are left out. They are framework plumbing with no logic of their own.
- `exec`/`spawn` of `lsblk`, `sudo`, `wiper` and `factoryreset` are left out. They appear only as the `Launch` value (argv and stdin) and as the parsed `LsblkOutput`. A spawn failure emits a child `error` event that the server does not handle; this is not modelled.
- `fs` reads and writes, `JSON.parse` and `JSON.stringify` are abstracted. The log is `NoLog`, `Logged` or `Damaged`, and a request file holds the request. A write that throws is not modelled.
- stderr logging, the child's exit code, and event-loop interleaving of several streams are left out. Concurrent streams of the same kind are not modelled.
- Request body members that are neither strings nor absent/`null` (numbers, booleans, objects) are left out. Their truthiness and their coercion into argv and stdin follow JavaScript conversions that are not modelled.
- `chunk.toString()` UTF-8 decoding is left out. A chunk is already a string, so a multi-byte character split across chunks is not modelled.
- How a log file becomes `Damaged` is left out. No route of the server writes an unreadable log. A torn write or an outside edit can, and the model takes that state as given.
- An lsblk entry of type `disk` without a `name` is left out. The server would throw and answer `parse error`; the model's `BlockDevice` always has a name.
- `Server.RunEndsWithLastProgress`, `Server.RunSessionSpec`: a session is modelled as attach, then every stdout chunk, then `exit`. The server listens for the child's `exit` event, not `close`, and stdout data may still arrive after `exit`. Such late chunks are not modelled: in the server they come after the log was read and the response ended, so the `done` certificate carries the run's last value only when all stdout arrived before `exit`.
- `Sse.CertJson` copies a logged value verbatim. `JSON.stringify` would escape a quote, backslash or control character in it. The routes only ever log digit strings, which need no escaping; a `Logged` state holding other text is taken as given.
- `Requests.WipeStdinLines`, `Requests.FactoryStdinLines`: stated only for passwords without a line feed that do not end in a carriage return. A password with a line feed would reach the child as several lines.
