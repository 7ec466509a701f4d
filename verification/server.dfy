/** The operation coordinator: the `currentWipe` / `currentFactory` slots, the
    request and log files, and the four routes that drive a wipe or a factory
    reset.  A POST records the request; opening the progress stream launches
    the recorded request; stdout chunks become data frames; the child's exit
    writes the terminal frames and empties the slot. */
module Server {
  import opened Base
  import opened Store
  import opened Sse
  import opened Requests
  import Lines
  import Progress

  datatype Kind = Wipe | Factory

  /** Everything the routes read or write: the two in-memory slots, the two
      request files (`current_wipe.json`, `current_factory.json`) and the two
      progress logs (`wipe_log.json`, `factory_log.json`). */
  datatype State = State(
    currentWipe: Option<WipeRequest>,
    currentFactory: Option<FactoryRequest>,
    wipeRequestFile: Option<WipeRequest>,
    factoryRequestFile: Option<FactoryRequest>,
    wipeLog: LogFile,
    factoryLog: LogFile)

  /** A JSON reply `{ <key>: <text> }` with its status code. */
  datatype Reply = Reply(status: nat, key: string, text: string)

  datatype Posted = Posted(state: State, reply: Reply)

  /** Opening a progress stream: either a plain-text 400 and nothing else, or a
      stream whose child was spawned with `launch`. */
  datatype Attached = NoActiveOperation(status: nat, text: string) | Streaming(launch: Launch)

  /** What one event of a running stream does: the frames written to the client
      and the state afterwards. */
  datatype Streamed = Streamed(state: State, frames: seq<string>)

  predicate Active(s: State, kind: Kind) {
    match kind
    case Wipe => s.currentWipe.Some?
    case Factory => s.currentFactory.Some?
  }

  function LogOf(s: State, kind: Kind): LogFile {
    match kind
    case Wipe => s.wipeLog
    case Factory => s.factoryLog
  }

  function WithLog(s: State, kind: Kind, log: LogFile): (s': State)
    ensures LogOf(s', kind) == log
  {
    match kind
    case Wipe => s.(wipeLog := log)
    case Factory => s.(factoryLog := log)
  }

  function Other(kind: Kind): Kind {
    match kind
    case Wipe => Factory
    case Factory => Wipe
  }

  /** Two states hold the same request file for `kind`. */
  predicate SameRequestFile(s: State, t: State, kind: Kind) {
    match kind
    case Wipe => s.wipeRequestFile == t.wipeRequestFile
    case Factory => s.factoryRequestFile == t.factoryRequestFile
  }

  /** Two states agree on everything that belongs to `kind`. */
  predicate SamePart(s: State, t: State, kind: Kind) {
    match kind
    case Wipe =>
      s.currentWipe == t.currentWipe && s.wipeRequestFile == t.wipeRequestFile && s.wipeLog == t.wipeLog
    case Factory =>
      s.currentFactory == t.currentFactory && s.factoryRequestFile == t.factoryRequestFile
      && s.factoryLog == t.factoryLog
  }

  // ---------------------------------------------------------------------
  // Intake
  // ---------------------------------------------------------------------

  /** `POST /api/wipe`. */
  function PostWipe(s: State, body: WipeBody): (p: Posted)
    ensures p.reply.status == 400 <==> !Truthy(body.device) || !Truthy(body.methodName) || !Truthy(body.sudoPassword)
    ensures p.reply.status == 400 ==> p.state == s && p.reply == Reply(400, "error", "Missing fields")
    ensures p.reply.status != 400 ==>
      && p.reply == Reply(200, "message", "Wipe queued")
      && p.state.currentWipe == Some(WipeRequest(body.device.text, body.methodName.text, body.sudoPassword.text))
      && p.state.wipeRequestFile == p.state.currentWipe
      && p.state.wipeLog == s.wipeLog
      && SamePart(p.state, s, Factory)
  {
    match AcceptWipe(body)
    case None => Posted(s, Reply(400, "error", "Missing fields"))
    case Some(req) =>
      Posted(s.(currentWipe := Some(req), wipeRequestFile := Some(req)), Reply(200, "message", "Wipe queued"))
  }

  /** `POST /api/factory-reset`. */
  function PostFactory(s: State, body: FactoryBody): (p: Posted)
    ensures p.reply.status == 400 <==> !Truthy(body.sudoPassword)
    ensures p.reply.status == 400 ==> p.state == s && p.reply == Reply(400, "error", "Missing sudoPassword")
    ensures p.reply.status != 400 ==>
      && p.reply == Reply(200, "message", "Factory reset queued")
      && p.state.currentFactory == Some(FactoryRequest(body.sudoPassword.text))
      && p.state.factoryRequestFile == p.state.currentFactory
      && p.state.factoryLog == s.factoryLog
      && SamePart(p.state, s, Wipe)
  {
    match AcceptFactory(body)
    case None => Posted(s, Reply(400, "error", "Missing sudoPassword"))
    case Some(req) =>
      Posted(s.(currentFactory := Some(req), factoryRequestFile := Some(req)),
             Reply(200, "message", "Factory reset queued"))
  }

  // ---------------------------------------------------------------------
  // The progress stream
  // ---------------------------------------------------------------------

  /** The plain-text body of the 400 sent when nothing of `kind` is pending. */
  function RefusalText(kind: Kind): string {
    match kind
    case Wipe => "No wipe running"
    case Factory => "No factory reset running"
  }

  /** `GET /api/wipe-progress` / `GET /api/factory-progress` up to the spawn.
      The slot is only read: it stays as it is until the child exits. */
  function Attach(s: State, kind: Kind): (a: Attached)
    ensures a.NoActiveOperation? <==> !Active(s, kind)
    ensures a.NoActiveOperation? ==> a.status == 400 && a.text == RefusalText(kind)
    ensures a.Streaming? && kind == Wipe ==> a.launch == WipeLaunch(s.currentWipe.value)
    ensures a.Streaming? && kind == Factory ==> a.launch == FactoryLaunch(s.currentFactory.value)
  {
    match kind
    case Wipe =>
      if s.currentWipe.None? then NoActiveOperation(400, "No wipe running")
      else Streaming(WipeLaunch(s.currentWipe.value))
    case Factory =>
      if s.currentFactory.None? then NoActiveOperation(400, "No factory reset running")
      else Streaming(FactoryLaunch(s.currentFactory.value))
  }

  /** One chunk on the child's stdout: frames out, and the kind's log overwritten per event. */
  function OnChunk(s: State, kind: Kind, chunk: string): (r: Streamed)
    ensures var events := Progress.Events(Lines.SplitLines(chunk));
      && r.frames == Progress.DataFrames(events)
      && LogOf(r.state, kind) == Progress.LastWrite(LogOf(s, kind), events)
    ensures r.state == WithLog(s, kind, LogOf(r.state, kind))
  {
    var e := Progress.OnStdout(chunk, LogOf(s, kind));
    Streamed(WithLog(s, kind, e.log), e.frames)
  }

  /** `child.on("exit", …)`: the terminal frames chosen by what the log holds,
      then the slot emptied whatever the outcome.  Neither the log nor the
      request file is touched. */
  function OnExit(s: State, kind: Kind): (r: Streamed)
    ensures !Active(r.state, kind)
    ensures SamePart(r.state, s, Other(kind))
    ensures LogOf(r.state, kind) == LogOf(s, kind)
    ensures SameRequestFile(r.state, s, kind)
    ensures r.frames == TerminalFrames(ReadLog(LogOf(s, kind)))
  {
    var frames := TerminalFrames(ReadLog(LogOf(s, kind)));
    match kind
    case Wipe => Streamed(s.(currentWipe := None), frames)
    case Factory => Streamed(s.(currentFactory := None), frames)
  }

  // ---------------------------------------------------------------------
  // Whole streams
  // ---------------------------------------------------------------------

  /** The progress values of a run, chunk after chunk. */
  function RunEvents(chunks: seq<string>): seq<string>
    decreases |chunks|
  {
    if |chunks| == 0 then []
    else Progress.Events(Lines.SplitLines(chunks[0])) + RunEvents(chunks[1..])
  }

  /** The stdout chunks of one run, in arrival order. */
  function OnChunks(s: State, kind: Kind, chunks: seq<string>): Streamed
    decreases |chunks|
  {
    if |chunks| == 0 then Streamed(s, [])
    else
      var first := OnChunk(s, kind, chunks[0]);
      var rest := OnChunks(first.state, kind, chunks[1..]);
      Streamed(rest.state, first.frames + rest.frames)
  }

  lemma LastWriteAppend(log: LogFile, a: seq<string>, b: seq<string>)
    ensures Progress.LastWrite(Progress.LastWrite(log, a), b) == Progress.LastWrite(log, a + b)
  {
    if |b| > 0 {
      assert (a + b)[|a + b| - 1] == b[|b| - 1];
    } else {
      assert a + b == a;
    }
  }

  /** A run's chunks write one data frame per progress value in order, leave the
      log with the last value (or as it was), and touch nothing else. */
  lemma {:induction false} OnChunksSpec(s: State, kind: Kind, chunks: seq<string>)
    ensures var r := OnChunks(s, kind, chunks);
      && r.frames == Progress.DataFrames(RunEvents(chunks))
      && LogOf(r.state, kind) == Progress.LastWrite(LogOf(s, kind), RunEvents(chunks))
      && r.state == WithLog(s, kind, LogOf(r.state, kind))
    decreases |chunks|
  {
    if |chunks| > 0 {
      var first := OnChunk(s, kind, chunks[0]);
      var events := Progress.Events(Lines.SplitLines(chunks[0]));
      OnChunksSpec(first.state, kind, chunks[1..]);
      Progress.DataFramesAppend(events, RunEvents(chunks[1..]));
      LastWriteAppend(LogOf(s, kind), events, RunEvents(chunks[1..]));
    }
  }

  datatype Session =
    | Rejected(status: nat, text: string)
    | Completed(launch: Launch, frames: seq<string>, state: State)

  /** A client opens the stream, the child writes `chunks`, then exits. */
  function RunSession(s: State, kind: Kind, chunks: seq<string>): Session {
    match Attach(s, kind)
    case NoActiveOperation(status, text) => Rejected(status, text)
    case Streaming(launch) =>
      var running := OnChunks(s, kind, chunks);
      var exited := OnExit(running.state, kind);
      Completed(launch, running.frames + exited.frames, exited.state)
  }

  /** A stream opened with nothing pending is refused and launches nothing;
      otherwise it launches the recorded request, forwards every progress
      value, ends with the terminal frames read from the log as the run left
      it, and leaves the slot empty, the log holding the run's last value and
      the request file as it was. */
  lemma RunSessionSpec(s: State, kind: Kind, chunks: seq<string>)
    ensures RunSession(s, kind, chunks).Rejected? <==> !Active(s, kind)
    ensures var r := RunSession(s, kind, chunks);
      r.Rejected? ==> r.status == 400 && r.text == RefusalText(kind)
    ensures var r := RunSession(s, kind, chunks);
      var events := RunEvents(chunks);
      r.Completed? ==>
        && r.launch == Attach(s, kind).launch
        && r.frames == Progress.DataFrames(events)
                       + TerminalFrames(ReadLog(Progress.LastWrite(LogOf(s, kind), events)))
        && !Active(r.state, kind)
        && LogOf(r.state, kind) == Progress.LastWrite(LogOf(s, kind), events)
        && SameRequestFile(r.state, s, kind)
        && SamePart(r.state, s, Other(kind))
  {
    OnChunksSpec(s, kind, chunks);
    var running := OnChunks(s, kind, chunks);
    match kind
    case Wipe => assert SamePart(running.state, s, Factory);
    case Factory => assert SamePart(running.state, s, Wipe);
  }

  /** Nothing locks the slot: a second client opening the stream while the
      first child still runs launches the same request again. */
  lemma SecondAttachMidRunLaunchesAgain(s: State, kind: Kind, chunks: seq<string>)
    requires Active(s, kind)
    ensures var running := OnChunks(s, kind, chunks).state;
      && Attach(running, kind).Streaming?
      && Attach(running, kind) == Attach(s, kind)
  {
    OnChunksSpec(s, kind, chunks);
  }

  /** Whatever the last real value was, a run that reported progress ends with
      `data: 100` and the `done` certificate holding that last value. */
  lemma RunEndsWithLastProgress(s: State, kind: Kind, chunks: seq<string>)
    requires Active(s, kind)
    requires |RunEvents(chunks)| > 0
    ensures var r := RunSession(s, kind, chunks);
      var events := RunEvents(chunks);
      && r.Completed?
      && |r.frames| >= 3
      && r.frames[|r.frames| - 3] == DataFrame(events[|events| - 1])
      && r.frames[|r.frames| - 2] == DataFrame("100")
      && r.frames[|r.frames| - 1] == DoneFrame(ProgressCert(events[|events| - 1]))
  {
    RunSessionSpec(s, kind, chunks);
  }

  /** The log outlives the run: a run that reports no progress ends with the
      certificate left by an earlier run of the same kind (or UNKNOWN / FAILED). */
  lemma SilentRunReusesOldLog(s: State, kind: Kind, chunks: seq<string>)
    requires Active(s, kind)
    requires |RunEvents(chunks)| == 0
    ensures RunSession(s, kind, chunks).frames == TerminalFrames(ReadLog(LogOf(s, kind)))
  {
    RunSessionSpec(s, kind, chunks);
  }

  /** Latest wins: after two wipe requests, opening the stream launches the
      second one if it was accepted, and the first one otherwise. */
  lemma AttachLaunchesLatestRequest(s: State, first: WipeBody, second: WipeBody)
    requires PostWipe(s, first).reply.status == 200
    ensures var s2 := PostWipe(PostWipe(s, first).state, second).state;
      var latest := if AcceptWipe(second).Some? then second else first;
      Attach(s2, Wipe) == Streaming(WipeLaunch(WipeRequest(latest.device.text, latest.methodName.text, latest.sudoPassword.text)))
  {
  }

  /** The exit clears the slot even when a newer request was recorded while the
      child ran: that request is dropped without ever being launched. */
  lemma ExitDropsRequestPostedMidRun(s: State, body: WipeBody)
    requires Active(s, Wipe)
    requires AcceptWipe(body).Some?
    ensures var during := PostWipe(s, body).state;
      Attach(OnExit(during, Wipe).state, Wipe).NoActiveOperation?
  {
  }

  /** A restart keeps the files but empties the in-memory slots; nothing reads
      the request files back, so a recorded request can no longer be streamed. */
  function Restart(s: State): (s': State)
    ensures !Active(s', Wipe) && !Active(s', Factory)
    ensures s'.wipeRequestFile == s.wipeRequestFile && s'.factoryRequestFile == s.factoryRequestFile
    ensures s'.wipeLog == s.wipeLog && s'.factoryLog == s.factoryLog
  {
    s.(currentWipe := None, currentFactory := None)
  }

  lemma RestartForgetsRecordedRequest(s: State, kind: Kind)
    ensures Attach(Restart(s), kind).NoActiveOperation?
  {
  }
}
