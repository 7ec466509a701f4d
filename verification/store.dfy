/** The per-kind progress log (`wipe_log.json`, `factory_log.json`) as an
    abstract record store: what the file holds, and what the exit handler's
    `existsSync` / `readFileSync` / `JSON.parse` sequence makes of it. */
module Store {

  /** What the log file of one operation kind holds on disk. */
  datatype LogFile =
    | NoLog                        // the file does not exist
    | Logged(progress: string)     // `{ progress: <digits> }` as the stdout handler writes it
    | Damaged                      // the file exists but cannot be read back or parsed

  /** The certificate object carried by the terminal `done` event. */
  datatype Cert =
    | ProgressCert(progress: string)   // the persisted `{ progress }` record, re-read
    | StatusCert(status: string)       // a synthesized `{ status }` object

  /** Outcome of reading the log back at exit. */
  datatype StoreRead = Present(cert: Cert) | Absent | ParseError

  /** `existsSync(log) ? JSON.parse(readFileSync(log)) : …`, with a throw as `ParseError`. */
  function ReadLog(log: LogFile): (r: StoreRead)
    ensures r.Absent? <==> log.NoLog?
    ensures r.ParseError? <==> log.Damaged?
    ensures r.Present? ==> r.cert.ProgressCert? && log == Logged(r.cert.progress)
  {
    match log
    case NoLog => Absent
    case Logged(p) => Present(ProgressCert(p))
    case Damaged => ParseError
  }
}
