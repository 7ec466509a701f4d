/** Server-sent-event framing of the progress stream: unnamed `data:` frames
    carrying a decimal percentage, and the one named `done` frame carrying the
    certificate as compact JSON. */
module Sse {
  import opened Base
  import opened Store

  /** `data: <value>\n\n`. */
  function DataFrame(value: string): string {
    "data: " + value + "\n\n"
  }

  /** `JSON.stringify(cert)` for the values the server itself writes: digit
      strings and fixed status words, which need no escaping.  A logged value
      holding a quote, a backslash or a control character would be escaped by
      `JSON.stringify`; this function copies it verbatim. */
  function CertJson(cert: Cert): string {
    match cert
    case ProgressCert(p) => "{\"progress\":\"" + p + "\"}"
    case StatusCert(s) => "{\"status\":\"" + s + "\"}"
  }

  /** `event: done\ndata: <json>\n\n`. */
  function DoneFrame(cert: Cert): string {
    "event: done\ndata: " + CertJson(cert) + "\n\n"
  }

  const DoneHeader := "event: done\n"

  predicate IsDoneFrame(frame: string) {
    StartsWith(frame, DoneHeader)
  }

  /** A data frame whose payload is a non-empty decimal number. */
  ghost predicate IsProgressFrame(frame: string) {
    exists digits :: |digits| > 0 && AllDigits(digits) && frame == DataFrame(digits)
  }

  const Unknown := StatusCert("UNKNOWN")
  const Failed := StatusCert("FAILED")

  /** The frames the exit handler writes before closing the stream:
      `data: 100` then `done` when the try block completes, and only the
      `done` frame carrying FAILED when reading or parsing the log throws. */
  function TerminalFrames(read: StoreRead): (frames: seq<string>)
    ensures |frames| >= 1 && IsDoneFrame(frames[|frames| - 1])
    ensures forall k :: 0 <= k < |frames| - 1 ==> frames[k] == DataFrame("100")
    ensures |frames| == (if read.ParseError? then 1 else 2)
    ensures frames[|frames| - 1] == DoneFrame(
              match read
              case Present(c) => c
              case Absent => Unknown
              case ParseError => Failed)
  {
    match read
    case Present(c) => [DataFrame("100"), DoneFrame(c)]
    case Absent => [DataFrame("100"), DoneFrame(Unknown)]
    case ParseError => [DoneFrame(Failed)]
  }

  lemma DataFrameIsNotDone(value: string)
    ensures !IsDoneFrame(DataFrame(value))
  {
    assert DataFrame(value)[0] == 'd';
  }

  /** The two frame kinds never collide, and `100` is a progress frame: so the
      terminal sequence holds exactly one `done` frame, at its end. */
  lemma TerminalFramesHoldOneDone(read: StoreRead)
    ensures var frames := TerminalFrames(read);
      forall k :: 0 <= k < |frames| ==> (IsDoneFrame(frames[k]) <==> k == |frames| - 1)
    ensures !read.ParseError? ==> IsProgressFrame(TerminalFrames(read)[0])
  {
    DataFrameIsNotDone("100");
    assert AllDigits("100");
  }
}
