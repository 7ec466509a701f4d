/** Request intake and launch arguments: the body checks of `POST /api/wipe`
    and `POST /api/factory-reset`, and the `sudo` command line and standard
    input the progress routes hand to the privileged binaries. */
module Requests {
  import opened Base
  import Lines

  /** One member of the JSON request body: absent or `null`, or a string. */
  datatype Field = Missing | Text(text: string)

  /** JavaScript truthiness of a field: only a non-empty string is truthy. */
  predicate Truthy(f: Field) {
    f.Text? && |f.text| > 0
  }

  datatype WipeBody = WipeBody(device: Field, methodName: Field, sudoPassword: Field)
  datatype FactoryBody = FactoryBody(sudoPassword: Field)

  /** `currentWipe`: the accepted request (`methodName` is the body's `method`). */
  datatype WipeRequest = WipeRequest(device: string, methodName: string, sudoPassword: string)
  /** `currentFactory`. */
  datatype FactoryRequest = FactoryRequest(sudoPassword: string)

  /** `if (!device || !method || !sudoPassword) return 400`; otherwise the request to record. */
  function AcceptWipe(body: WipeBody): (r: Option<WipeRequest>)
    ensures r.None? <==> !Truthy(body.device) || !Truthy(body.methodName) || !Truthy(body.sudoPassword)
    ensures r.Some? ==> body == WipeBody(Text(r.value.device), Text(r.value.methodName), Text(r.value.sudoPassword))
    ensures r.Some? ==> |r.value.device| > 0 && |r.value.methodName| > 0 && |r.value.sudoPassword| > 0
  {
    if Truthy(body.device) && Truthy(body.methodName) && Truthy(body.sudoPassword) then
      Some(WipeRequest(body.device.text, body.methodName.text, body.sudoPassword.text))
    else None
  }

  /** `if (!sudoPassword) return 400`; otherwise the request to record. */
  function AcceptFactory(body: FactoryBody): (r: Option<FactoryRequest>)
    ensures r.None? <==> !Truthy(body.sudoPassword)
    ensures r.Some? ==> body == FactoryBody(Text(r.value.sudoPassword)) && |r.value.sudoPassword| > 0
  {
    if Truthy(body.sudoPassword) then Some(FactoryRequest(body.sudoPassword.text)) else None
  }

  const Sudo := "sudo"
  /** `path.resolve` of an absolute, already normal path is that path. */
  const WiperPath := "/opt/wiper/backend/wiper"
  const FactoryPath := "/opt/wiper/backend/factoryreset"

  /** A spawned child: the program, its arguments, and everything written to its stdin before `end()`. */
  datatype Launch = Launch(program: string, argv: seq<string>, stdin: string)

  /** The wiper's method argument: `"2"` for the random pass, `"1"` for anything else. */
  function MethodCode(methodName: string): (code: string)
    ensures code == "2" <==> methodName == "random"
    ensures code == "1" <==> methodName != "random"
  {
    if methodName == "random" then "2" else "1"
  }

  /** `spawn("sudo", ["-S", wiperPath, device, wipeMethod])` fed `sudoPassword + "\n"`. */
  function WipeLaunch(req: WipeRequest): (l: Launch)
    ensures l.program == Sudo && |l.argv| == 4 && l.argv[..2] == ["-S", WiperPath]
    ensures l.argv[2] == req.device && (l.argv[3] == "2" <==> req.methodName == "random")
    ensures l.argv[3] in {"1", "2"}
    ensures l.stdin == req.sudoPassword + "\n"
  {
    Launch(Sudo, ["-S", WiperPath, req.device, MethodCode(req.methodName)], req.sudoPassword + "\n")
  }

  /** `spawn("sudo", ["-S", factoryPath])` fed the password line, then the `y` confirmation line. */
  function FactoryLaunch(req: FactoryRequest): (l: Launch)
    ensures l.program == Sudo && l.argv == ["-S", FactoryPath]
    ensures l.stdin == req.sudoPassword + "\n" + "y\n"
  {
    Launch(Sudo, ["-S", FactoryPath], req.sudoPassword + "\n" + "y\n")
  }

  /** Read back line by line, the wiper's stdin is the password line alone. */
  lemma WipeStdinLines(req: WipeRequest)
    requires Lines.NoLineFeed(req.sudoPassword)
    requires |req.sudoPassword| == 0 || req.sudoPassword[|req.sudoPassword| - 1] != '\r'
    ensures Lines.SplitLines(WipeLaunch(req).stdin) == [req.sudoPassword, ""]
  {
    Lines.SplitOneLine(req.sudoPassword);
  }

  /** Read back line by line, the factory reset's stdin is the password line, then `y`. */
  lemma FactoryStdinLines(req: FactoryRequest)
    requires Lines.NoLineFeed(req.sudoPassword)
    requires |req.sudoPassword| == 0 || req.sudoPassword[|req.sudoPassword| - 1] != '\r'
    ensures Lines.SplitLines(FactoryLaunch(req).stdin) == [req.sudoPassword, "y", ""]
  {
    Lines.SplitTwoLines(req.sudoPassword, "y");
    assert req.sudoPassword + "\n" + "y\n" == req.sudoPassword + "\n" + "y" + "\n";
  }
}
