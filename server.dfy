/**
 * The fake PJLink projector used by the test suite: a device whose power,
 * input and mute state the handlers change, and a session object that
 * buffers what the client writes (`stdin`) and what the device answers
 * (`stdout`), checks the authentication digest, and answers every complete
 * `\r`-terminated command line when flushed.
 *
 * Each handler and each session operation is specified by a pure function
 * over a `Device` or `Session` value; the classes are proved against them.
 */
module FakeServer {
  import opened Builtins
  import opened Protocol
  import opened Projector

  // ---------------------------------------------------------------------
  // Device state and handlers

  /** The fields of a FakeProjector. */
  datatype Device = Device(
    name: Bytes, manufacturer: Bytes, productName: Bytes, otherInfo: Bytes,
    power: Bytes, input: (Bytes, int), muteVideo: bool, muteAudio: bool,
    lamps: seq<(int, bool)>, inputs: seq<(Bytes, int)>, errors: map<Bytes, Bytes>)

  /** The state a new FakeProjector starts in. */
  const InitialDevice: Device := Device(
    "FakeProjector", "flowblok", "python pjlink", "testing",
    "off", ("RGB", 1), false, false,
    [(42, false)],
    [("RGB", 1), ("RGB", 2), ("VIDEO", 1),
     ("DIGITAL", 1), ("DIGITAL", 2), ("DIGITAL", 3), ("DIGITAL", 4), ("DIGITAL", 5),
     ("DIGITAL", 6), ("DIGITAL", 7), ("DIGITAL", 8), ("DIGITAL", 9),
     ("NETWORK", 5)],
    map["fan" := "ok", "lamp" := "ok", "temperature" := "ok",
        "cover" := "ok", "filter" := "ok", "other" := "ok"])

  /** A handler's answer (or the exception it raised) and the device after it. */
  datatype Step = Step(response: Result<Bytes>, device: Device)

  /** The bad-parameter answer every handler gives. */
  const Err2: Bytes := "ERR2"

  /**
   * `handle_power`: `?` reports the state's code; `1` turns an off device
   * to warm-up, `0` turns an on device to cooling (both answer OK and leave
   * any other state alone); anything else is ERR2.
   */
  function PowerStep(d: Device, param: Bytes): Step {
    if param == "?" then
      Step(match Lookup(PowerStates, d.power)
             case None => Err(KeyError)
             case Some(code) => Ok(code), d)
    else if param == "1" then Step(Ok("OK"), if d.power == "off" then d.(power := "warm-up") else d)
    else if param == "0" then Step(Ok("OK"), if d.power == "on" then d.(power := "cooling") else d)
    else Step(Ok(Err2), d)
  }

  /**
   * `handle_input`: `?` reports source digit and number; a two-byte
   * parameter with a known source digit and a number digit 1-9 selects
   * that input; anything else is ERR2.
   */
  function InputStep(d: Device, param: Bytes): Step {
    if param == "?" then
      Step(match Lookup(SourceTypes, d.input.0)
             case None => Err(KeyError)
             case Some(code) => Ok(code + IntToStr(d.input.1)), d)
    else if |param| != 2 then Step(Ok(Err2), d)
    else match Lookup(SourceTypesRev, [param[0]])
      case None => Step(Ok(Err2), d)
      case Some(source) =>
        if param[1] !in "123456789" then Step(Ok(Err2), d)
        else Step(Ok("OK"), d.(input := (source, param[1] as int - '0' as int)))
  }

  /** The AVMT answer for a mute state. */
  function MuteCode(video: bool, audio: bool): Bytes {
    if audio && video then "31" else if audio then "21" else if video then "11" else "30"
  }

  /**
   * `handle_mute`: `?` reports the mute state; a setting names video (1),
   * audio (2) or both (3) and on (1) or off (0); anything else is ERR2.
   */
  function MuteStep(d: Device, param: Bytes): Step {
    if param == "?" then Step(Ok(MuteCode(d.muteVideo, d.muteAudio)), d)
    else if param !in ["10", "11", "20", "21", "30", "31"] then Step(Ok(Err2), d)
    else
      var what := param[0];
      var state := param[1] == '1';
      var d1 := if what in "13" then d.(muteVideo := state) else d;
      var d2 := if what in "23" then d1.(muteAudio := state) else d1;
      Step(Ok("OK"), d2)
  }

  /** The severity digit of each subsystem, in the order of `kinds`. */
  function ErrorDigits(errors: map<Bytes, Bytes>, kinds: seq<Bytes>): (r: Result<Bytes>)
    ensures r.Ok? ==> |r.value| == |kinds|
  {
    if kinds == [] then Ok([])
    else if kinds[0] !in errors then Err(KeyError)
    else match Lookup(ErrorStates, errors[kinds[0]])
      case None => Err(KeyError)
      case Some(digit) =>
        ErrorLookup(errors[kinds[0]]);
        var rest := ErrorDigits(errors, kinds[1..]);
        if rest.Err? then rest else Ok(digit + rest.value)
  }

  /** `handle_errors`: the six severity digits, fan first and other last. */
  function ErrorsStep(d: Device, param: Bytes): Step {
    if param == "?" then Step(ErrorDigits(d.errors, ErrorKinds), d) else Step(Ok(Err2), d)
  }

  /** The two tokens of one lamp: its hours and 1 or 0. */
  function LampText(lamp: (int, bool)): Result<seq<Bytes>> {
    if !(0 <= lamp.0 < 100000) then Err(AssertionError)
    else Ok([IntToStr(lamp.0), if lamp.1 then "1" else "0"])
  }

  function LampTokens(lamps: seq<(int, bool)>): (r: Result<seq<Bytes>>)
    ensures r.Ok? ==> |r.value| == 2 * |lamps|
  {
    if lamps == [] then Ok([])
    else
      var first := LampText(lamps[0]);
      if first.Err? then Err(first.error) else Prepend(first.value, LampTokens(lamps[1..]))
  }

  /** `handle_lamps`: hours and on-flag of every lamp, space-separated. */
  function LampsStep(d: Device, param: Bytes): Step {
    if param != "?" then Step(Ok(Err2), d)
    else
      var tokens := LampTokens(d.lamps);
      Step(if tokens.Err? then Err(tokens.error) else Ok(Join(tokens.value, ' ')), d)
  }

  /** The token of one input: source digit followed by the number. */
  function InputText(input: (Bytes, int)): Result<seq<Bytes>> {
    match Lookup(SourceTypes, input.0)
      case None => Err(KeyError)
      case Some(code) => Ok([code + IntToStr(input.1)])
  }

  function InputTexts(inputs: seq<(Bytes, int)>): (r: Result<seq<Bytes>>)
    ensures r.Ok? ==> |r.value| == |inputs|
  {
    if inputs == [] then Ok([])
    else
      var first := InputText(inputs[0]);
      if first.Err? then Err(first.error) else Prepend(first.value, InputTexts(inputs[1..]))
  }

  /** `handle_inputs`: one token per available input, space-separated. */
  function InputsStep(d: Device, param: Bytes): Step {
    if param != "?" then Step(Ok(Err2), d)
    else
      var tokens := InputTexts(d.inputs);
      Step(if tokens.Err? then Err(tokens.error) else Ok(Join(tokens.value, ' ')), d)
  }

  /** `handle_info`: the name or one of the three info strings. */
  function InfoStep(d: Device, body: Bytes, param: Bytes): Step {
    if param != "?" then Step(Ok(Err2), d)
    else if body == "NAME" then Step(Ok(d.name), d)
    else if body == "INF1" then Step(Ok(d.manufacturer), d)
    else if body == "INF2" then Step(Ok(d.productName), d)
    else if body != "INFO" then Step(Err(AssertionError), d)
    else Step(Ok(d.otherInfo), d)
  }

  /** The handler `flush` picks for a command body; unknown bodies get ERR1. */
  function DispatchStep(d: Device, body: Bytes, param: Bytes): Step {
    if body == "POWR" then PowerStep(d, param)
    else if body == "INPT" then InputStep(d, param)
    else if body == "AVMT" then MuteStep(d, param)
    else if body == "ERST" then ErrorsStep(d, param)
    else if body == "LAMP" then LampsStep(d, param)
    else if body == "INST" then InputsStep(d, param)
    else if body in ["NAME", "INF1", "INF2", "INFO"] then InfoStep(d, body, param)
    else Step(Ok("ERR1"), d)
  }

  /**
   * The states the handlers keep: a known power state, a known source with
   * a number 1-9, a known severity for each subsystem, lamp hours below
   * 100000 and known input sources.
   */
  predicate ValidDevice(d: Device) {
    && Lookup(PowerStates, d.power).Some?
    && Lookup(SourceTypes, d.input.0).Some? && 1 <= d.input.1 <= 9
    && (forall k :: k in ErrorKinds ==> k in d.errors && Lookup(ErrorStates, d.errors[k]).Some?)
    && (forall i :: 0 <= i < |d.lamps| ==> 0 <= d.lamps[i].0 < 100000)
    && (forall i :: 0 <= i < |d.inputs| ==> Lookup(SourceTypes, d.inputs[i].0).Some?)
  }

  // ---------------------------------------------------------------------
  // The device object

  class FakeProjector {
    var name: Bytes
    var manufacturer: Bytes
    var productName: Bytes
    var otherInfo: Bytes
    var power: Bytes
    var input: (Bytes, int)
    var muteVideo: bool
    var muteAudio: bool
    var lamps: seq<(int, bool)>
    var inputs: seq<(Bytes, int)>
    var errors: map<Bytes, Bytes>

    function State(): Device
      reads this
    {
      Device(name, manufacturer, productName, otherInfo, power, input,
             muteVideo, muteAudio, lamps, inputs, errors)
    }

    constructor ()
      ensures State() == InitialDevice
    {
      name := "FakeProjector";
      manufacturer := "flowblok";
      productName := "python pjlink";
      otherInfo := "testing";
      power := "off";
      input := ("RGB", 1);
      muteVideo := false;
      muteAudio := false;
      lamps := [(42, false)];
      inputs := [("RGB", 1), ("RGB", 2), ("VIDEO", 1),
                 ("DIGITAL", 1), ("DIGITAL", 2), ("DIGITAL", 3), ("DIGITAL", 4), ("DIGITAL", 5),
                 ("DIGITAL", 6), ("DIGITAL", 7), ("DIGITAL", 8), ("DIGITAL", 9),
                 ("NETWORK", 5)];
      errors := map["fan" := "ok", "lamp" := "ok", "temperature" := "ok",
                    "cover" := "ok", "filter" := "ok", "other" := "ok"];
    }

    method HandlePower(param: Bytes) returns (r: Result<Bytes>)
      modifies this`power
      ensures Step(r, State()) == PowerStep(old(State()), param)
    {
      if param == "?" {
        var code := Lookup(PowerStates, power);
        if code.None? {
          return Err(KeyError);
        }
        return Ok(code.value);
      } else if param == "1" {
        if power == "off" {
          power := "warm-up";
        }
        return Ok("OK");
      } else if param == "0" {
        if power == "on" {
          power := "cooling";
        }
        return Ok("OK");
      }
      r := Ok(Err2);
    }

    method HandleInput(param: Bytes) returns (r: Result<Bytes>)
      modifies this`input
      ensures Step(r, State()) == InputStep(old(State()), param)
    {
      if param == "?" {
        var (source, number) := input;
        var code := Lookup(SourceTypes, source);
        if code.None? {
          return Err(KeyError);
        }
        return Ok(code.value + IntToStr(number));
      }
      if |param| != 2 {
        return Ok(Err2);
      }
      var source := Lookup(SourceTypesRev, [param[0]]);
      if source.None? {
        return Ok(Err2);
      }
      if param[1] !in "123456789" {
        return Ok(Err2);
      }
      input := (source.value, param[1] as int - '0' as int);
      r := Ok("OK");
    }

    method HandleMute(param: Bytes) returns (r: Result<Bytes>)
      modifies this`muteVideo, this`muteAudio
      ensures Step(r, State()) == MuteStep(old(State()), param)
    {
      if param == "?" {
        return Ok(MuteCode(muteVideo, muteAudio));
      }
      if param !in ["10", "11", "20", "21", "30", "31"] {
        return Ok(Err2);
      }
      var what := param[0];
      var state := param[1] == '1';
      if what in "13" {
        muteVideo := state;
      }
      if what in "23" {
        muteAudio := state;
      }
      r := Ok("OK");
    }

    method HandleErrors(param: Bytes) returns (r: Result<Bytes>)
      ensures Step(r, State()) == ErrorsStep(State(), param)
    {
      if param == "?" {
        return ErrorDigits(errors, ErrorKinds);
      }
      r := Ok(Err2);
    }

    /** The `for n_hours, state in self.lamps` loop of `handle_lamps`. */
    method HandleLamps(param: Bytes) returns (r: Result<Bytes>)
      ensures Step(r, State()) == LampsStep(State(), param)
    {
      if param != "?" {
        return Ok(Err2);
      }
      var result: seq<Bytes> := [];
      var i := 0;
      assert lamps[i..] == lamps;
      while i < |lamps|
        invariant 0 <= i <= |lamps|
        invariant LampTokens(lamps) == Prepend(result, LampTokens(lamps[i..]))
      {
        assert lamps[i..][1..] == lamps[i + 1..];
        var (hours, state) := lamps[i];
        if !(0 <= hours < 100000) {
          return Err(AssertionError);
        }
        var pair := [IntToStr(hours), if state then "1" else "0"];
        assert LampTokens(lamps[i..]) == Prepend(pair, LampTokens(lamps[i + 1..]));
        PrependStep(result, pair, LampTokens(lamps[i + 1..]));
        assert result + [IntToStr(hours)] + [if state then "1" else "0"] == result + pair;
        result := result + [IntToStr(hours)];
        result := result + [if state then "1" else "0"];
        i := i + 1;
      }
      assert lamps[i..] == [];
      PrependNothing(result);
      r := Ok(Join(result, ' '));
    }

    /** The `for source, number in self.inputs` loop of `handle_inputs`. */
    method HandleInputs(param: Bytes) returns (r: Result<Bytes>)
      ensures Step(r, State()) == InputsStep(State(), param)
    {
      if param != "?" {
        return Ok(Err2);
      }
      var result: seq<Bytes> := [];
      var i := 0;
      assert inputs[i..] == inputs;
      while i < |inputs|
        invariant 0 <= i <= |inputs|
        invariant InputTexts(inputs) == Prepend(result, InputTexts(inputs[i..]))
      {
        assert inputs[i..][1..] == inputs[i + 1..];
        var (source, number) := inputs[i];
        var code := Lookup(SourceTypes, source);
        if code.None? {
          return Err(KeyError);
        }
        assert InputTexts(inputs[i..]) == Prepend([code.value + IntToStr(number)], InputTexts(inputs[i + 1..]));
        PrependStep(result, [code.value + IntToStr(number)], InputTexts(inputs[i + 1..]));
        result := result + [code.value + IntToStr(number)];
        i := i + 1;
      }
      assert inputs[i..] == [];
      PrependNothing(result);
      r := Ok(Join(result, ' '));
    }

    method HandleInfo(body: Bytes, param: Bytes) returns (r: Result<Bytes>)
      ensures Step(r, State()) == InfoStep(State(), body, param)
    {
      if param != "?" {
        return Ok(Err2);
      }
      if body == "NAME" {
        return Ok(name);
      } else if body == "INF1" {
        return Ok(manufacturer);
      } else if body == "INF2" {
        return Ok(productName);
      }
      if body != "INFO" {
        return Err(AssertionError);
      }
      r := Ok(otherInfo);
    }
  }

  // ---------------------------------------------------------------------
  // Session state and operations

  /** The fields of a FakeProjectorSession, with its device's state. */
  datatype Session = Session(
    device: Device, stdin: Bytes, stdout: Bytes, auth: Option<HexDigest>, lockdown: bool)

  /** How a session is opened: no greeting, no password, or password and salt. */
  datatype AuthConfig = SkipAuth | NoPassword | WithPassword(password: Bytes, salt: Bytes)

  /**
   * One command line (without its `\r`): it must start with `%1` and hold a
   * space; the body is what comes before the first space after `%1` and
   * must be four bytes long, the parameter is everything after that space.
   */
  function ParseCommand(command: Bytes): (r: Option<(Bytes, Bytes)>)
    ensures r.Some? ==> |r.value.0| == 4 && command == "%1" + r.value.0 + " " + r.value.1
  {
    if !(|command| >= 2 && command[..2] == "%1" && ' ' in command) then None
    else
      var rest := command[2..];
      var body := TakeUntil(rest, ' ');
      assert ' ' in rest by { assert command == command[..2] + rest; }
      TakeUntilWhole(rest, ' ');
      var param := rest[|body| + 1..];
      if |body| != 4 then None
      else
        assert command == "%1" + body + " " + param by {
          assert rest == body + " " + param;
          assert command == command[..2] + rest;
        }
        Some((body, param))
  }

  /**
   * One command line taken off `stdin`: parse it, run its handler and
   * append the answer line to `stdout`.
   */
  function AnswerCommand(s: Session, command: Bytes): (r: (Result<()>, Session))
    ensures r.1.stdin == s.stdin && r.1.auth == s.auth && r.1.lockdown == s.lockdown
    ensures |r.1.stdout| >= |s.stdout| && r.1.stdout[..|s.stdout|] == s.stdout
  {
    match ParseCommand(command)
      case None => (Err(AssertionError), s)
      case Some((body, param)) =>
        var step := DispatchStep(s.device, body, param);
        if step.response.Err? then (Err(step.response.error), s.(device := step.device))
        else
          var out := s.stdout + ResponseLine(body, step.response.value);
          assert out[..|s.stdout|] == s.stdout;
          (Ok(()), s.(device := step.device, stdout := out))
  }

  /**
   * The `while '\r' in self.stdin` loop of `flush`: answer each complete
   * command line in turn; a malformed line or a handler's exception stops
   * the loop with that line already taken off `stdin`.
   */
  function ServeAll(s: Session): (r: (Result<()>, Session))
    ensures r.1.auth == s.auth && r.1.lockdown == s.lockdown
    ensures r.0.Ok? ==> '\r' !in r.1.stdin
    decreases |s.stdin|
  {
    if '\r' !in s.stdin then (Ok(()), s)
    else
      var command := TakeUntil(s.stdin, '\r');
      TakeUntilWhole(s.stdin, '\r');
      var a := AnswerCommand(s.(stdin := s.stdin[|command| + 1..]), command);
      if a.0.Err? then a else ServeAll(a.1)
  }

  /** Answering command lines only ever appends to `stdout`. */
  lemma {:induction false} ServeAllAppends(s: Session)
    ensures var r := ServeAll(s); |r.1.stdout| >= |s.stdout| && r.1.stdout[..|s.stdout|] == s.stdout
    decreases |s.stdin|
  {
    if '\r' in s.stdin {
      var command := TakeUntil(s.stdin, '\r');
      ServeAllUnfold(s, command);
      var a := AnswerCommand(s.(stdin := s.stdin[|command| + 1..]), command);
      if a.0.Ok? {
        ServeAllAppends(a.1);
        var r := ServeAll(a.1);
        assert r.1.stdout[..|s.stdout|] == r.1.stdout[..|a.1.stdout|][..|s.stdout|];
      }
    }
  }

  /** One turn of ServeAll, for the command line it takes off `stdin`. */
  lemma ServeAllUnfold(s: Session, command: Bytes)
    requires '\r' in s.stdin && command == TakeUntil(s.stdin, '\r')
    ensures |command| < |s.stdin|
    ensures var a := AnswerCommand(s.(stdin := s.stdin[|command| + 1..]), command);
      ServeAll(s) == if a.0.Err? then a else ServeAll(a.1)
  {
    TakeUntilWhole(s.stdin, '\r');
  }

  /**
   * `flush`: with a digest pending, wait for 32 bytes, take them off
   * `stdin`, go into lockdown and answer `PJLINK ERRA\r` if they differ
   * from it, and forget the digest; then, unless in lockdown, answer the
   * complete command lines.
   */
  function FlushSpec(s: Session): (r: (Result<()>, Session))
  {
    if s.auth.Some? && |s.stdin| < 32 then (Ok(()), s)
    else
      var s1 :=
        if s.auth.None? then s
        else if s.stdin[..32] != s.auth.value then
          s.(stdin := s.stdin[32..], lockdown := true, stdout := s.stdout + "PJLINK ERRA\r", auth := None)
        else s.(stdin := s.stdin[32..], auth := None);
      if s1.lockdown then (Ok(()), s1) else ServeAll(s1)
  }

  /**
   * `read(n)`: all of `stdout` when n is None; flush first when short of n
   * bytes; fail unless n bytes are then available; return and remove them.
   */
  function ReadSpec(s: Session, n: Option<nat>): (r: (Result<Bytes>, Session))
  {
    var m := if n.None? then |s.stdout| else n.value;
    var flushed := if |s.stdout| < m then FlushSpec(s) else (Ok(()), s);
    var s1 := flushed.1;
    if flushed.0.Err? then (Err(flushed.0.error), s1)
    else if |s1.stdout| < m then (Err(AssertionError), s1)
    else (Ok(s1.stdout[..m]), s1.(stdout := s1.stdout[m..]))
  }

  // ---------------------------------------------------------------------
  // The session object

  /** An in-memory duplex buffer in front of a FakeProjector. */
  class FakeProjectorSession {
    const fp: FakeProjector
    var stdin: Bytes
    var stdout: Bytes
    var auth: Option<HexDigest>
    var lockdown: bool

    function State(): Session
      reads this, fp
    {
      Session(fp.State(), stdin, stdout, auth, lockdown)
    }

    constructor (fp: FakeProjector, config: AuthConfig, md5: Bytes -> HexDigest)
      requires config.WithPassword? ==> |config.salt| == 8
      ensures this.fp == fp && stdin == [] && !lockdown
      ensures config.SkipAuth? ==> auth == None && stdout == []
      ensures config.NoPassword? ==> auth == None && stdout == "PJLINK 0\r"
      ensures config.WithPassword? ==>
        auth == Some(md5(config.salt + config.password)) && stdout == "PJLINK 1 " + config.salt + "\r"
    {
      this.fp := fp;
      stdin := [];
      lockdown := false;
      match config
      case SkipAuth =>
        auth := None;
        stdout := [];
      case NoPassword =>
        auth := None;
        stdout := "PJLINK 0\r";
      case WithPassword(password, salt) =>
        auth := Some(md5(salt + password));
        stdout := "PJLINK 1 " + salt + "\r";
    }

    /** `stdio_clean`: nothing buffered in either direction. */
    function StdioClean(): (r: bool)
      reads this
      ensures r <==> |stdin| == 0 && |stdout| == 0
    {
      stdin == [] && stdout == []
    }

    /** `write(data)`: buffer the client's bytes; nothing is answered yet. */
    method Write(data: Bytes)
      modifies this`stdin
      ensures stdin == old(stdin) + data
    {
      stdin := stdin + data;
    }

    /** Take the next command line off `stdin` and answer it. */
    method Dispatch(body: Bytes, param: Bytes) returns (r: Result<Bytes>)
      modifies fp
      ensures Step(r, fp.State()) == DispatchStep(old(fp.State()), body, param)
    {
      if body == "POWR" {
        r := fp.HandlePower(param);
      } else if body == "INPT" {
        r := fp.HandleInput(param);
      } else if body == "AVMT" {
        r := fp.HandleMute(param);
      } else if body == "ERST" {
        r := fp.HandleErrors(param);
      } else if body == "LAMP" {
        r := fp.HandleLamps(param);
      } else if body == "INST" {
        r := fp.HandleInputs(param);
      } else if body in ["NAME", "INF1", "INF2", "INFO"] {
        r := fp.HandleInfo(body, param);
      } else {
        r := Ok("ERR1");
      }
    }

    method Flush() returns (r: Result<()>)
      modifies this, fp
      ensures (r, State()) == FlushSpec(old(State()))
    {
      if auth.Some? {
        if |stdin| < 32 {
          return Ok(());
        }
        var data := stdin[..32];
        stdin := stdin[32..];
        if data != auth.value {
          lockdown := true;
          stdout := stdout + "PJLINK ERRA\r";
        }
        auth := None;
      }
      if lockdown {
        return Ok(());
      }
      r := Serve();
    }

    /** The command loop of `flush`. */
    method Serve() returns (r: Result<()>)
      modifies this, fp
      ensures (r, State()) == ServeAll(old(State()))
    {
      ghost var target := ServeAll(State());
      while '\r' in stdin
        invariant ServeAll(State()) == target
        decreases |stdin|
      {
        ghost var before := State();
        var command := TakeUntil(stdin, '\r');
        TakeUntilWhole(stdin, '\r');
        stdin := stdin[|command| + 1..];
        var answered := Answer(command);
        ServeAllUnfold(before, command);
        if answered.Err? {
          return answered;
        }
      }
      r := Ok(());
    }

    /** One turn of the command loop, after the line is taken off `stdin`. */
    method Answer(command: Bytes) returns (r: Result<()>)
      modifies this`stdout, fp
      ensures (r, State()) == AnswerCommand(old(State()), command)
    {
      if !(|command| >= 2 && command[..2] == "%1" && ' ' in command) {
        return Err(AssertionError);
      }
      var rest := command[2..];
      var body := TakeUntil(rest, ' ');
      assert ' ' in rest by { assert command == command[..2] + rest; }
      TakeUntilWhole(rest, ' ');
      var param := rest[|body| + 1..];
      if |body| != 4 {
        return Err(AssertionError);
      }
      var response := Dispatch(body, param);
      if response.Err? {
        return Err(response.error);
      }
      stdout := stdout + ResponseLine(body, response.value);
      r := Ok(());
    }

    method Read(n: Option<nat>) returns (r: Result<Bytes>)
      modifies this, fp
      ensures (r, State()) == ReadSpec(old(State()), n)
    {
      var m := if n.None? then |stdout| else n.value;
      if |stdout| < m {
        var flushed := Flush();
        if flushed.Err? {
          return Err(flushed.error);
        }
      }
      if |stdout| < m {
        return Err(AssertionError);
      }
      r := Ok(stdout[..m]);
      stdout := stdout[m..];
    }
  }
}
