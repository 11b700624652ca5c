/**
 * Properties of the fake projector: the states its handlers keep, which
 * fields each command may change, how `flush` treats the authentication
 * digest and command lines, and what `read` returns.
 */
module ServerProperties {
  import opened Builtins
  import opened Protocol
  import opened Projector
  import opened FakeServer

  // ---------------------------------------------------------------------
  // Device

  lemma InitialDeviceValid()
    ensures ValidDevice(InitialDevice)
  {
    var d := InitialDevice;
    PowerLookup(d.power);
    SourceLookup(d.input.0);
    forall i | 0 <= i < |d.inputs|
      ensures Lookup(SourceTypes, d.inputs[i].0).Some?
    {
      SourceLookup(d.inputs[i].0);
    }
    ErrorLookup("ok");
  }

  /** Every subsystem with a known severity gives one digit each. */
  lemma {:induction false} ErrorDigitsDefined(errors: map<Bytes, Bytes>, kinds: seq<Bytes>)
    requires forall k :: k in kinds ==> k in errors && Lookup(ErrorStates, errors[k]).Some?
    ensures ErrorDigits(errors, kinds).Ok?
  {
    if kinds != [] {
      ErrorLookup(errors[kinds[0]]);
      ErrorDigitsDefined(errors, kinds[1..]);
    }
  }

  lemma {:induction false} LampTokensDefined(lamps: seq<(int, bool)>)
    requires forall i :: 0 <= i < |lamps| ==> 0 <= lamps[i].0 < 100000
    ensures LampTokens(lamps).Ok?
  {
    if lamps != [] {
      LampTokensDefined(lamps[1..]);
    }
  }

  lemma {:induction false} InputTextsDefined(inputs: seq<(Bytes, int)>)
    requires forall i :: 0 <= i < |inputs| ==> Lookup(SourceTypes, inputs[i].0).Some?
    ensures InputTexts(inputs).Ok?
  {
    if inputs != [] {
      InputTextsDefined(inputs[1..]);
    }
  }

  lemma InputKeepsValid(d: Device, param: Bytes)
    requires ValidDevice(d)
    ensures InputStep(d, param).response.Ok? && ValidDevice(InputStep(d, param).device)
  {
    if param != "?" && |param| == 2 {
      var source := Lookup(SourceTypesRev, [param[0]]);
      if source.Some? && param[1] in "123456789" {
        SourceTablesInverse(source.value, [param[0]]);
        var input := (source.value, param[1] as int - '0' as int);
        assert InputStep(d, param).device == d.(input := input);
        ValidWithInput(d, input);
      }
    }
  }

  /** Selecting a known source and a number 1-9 keeps a device valid. */
  lemma ValidWithInput(d: Device, input: (Bytes, int))
    requires ValidDevice(d)
    requires Lookup(SourceTypes, input.0).Some? && 1 <= input.1 <= 9
    ensures ValidDevice(d.(input := input))
  {
    var d2 := d.(input := input);
    assert d2.errors == d.errors && d2.lamps == d.lamps && d2.inputs == d.inputs && d2.power == d.power;
  }

  /**
   * A device in a valid state answers every command without raising, and
   * stays valid.
   */
  lemma DispatchKeepsValid(d: Device, body: Bytes, param: Bytes)
    requires ValidDevice(d)
    ensures DispatchStep(d, body, param).response.Ok?
    ensures ValidDevice(DispatchStep(d, body, param).device)
  {
    if body == "POWR" {
      PowerKeepsValid(d, param);
    } else if body == "INPT" {
      InputKeepsValid(d, param);
    } else if body == "AVMT" {
      MuteKeepsValid(d, param);
    } else {
      HandlersTouchOnlyTheirState(d, body, param);
      ValidWithSameState(d, DispatchStep(d, body, param).device);
      if body == "ERST" {
        ErrorDigitsDefined(d.errors, ErrorKinds);
      } else if body == "LAMP" {
        LampTokensDefined(d.lamps);
      } else if body == "INST" {
        InputTextsDefined(d.inputs);
      }
    }
  }

  /** The class 1 bodies are valid request bodies with no space or CR in them. */
  lemma KnownBody(body: Bytes)
    requires body in ["POWR", "INPT", "AVMT", "ERST", "LAMP", "INST", "NAME", "INF1", "INF2", "INFO"]
    ensures ValidBody(body) && ' ' !in body && '\r' !in body
  {
    WordBody(body);
  }

  /** Four bytes, each a capital or a digit, the first a capital. */
  lemma WordBody(w: Bytes)
    requires |w| == 4 && IsUpperChar(w[0])
    requires IsUpperChar(w[1]) || IsDigit(w[1])
    requires IsUpperChar(w[2]) || IsDigit(w[2])
    requires IsUpperChar(w[3]) || IsDigit(w[3])
    ensures ValidBody(w) && ' ' !in w && '\r' !in w
  {
    assert forall i :: 0 <= i < |w| ==> w[i] == w[0] || w[i] == w[1] || w[i] == w[2] || w[i] == w[3];
  }

  // Each known body reaches its own handler: the bodies differ in their
  // first or third byte.

  lemma RoutePower(d: Device, param: Bytes)
    ensures DispatchStep(d, "POWR", param) == PowerStep(d, param)
  {
  }

  lemma RouteInput(d: Device, param: Bytes)
    ensures DispatchStep(d, "INPT", param) == InputStep(d, param)
  {
    assert "INPT"[0] != "POWR"[0];
  }

  lemma RouteMute(d: Device, param: Bytes)
    ensures DispatchStep(d, "AVMT", param) == MuteStep(d, param)
  {
    assert "AVMT"[0] != "POWR"[0] && "AVMT"[0] != "INPT"[0];
  }

  lemma RouteErrors(d: Device, param: Bytes)
    ensures DispatchStep(d, "ERST", param) == ErrorsStep(d, param)
  {
    assert "ERST"[0] != "POWR"[0] && "ERST"[0] != "INPT"[0] && "ERST"[0] != "AVMT"[0];
  }

  lemma RouteLamps(d: Device, param: Bytes)
    ensures DispatchStep(d, "LAMP", param) == LampsStep(d, param)
  {
    assert "LAMP"[0] != "POWR"[0] && "LAMP"[0] != "INPT"[0] && "LAMP"[0] != "AVMT"[0] && "LAMP"[0] != "ERST"[0];
  }

  lemma RouteInputs(d: Device, param: Bytes)
    ensures DispatchStep(d, "INST", param) == InputsStep(d, param)
  {
    assert "INST"[0] != "POWR"[0] && "INST"[2] != "INPT"[2] && "INST"[0] != "AVMT"[0];
    assert "INST"[0] != "ERST"[0] && "INST"[0] != "LAMP"[0];
  }

  lemma RouteInfo(d: Device, body: Bytes, param: Bytes)
    requires body in ["NAME", "INF1", "INF2", "INFO"]
    ensures DispatchStep(d, body, param) == InfoStep(d, body, param)
  {
    assert body[0] == 'N' || (body[0] == 'I' && body[2] == 'F');
    assert body[0] != "POWR"[0] && body[0] != "AVMT"[0] && body[0] != "ERST"[0] && body[0] != "LAMP"[0];
    assert body[0] == 'N' || (body[2] != "INPT"[2] && body[2] != "INST"[2]);
  }

  lemma PowerKeepsValid(d: Device, param: Bytes)
    requires ValidDevice(d)
    ensures PowerStep(d, param).response.Ok? && ValidDevice(PowerStep(d, param).device)
  {
    var d2 := PowerStep(d, param).device;
    PowerStepShape(d, param);
    if d2 != d {
      PowerLookup(d2.power);
      ValidWithPower(d, d2.power);
    }
  }

  /** Moving a valid device to a known power state keeps it valid. */
  lemma ValidWithPower(d: Device, power: Bytes)
    requires ValidDevice(d)
    requires Lookup(PowerStates, power).Some?
    ensures ValidDevice(d.(power := power))
  {
    var d2 := d.(power := power);
    assert d2.errors == d.errors && d2.lamps == d.lamps && d2.inputs == d.inputs && d2.input == d.input;
  }

  lemma MuteKeepsValid(d: Device, param: Bytes)
    requires ValidDevice(d)
    ensures MuteStep(d, param).response.Ok? && ValidDevice(MuteStep(d, param).device)
  {
    MuteStepShape(d, param);
    ValidWithSameState(d, MuteStep(d, param).device);
  }

  /** A device that differs from a valid one only in its mute flags or its texts is valid. */
  lemma ValidWithSameState(d: Device, d2: Device)
    requires ValidDevice(d)
    requires d2.power == d.power && d2.input == d.input
    requires d2.errors == d.errors && d2.lamps == d.lamps && d2.inputs == d.inputs
    ensures ValidDevice(d2)
  {
  }

  /** POWR changes at most the power state, and never on a query or an ERR2 answer. */
  lemma PowerStepShape(d: Device, param: Bytes)
    ensures var step := PowerStep(d, param);
      && step.device == d.(power := step.device.power)
      && (param == "?" || step.response == Ok("ERR2") ==> step.device == d)
  {
    if param != "?" && param != "1" && param != "0" {
      assert PowerStep(d, param) == Step(Ok(Err2), d);
    }
  }

  /** INPT changes at most the selected input, and never on a query or an ERR2 answer. */
  lemma InputStepShape(d: Device, param: Bytes)
    ensures var step := InputStep(d, param);
      && step.device == d.(input := step.device.input)
      && (param == "?" || step.response == Ok("ERR2") ==> step.device == d)
  {
  }

  /** AVMT changes at most the mute flags, and never on a query or an ERR2 answer. */
  lemma MuteStepShape(d: Device, param: Bytes)
    ensures var step := MuteStep(d, param);
      && step.response.Ok?
      && step.device == d.(muteVideo := step.device.muteVideo, muteAudio := step.device.muteAudio)
      && (param == "?" || step.response == Ok("ERR2") ==> step.device == d)
  {
    if param != "?" && param in ["10", "11", "20", "21", "30", "31"] {
      assert "ERR2" != "OK";
    }
  }

  /**
   * Each command changes only its own part of the device: power for POWR,
   * the input for INPT, the mute flags for AVMT; a query, an ERR2 answer
   * and an unknown body change nothing, and an unknown body is answered
   * ERR1.
   */
  lemma HandlersTouchOnlyTheirState(d: Device, body: Bytes, param: Bytes)
    ensures var step := DispatchStep(d, body, param);
      && step.device.(power := d.power, input := d.input, muteVideo := d.muteVideo, muteAudio := d.muteAudio) == d
      && (body != "POWR" ==> step.device.power == d.power)
      && (body != "INPT" ==> step.device.input == d.input)
      && (body != "AVMT" ==> step.device.muteVideo == d.muteVideo && step.device.muteAudio == d.muteAudio)
      && (param == "?" || step.response == Ok("ERR2") ==> step.device == d)
      && (body !in ["POWR", "INPT", "AVMT", "ERST", "LAMP", "INST", "NAME", "INF1", "INF2", "INFO"] ==>
            step == Step(Ok("ERR1"), d))
  {
    if body == "POWR" {
      PowerStepShape(d, param);
    } else if body == "INPT" {
      InputStepShape(d, param);
    } else if body == "AVMT" {
      MuteStepShape(d, param);
    }
  }

  /**
   * POWR: `1` and `0` always answer OK; only off turns into warm-up and
   * only on into cooling.
   */
  lemma PowerTransitions(d: Device)
    ensures PowerStep(d, "1").response == Ok("OK") && PowerStep(d, "0").response == Ok("OK")
    ensures PowerStep(d, "1").device.power == "warm-up" <==> d.power == "off" || d.power == "warm-up"
    ensures PowerStep(d, "0").device.power == "cooling" <==> d.power == "on" || d.power == "cooling"
    ensures d.power !in ["off", "on"] ==> PowerStep(d, "1").device == d && PowerStep(d, "0").device == d
  {
  }

  /**
   * INPT: a setting is accepted exactly when it is two bytes, a known source
   * digit and a number digit 1-9.
   */
  lemma InputSettingAccepted(d: Device, param: Bytes)
    requires param != "?"
    ensures InputStep(d, param).response == Ok("OK") <==>
      |param| == 2 && param[0] in "12345" && param[1] in "123456789"
    ensures InputStep(d, param).response != Ok("OK") ==> InputStep(d, param) == Step(Ok("ERR2"), d)
  {
    if |param| == 2 {
      SourceRevLookup([param[0]]);
    }
  }

  /**
   * AVMT: selector 1 sets only the video flag, 2 only the audio flag and
   * 3 both, to on for `1` and off for `0`.
   */
  lemma MuteSelectors(d: Device, what: int, state: bool)
    requires what in {1, 2, 3}
    ensures MuteStep(d, [DigitChar(what)] + (if state then "1" else "0")) == Step(Ok("OK"),
      d.(muteVideo := if what in {1, 3} then state else d.muteVideo,
         muteAudio := if what in {2, 3} then state else d.muteAudio))
  {
    var param := [DigitChar(what)] + (if state then "1" else "0");
    assert param == [(48 + what) as char, if state then '1' else '0'];
    if what == 1 {
      assert param == if state then "11" else "10";
    } else if what == 2 {
      assert param == if state then "21" else "20";
    } else {
      assert param == if state then "31" else "30";
    }
  }

  // ---------------------------------------------------------------------
  // Session

  /** A pending digest: flush waits until 32 bytes have been written. */
  lemma FlushWaitsForDigest(s: Session)
    requires s.auth.Some? && |s.stdin| < 32
    ensures FlushSpec(s) == (Ok(()), s)
  {
  }

  /**
   * A wrong digest: it is taken off `stdin`, `PJLINK ERRA\r` is answered,
   * the session goes into lockdown, and no command is processed.
   */
  lemma FlushRejectsWrongDigest(s: Session)
    requires s.auth.Some? && |s.stdin| >= 32 && s.stdin[..32] != s.auth.value
    ensures FlushSpec(s) == (Ok(()), s.(stdin := s.stdin[32..], stdout := s.stdout + "PJLINK ERRA\r",
                                        auth := None, lockdown := true))
  {
  }

  /** The right digest: it is taken off `stdin` and the commands after it are answered. */
  lemma FlushAcceptsDigest(s: Session)
    requires s.auth.Some? && |s.stdin| >= 32 && s.stdin[..32] == s.auth.value && !s.lockdown
    ensures FlushSpec(s) == ServeAll(s.(stdin := s.stdin[32..], auth := None))
  {
  }

  /** In lockdown, whatever is written, flush answers nothing and changes nothing. */
  lemma LockdownAnswersNothing(s: Session, data: Bytes)
    requires s.lockdown && s.auth.None?
    ensures FlushSpec(s.(stdin := s.stdin + data)) == (Ok(()), s.(stdin := s.stdin + data))
  {
  }

  /** The request line `to_binary` builds parses back into its body and parameter. */
  lemma ParseRequestLine(body: Bytes, param: Bytes)
    requires |body| == 4 && ' ' !in body
    ensures ParseCommand("%1" + body + " " + param) == Some((body, param))
  {
    var command := "%1" + body + " " + param;
    var rest := command[2..];
    assert rest == body + " " + param;
    assert command[..2] == "%1";
    assert command[6] == ' ';
    TakeUntilUnique(rest, ' ', body);
    assert rest[|body| + 1..] == param;
  }

  /**
   * Flush answers a complete request line `%1BODY PARAM\r` with
   * `%1BODY=RESPONSE\r` from the handler for BODY, then goes on with the
   * bytes after the line.
   */
  lemma ServeRequestLine(s: Session, body: Bytes, param: Bytes, tail: Bytes)
    requires |body| == 4 && ' ' !in body && '\r' !in body && '\r' !in param
    requires DispatchStep(s.device, body, param).response.Ok?
    ensures var step := DispatchStep(s.device, body, param);
      ServeAll(s.(stdin := "%1" + body + " " + param + "\r" + tail))
        == ServeAll(s.(stdin := tail, device := step.device,
                       stdout := s.stdout + ResponseLine(body, step.response.value)))
  {
    var command := "%1" + body + " " + param;
    var stdin := command + "\r" + tail;
    assert stdin == "%1" + body + " " + param + "\r" + tail;
    assert '\r' !in command by {
      assert forall i :: 0 <= i < |command| ==> command[i] == if i < 2 then "%1"[i]
        else if i < 6 then body[i - 2] else if i == 6 then ' ' else param[i - 7];
    }
    assert stdin[..|command|] == command && stdin[|command|] == '\r';
    TakeUntilUnique(stdin, '\r', command);
    assert stdin[|command| + 1..] == tail;
    ServeAllUnfold(s.(stdin := stdin), command);
    ParseRequestLine(body, param);
  }

  /** `read(n)` with n bytes already buffered returns exactly them and removes them. */
  lemma ReadBuffered(s: Session, n: nat)
    requires n <= |s.stdout|
    ensures ReadSpec(s, Some(n)) == (Ok(s.stdout[..n]), s.(stdout := s.stdout[n..]))
    ensures ReadSpec(s, None) == (Ok(s.stdout), s.(stdout := []))
  {
    assert s.stdout[..|s.stdout|] == s.stdout;
    assert s.stdout[|s.stdout|..] == [];
  }

  /**
   * `read(n)` short of n bytes flushes first, and fails unless the flush
   * then makes n bytes available.
   */
  lemma ReadFlushesWhenShort(s: Session, n: nat)
    requires n > |s.stdout|
    ensures var f := FlushSpec(s);
      && (ReadSpec(s, Some(n)).0.Ok? <==> f.0.Ok? && |f.1.stdout| >= n)
      && (f.0.Ok? && |f.1.stdout| < n ==> ReadSpec(s, Some(n)) == (Err(AssertionError), f.1))
      && (ReadSpec(s, Some(n)).0.Ok? ==> ReadSpec(s, Some(n)).0.value == f.1.stdout[..n])
  {
  }
}
