/**
 * The client talking to the fake projector over the wire: the request line
 * the client writes is what the fake projector reads, the answer line it
 * writes back is what the client reads, and the client then reports (or
 * has changed) the device's state. These are the round trips the test
 * suite runs against the fake projector.
 */
module Conversation {
  import opened Builtins
  import opened Protocol
  import opened Projector
  import opened ClientProperties
  import opened FakeServer
  import opened ServerProperties
  import opened RoundTrip

  /** A session in which the client has written `request` to a device in state d. */
  function Fresh(d: Device, request: Bytes): Session {
    Session(d, request, [], None, false)
  }

  // ---------------------------------------------------------------------
  // One request line and its answer

  /** The fake projector answers one well-formed request line with one answer line. */
  lemma ServeOneRequest(d: Device, body: Bytes, param: Bytes)
    requires ValidBody(body) && ' ' !in body && '\r' !in body
    requires |param| <= 128 && '\r' !in param
    requires DispatchStep(d, body, param).response.Ok?
    ensures var step := DispatchStep(d, body, param);
      ServeAll(Fresh(d, ToBinary(body, param).value))
        == (Ok(()), Session(step.device, [], ResponseLine(body, step.response.value), None, false))
  {
    var line := ToBinary(body, param).value;
    assert line == "%1" + body + " " + param + "\r" + [];
    ServeRequestLine(Fresh(d, line), body, param, []);
  }

  /** The client's `get` reading an answer line for its own body. */
  lemma GetAnswered(body: Bytes, reply: Bytes)
    requires ValidBody(body) && '\r' !in reply
    ensures GetExchange(body, ResponseLine(body, reply)) == Exchange(
      if reply in Errors then Err(ProjectorError(Errors[reply])) else Ok(reply),
      8 + |reply|, [ToBinary(body, "?").value])
  {
    UpperOfUpper(body);
    assert ResponseLine(body, reply) + [] == ResponseLine(body, reply);
    SendCommandAnswered(body, "?", body, reply, []);
  }

  /** The client's `set` reading an answer line for its own body. */
  lemma SetAnswered(body: Bytes, param: Bytes, reply: Bytes)
    requires ValidBody(body) && |param| <= 128 && '\r' !in reply
    ensures SetExchange(body, param, ResponseLine(body, reply)) == Exchange(
      if reply in Errors then Err(ProjectorError(Errors[reply]))
      else if reply != "OK" then Err(AssertionError)
      else Ok(()),
      8 + |reply|, [ToBinary(body, param).value])
  {
    UpperOfUpper(body);
    assert ResponseLine(body, reply) + [] == ResponseLine(body, reply);
    SendCommandAnswered(body, param, body, reply, []);
  }

  /** The client's `set` reading OK. */
  lemma SetAnsweredOk(body: Bytes, param: Bytes)
    requires ValidBody(body) && |param| <= 128
    ensures ToBinary(body, param).Ok?
    ensures SetExchange(body, param, ResponseLine(body, "OK")) == Exchange(Ok(()), 10, [ToBinary(body, param).value])
  {
    assert "OK" !in Errors by { assert |"OK"| == 2; }
    SetAnswered(body, param, "OK");
  }

  /**
   * A query for `body`: the device answers without changing, and the
   * client's `get` returns that answer, consuming exactly the answer line.
   */
  lemma AskDevice(d: Device, body: Bytes)
    requires ValidBody(body) && ' ' !in body && '\r' !in body
    requires DispatchStep(d, body, "?").response.Ok?
    requires var reply := DispatchStep(d, body, "?").response.value; '\r' !in reply && reply !in Errors
    ensures var request := ToBinary(body, "?").value;
      var served := ServeAll(Fresh(d, request));
      && served.0.Ok? && served.1.device == d
      && GetExchange(body, served.1.stdout)
           == Exchange(Ok(DispatchStep(d, body, "?").response.value), |served.1.stdout|, [request])
  {
    HandlersTouchOnlyTheirState(d, body, "?");
    ServeOneRequest(d, body, "?");
    GetAnswered(body, DispatchStep(d, body, "?").response.value);
  }

  /** An answer made only of digits and spaces is not a device error code. */
  lemma NotAnErrorCode(reply: Bytes)
    requires DigitsAndSpaces(reply)
    ensures reply !in Errors && '\r' !in reply
  {
    if |reply| == 4 {
      assert reply[0] != 'E';
    }
  }

  // ---------------------------------------------------------------------
  // Getters against the device

  /** `get_power` against the fake projector reports the device's power state. */
  lemma GetPowerFromDevice(d: Device)
    requires Lookup(PowerStates, d.power).Some?
    ensures ToBinary("POWR", "?").Ok?
    ensures var request := ToBinary("POWR", "?").value;
      var served := ServeAll(Fresh(d, request));
      && served.0.Ok? && served.1.device == d
      && GetPowerExchange(served.1.stdout) == Exchange(Ok(d.power), |served.1.stdout|, [request])
  {
    PowerQuery();
    PowerLookup(d.power);
    PowerQueryDecodes(d);
    RoutePower(d, "?");
    AskDevice(d, "POWR");
  }

  /** `get_input` against the fake projector reports the selected source and number. */
  lemma GetInputFromDevice(d: Device)
    requires Lookup(SourceTypes, d.input.0).Some? && 1 <= d.input.1 <= 9
    ensures ToBinary("INPT", "?").Ok?
    ensures var request := ToBinary("INPT", "?").value;
      var served := ServeAll(Fresh(d, request));
      && served.0.Ok? && served.1.device == d
      && GetInputExchange(served.1.stdout) == Exchange(Ok(d.input), |served.1.stdout|, [request])
  {
    KnownBody("INPT");
    InputReplyDigits(d);
    RouteInput(d, "?");
    InputQueryDecodes(d);
    AskDevice(d, "INPT");
  }

  /** The INPT answer is two digits. */
  lemma InputReplyDigits(d: Device)
    requires Lookup(SourceTypes, d.input.0).Some? && 1 <= d.input.1 <= 9
    ensures InputStep(d, "?").response.Ok?
    ensures InputStep(d, "?").response.value !in Errors && '\r' !in InputStep(d, "?").response.value
  {
    SourceLookup(d.input.0);
    var reply := Lookup(SourceTypes, d.input.0).value + IntToStr(d.input.1);
    assert IntToStr(d.input.1) == [DigitChar(d.input.1)];
    assert reply == [reply[0], reply[1]];
    assert DigitsAndSpaces(reply);
    NotAnErrorCode(reply);
  }

  /** `get_mute` against the fake projector reports the video and audio flags. */
  lemma GetMuteFromDevice(d: Device)
    ensures ToBinary("AVMT", "?").Ok?
    ensures var request := ToBinary("AVMT", "?").value;
      var served := ServeAll(Fresh(d, request));
      && served.0.Ok? && served.1.device == d
      && GetMuteExchange(served.1.stdout)
           == Exchange(Ok((d.muteVideo, d.muteAudio)), |served.1.stdout|, [request])
  {
    KnownBody("AVMT");
    assert DigitsAndSpaces(MuteCode(d.muteVideo, d.muteAudio));
    NotAnErrorCode(MuteCode(d.muteVideo, d.muteAudio));
    MuteQueryDecodes(d.muteVideo, d.muteAudio);
    RouteMute(d, "?");
    AskDevice(d, "AVMT");
  }

  /** `get_errors` against the fake projector reports the severity of every subsystem. */
  lemma GetErrorsFromDevice(d: Device)
    requires forall k :: k in ErrorKinds ==> k in d.errors && Lookup(ErrorStates, d.errors[k]).Some?
    requires d.errors.Keys == {"fan", "lamp", "temperature", "cover", "filter", "other"}
    ensures ToBinary("ERST", "?").Ok?
    ensures var request := ToBinary("ERST", "?").value;
      var served := ServeAll(Fresh(d, request));
      && served.0.Ok? && served.1.device == d
      && GetErrorsExchange(served.1.stdout) == Exchange(Ok(d.errors), |served.1.stdout|, [request])
  {
    KnownBody("ERST");
    ErrorReplyDigits(d);
    RouteErrors(d, "?");
    ErrorsQueryDecodes(d);
    AskDevice(d, "ERST");
  }

  /** The ERST answer is six digits. */
  lemma ErrorReplyDigits(d: Device)
    requires forall k :: k in ErrorKinds ==> k in d.errors && Lookup(ErrorStates, d.errors[k]).Some?
    ensures ErrorsStep(d, "?").response.Ok?
    ensures ErrorsStep(d, "?").response.value !in Errors && '\r' !in ErrorsStep(d, "?").response.value
  {
    ErrorDigitsChars(d.errors, ErrorKinds);
    var reply := ErrorDigits(d.errors, ErrorKinds).value;
    forall i | 0 <= i < |reply| ensures IsDigit(reply[i]) {
      assert reply[i] in "012";
    }
    assert DigitsAndSpaces(reply);
    NotAnErrorCode(reply);
  }

  /** `get_lamps` against the fake projector reports every lamp's hours and state. */
  lemma GetLampsFromDevice(d: Device)
    requires 1 <= |d.lamps| <= 8
    requires forall i :: 0 <= i < |d.lamps| ==> 0 <= d.lamps[i].0 < 100000
    ensures ToBinary("LAMP", "?").Ok?
    ensures var request := ToBinary("LAMP", "?").value;
      var served := ServeAll(Fresh(d, request));
      && served.0.Ok? && served.1.device == d
      && GetLampsExchange(served.1.stdout) == Exchange(Ok(d.lamps), |served.1.stdout|, [request])
  {
    KnownBody("LAMP");
    LampsReplyDigits(d);
    LampsQueryDecodes(d);
    RouteLamps(d, "?");
    AskDevice(d, "LAMP");
  }

  /** The LAMP answer is digits and spaces. */
  lemma LampsReplyDigits(d: Device)
    requires forall i :: 0 <= i < |d.lamps| ==> 0 <= d.lamps[i].0 < 100000
    ensures LampsStep(d, "?").response.Ok?
    ensures LampsStep(d, "?").response.value !in Errors && '\r' !in LampsStep(d, "?").response.value
  {
    LampTokensDigits(d.lamps);
    var tokens := LampTokens(d.lamps).value;
    JoinDigitsText(tokens);
    NotAnErrorCode(Join(tokens, ' '));
  }

  /** `get_inputs` against the fake projector reports every available input. */
  lemma GetInputsFromDevice(d: Device)
    requires 1 <= |d.inputs| <= 32
    requires forall i :: 0 <= i < |d.inputs| ==> Lookup(SourceTypes, d.inputs[i].0).Some? && 1 <= d.inputs[i].1 <= 9
    ensures ToBinary("INST", "?").Ok?
    ensures var request := ToBinary("INST", "?").value;
      var served := ServeAll(Fresh(d, request));
      && served.0.Ok? && served.1.device == d
      && GetInputsExchange(served.1.stdout) == Exchange(Ok(d.inputs), |served.1.stdout|, [request])
  {
    KnownBody("INST");
    InputsQueryDecodes(d);
    InputsReplyDigits(d);
    RouteInputs(d, "?");
    AskDevice(d, "INST");
  }

  /** The INST answer is digits and spaces. */
  lemma InputsReplyDigits(d: Device)
    requires 1 <= |d.inputs|
    requires forall i :: 0 <= i < |d.inputs| ==> Lookup(SourceTypes, d.inputs[i].0).Some? && 1 <= d.inputs[i].1 <= 9
    ensures InputsStep(d, "?").response.Ok?
    ensures InputsStep(d, "?").response.value !in Errors && '\r' !in InputsStep(d, "?").response.value
  {
    InputTextsDigits(d.inputs);
    var tokens := InputTexts(d.inputs).value;
    JoinDigitsText(tokens);
    NotAnErrorCode(Join(tokens, ' '));
  }

  /**
   * `get_name`, `get_manufacturer`, `get_product_name` and `get_other_info`
   * against the fake projector report the device's strings, which must fit
   * the client's bounds (64 bytes for the name, 32 ASCII bytes for the others).
   */
  lemma GetNameFromDevice(d: Device)
    requires |d.name| <= 64 && '\r' !in d.name && d.name !in Errors
    ensures ToBinary("NAME", "?").Ok?
    ensures var request := ToBinary("NAME", "?").value;
      var served := ServeAll(Fresh(d, request));
      && served.0.Ok? && served.1.device == d
      && GetNameExchange(served.1.stdout) == Exchange(Ok(d.name), |served.1.stdout|, [request])
  {
    KnownBody("NAME");
    RouteInfo(d, "NAME", "?");
    assert DispatchStep(d, "NAME", "?") == Step(Ok(d.name), d);
    AskDevice(d, "NAME");
  }

  lemma GetManufacturerFromDevice(d: Device)
    requires |d.manufacturer| <= 32 && IsAscii(d.manufacturer)
    requires '\r' !in d.manufacturer && d.manufacturer !in Errors
    ensures ToBinary("INF1", "?").Ok?
    ensures var request := ToBinary("INF1", "?").value;
      var served := ServeAll(Fresh(d, request));
      && served.0.Ok? && served.1.device == d
      && GetManufacturerExchange(served.1.stdout) == Exchange(Ok(d.manufacturer), |served.1.stdout|, [request])
  {
    KnownBody("INF1");
    RouteInfo(d, "INF1", "?");
    assert DispatchStep(d, "INF1", "?") == Step(Ok(d.manufacturer), d);
    AskDevice(d, "INF1");
  }

  lemma GetProductNameFromDevice(d: Device)
    requires |d.productName| <= 32 && IsAscii(d.productName)
    requires '\r' !in d.productName && d.productName !in Errors
    ensures ToBinary("INF2", "?").Ok?
    ensures var request := ToBinary("INF2", "?").value;
      var served := ServeAll(Fresh(d, request));
      && served.0.Ok? && served.1.device == d
      && GetProductNameExchange(served.1.stdout) == Exchange(Ok(d.productName), |served.1.stdout|, [request])
  {
    KnownBody("INF2");
    RouteInfo(d, "INF2", "?");
    assert DispatchStep(d, "INF2", "?") == Step(Ok(d.productName), d);
    AskDevice(d, "INF2");
  }

  lemma GetOtherInfoFromDevice(d: Device)
    requires |d.otherInfo| <= 32 && IsAscii(d.otherInfo)
    requires '\r' !in d.otherInfo && d.otherInfo !in Errors
    ensures ToBinary("INFO", "?").Ok?
    ensures var request := ToBinary("INFO", "?").value;
      var served := ServeAll(Fresh(d, request));
      && served.0.Ok? && served.1.device == d
      && GetOtherInfoExchange(served.1.stdout) == Exchange(Ok(d.otherInfo), |served.1.stdout|, [request])
  {
    KnownBody("INFO");
    RouteInfo(d, "INFO", "?");
    assert DispatchStep(d, "INFO", "?") == Step(Ok(d.otherInfo), d);
    AskDevice(d, "INFO");
  }

  // ---------------------------------------------------------------------
  // Setters, then getters, against the device

  /** The power state `set_power` on or off leaves behind on the fake projector. */
  function PowerAfter(power: Bytes, on: bool): Bytes {
    if on && power == "off" then "warm-up"
    else if !on && power == "on" then "cooling"
    else power
  }

  /**
   * `set_power('on')` or `set_power('off')` against the fake projector: the
   * client sends `1` or `0`, reads OK, and a following `get_power` reports
   * warm-up for a device that was off (cooling for one that was on) and
   * the old state otherwise.
   */
  lemma SetPowerThenGetPower(d: Device, on: bool)
    requires ValidDevice(d)
    ensures ToBinary("POWR", if on then "1" else "0").Ok? && ToBinary("POWR", "?").Ok?
    ensures var request := ToBinary("POWR", if on then "1" else "0").value;
      var served := ServeAll(Fresh(d, request));
      var after := served.1.device;
      && served.0.Ok?
      && SetPowerExchange(if on then "on" else "off", false, served.1.stdout)
           == Exchange(Ok(()), |served.1.stdout|, [request])
      && after == d.(power := PowerAfter(d.power, on))
      && ValidDevice(after)
      && GetPowerExchange(ServeAll(Fresh(after, ToBinary("POWR", "?").value)).1.stdout).result
           == Ok(PowerAfter(d.power, on))
  {
    var code := if on then "1" else "0";
    KnownBody("POWR");
    PowerSettingStep(d, on);
    PowerKeepsValid(d, code);
    RoutePower(d, code);
    ServeOneRequest(d, "POWR", code);
    SetPowerAnswered(on);
    GetPowerFromDevice(d.(power := PowerAfter(d.power, on)));
  }

  /** POWR 1 and POWR 0 on the device: OK, and the state PowerAfter gives. */
  lemma PowerSettingStep(d: Device, on: bool)
    ensures PowerStep(d, if on then "1" else "0") == Step(Ok("OK"), d.(power := PowerAfter(d.power, on)))
  {
  }

  /** The client's `set_power` reading the OK answer. */
  lemma SetPowerAnswered(on: bool)
    ensures ToBinary("POWR", if on then "1" else "0").Ok?
    ensures SetPowerExchange(if on then "on" else "off", false, ResponseLine("POWR", "OK"))
         == Exchange(Ok(()), 10, [ToBinary("POWR", if on then "1" else "0").value])
  {
    KnownBody("POWR");
    SetPowerSends(on, ResponseLine("POWR", "OK"));
    SetAnsweredOk("POWR", if on then "1" else "0");
  }

  /** `set_power` of on or off is `set` of 1 or 0. */
  lemma SetPowerSends(on: bool, rest: Bytes)
    ensures SetPowerExchange(if on then "on" else "off", false, rest)
         == SetExchange("POWR", if on then "1" else "0", rest)
  {
    PowerLookup(if on then "on" else "off");
  }

  /** The INPT parameter `set_input` sends: the source's digit and the number. */
  function InputSetting(source: Bytes, number: int): Bytes
    requires Lookup(SourceTypes, source).Some?
  {
    Lookup(SourceTypes, source).value + IntToStr(number)
  }

  /**
   * `set_input(source, number)` against the fake projector, for a known
   * source and a number 1-9: the client reads OK, the device selects that
   * input, and a following `get_input` reports it.
   */
  lemma SetInputThenGetInput(d: Device, source: Bytes, number: int)
    requires ValidDevice(d)
    requires Lookup(SourceTypes, source).Some? && 1 <= number <= 9
    ensures ToBinary("INPT", InputSetting(source, number)).Ok? && ToBinary("INPT", "?").Ok?
    ensures var request := ToBinary("INPT", InputSetting(source, number)).value;
      var served := ServeAll(Fresh(d, request));
      var after := served.1.device;
      && served.0.Ok?
      && SetInputExchange(source, number, served.1.stdout) == Exchange(Ok(()), |served.1.stdout|, [request])
      && after == d.(input := (source, number))
      && ValidDevice(after)
      && GetInputExchange(ServeAll(Fresh(after, ToBinary("INPT", "?").value)).1.stdout).result
           == Ok((source, number))
  {
    InputServed(d, source, number);
    SetInputAnswered(source, number);
    ValidWithInput(d, (source, number));
    GetInputFromDevice(d.(input := (source, number)));
  }

  /** The fake projector answers the INPT setting with OK and selects the input. */
  lemma InputServed(d: Device, source: Bytes, number: int)
    requires Lookup(SourceTypes, source).Some? && 1 <= number <= 9
    ensures ToBinary("INPT", InputSetting(source, number)).Ok?
    ensures ServeAll(Fresh(d, ToBinary("INPT", InputSetting(source, number)).value))
         == (Ok(()), Session(d.(input := (source, number)), [], ResponseLine("INPT", "OK"), None, false))
  {
    KnownBody("INPT");
    var param := InputSetting(source, number);
    SourceCodeDigit(source);
    assert IntToStr(number) == [DigitChar(number)];
    assert '\r' !in param;
    InputSettingStep(d, source, number);
    RouteInput(d, param);
    ServeOneRequest(d, "INPT", param);
  }

  /** The client's `set_input` reading the OK answer. */
  lemma SetInputAnswered(source: Bytes, number: int)
    requires Lookup(SourceTypes, source).Some? && 1 <= number <= 9
    ensures ToBinary("INPT", InputSetting(source, number)).Ok?
    ensures SetInputExchange(source, number, ResponseLine("INPT", "OK"))
         == Exchange(Ok(()), 10, [ToBinary("INPT", InputSetting(source, number)).value])
  {
    KnownBody("INPT");
    InputNumbersAccepted(number);
    SetInputSends(source, number, ResponseLine("INPT", "OK"));
    InputSettingLength(source, number);
    SetAnsweredOk("INPT", InputSetting(source, number));
  }

  /** A known source and an accepted number: `set_input` is `set` of the setting. */
  lemma SetInputSends(source: Bytes, number: int, rest: Bytes)
    requires Lookup(SourceTypes, source).Some? && InputNumberAccepted(number)
    ensures SetInputExchange(source, number, rest) == SetExchange("INPT", InputSetting(source, number), rest)
  {
  }

  /** The INPT setting for a number 1-9 is two bytes. */
  lemma InputSettingLength(source: Bytes, number: int)
    requires Lookup(SourceTypes, source).Some? && 1 <= number <= 9
    ensures |InputSetting(source, number)| == 2
  {
    SourceCodeDigit(source);
    assert IntToStr(number) == [DigitChar(number)];
  }

  /** A source's code is a single digit. */
  lemma SourceCodeDigit(source: Bytes)
    requires Lookup(SourceTypes, source).Some?
    ensures var code := Lookup(SourceTypes, source).value; |code| == 1 && IsDigit(code[0])
  {
    SourceLookup(source);
  }

  /** The INPT setting the client sends selects that source and number. */
  lemma InputSettingStep(d: Device, source: Bytes, number: int)
    requires Lookup(SourceTypes, source).Some? && 1 <= number <= 9
    ensures InputStep(d, InputSetting(source, number)) == Step(Ok("OK"), d.(input := (source, number)))
  {
    var code := Lookup(SourceTypes, source).value;
    SourceCodeDigit(source);
    assert IntToStr(number) == [DigitChar(number)];
    var param := code + IntToStr(number);
    assert |param| == 2 && param != "?";
    assert [param[0]] == code;
    SourceTablesInverse(source, code);
    assert param[1] in "123456789" by {
      assert "123456789"[number - 1] == param[1];
    }
  }

  /** The AVMT parameter `set_mute` sends: the selector digit and 1 or 0. */
  function MuteSetting(what: int, state: bool): Bytes
    requires what in {1, 2, 3}
  {
    [DigitChar(what)] + (if state then "1" else "0")
  }

  /** The device after `set_mute(what, state)`: only the selected flags change. */
  function Muted(d: Device, what: int, state: bool): Device {
    d.(muteVideo := if what in {1, 3} then state else d.muteVideo,
       muteAudio := if what in {2, 3} then state else d.muteAudio)
  }

  /**
   * `set_mute(what, state)` against the fake projector, for what 1 (video),
   * 2 (audio) or 3 (both): the client reads OK, only the selected flags
   * change, and a following `get_mute` reports them.
   */
  lemma SetMuteThenGetMute(d: Device, what: int, state: bool)
    requires what in {1, 2, 3}
    ensures ToBinary("AVMT", MuteSetting(what, state)).Ok? && ToBinary("AVMT", "?").Ok?
    ensures var request := ToBinary("AVMT", MuteSetting(what, state)).value;
      var served := ServeAll(Fresh(d, request));
      var after := served.1.device;
      && served.0.Ok?
      && SetMuteExchange(what, state, served.1.stdout) == Exchange(Ok(()), |served.1.stdout|, [request])
      && after == Muted(d, what, state)
      && GetMuteExchange(ServeAll(Fresh(after, ToBinary("AVMT", "?").value)).1.stdout).result
           == Ok((after.muteVideo, after.muteAudio))
  {
    MuteServed(d, what, state);
    SetMuteAnswered(what, state);
    GetMuteFromDevice(Muted(d, what, state));
  }

  /** The fake projector answers the AVMT setting with OK and sets the selected flags. */
  lemma MuteServed(d: Device, what: int, state: bool)
    requires what in {1, 2, 3}
    ensures ToBinary("AVMT", MuteSetting(what, state)).Ok?
    ensures ServeAll(Fresh(d, ToBinary("AVMT", MuteSetting(what, state)).value))
         == (Ok(()), Session(Muted(d, what, state), [], ResponseLine("AVMT", "OK"), None, false))
  {
    KnownBody("AVMT");
    var param := MuteSetting(what, state);
    assert param == [DigitChar(what), if state then '1' else '0'];
    MuteSelectors(d, what, state);
    RouteMute(d, param);
    ServeOneRequest(d, "AVMT", param);
  }

  /** The client's `set_mute` reading the OK answer. */
  lemma SetMuteAnswered(what: int, state: bool)
    requires what in {1, 2, 3}
    ensures ToBinary("AVMT", MuteSetting(what, state)).Ok?
    ensures SetMuteExchange(what, state, ResponseLine("AVMT", "OK"))
         == Exchange(Ok(()), 10, [ToBinary("AVMT", MuteSetting(what, state)).value])
  {
    KnownBody("AVMT");
    SetAnsweredOk("AVMT", MuteSetting(what, state));
  }

  // ---------------------------------------------------------------------
  // The handshake against the session

  /**
   * The handshake against a fake projector opened with a password and an
   * 8-byte salt, after the client has read its challenge: the client's
   * digest and `POWR ?` are written, the session flushes, and the client
   * reads what it answers. The same digest gives True and the session goes
   * on answering; another gives False and puts the session in lockdown.
   */
  lemma AuthenticateAgainstSession(d: Device, password: Bytes, salt: Bytes, attempt: Bytes, md5: Bytes -> HexDigest)
    requires |salt| == 8 && Lookup(PowerStates, d.power).Some?
    ensures var sent := md5(salt + attempt) + "%1POWR ?\r";
      var flushed := FlushSpec(Session(d, sent, [], Some(md5(salt + password)), false));
      var e := AuthenticateExchange(Challenge(salt) + flushed.1.stdout, attempt, md5);
      && flushed.0.Ok?
      && e.sent == [sent] && e.consumed == 18 + |flushed.1.stdout|
      && (e.result == Ok(Accepted) <==> md5(salt + attempt) == md5(salt + password))
      && (e.result == Ok(Rejected) <==> md5(salt + attempt) != md5(salt + password))
      && (flushed.1.lockdown <==> md5(salt + attempt) != md5(salt + password))
  {
    var s := Session(d, md5(salt + attempt) + "%1POWR ?\r", [], Some(md5(salt + password)), false);
    if md5(salt + attempt) == md5(salt + password) {
      AcceptedAgainstSession(d, s, salt, attempt, md5);
    } else {
      RejectedAgainstSession(d, s, salt, attempt, md5);
    }
  }

  /** The rejected half of the handshake: ERRA, and the session locks down. */
  lemma RejectedAgainstSession(d: Device, s: Session, salt: Bytes, attempt: Bytes, md5: Bytes -> HexDigest)
    requires |salt| == 8 && s.auth.Some? && md5(salt + attempt) != s.auth.value
    requires s == Session(d, md5(salt + attempt) + "%1POWR ?\r", [], s.auth, false)
    ensures var flushed := FlushSpec(s);
      var e := AuthenticateExchange(Challenge(salt) + flushed.1.stdout, attempt, md5);
      && flushed == (Ok(()), Session(d, "%1POWR ?\r", "PJLINK ERRA\r", None, true))
      && e == Exchange(Ok(Rejected), 30, [s.stdin])
  {
    assert s.stdin[..32] == md5(salt + attempt) && s.stdin[32..] == "%1POWR ?\r";
    FlushRejectsWrongDigest(s);
    assert [] + "PJLINK ERRA\r" == "PJLINK ERRA\r";
    assert Challenge(salt) + "PJLINK ERRA\r" + [] == Challenge(salt) + "PJLINK ERRA\r";
    AuthenticateRejected(salt, [], attempt, md5);
  }

  /** The accepted half of the handshake: the session answers the `POWR ?` request. */
  lemma AcceptedAgainstSession(d: Device, s: Session, salt: Bytes, attempt: Bytes, md5: Bytes -> HexDigest)
    requires |salt| == 8 && Lookup(PowerStates, d.power).Some?
    requires s == Session(d, md5(salt + attempt) + "%1POWR ?\r", [], Some(md5(salt + attempt)), false)
    ensures var answer := ResponseLine("POWR", Lookup(PowerStates, d.power).value);
      && FlushSpec(s) == (Ok(()), Session(d, [], answer, None, false))
      && AuthenticateExchange(Challenge(salt) + answer, attempt, md5)
           == Exchange(Ok(Accepted), 18 + |answer|, [s.stdin])
  {
    DigestThenPowerQuery(d, md5(salt + attempt));
    PowerLookup(d.power);
    var code := Lookup(PowerStates, d.power).value;
    assert code !in Errors && '\r' !in code;
    assert Challenge(salt) + ResponseLine("POWR", code) + [] == Challenge(salt) + ResponseLine("POWR", code);
    AuthenticateAccepted(salt, code, [], attempt, md5);
  }

  /** The right digest is taken off `stdin` and what follows it is served. */
  lemma DigestTaken(d: Device, digest: HexDigest, rest: Bytes)
    ensures FlushSpec(Session(d, digest + rest, [], Some(digest), false)) == ServeAll(Fresh(d, rest))
  {
    var s := Session(d, digest + rest, [], Some(digest), false);
    assert s.stdin[..32] == digest && s.stdin[32..] == rest;
    FlushAcceptsDigest(s);
    assert s.(stdin := rest, auth := None) == Fresh(d, rest);
  }

  /** `POWR ?` is answered with the power state's code. */
  lemma PowerQueryServed(d: Device)
    requires Lookup(PowerStates, d.power).Some?
    ensures ServeAll(Fresh(d, "%1POWR ?\r"))
         == (Ok(()), Session(d, [], ResponseLine("POWR", Lookup(PowerStates, d.power).value), None, false))
  {
    PowerQuery();
    KnownBody("POWR");
    RoutePower(d, "?");
    assert DispatchStep(d, "POWR", "?") == Step(Ok(Lookup(PowerStates, d.power).value), d);
    ServeOneRequest(d, "POWR", "?");
  }

  /**
   * The right digest followed by `POWR ?`: the session takes the digest,
   * answers the request with the power state's code and keeps the device.
   */
  lemma DigestThenPowerQuery(d: Device, digest: HexDigest)
    requires Lookup(PowerStates, d.power).Some?
    ensures FlushSpec(Session(d, digest + "%1POWR ?\r", [], Some(digest), false))
         == (Ok(()), Session(d, [], ResponseLine("POWR", Lookup(PowerStates, d.power).value), None, false))
  {
    DigestTaken(d, digest, "%1POWR ?\r");
    PowerQueryServed(d);
  }
}
