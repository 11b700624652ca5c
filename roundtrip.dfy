/**
 * The fake projector's query answers against the client's decoders: what
 * the device answers to a power, input, mute, error, lamp or input-list
 * query decodes, on the client side, back to the device's own state.
 */
module RoundTrip {
  import opened Builtins
  import opened Protocol
  import opened Projector
  import opened FakeServer
  import opened ServerProperties

  // ---------------------------------------------------------------------
  // Text helpers

  function Pow10(k: nat): nat {
    if k == 0 then 1 else 10 * Pow10(k - 1)
  }

  /** `str(n)` has at most k digits when n < 10^k. */
  lemma {:induction false} NatToStrLength(n: nat, k: nat)
    requires 1 <= k && n < Pow10(k)
    ensures |NatToStr(n)| <= k
  {
    if n >= 10 {
      assert k >= 2;
      assert n / 10 < Pow10(k - 1);
      NatToStrLength(n / 10, k - 1);
    }
  }

  lemma JoinCons(first: Bytes, rest: seq<Bytes>, sep: char)
    requires rest != []
    ensures Join([first] + rest, sep) == first + [sep] + Join(rest, sep)
  {
    assert ([first] + rest)[1..] == rest;
  }

  /** Text made of decimal digits and spaces only. */
  predicate DigitsAndSpaces(s: Bytes) {
    forall i :: 0 <= i < |s| ==> IsDigit(s[i]) || s[i] == ' '
  }

  /** Joining digit-only parts with spaces gives text of digits and spaces only. */
  lemma {:induction false} JoinDigitsText(parts: seq<Bytes>)
    requires forall i :: 0 <= i < |parts| ==> AllDigits(parts[i])
    ensures DigitsAndSpaces(Join(parts, ' '))
    decreases |parts|
  {
    if |parts| > 1 {
      JoinDigitsText(parts[1..]);
      var j := Join(parts, ' ');
      var later := Join(parts[1..], ' ');
      assert j == parts[0] + [' '] + later;
      forall i | 0 <= i < |j|
        ensures IsDigit(j[i]) || j[i] == ' '
      {
        if i < |parts[0]| {
          assert IsDigit(parts[0][i]);
        } else if i > |parts[0]| {
          var k := i - |parts[0]| - 1;
          assert j[i] == later[k];
          assert DigitsAndSpaces(later);
        }
      }
    } else if |parts| == 1 {
      assert forall i :: 0 <= i < |parts[0]| ==> IsDigit(parts[0][i]);
    }
  }

  // ---------------------------------------------------------------------
  // Query answers decode to the device state

  /** POWR ?: the state's code decodes back to the state. */
  lemma PowerQueryDecodes(d: Device)
    requires Lookup(PowerStates, d.power).Some?
    ensures PowerStep(d, "?").response.Ok?
    ensures DecodePower(PowerStep(d, "?").response.value) == Ok(d.power)
  {
    var code := Lookup(PowerStates, d.power).value;
    PowerLookup(d.power);
    var r := DecodePower(code);
    PowerTablesInverse(r.value, code);
    PowerTablesInverse(d.power, code);
  }

  /** INPT ?: source digit and number decode back to the selected input. */
  lemma InputQueryDecodes(d: Device)
    requires Lookup(SourceTypes, d.input.0).Some? && 1 <= d.input.1 <= 9
    ensures InputStep(d, "?").response.Ok?
    ensures DecodeInput(InputStep(d, "?").response.value) == Ok(d.input)
  {
    var code := Lookup(SourceTypes, d.input.0).value;
    SourceLookup(d.input.0);
    var n := d.input.1;
    assert IntToStr(n) == [DigitChar(n)];
    var param := code + IntToStr(n);
    assert param[..1] == code;
    var r := DecodeInput(param);
    SourceTablesInverse(r.value.0, code);
    SourceTablesInverse(d.input.0, code);
  }

  /** AVMT ?: every mute state's code decodes back to it. */
  lemma MuteQueryDecodes(video: bool, audio: bool)
    ensures DecodeMute(MuteCode(video, audio)) == Ok((video, audio))
  {
    MuteLookup(MuteCode(video, audio));
  }

  /** The first subsystem's digit, then the digits of the others. */
  lemma ErrorDigitsStep(errors: map<Bytes, Bytes>, kinds: seq<Bytes>)
    requires kinds != []
    requires forall k :: k in kinds ==> k in errors && Lookup(ErrorStates, errors[k]).Some?
    ensures ErrorDigits(errors, kinds).Ok? && ErrorDigits(errors, kinds[1..]).Ok?
    ensures var digit := Lookup(ErrorStates, errors[kinds[0]]).value;
      && digit in ["0", "1", "2"]
      && ErrorDigits(errors, kinds).value == digit + ErrorDigits(errors, kinds[1..]).value
  {
    ErrorDigitsDefined(errors, kinds);
    ErrorDigitsDefined(errors, kinds[1..]);
    ErrorLookup(errors[kinds[0]]);
  }

  /** The severity digits are all 0, 1 or 2. */
  lemma {:induction false} ErrorDigitsChars(errors: map<Bytes, Bytes>, kinds: seq<Bytes>)
    requires forall k :: k in kinds ==> k in errors && Lookup(ErrorStates, errors[k]).Some?
    ensures ErrorDigits(errors, kinds).Ok?
    ensures var digits := ErrorDigits(errors, kinds).value;
      forall i :: 0 <= i < |digits| ==> digits[i] in "012"
    decreases |kinds|
  {
    ErrorDigitsDefined(errors, kinds);
    if kinds != [] {
      ErrorDigitsStep(errors, kinds);
      ErrorDigitsChars(errors, kinds[1..]);
    }
  }

  /** Decoding digits: the first kind's severity on top of the others'. */
  lemma ErrorsFromStep(kinds: seq<Bytes>, digits: Bytes, severity: Bytes, later: map<Bytes, Bytes>)
    requires kinds != [] && |kinds| == |digits|
    requires Lookup(ErrorStatesRev, digits[..1]) == Some(severity)
    requires ErrorsFrom(kinds[1..], digits[1..]) == Ok(later)
    ensures ErrorsFrom(kinds, digits) == Ok(later[kinds[0] := severity])
  {
  }

  /** Selecting the kinds from a map: the first kind on top of the others. */
  lemma SelectStep(errors: map<Bytes, Bytes>, kinds: seq<Bytes>)
    requires kinds != [] && forall k :: k in kinds ==> k in errors
    ensures (map k | k in kinds :: errors[k])
         == (map k | k in kinds[1..] :: errors[k])[kinds[0] := errors[kinds[0]]]
  {
  }

  /** The severity digits of the given subsystems decode back to their severities. */
  lemma {:induction false} ErrorDigitsDecode(errors: map<Bytes, Bytes>, kinds: seq<Bytes>)
    requires forall k :: k in kinds ==> k in errors && Lookup(ErrorStates, errors[k]).Some?
    ensures ErrorDigits(errors, kinds).Ok?
    ensures ErrorsFrom(kinds, ErrorDigits(errors, kinds).value) == Ok(map k | k in kinds :: errors[k])
    decreases |kinds|
  {
    ErrorDigitsDefined(errors, kinds);
    if kinds != [] {
      ErrorDigitsStep(errors, kinds);
      var severity := errors[kinds[0]];
      var digit := Lookup(ErrorStates, severity).value;
      ErrorDigitsDecode(errors, kinds[1..]);
      var later := ErrorDigits(errors, kinds[1..]).value;
      var digits := ErrorDigits(errors, kinds).value;
      assert digits[..1] == digit && digits[1..] == later;
      ErrorTablesInverse(severity, digit);
      ErrorsFromStep(kinds, digits, severity, map k | k in kinds[1..] :: errors[k]);
      SelectStep(errors, kinds);
    }
  }

  /** Selecting every key of a map gives the map back. */
  lemma SelectAll(errors: map<Bytes, Bytes>, kinds: seq<Bytes>)
    requires errors.Keys == set k | k in kinds
    ensures (map k | k in kinds :: errors[k]) == errors
  {
  }

  /** ERST ?: the six digits decode back to the severities of the six subsystems. */
  lemma ErrorsQueryDecodes(d: Device)
    requires forall k :: k in ErrorKinds ==> k in d.errors && Lookup(ErrorStates, d.errors[k]).Some?
    requires d.errors.Keys == {"fan", "lamp", "temperature", "cover", "filter", "other"}
    ensures ErrorsStep(d, "?").response.Ok?
    ensures DecodeErrors(ErrorsStep(d, "?").response.value) == Ok(d.errors)
  {
    ErrorDigitsDecode(d.errors, ErrorKinds);
    ErrorDigitsChars(d.errors, ErrorKinds);
    var digits := ErrorDigits(d.errors, ErrorKinds).value;
    assert IsAscii(digits) by {
      forall i | 0 <= i < |digits| ensures digits[i] as int < 128 {
        assert digits[i] in "012";
      }
    }
    assert |digits| == 6;
    assert DecodeErrors(digits) == ErrorsFrom(ErrorKinds, digits);
    SelectAll(d.errors, ErrorKinds);
  }

  /** The first lamp's two tokens, then the tokens of the others. */
  lemma LampTokensStep(lamps: seq<(int, bool)>)
    requires lamps != []
    requires forall i :: 0 <= i < |lamps| ==> 0 <= lamps[i].0 < 100000
    ensures LampTokens(lamps).Ok? && LampTokens(lamps[1..]).Ok?
    ensures LampTokens(lamps).value ==
      [IntToStr(lamps[0].0), if lamps[0].1 then "1" else "0"] + LampTokens(lamps[1..]).value
  {
    LampTokensDefined(lamps);
    LampTokensDefined(lamps[1..]);
  }

  /** Two tokens that parse, in front of an even token list. */
  lemma LampPairsCons(h: Bytes, s: Bytes, later: seq<Bytes>, hours: int, state: int)
    requires |later| % 2 == 0
    requires ParseInt(h) == Some(hours) && ParseInt(s) == Some(state)
    ensures LampPairs([h, s] + later) == Prepend([(hours, state != 0)], LampPairs(later))
  {
    var values := [h, s] + later;
    assert values[0] == h && values[1] == s && values[2..] == later;
  }

  /** The lamp tokens parse back, pair by pair, into the lamps. */
  lemma {:induction false} LampTokensDecode(lamps: seq<(int, bool)>)
    requires forall i :: 0 <= i < |lamps| ==> 0 <= lamps[i].0 < 100000
    ensures LampTokens(lamps).Ok?
    ensures LampPairs(LampTokens(lamps).value) == Ok(lamps)
  {
    LampTokensDefined(lamps);
    if lamps != [] {
      LampTokensStep(lamps);
      LampTokensDecode(lamps[1..]);
      var later := LampTokens(lamps[1..]).value;
      ParseIntOfIntToStr(lamps[0].0);
      LampFlagParses(lamps[0].1);
      assert (2 * |lamps[1..]|) % 2 == 0;
      LampPairsCons(IntToStr(lamps[0].0), if lamps[0].1 then "1" else "0", later,
        lamps[0].0, if lamps[0].1 then 1 else 0);
      assert lamps == [(lamps[0].0, lamps[0].1)] + lamps[1..];
    }
  }

  /** The on-flag token parses back to 1 or 0. */
  lemma LampFlagParses(on: bool)
    ensures ParseInt(if on then "1" else "0") == Some(if on then 1 else 0)
  {
    var s := if on then "1" else "0";
    ParseIntDigit(s[0]);
    assert s == [s[0]];
  }

  /** Every lamp token is a run of digits. */
  lemma {:induction false} LampTokensDigits(lamps: seq<(int, bool)>)
    requires forall i :: 0 <= i < |lamps| ==> 0 <= lamps[i].0 < 100000
    ensures LampTokens(lamps).Ok?
    ensures var tokens := LampTokens(lamps).value;
      forall i :: 0 <= i < |tokens| ==> AllDigits(tokens[i])
  {
    LampTokensDefined(lamps);
    if lamps != [] {
      LampTokensStep(lamps);
      LampTokensDigits(lamps[1..]);
      var tokens := LampTokens(lamps).value;
      assert AllDigits(IntToStr(lamps[0].0)) by { assert IntToStr(lamps[0].0) == NatToStr(lamps[0].0); }
      assert forall i :: 2 <= i < |tokens| ==> tokens[i] == LampTokens(lamps[1..]).value[i - 2];
    }
  }

  /** Joining two more tokens in front adds their lengths and the spaces. */
  lemma JoinPairLength(h: Bytes, s: Bytes, later: seq<Bytes>)
    ensures |Join([h, s] + later, ' ')| ==
      |h| + 1 + |s| + (if later == [] then 0 else 1 + |Join(later, ' ')|)
  {
    if later == [] {
      assert [h, s] + later == [h] + [s];
      JoinCons(h, [s], ' ');
    } else {
      assert [h, s] + later == [h] + ([s] + later);
      JoinCons(s, later, ' ');
      JoinCons(h, [s] + later, ' ');
    }
  }

  /** At most eight bytes per lamp, less the last space. */
  lemma {:induction false} LampTokensLength(lamps: seq<(int, bool)>)
    requires lamps != []
    requires forall i :: 0 <= i < |lamps| ==> 0 <= lamps[i].0 < 100000
    ensures LampTokens(lamps).Ok?
    ensures |Join(LampTokens(lamps).value, ' ')| <= 8 * |lamps| - 1
  {
    LampTokensStep(lamps);
    var h := IntToStr(lamps[0].0);
    var s := if lamps[0].1 then "1" else "0";
    var later := LampTokens(lamps[1..]).value;
    assert |h| <= 5 by {
      assert h == NatToStr(lamps[0].0);
      NatToStrLength(lamps[0].0, 5);
    }
    JoinPairLength(h, s, later);
    if later != [] {
      LampTokensLength(lamps[1..]);
    }
  }

  /** Digit-only tokens joined with spaces: ASCII text that splits back into them. */
  lemma DigitTokensSplit(tokens: seq<Bytes>)
    requires |tokens| >= 1
    requires forall i :: 0 <= i < |tokens| ==> AllDigits(tokens[i])
    ensures IsAscii(Join(tokens, ' '))
    ensures DigitsAndSpaces(Join(tokens, ' '))
    ensures Split(Join(tokens, ' '), ' ') == tokens
  {
    JoinDigitsText(tokens);
    var j := Join(tokens, ' ');
    assert IsAscii(j) by {
      forall i | 0 <= i < |j| ensures j[i] as int < 128 {
        assert DigitsAndSpaces(j);
      }
    }
    forall i | 0 <= i < |tokens| ensures ' ' !in tokens[i] {
      assert AllDigits(tokens[i]);
    }
    SplitJoin(tokens, ' ');
  }

  /** LAMP ?: up to eight lamps' hours and flags decode back to the lamp list. */
  lemma LampsQueryDecodes(d: Device)
    requires 1 <= |d.lamps| <= 8
    requires forall i :: 0 <= i < |d.lamps| ==> 0 <= d.lamps[i].0 < 100000
    ensures LampsStep(d, "?").response.Ok?
    ensures LampsSpec(LampsStep(d, "?").response.value) == Ok(d.lamps)
  {
    LampTokensDecode(d.lamps);
    LampTokensDigits(d.lamps);
    LampTokensLength(d.lamps);
    var tokens := LampTokens(d.lamps).value;
    DigitTokensSplit(tokens);
    assert |Join(tokens, ' ')| <= 65;
    assert (2 * |d.lamps|) % 2 == 0;
    LampsSpecOfTokens(Join(tokens, ' '), tokens);
  }

  /** A LAMP answer that is ASCII, short enough and splits into an even token list. */
  lemma LampsSpecOfTokens(param: Bytes, tokens: seq<Bytes>)
    requires |param| <= 65 && IsAscii(param)
    requires Split(param, ' ') == tokens && |tokens| <= 16 && |tokens| % 2 == 0
    ensures LampsSpec(param) == LampPairs(tokens)
  {
  }

  /** The first input's token, then the tokens of the others. */
  lemma InputTextsStep(inputs: seq<(Bytes, int)>)
    requires inputs != []
    requires InputText(inputs[0]).Ok? && InputTexts(inputs[1..]).Ok?
    ensures InputTexts(inputs) == Ok(InputText(inputs[0]).value + InputTexts(inputs[1..]).value)
  {
  }

  /** A token whose digits name a source and a number 1-9 parses to them. */
  lemma InputTokenOf(token: Bytes, source: Bytes, n: int)
    requires |token| == 2 && 1 <= n <= 9 && token[1] == DigitChar(n)
    requires Lookup(SourceTypesRev, token[..1]) == Some(source)
    ensures InputToken(token) == Ok((source, n))
  {
    assert token[1] in "123456789";
    SourceRevLookup(token[..1]);
    assert token[..1] == [token[0]];
  }

  /** One input's token parses back to the input. */
  lemma InputTextDecodes(input: (Bytes, int))
    requires Lookup(SourceTypes, input.0).Some? && 1 <= input.1 <= 9
    ensures InputText(input).Ok? && |InputText(input).value| == 1
    ensures var token := InputText(input).value[0];
      && InputToken(token) == Ok(input)
      && AllDigits(token) && |token| == 2
  {
    var (source, n) := input;
    var code := Lookup(SourceTypes, source).value;
    SourceLookup(source);
    assert IntToStr(n) == [DigitChar(n)];
    var token := code + IntToStr(n);
    assert token == [code[0], DigitChar(n)];
    assert token[..1] == code;
    SourceTablesInverse(source, code);
    InputTokenOf(token, source, n);
  }

  /** The input tokens parse back into the inputs. */
  lemma {:induction false} InputTextsDecode(inputs: seq<(Bytes, int)>)
    requires forall i :: 0 <= i < |inputs| ==> Lookup(SourceTypes, inputs[i].0).Some? && 1 <= inputs[i].1 <= 9
    ensures InputTexts(inputs).Ok?
    ensures InputTokens(InputTexts(inputs).value) == Ok(inputs)
  {
    InputTextsDefined(inputs);
    if inputs != [] {
      InputTextDecodes(inputs[0]);
      InputTextsDecode(inputs[1..]);
      InputTextsStep(inputs);
      var tokens := InputTexts(inputs).value;
      assert tokens[1..] == InputTexts(inputs[1..]).value;
      assert inputs == [inputs[0]] + inputs[1..];
    }
  }

  /** Every input token is two digits. */
  lemma {:induction false} InputTextsDigits(inputs: seq<(Bytes, int)>)
    requires forall i :: 0 <= i < |inputs| ==> Lookup(SourceTypes, inputs[i].0).Some? && 1 <= inputs[i].1 <= 9
    ensures InputTexts(inputs).Ok?
    ensures var tokens := InputTexts(inputs).value;
      forall i :: 0 <= i < |tokens| ==> AllDigits(tokens[i]) && |tokens[i]| == 2
  {
    InputTextsDefined(inputs);
    if inputs != [] {
      InputTextDecodes(inputs[0]);
      InputTextsDigits(inputs[1..]);
      InputTextsStep(inputs);
      var tokens := InputTexts(inputs).value;
      assert forall i :: 1 <= i < |tokens| ==> tokens[i] == InputTexts(inputs[1..]).value[i - 1];
    }
  }

  /** INST ?: up to 32 inputs' tokens decode back to the input list. */
  lemma InputsQueryDecodes(d: Device)
    requires 1 <= |d.inputs| <= 32
    requires forall i :: 0 <= i < |d.inputs| ==> Lookup(SourceTypes, d.inputs[i].0).Some? && 1 <= d.inputs[i].1 <= 9
    ensures InputsStep(d, "?").response.Ok?
    ensures InputsSpec(InputsStep(d, "?").response.value) == Ok(d.inputs)
  {
    InputTextsDecode(d.inputs);
    InputTextsDigits(d.inputs);
    var tokens := InputTexts(d.inputs).value;
    DigitTokensSplit(tokens);
    InputTokensLength(tokens);
    InputsSpecOfTokens(Join(tokens, ' '), tokens);
  }

  /** At most 32 two-byte tokens joined with spaces fit in 95 bytes. */
  lemma InputTokensLength(tokens: seq<Bytes>)
    requires 1 <= |tokens| <= 32
    requires forall i :: 0 <= i < |tokens| ==> AllDigits(tokens[i]) && |tokens[i]| == 2
    ensures |Join(tokens, ' ')| <= 95
  {
    JoinLength(tokens, ' ', 2);
  }

  /** An INST answer that is ASCII, short enough and splits into at most 50 tokens. */
  lemma InputsSpecOfTokens(param: Bytes, tokens: seq<Bytes>)
    requires |param| <= 95 && IsAscii(param)
    requires Split(param, ' ') == tokens && |tokens| <= 50
    ensures InputsSpec(param) == InputTokens(tokens)
  {
  }
}
