/**
 * The PJLink client session: the constant lookup tables, the greeting and
 * challenge handshake (`Projector.Authenticate`), and the typed getters and
 * setters that validate their arguments before anything is sent and decode
 * response parameters into domain values.
 *
 * Python dictionaries keep insertion order, so each table is an ordered list
 * of (key, value) pairs; a lookup finds the LAST pair with that key, which is
 * what a dictionary built from such a list holds.
 */
module Projector {
  import opened Builtins
  import opened Protocol

  // ---------------------------------------------------------------------
  // Tables

  type Table<K, V> = seq<(K, V)>

  /** `d[k]` on a dictionary built from the pairs of t (None: KeyError). */
  function Lookup<K(==), V>(t: Table<K, V>, k: K): (r: Option<V>)
  {
    if t == [] then None
    else
      var later := Lookup(t[1..], k);
      if later.Some? then later
      else if t[0].0 == k then Some(t[0].1)
      else None
  }

  /**
   * A lookup finds a value exactly when some pair has the key, and what it
   * finds is the value of such a pair (the last one: later pairs win).
   */
  lemma {:induction false} LookupFound<K, V>(t: Table<K, V>, k: K)
    ensures Lookup(t, k).Some? <==> exists i :: 0 <= i < |t| && t[i].0 == k
    ensures Lookup(t, k).Some? ==> exists i :: 0 <= i < |t| && t[i] == (k, Lookup(t, k).value)
    decreases |t|
  {
    if t != [] {
      LookupFound(t[1..], k);
      assert forall i :: 1 <= i < |t| ==> t[i] == t[1..][i - 1];
      if Lookup(t[1..], k).Some? {
        var i :| 0 <= i < |t[1..]| && t[1..][i] == (k, Lookup(t, k).value);
        assert t[i + 1] == (k, Lookup(t, k).value);
      }
    }
  }

  /** `reverse_dict`: every pair swapped, in the same order. */
  function ReverseDict<K, V>(t: Table<K, V>): (r: Table<V, K>)
    ensures |r| == |t|
    ensures forall i :: 0 <= i < |t| ==> r[i] == (t[i].1, t[i].0)
  {
    seq(|t|, i requires 0 <= i < |t| => (t[i].1, t[i].0))
  }

  predicate DistinctKeys<K(==), V>(t: Table<K, V>) {
    forall i, j :: 0 <= i < j < |t| ==> t[i].0 != t[j].0
  }

  predicate DistinctValues<K, V(==)>(t: Table<K, V>) {
    forall i, j :: 0 <= i < j < |t| ==> t[i].1 != t[j].1
  }

  /** With distinct keys, each pair is what a lookup of its key finds. */
  lemma {:induction false} LookupAt<K, V>(t: Table<K, V>, i: nat)
    requires DistinctKeys(t) && i < |t|
    ensures Lookup(t, t[i].0) == Some(t[i].1)
    decreases |t|
  {
    var tail := t[1..];
    if i > 0 {
      assert tail[i - 1] == t[i];
      LookupAt(tail, i - 1);
    } else {
      LookupFound(tail, t[0].0);
      assert forall j :: 0 <= j < |tail| ==> tail[j] == t[j + 1];
    }
  }

  /**
   * A table without repeated keys or values and its reverse are inverse
   * functions: REV[v] == k exactly when FWD[k] == v.
   */
  lemma ReverseInverse<K, V>(t: Table<K, V>, k: K, v: V)
    requires DistinctKeys(t) && DistinctValues(t)
    ensures Lookup(ReverseDict(t), v) == Some(k) <==> Lookup(t, k) == Some(v)
  {
    var r := ReverseDict(t);
    LookupFound(r, v);
    LookupFound(t, k);
    if Lookup(r, v) == Some(k) {
      var i :| 0 <= i < |r| && r[i] == (v, k);
      LookupAt(t, i);
    }
    if Lookup(t, k) == Some(v) {
      var i :| 0 <= i < |t| && t[i] == (k, v);
      LookupAt(r, i);
    }
  }

  const PowerStates: Table<Bytes, Bytes> :=
    [("off", "0"), ("on", "1"), ("cooling", "2"), ("warm-up", "3")]
  const PowerStatesRev: Table<Bytes, Bytes> := ReverseDict(PowerStates)

  const SourceTypes: Table<Bytes, Bytes> :=
    [("RGB", "1"), ("VIDEO", "2"), ("DIGITAL", "3"), ("STORAGE", "4"), ("NETWORK", "5")]
  const SourceTypesRev: Table<Bytes, Bytes> := ReverseDict(SourceTypes)

  const MuteVideo: int := 1
  const MuteAudio: int := 2
  /** Response code of AVMT -> (video muted, audio muted). */
  const MuteStatesRev: Table<Bytes, (bool, bool)> :=
    [("11", (true, false)), ("21", (false, true)), ("31", (true, true)), ("30", (false, false))]

  const ErrorStates: Table<Bytes, Bytes> := [("ok", "0"), ("warning", "1"), ("error", "2")]
  const ErrorStatesRev: Table<Bytes, Bytes> := ReverseDict(ErrorStates)

  /** The six subsystems of ERST, in the order of its six digits. */
  const ErrorKinds: seq<Bytes> := ["fan", "lamp", "temperature", "cover", "filter", "other"]

  /** The reversed tables, written out. */
  lemma ReversedTables()
    ensures PowerStatesRev == [("0", "off"), ("1", "on"), ("2", "cooling"), ("3", "warm-up")]
    ensures SourceTypesRev == [("1", "RGB"), ("2", "VIDEO"), ("3", "DIGITAL"), ("4", "STORAGE"), ("5", "NETWORK")]
    ensures ErrorStatesRev == [("0", "ok"), ("1", "warning"), ("2", "error")]
  {
  }

  lemma PowerLookup(state: Bytes)
    ensures Lookup(PowerStates, state) ==
      if state == "off" then Some("0") else if state == "on" then Some("1")
      else if state == "cooling" then Some("2") else if state == "warm-up" then Some("3")
      else None
  {
  }

  lemma PowerRevLookup(code: Bytes)
    ensures Lookup(PowerStatesRev, code) ==
      if code == "0" then Some("off") else if code == "1" then Some("on")
      else if code == "2" then Some("cooling") else if code == "3" then Some("warm-up")
      else None
  {
    ReversedTables();
    var t: Table<Bytes, Bytes> := [("0", "off"), ("1", "on"), ("2", "cooling"), ("3", "warm-up")];
    assert PowerStatesRev == t;
  }

  lemma SourceLookup(source: Bytes)
    ensures Lookup(SourceTypes, source) ==
      if source == "RGB" then Some("1") else if source == "VIDEO" then Some("2")
      else if source == "DIGITAL" then Some("3") else if source == "STORAGE" then Some("4")
      else if source == "NETWORK" then Some("5") else None
  {
  }

  lemma SourceRevLookup(code: Bytes)
    ensures Lookup(SourceTypesRev, code) ==
      if code == "1" then Some("RGB") else if code == "2" then Some("VIDEO")
      else if code == "3" then Some("DIGITAL") else if code == "4" then Some("STORAGE")
      else if code == "5" then Some("NETWORK") else None
  {
    ReversedTables();
    var t: Table<Bytes, Bytes> := [("1", "RGB"), ("2", "VIDEO"), ("3", "DIGITAL"), ("4", "STORAGE"), ("5", "NETWORK")];
    assert SourceTypesRev == t;
  }

  lemma ErrorLookup(severity: Bytes)
    ensures Lookup(ErrorStates, severity) ==
      if severity == "ok" then Some("0") else if severity == "warning" then Some("1")
      else if severity == "error" then Some("2") else None
  {
  }

  lemma ErrorRevLookup(code: Bytes)
    ensures Lookup(ErrorStatesRev, code) ==
      if code == "0" then Some("ok") else if code == "1" then Some("warning")
      else if code == "2" then Some("error") else None
  {
    ReversedTables();
    var t: Table<Bytes, Bytes> := [("0", "ok"), ("1", "warning"), ("2", "error")];
    assert ErrorStatesRev == t;
  }

  lemma MuteLookup(code: Bytes)
    ensures Lookup(MuteStatesRev, code) ==
      if code == "11" then Some((true, false)) else if code == "21" then Some((false, true))
      else if code == "31" then Some((true, true)) else if code == "30" then Some((false, false))
      else None
  {
  }

  lemma PowerTablesInverse(state: Bytes, code: Bytes)
    ensures Lookup(PowerStatesRev, code) == Some(state) <==> Lookup(PowerStates, state) == Some(code)
  {
    ReverseInverse(PowerStates, state, code);
  }

  lemma SourceTablesInverse(source: Bytes, code: Bytes)
    ensures Lookup(SourceTypesRev, code) == Some(source) <==> Lookup(SourceTypes, source) == Some(code)
  {
    ReverseInverse(SourceTypes, source, code);
  }

  lemma ErrorTablesInverse(severity: Bytes, code: Bytes)
    ensures Lookup(ErrorStatesRev, code) == Some(severity) <==> Lookup(ErrorStates, severity) == Some(code)
  {
    ReverseInverse(ErrorStates, severity, code);
  }

  // ---------------------------------------------------------------------
  // Decoders: response parameter -> domain value

  predicate IsAscii(s: Bytes) {
    forall i :: 0 <= i < |s| ==> s[i] as int < 128
  }

  /** `bytes.decode('ascii')`: the same text, or UnicodeDecodeError (a ValueError). */
  function DecodeAscii(s: Bytes): (r: Result<Bytes>)
    ensures r.Ok? <==> IsAscii(s)
    ensures r.Ok? ==> r.value == s
    ensures r.Err? ==> r.error == ValueError
  {
    if IsAscii(s) then Ok(s) else Err(ValueError)
  }

  /** The state name a POWR digit stands for. */
  function DecodePower(param: Bytes): (r: Result<Bytes>)
    ensures r.Ok? <==> param in {"0", "1", "2", "3"}
    ensures r.Ok? ==> Lookup(PowerStates, r.value) == Some(param)
    ensures IsAscii(param) && r.Err? ==> r.error == KeyError
  {
    PowerRevLookup(param);
    var text := DecodeAscii(param);
    if text.Err? then Err(ValueError)
    else match Lookup(PowerStatesRev, text.value)
      case None => Err(KeyError)
      case Some(state) =>
        PowerTablesInverse(state, text.value);
        Ok(state)
  }

  /** An INPT parameter: a source digit and an input number. */
  function DecodeInput(param: Bytes): (r: Result<(Bytes, int)>)
    ensures r.Ok? <==> |param| == 2 && param[0] in "12345" && IsDigit(param[1])
    ensures r.Ok? ==>
      && Lookup(SourceTypes, r.value.0) == Some(param[..1])
      && r.value.1 == param[1] as int - '0' as int
  {
    var text := DecodeAscii(param);
    if text.Err? then Err(ValueError)
    else if |param| != 2 then Err(ValueError)
    else
      SourceRevLookup(param[..1]);
      assert param[..1] == [param[0]];
      assert param[1..] == [param[1]];
      ParseIntDigit(param[1]);
      match Lookup(SourceTypesRev, param[..1])
      case None => Err(KeyError)
      case Some(source) =>
        SourceTablesInverse(source, param[..1]);
        match ParseInt(param[1..])
          case None => Err(ValueError)
          case Some(n) =>
            assert [param[1]] == param[1..];
            Ok((source, n))
  }

  /** An AVMT parameter: only 11, 21, 31 and 30 are known. */
  function DecodeMute(param: Bytes): (r: Result<(bool, bool)>)
    ensures r.Ok? <==> param in {"11", "21", "31", "30"}
    ensures IsAscii(param) && r.Err? ==> r.error == KeyError
  {
    MuteLookup(param);
    var text := DecodeAscii(param);
    if text.Err? then Err(ValueError)
    else match Lookup(MuteStatesRev, text.value)
      case None => Err(KeyError)
      case Some(v) => Ok(v)
  }

  /** The severity of each subsystem from its digit, pairing kinds and digits in order. */
  function ErrorsFrom(kinds: seq<Bytes>, digits: Bytes): (r: Result<map<Bytes, Bytes>>)
    requires |kinds| == |digits|
    ensures r.Ok? <==> forall i :: 0 <= i < |digits| ==> digits[i] in "012"
    ensures r.Ok? ==> r.value.Keys == set k | k in kinds
    ensures r.Err? ==> r.error == KeyError
  {
    if kinds == [] then Ok(map[])
    else
      ErrorRevLookup(digits[..1]);
      assert digits[..1] == [digits[0]];
      match Lookup(ErrorStatesRev, digits[..1])
      case None => Err(KeyError)
      case Some(severity) =>
        var rest := ErrorsFrom(kinds[1..], digits[1..]);
        if rest.Err? then rest
        else
          assert forall i :: 1 <= i < |digits| ==> digits[i] == digits[1..][i - 1];
          assert (set k | k in kinds) == {kinds[0]} + set k | k in kinds[1..];
          Ok(rest.value[kinds[0] := severity])
  }

  /**
   * An ERST parameter: exactly six digits 0/1/2, one per subsystem of
   * ErrorKinds; the wrong length is an assertion failure.
   */
  function DecodeErrors(param: Bytes): (r: Result<map<Bytes, Bytes>>)
    ensures r.Ok? <==> |param| == 6 && forall i :: 0 <= i < 6 ==> param[i] in "012"
    ensures r.Ok? ==> r.value.Keys == {"fan", "lamp", "temperature", "cover", "filter", "other"}
    ensures IsAscii(param) && |param| != 6 ==> r == Err(AssertionError)
  {
    var text := DecodeAscii(param);
    if text.Err? then Err(ValueError)
    else if |param| != |ErrorKinds| then Err(AssertionError)
    else ErrorsFrom(ErrorKinds, param)
  }

  /** The (hours, on) pairs of a LAMP token list, one pair per two tokens. */
  function LampPairs(values: seq<Bytes>): (r: Result<seq<(int, bool)>>)
    requires |values| % 2 == 0
    ensures r.Ok? ==> |r.value| * 2 == |values|
    ensures r.Err? ==> r.error == ValueError
  {
    if values == [] then Ok([])
    else match (ParseInt(values[0]), ParseInt(values[1]))
      case (Some(hours), Some(state)) =>
        var rest := LampPairs(values[2..]);
        if rest.Err? then rest else Ok([(hours, state != 0)] + rest.value)
      case _ => Err(ValueError)
  }

  /** Every token is a number. */
  predicate AllNumbers(values: seq<Bytes>) {
    forall i :: 0 <= i < |values| ==> ParseInt(values[i]).Some?
  }

  /** The pairs decode exactly when every token is a number. */
  lemma {:induction false} LampPairsNumbers(values: seq<Bytes>)
    requires |values| % 2 == 0
    ensures LampPairs(values).Ok? <==> AllNumbers(values)
    decreases |values|
  {
    if values != [] {
      var later := values[2..];
      LampPairsNumbers(later);
      assert forall i :: 2 <= i < |values| ==> values[i] == later[i - 2];
      assert AllNumbers(values) <==>
        ParseInt(values[0]).Some? && ParseInt(values[1]).Some? && AllNumbers(later);
    }
  }

  /** Lamp j is (int(token 2j), int(token 2j + 1) != 0). */
  lemma {:induction false} LampPairsValues(values: seq<Bytes>)
    requires |values| % 2 == 0
    ensures LampPairs(values).Ok? ==> forall j :: 0 <= j < |values| / 2 ==>
      && ParseInt(values[2 * j]) == Some(LampPairs(values).value[j].0)
      && ParseInt(values[2 * j + 1]).Some?
      && LampPairs(values).value[j].1 == (ParseInt(values[2 * j + 1]).value != 0)
    decreases |values|
  {
    if values != [] && LampPairs(values).Ok? {
      var later := values[2..];
      LampPairsValues(later);
      forall j | 1 <= j < |values| / 2
        ensures LampPairs(values).value[j] == LampPairs(later).value[j - 1]
        ensures values[2 * j] == later[2 * (j - 1)] && values[2 * j + 1] == later[2 * (j - 1) + 1]
      {
      }
    }
  }

  /** `get_lamps` after the round trip: bounds, split on spaces, pairs. */
  function LampsSpec(param: Bytes): (r: Result<seq<(int, bool)>>)
    ensures r.Ok? ==> |param| <= 65 && 1 <= |r.value| <= 8
    ensures |param| > 65 ==> r == Err(AssertionError)
  {
    if |param| > 65 then Err(AssertionError)
    else if !IsAscii(param) then Err(ValueError)
    else
      var values := Split(param, ' ');
      if |values| > 16 || |values| % 2 != 0 then Err(AssertionError)
      else LampPairs(values)
  }

  /**
   * The checks of `get_lamps` after the length bound: non-ASCII text is a
   * ValueError, an odd or over-16 token count an AssertionError, and
   * otherwise the tokens are paired.
   */
  lemma LampsSpecCases(param: Bytes)
    requires |param| <= 65
    ensures !IsAscii(param) ==> LampsSpec(param) == Err(ValueError)
    ensures IsAscii(param) ==>
      var values := Split(param, ' ');
      && (|values| > 16 || |values| % 2 != 0 ==> LampsSpec(param) == Err(AssertionError))
      && (|values| <= 16 && |values| % 2 == 0 ==> LampsSpec(param) == LampPairs(values))
  {
  }

  /** One INST token: source digit then input number 1-9. */
  function InputToken(value: Bytes): (r: Result<(Bytes, int)>)
    ensures r.Ok? <==> |value| == 2 && value[0] in "12345" && value[1] in "123456789"
    ensures |value| != 2 ==> r == Err(ValueError)
    ensures |value| == 2 && value[0] !in "12345" ==> r == Err(KeyError)
    ensures |value| == 2 && value[0] in "12345" && value[1] !in "123456789" ==> r == Err(AssertionError)
    ensures r.Ok? ==>
      && Lookup(SourceTypes, r.value.0) == Some(value[..1])
      && r.value.1 == value[1] as int - '0' as int
  {
    if |value| != 2 then Err(ValueError)
    else
      SourceRevLookup(value[..1]);
      assert value[..1] == [value[0]];
      assert value[1..] == [value[1]];
      SingleCharSubstring(value[1], "123456789");
      ParseIntDigit(value[1]);
      match Lookup(SourceTypesRev, value[..1])
      case None => Err(KeyError)
      case Some(source) =>
        SourceTablesInverse(source, value[..1]);
        if !IsSubstring(value[1..], "123456789") then Err(AssertionError)
        else
          var n := ParseInt(value[1..]).value;
          Ok((source, n))
  }

  /** Token i is the first one of the list that does not decode. */
  predicate FirstBadToken(values: seq<Bytes>, i: int) {
    && 0 <= i < |values| && InputToken(values[i]).Err?
    && forall j :: 0 <= j < i ==> InputToken(values[j]).Ok?
  }

  /** The inputs of an INST token list, in order; the first bad token fails. */
  function InputTokens(values: seq<Bytes>): (r: Result<seq<(Bytes, int)>>)
    ensures r.Ok? ==> |r.value| == |values|
    ensures r.Ok? ==> forall i :: 0 <= i < |values| ==> InputToken(values[i]) == Ok(r.value[i])
  {
    if values == [] then Ok([])
    else
      var first := InputToken(values[0]);
      if first.Err? then Err(first.error)
      else
        var rest := InputTokens(values[1..]);
        if rest.Err? then rest
        else
          assert forall i :: 1 <= i < |values| ==> values[i] == values[1..][i - 1];
          Ok([first.value] + rest.value)
  }

  /**
   * The token list decodes exactly when every token does; otherwise the
   * error is that of the first token that does not.
   */
  lemma {:induction false} InputTokensFailure(values: seq<Bytes>)
    ensures InputTokens(values).Ok? <==> forall i :: 0 <= i < |values| ==> InputToken(values[i]).Ok?
    ensures InputTokens(values).Err? ==>
      exists i :: FirstBadToken(values, i) && InputTokens(values) == Err(InputToken(values[i]).error)
    decreases |values|
  {
    if values != [] {
      var later := values[1..];
      InputTokensFailure(later);
      assert forall i :: 1 <= i < |values| ==> values[i] == later[i - 1];
      if InputToken(values[0]).Err? {
        assert FirstBadToken(values, 0);
      } else if InputTokens(later).Err? {
        var i :| FirstBadToken(later, i) && InputTokens(later) == Err(InputToken(later[i]).error);
        assert FirstBadToken(values, i + 1);
      }
    }
  }

  /** `get_inputs` after the round trip: bounds, split on spaces, tokens. */
  function InputsSpec(param: Bytes): (r: Result<seq<(Bytes, int)>>)
    ensures r.Ok? ==> |param| <= 95 && 1 <= |r.value| <= 50
    ensures |param| > 95 ==> r == Err(AssertionError)
    ensures |param| <= 95 && !IsAscii(param) ==> r == Err(ValueError)
    ensures |param| <= 95 && IsAscii(param) ==>
      var values := Split(param, ' ');
      && (|values| > 50 ==> r == Err(AssertionError))
      && (|values| <= 50 ==> r == InputTokens(values))
  {
    if |param| > 95 then Err(AssertionError)
    else if !IsAscii(param) then Err(ValueError)
    else
      var values := Split(param, ' ');
      if |values| > 50 then Err(AssertionError)
      else InputTokens(values)
  }

  /**
   * The lamp decoding loop of `get_lamps`: token pairs become (hours, on)
   * pairs, in order.
   */
  method DecodeLamps(param: Bytes) returns (r: Result<seq<(int, bool)>>)
    ensures r == LampsSpec(param)
  {
    if |param| > 65 {
      return Err(AssertionError);
    }
    var text := DecodeAscii(param);
    if text.Err? {
      return Err(ValueError);
    }
    var values := Split(text.value, ' ');
    if |values| > 16 || |values| % 2 != 0 {
      return Err(AssertionError);
    }
    r := PairLoop(values);
  }

  /** The `for time, state in zip(...)` loop of `get_lamps`. */
  method PairLoop(values: seq<Bytes>) returns (r: Result<seq<(int, bool)>>)
    requires |values| % 2 == 0
    ensures r == LampPairs(values)
  {
    var lamps: seq<(int, bool)> := [];
    var i := 0;
    assert values[i..] == values;
    while i < |values|
      invariant 0 <= i <= |values| && i % 2 == 0
      invariant LampPairs(values) == Prepend(lamps, LampPairs(values[i..]))
    {
      EvenStep(i, |values|);
      LampPairsAt(values, i);
      var hours := ParseInt(values[i]);
      var state := ParseInt(values[i + 1]);
      if hours.None? || state.None? {
        return Err(ValueError);
      }
      var pair := (hours.value, state.value != 0);
      PrependStep(lamps, [pair], LampPairs(values[i + 2..]));
      lamps := lamps + [pair];
      i := i + 2;
    }
    assert values[i..] == [];
    PrependNothing(lamps);
    r := Ok(lamps);
  }

  /** Stepping through an even-length list two at a time stays in bounds. */
  lemma EvenStep(i: nat, n: nat)
    requires i % 2 == 0 && n % 2 == 0 && i < n
    ensures i + 2 <= n && (i + 2) % 2 == 0 && (n - (i + 2)) % 2 == 0
  {
  }

  /** The pairs from token i on: the pair at i, then the pairs from i + 2 on. */
  lemma LampPairsAt(values: seq<Bytes>, i: nat)
    requires |values| % 2 == 0 && i % 2 == 0 && i < |values|
    ensures LampPairs(values[i..]) ==
      match (ParseInt(values[i]), ParseInt(values[i + 1]))
      case (Some(hours), Some(state)) => Prepend([(hours, state != 0)], LampPairs(values[i + 2..]))
      case _ => Err(ValueError)
  {
    var rest := values[i..];
    assert rest[0] == values[i] && rest[1] == values[i + 1] && rest[2..] == values[i + 2..];
  }

  /** The input decoding loop of `get_inputs`. */
  method DecodeInputs(param: Bytes) returns (r: Result<seq<(Bytes, int)>>)
    ensures r == InputsSpec(param)
  {
    if |param| > 95 {
      return Err(AssertionError);
    }
    var text := DecodeAscii(param);
    if text.Err? {
      return Err(ValueError);
    }
    var values := Split(text.value, ' ');
    if |values| > 50 {
      return Err(AssertionError);
    }
    r := TokenLoop(values);
  }

  /** The `for value in values` loop of `get_inputs`. */
  method TokenLoop(values: seq<Bytes>) returns (r: Result<seq<(Bytes, int)>>)
    ensures r == InputTokens(values)
  {
    var inputs: seq<(Bytes, int)> := [];
    var i := 0;
    assert values[i..] == values;
    while i < |values|
      invariant 0 <= i <= |values|
      invariant InputTokens(values) == Prepend(inputs, InputTokens(values[i..]))
    {
      var rest := values[i..];
      assert rest[0] == values[i] && rest[1..] == values[i + 1..];
      var token := InputToken(values[i]);
      if token.Err? {
        return Err(token.error);
      }
      assert InputTokens(rest) == Prepend([token.value], InputTokens(values[i + 1..]));
      PrependStep(inputs, [token.value], InputTokens(values[i + 1..]));
      inputs := inputs + [token.value];
      i := i + 1;
    }
    assert values[i..] == [];
    PrependNothing(inputs);
    r := Ok(inputs);
  }

  /** Prefix a list of values already decoded to the decoding of the rest. */
  function Prepend<T>(done: seq<T>, rest: Result<seq<T>>): (r: Result<seq<T>>)
    ensures done == [] ==> r == rest
  {
    assert rest.Ok? ==> [] + rest.value == rest.value;
    if rest.Err? then rest else Ok(done + rest.value)
  }

  lemma PrependStep<T>(done: seq<T>, more: seq<T>, rest: Result<seq<T>>)
    ensures Prepend(done, Prepend(more, rest)) == Prepend(done + more, rest)
  {
    if rest.Ok? {
      assert done + (more + rest.value) == (done + more) + rest.value;
    }
  }

  lemma PrependNothing<T>(done: seq<T>)
    ensures Prepend(done, Ok([])) == Ok(done)
  {
    assert done + [] == done;
  }

  /** An identity string with its advisory length bound. */
  function Bounded(param: Bytes, bound: nat): (r: Result<Bytes>)
    ensures r.Ok? <==> |param| <= bound
    ensures r.Ok? ==> r.value == param
  {
    if |param| <= bound then Ok(param) else Err(AssertionError)
  }

  // ---------------------------------------------------------------------
  // Session operations, as exchanges over the unread bytes of the stream

  /** Run `k` on the result of an exchange (the stream effects are e's). */
  function Then<T, U>(e: Exchange<T>, k: T -> Result<U>): Exchange<U> {
    Exchange(if e.result.Ok? then k(e.result.value) else Err(e.result.error), e.consumed, e.sent)
  }

  /** `Projector.get(body)`: send `body ?`; ERRn becomes ProjectorError. */
  function GetExchange(body: Bytes, rest: Bytes): (e: Exchange<Bytes>)
    ensures ValidBody(body) ==> e.sent == [ToBinary(body, "?").value]
  {
    var s := SendCommandExchange(body, "?", rest);
    Exchange(
      if s.result.Err? then Err(s.result.error)
      else if !s.result.value.0 then Err(ProjectorError(s.result.value.1))
      else Ok(s.result.value.1),
      s.consumed, s.sent)
  }

  /** `Projector.set(body, param)`: ERRn becomes ProjectorError; anything but OK fails. */
  function SetExchange(body: Bytes, param: Bytes, rest: Bytes): (e: Exchange<()>)
    ensures ValidBody(body) && |param| <= 128 ==> e.sent == [ToBinary(body, param).value]
  {
    var s := SendCommandExchange(body, param, rest);
    Exchange(
      if s.result.Err? then Err(s.result.error)
      else if !s.result.value.0 then Err(ProjectorError(s.result.value.1))
      else if s.result.value.1 != "OK" then Err(AssertionError)
      else Ok(()),
      s.consumed, s.sent)
  }

  /**
   * `set_power(status, force)`: only off/on unless forced, checked before
   * anything is sent; a forced status sends its table code.
   */
  function SetPowerExchange(status: Bytes, force: bool, rest: Bytes): (e: Exchange<()>)
    ensures !force && status != "off" && status != "on" ==> e == Exchange(Err(ValueError), 0, [])
    ensures (force || status == "off" || status == "on") && Lookup(PowerStates, status).Some? ==>
      |e.sent| == 1 && ToBinary("POWR", Lookup(PowerStates, status).value) == Ok(e.sent[0])
    ensures force && Lookup(PowerStates, status).None? ==> e == Exchange(Err(KeyError), 0, [])
  {
    if !force && status != "off" && status != "on" then Exchange(Err(ValueError), 0, [])
    else match Lookup(PowerStates, status)
      case None => Exchange(Err(KeyError), 0, [])
      case Some(code) =>
        assert ValidBody("POWR") by { assert IsUpperChar("POWR"[0]); }
        SetExchange("POWR", code, rest)
  }

  /** Whether `set_input` lets the number through: `str(number) in '123456789'`. */
  predicate InputNumberAccepted(number: int) {
    IsSubstring(IntToStr(number), "123456789")
  }

  /**
   * `set_input(source, number)`: the source must be a key of SOURCE_TYPES
   * (case-sensitive) and `str(number)` a substring of '123456789'; then the
   * source digit and the number are sent.
   */
  function SetInputExchange(source: Bytes, number: int, rest: Bytes): (e: Exchange<()>)
    ensures Lookup(SourceTypes, source).None? ==> e == Exchange(Err(ValueError), 0, [])
    ensures !InputNumberAccepted(number) ==> e == Exchange(Err(ValueError), 0, [])
    ensures Lookup(SourceTypes, source).Some? && InputNumberAccepted(number) ==>
      e.sent == [ToBinary("INPT", Lookup(SourceTypes, source).value + IntToStr(number)).value]
  {
    match Lookup(SourceTypes, source)
      case None => Exchange(Err(ValueError), 0, [])
      case Some(code) =>
        var digits := IntToStr(number);
        if !IsSubstring(digits, "123456789") then Exchange(Err(ValueError), 0, [])
        else
          SubstringChars(digits, "123456789");
          assert ValidBody("INPT") by { assert IsUpperChar("INPT"[0]); }
          SetExchange("INPT", code + digits, rest)
  }

  /** `set_mute(what, state)`: what is 1 (video), 2 (audio) or 3 (both). */
  function SetMuteExchange(what: int, state: bool, rest: Bytes): (e: Exchange<()>)
    ensures what !in {MuteVideo, MuteAudio, MuteVideo + MuteAudio} ==> e == Exchange(Err(AssertionError), 0, [])
    ensures what in {1, 2, 3} ==>
      e.sent == [ToBinary("AVMT", [DigitChar(what)] + (if state then "1" else "0")).value]
  {
    if what !in {MuteVideo, MuteAudio, MuteVideo + MuteAudio} then Exchange(Err(AssertionError), 0, [])
    else
      assert IntToStr(what) == [DigitChar(what)];
      assert ValidBody("AVMT") by { assert IsUpperChar("AVMT"[0]); }
      SetExchange("AVMT", IntToStr(what) + (if state then "1" else "0"), rest)
  }

  function GetPowerExchange(rest: Bytes): Exchange<Bytes> {
    Then(GetExchange("POWR", rest), DecodePower)
  }

  function GetInputExchange(rest: Bytes): Exchange<(Bytes, int)> {
    Then(GetExchange("INPT", rest), DecodeInput)
  }

  function GetMuteExchange(rest: Bytes): Exchange<(bool, bool)> {
    Then(GetExchange("AVMT", rest), DecodeMute)
  }

  function GetErrorsExchange(rest: Bytes): Exchange<map<Bytes, Bytes>> {
    Then(GetExchange("ERST", rest), DecodeErrors)
  }

  function GetLampsExchange(rest: Bytes): Exchange<seq<(int, bool)>> {
    Then(GetExchange("LAMP", rest), LampsSpec)
  }

  function GetInputsExchange(rest: Bytes): Exchange<seq<(Bytes, int)>> {
    Then(GetExchange("INST", rest), InputsSpec)
  }

  /**
   * An info parameter: at most `bound` bytes, then decoded (as ASCII for
   * INF1, INF2 and INFO; NAME is decoded as UTF-8, which is not checked).
   */
  function DecodeInfo(param: Bytes, bound: nat, ascii: bool): (r: Result<Bytes>)
    ensures r.Ok? <==> |param| <= bound && (ascii ==> IsAscii(param))
    ensures r.Ok? ==> r.value == param
    ensures |param| > bound ==> r == Err(AssertionError)
  {
    var p := Bounded(param, bound);
    if p.Err? then Err(p.error)
    else if ascii then DecodeAscii(p.value)
    else Ok(p.value)
  }

  function GetNameExchange(rest: Bytes): Exchange<Bytes> {
    Then(GetExchange("NAME", rest), p => DecodeInfo(p, 64, false))
  }

  function GetManufacturerExchange(rest: Bytes): Exchange<Bytes> {
    Then(GetExchange("INF1", rest), p => DecodeInfo(p, 32, true))
  }

  function GetProductNameExchange(rest: Bytes): Exchange<Bytes> {
    Then(GetExchange("INF2", rest), p => DecodeInfo(p, 32, true))
  }

  function GetOtherInfoExchange(rest: Bytes): Exchange<Bytes> {
    Then(GetExchange("INFO", rest), p => DecodeInfo(p, 32, true))
  }

  // ---------------------------------------------------------------------
  // authenticate

  /** What `authenticate` returns: None, True or False in the source. */
  datatype AuthOutcome = NoAuth | Accepted | Rejected

  /** The greeting prefix, in either case. */
  predicate Greeting(data: Bytes) {
    Take(data, 7) == "PJLINK " || Take(data, 7) == "pjlink "
  }

  /**
   * After the challenge answer: `PJLINK ERRA\r` means the password was
   * refused; otherwise the answer to the `POWR ?` sent with the digest must
   * come back, and a device error in it is raised.
   */
  function AuthReplyExchange(rest: Bytes): (e: Exchange<AuthOutcome>)
    ensures e.sent == [] && e.consumed <= |rest|
    ensures e.result == Ok(Rejected) <==> Take(rest, 12) == "PJLINK ERRA\r"
    ensures e.result == Ok(Rejected) ==> e.consumed == 12
  {
    var data := Take(rest, 7);
    if data == "PJLINK " then
      var more := Take(rest[7..], 5);
      assert Take(rest, 12) == data + more by {
        if |rest| >= 12 { assert rest[..12] == rest[..7] + rest[7..][..5]; }
      }
      if data + more == "PJLINK ERRA\r" then Exchange(Ok(Rejected), 12, [])
      else Exchange(Err(AssertionError), 7 + |more|, [])
    else
      assert Take(rest, 12) != "PJLINK ERRA\r" by {
        if |rest| >= 12 { assert rest[..12][..7] == data; }
      }
      var p := ParseResponseExchange(data, rest[|data|..]);
      var result :=
        if p.result.Err? then Err(p.result.error)
        else if p.result.value.0 != "POWR" then Err(AssertionError)
        else if p.result.value.1 in Errors then Err(ProjectorError(Errors[p.result.value.1]))
        else Ok(Accepted);
      Exchange(result, |data| + p.consumed, [])
  }

  /** The `POWR ?` request that completes the handshake. */
  lemma PowerQuery()
    ensures ToBinary("POWR", "?") == Ok("%1POWR ?\r")
  {
    assert ValidBody("POWR") by { assert IsUpperChar("POWR"[0]); }
    assert "%1" + "POWR" + " " + "?" + "\r" == "%1POWR ?\r";
  }

  /**
   * `authenticate(get_password)` on the unread bytes `rest`: read the
   * 9-byte greeting `PJLINK 0\r` (no authentication) or `PJLINK 1 ` and the
   * 8-byte salt with `\r`; answer the challenge with md5(salt + password)
   * followed by a `POWR ?` request in one flushed write, and read the reply.
   */
  function AuthenticateExchange(rest: Bytes, password: Bytes, md5: Bytes -> HexDigest): (e: Exchange<AuthOutcome>)
    ensures e.consumed <= |rest|
  {
    var data := Take(rest, 9);
    if !Greeting(data) then Exchange(Err(AssertionError), |data|, [])
    else
      var security := Slice(data, 7, 8);
      if security == "0" then Exchange(Ok(NoAuth), |data|, [])
      else
        var full := data + Take(rest[|data|..], 9);
        if security != "1" || Slice(full, 8, 9) != " " || Drop(full, 17) != "\r" then
          Exchange(Err(AssertionError), |full|, [])
        else
          var salt := Slice(full, 9, 17);
          PowerQuery();
          var reply := AuthReplyExchange(rest[18..]);
          Exchange(reply.result, 18 + reply.consumed, [md5(salt + password) + ToBinary("POWR", "?").value])
  }

  // ---------------------------------------------------------------------
  // The client object

  /**
   * A PJLink client over a connected stream. Each method is specified by
   * the exchange function of the same operation on the stream's unread
   * bytes: it returns that exchange's result and has consumed and written
   * exactly what the exchange says.
   */
  class Projector {
    const f: Stream

    constructor (f: Stream)
      ensures this.f == f
    {
      this.f := f;
    }

    method Authenticate(password: Bytes, md5: Bytes -> HexDigest) returns (r: Result<AuthOutcome>)
      requires f.Valid()
      modifies f
      ensures var e := AuthenticateExchange(old(f.Remaining()), password, md5); r == e.result && Did(f, e)
    {
      ghost var rest := f.Remaining();
      var data := f.Read(9);
      if Take(data, 7) != "PJLINK " && Take(data, 7) != "pjlink " {
        return Err(AssertionError);
      }
      var security := Slice(data, 7, 8);
      if security == "0" {
        return Ok(NoAuth);
      }
      assert f.Remaining() == rest[|data|..];
      r := AnswerChallenge(rest, data, password, md5);
    }

    /**
     * The rest of `authenticate` once a greeting `data` asking for
     * authentication has been read off `rest`: read the salt, answer the
     * challenge and read the reply.
     */
    method AnswerChallenge(ghost rest: Bytes, data: Bytes, password: Bytes, md5: Bytes -> HexDigest)
      returns (r: Result<AuthOutcome>)
      requires f.Valid()
      requires data == Take(rest, 9) && Greeting(data) && Slice(data, 7, 8) != "0"
      requires f.Remaining() == rest[|data|..]
      modifies f
      ensures var e := AuthenticateExchange(rest, password, md5);
        && r == e.result && e.consumed >= |data|
        && Did(f, e.(consumed := e.consumed - |data|))
    {
      ghost var e := AuthenticateExchange(rest, password, md5);
      var security := Slice(data, 7, 8);
      var more := f.Read(9);
      var full := data + more;
      assert e.consumed == |full| || (|full| == 18 && e.consumed >= 18);
      if security != "1" {
        return Err(AssertionError);
      }
      if Slice(full, 8, 9) != " " {
        return Err(AssertionError);
      }
      var salt := Slice(full, 9, 17);
      if Drop(full, 17) != "\r" {
        return Err(AssertionError);
      }
      assert |full| == 18;
      var passData := md5(salt + password);
      PowerQuery();
      var cmd := ToBinary("POWR", "?");
      f.Write(passData + cmd.value);
      f.Flush();
      assert f.Remaining() == rest[18..];
      r := ReadAuthReply();
    }

    /** The second half of `authenticate`: read and judge the reply to the digest. */
    method ReadAuthReply() returns (r: Result<AuthOutcome>)
      requires f.Valid()
      modifies f
      ensures var e := AuthReplyExchange(old(f.Remaining())); r == e.result && Did(f, e)
    {
      ghost var rest := f.Remaining();
      var data := f.Read(7);
      if data == "PJLINK " {
        var more := f.Read(5);
        data := data + more;
        if data != "PJLINK ERRA\r" {
          return Err(AssertionError);
        }
        return Ok(Rejected);
      }
      assert f.Remaining() == rest[|data|..];
      var resp := ParseResponse(f, data);
      if resp.Err? {
        return Err(resp.error);
      }
      if resp.value.0 != "POWR" {
        return Err(AssertionError);
      }
      if resp.value.1 in Errors {
        return Err(ProjectorError(Errors[resp.value.1]));
      }
      r := Ok(Accepted);
    }

    method Get(body: Bytes) returns (r: Result<Bytes>)
      requires f.Valid()
      modifies f
      ensures var e := GetExchange(body, old(f.Remaining())); r == e.result && Did(f, e)
    {
      var s := SendCommand(f, body, "?");
      if s.Err? {
        return Err(s.error);
      }
      if !s.value.0 {
        return Err(ProjectorError(s.value.1));
      }
      r := Ok(s.value.1);
    }

    method Set(body: Bytes, param: Bytes) returns (r: Result<()>)
      requires f.Valid()
      modifies f
      ensures var e := SetExchange(body, param, old(f.Remaining())); r == e.result && Did(f, e)
    {
      var s := SendCommand(f, body, param);
      if s.Err? {
        return Err(s.error);
      }
      if !s.value.0 {
        return Err(ProjectorError(s.value.1));
      }
      if s.value.1 != "OK" {
        return Err(AssertionError);
      }
      r := Ok(());
    }

    method GetPower() returns (r: Result<Bytes>)
      requires f.Valid()
      modifies f
      ensures var e := GetPowerExchange(old(f.Remaining())); r == e.result && Did(f, e)
    {
      var p := Get("POWR");
      if p.Err? {
        return Err(p.error);
      }
      r := DecodePower(p.value);
    }

    method SetPower(status: Bytes, force: bool) returns (r: Result<()>)
      requires f.Valid()
      modifies f
      ensures var e := SetPowerExchange(status, force, old(f.Remaining())); r == e.result && Did(f, e)
    {
      if !force && status != "off" && status != "on" {
        return Err(ValueError);
      }
      var code := Lookup(PowerStates, status);
      if code.None? {
        return Err(KeyError);
      }
      r := Set("POWR", code.value);
    }

    method GetInput() returns (r: Result<(Bytes, int)>)
      requires f.Valid()
      modifies f
      ensures var e := GetInputExchange(old(f.Remaining())); r == e.result && Did(f, e)
    {
      var p := Get("INPT");
      if p.Err? {
        return Err(p.error);
      }
      r := DecodeInput(p.value);
    }

    method SetInput(source: Bytes, number: int) returns (r: Result<()>)
      requires f.Valid()
      modifies f
      ensures var e := SetInputExchange(source, number, old(f.Remaining())); r == e.result && Did(f, e)
    {
      var code := Lookup(SourceTypes, source);
      if code.None? {
        return Err(ValueError);
      }
      var digits := IntToStr(number);
      if !IsSubstring(digits, "123456789") {
        return Err(ValueError);
      }
      r := Set("INPT", code.value + digits);
    }

    method GetMute() returns (r: Result<(bool, bool)>)
      requires f.Valid()
      modifies f
      ensures var e := GetMuteExchange(old(f.Remaining())); r == e.result && Did(f, e)
    {
      var p := Get("AVMT");
      if p.Err? {
        return Err(p.error);
      }
      r := DecodeMute(p.value);
    }

    method SetMute(what: int, state: bool) returns (r: Result<()>)
      requires f.Valid()
      modifies f
      ensures var e := SetMuteExchange(what, state, old(f.Remaining())); r == e.result && Did(f, e)
    {
      if what !in {MuteVideo, MuteAudio, MuteVideo + MuteAudio} {
        return Err(AssertionError);
      }
      var code := IntToStr(what) + (if state then "1" else "0");
      r := Set("AVMT", code);
    }

    method GetErrors() returns (r: Result<map<Bytes, Bytes>>)
      requires f.Valid()
      modifies f
      ensures var e := GetErrorsExchange(old(f.Remaining())); r == e.result && Did(f, e)
    {
      var p := Get("ERST");
      if p.Err? {
        return Err(p.error);
      }
      r := DecodeErrors(p.value);
    }

    method GetLamps() returns (r: Result<seq<(int, bool)>>)
      requires f.Valid()
      modifies f
      ensures var e := GetLampsExchange(old(f.Remaining())); r == e.result && Did(f, e)
    {
      var p := Get("LAMP");
      if p.Err? {
        return Err(p.error);
      }
      r := DecodeLamps(p.value);
    }

    method GetInputs() returns (r: Result<seq<(Bytes, int)>>)
      requires f.Valid()
      modifies f
      ensures var e := GetInputsExchange(old(f.Remaining())); r == e.result && Did(f, e)
    {
      var p := Get("INST");
      if p.Err? {
        return Err(p.error);
      }
      r := DecodeInputs(p.value);
    }

    method GetName() returns (r: Result<Bytes>)
      requires f.Valid()
      modifies f
      ensures var e := GetNameExchange(old(f.Remaining())); r == e.result && Did(f, e)
    {
      var p := Get("NAME");
      if p.Err? {
        return Err(p.error);
      }
      r := DecodeInfo(p.value, 64, false);
    }

    method GetManufacturer() returns (r: Result<Bytes>)
      requires f.Valid()
      modifies f
      ensures var e := GetManufacturerExchange(old(f.Remaining())); r == e.result && Did(f, e)
    {
      var p := Get("INF1");
      if p.Err? {
        return Err(p.error);
      }
      r := DecodeInfo(p.value, 32, true);
    }

    method GetProductName() returns (r: Result<Bytes>)
      requires f.Valid()
      modifies f
      ensures var e := GetProductNameExchange(old(f.Remaining())); r == e.result && Did(f, e)
    {
      var p := Get("INF2");
      if p.Err? {
        return Err(p.error);
      }
      r := DecodeInfo(p.value, 32, true);
    }

    method GetOtherInfo() returns (r: Result<Bytes>)
      requires f.Valid()
      modifies f
      ensures var e := GetOtherInfoExchange(old(f.Remaining())); r == e.result && Did(f, e)
    {
      var p := Get("INFO");
      if p.Err? {
        return Err(p.error);
      }
      r := DecodeInfo(p.value, 32, true);
    }
  }
}
