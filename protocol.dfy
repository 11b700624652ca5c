/**
 * The PJLink class 1 framing codec: requests are `%1BODY PARAM\r`,
 * responses are `%1BODY=PARAM\r`, and a response parameter `ERR1`..`ERR4`
 * stands for one of four fixed device errors.
 *
 * The connection is a `Stream`: the bytes the peer sends (a fixed script),
 * a read cursor into them, the log of `write` calls and how many of those
 * have been flushed. Every operation that uses the stream is a method
 * specified by a pure function of the unread bytes that returns an
 * `Exchange`: the operation's result, how many bytes it consumed and what
 * it wrote.
 */
module Protocol {
  import opened Builtins

  /** What one operation on a stream did. */
  datatype Exchange<T> = Exchange(result: Result<T>, consumed: nat, sent: seq<Bytes>)

  class Stream {
    const input: Bytes
    var pos: nat
    var output: seq<Bytes>
    var flushed: nat

    ghost predicate Valid()
      reads this
    {
      pos <= |input| && flushed <= |output|
    }

    /** The bytes not yet read. */
    function Remaining(): Bytes
      reads this
      requires Valid()
    {
      input[pos..]
    }

    constructor (input: Bytes)
      ensures Valid()
      ensures this.input == input && pos == 0 && output == [] && flushed == 0
    {
      this.input := input;
      pos := 0;
      output := [];
      flushed := 0;
    }

    /** `f.read(n)`: up to n bytes, fewer only at the end of the input. */
    method Read(n: nat) returns (r: Bytes)
      requires Valid()
      modifies this`pos
      ensures Valid()
      ensures r == Take(old(Remaining()), n)
      ensures pos == old(pos) + |r|
    {
      r := Take(input[pos..], n);
      pos := pos + |r|;
    }

    method Write(data: Bytes)
      requires Valid()
      modifies this`output
      ensures Valid()
      ensures output == old(output) + [data]
    {
      output := output + [data];
    }

    method Flush()
      requires Valid()
      modifies this`flushed
      ensures Valid()
      ensures flushed == |output|
    {
      flushed := |output|;
    }
  }

  /**
   * The stream did exactly what exchange `e` describes: it consumed
   * `e.consumed` bytes, its write log grew by `e.sent`, and everything
   * written was flushed whenever something was written.
   */
  twostate predicate Did<T>(f: Stream, e: Exchange<T>)
    reads f
  {
    && f.Valid()
    && f.pos == old(f.pos) + e.consumed
    && f.output == old(f.output) + e.sent
    && f.flushed == (if e.sent == [] then old(f.flushed) else |f.output|)
  }

  // ---------------------------------------------------------------------
  // read_until

  /**
   * `read_until(f, term)` on unread bytes `rest`: the bytes before the
   * first terminator; the terminator itself is consumed too when present.
   * A terminator that is not exactly one byte fails before anything is read.
   */
  function ReadUntilExchange(rest: Bytes, term: Bytes): (e: Exchange<Bytes>)
    ensures e.sent == [] && e.consumed <= |rest|
    ensures |term| != 1 <==> e.result == Err(AssertionError)
    ensures |term| != 1 ==> e.consumed == 0
    ensures |term| == 1 ==>
      && e.result.Ok?
      && |e.result.value| <= |rest|
      && e.result.value == rest[..|e.result.value|]
      && term[0] !in e.result.value
      && (term[0] in rest <==> e.consumed == |e.result.value| + 1)
      && (term[0] in rest ==> rest[|e.result.value|] == term[0])
      && (term[0] !in rest ==> e.result.value == rest && e.consumed == |rest|)
  {
    if |term| != 1 then Exchange(Err(AssertionError), 0, [])
    else
      var data := TakeUntil(rest, term[0]);
      TakeUntilWhole(rest, term[0]);
      Exchange(Ok(data), if |data| < |rest| then |data| + 1 else |data|, [])
  }

  method ReadUntil(f: Stream, term: Bytes) returns (r: Result<Bytes>)
    requires f.Valid()
    modifies f
    ensures var e := ReadUntilExchange(old(f.Remaining()), term); r == e.result && Did(f, e)
  {
    if |term| != 1 {
      return Err(AssertionError);
    }
    var data := ReadThrough(f, term);
    r := Ok(data);
  }

  /** The byte-at-a-time loop of `read_until`, for a one-byte terminator. */
  method ReadThrough(f: Stream, term: Bytes) returns (data: Bytes)
    requires f.Valid() && |term| == 1
    modifies f`pos
    ensures f.Valid()
    ensures data == TakeUntil(old(f.Remaining()), term[0])
    ensures f.pos == old(f.pos) + ReadUntilExchange(old(f.Remaining()), term).consumed
  {
    ghost var rest := f.Remaining();
    ghost var start := f.pos;
    data := [];
    var c := f.Read(1);
    while c != [] && c != term
      invariant f.Valid()
      invariant start + |data| + |c| == f.pos
      invariant data + c == rest[..f.pos - start]
      invariant |c| <= 1 && (c == [] ==> f.pos == |f.input|)
      invariant term[0] !in data
      decreases |f.input| - f.pos + |c|
    {
      data := data + c;
      c := f.Read(1);
    }
    if c == [] {
      assert data == rest;
    } else {
      assert rest[|data|] == term[0];
    }
    TakeUntilUnique(rest, term[0], data);
  }

  // ---------------------------------------------------------------------
  // to_binary

  /** The shape `to_binary` demands of a request body. */
  predicate ValidBody(body: Bytes) {
    IsUpper(body) && |body| == 4
  }

  /**
   * `to_binary(body, param)`: the request line `%1` + body + ` ` + param +
   * `\r`; an assertion fails unless the body is four upper-case bytes and
   * the parameter at most 128 bytes.
   */
  function ToBinary(body: Bytes, param: Bytes): (r: Result<Bytes>)
    ensures r.Ok? <==> ValidBody(body) && |param| <= 128
    ensures r.Err? ==> r.error == AssertionError
    ensures r.Ok? ==>
      && |r.value| == 8 + |param|
      && r.value[..2] == "%1" && r.value[2..6] == body && r.value[6] == ' '
      && r.value[7..7 + |param|] == param && r.value[7 + |param|] == '\r'
  {
    if !IsUpper(body) || |body| != 4 || |param| > 128 then Err(AssertionError)
    else Ok("%1" + body + " " + param + "\r")
  }

  // ---------------------------------------------------------------------
  // parse_response

  /** The 7-byte header: the prefetched bytes, topped up from the stream. */
  function Header(data: Bytes, rest: Bytes): (h: Bytes)
    ensures |data| < 7 ==> h == data + Take(rest, 7 - |data|)
    ensures |data| >= 7 ==> h == data
  {
    if |data| < 7 then data + Take(rest, 7 - |data|) else data
  }

  /** `%`, the class digit `1`, a four-byte body and `=`. */
  predicate WellFormedHeader(h: Bytes) {
    |h| == 7 && h[0] == '%' && h[1] == '1' && h[6] == '='
  }

  /**
   * `parse_response(f, data)` on unread bytes `rest`, given `data` already
   * read by the caller: fails with ValueError unless the header is
   * well-formed; otherwise the upper-cased body and the parameter up to the
   * next `\r`.
   */
  function ParseResponseExchange(data: Bytes, rest: Bytes): (e: Exchange<(Bytes, Bytes)>)
    ensures e.sent == [] && e.consumed <= |rest|
    ensures e.result.Ok? <==> WellFormedHeader(Header(data, rest))
    ensures e.result.Err? ==> e.result.error == ValueError
    ensures e.result.Err? ==> e.consumed == |Header(data, rest)| - |data|
    ensures e.result.Ok? ==>
      var k := 7 - |data|;
      var param := e.result.value.1;
      && e.result.value.0 == Upper(Header(data, rest)[2..6])
      && k + |param| <= |rest|
      && param == rest[k..k + |param|]
      && '\r' !in param
      && (k + |param| < |rest| ==> rest[k + |param|] == '\r')
      && e.consumed == k + |param| + (if '\r' in rest[k..] then 1 else 0)
  {
    var header := Header(data, rest);
    var k := |header| - |data|;
    if |header| < 1 || header[0] != '%' then Exchange(Err(ValueError), k, [])
    else if |header| < 2 || header[1] != '1' then Exchange(Err(ValueError), k, [])
    else if |header| != 7 || header[6] != '=' then Exchange(Err(ValueError), k, [])
    else
      var body := Upper(header[2..6]);
      var param := ReadUntilExchange(rest[k..], "\r");
      Exchange(Ok((body, param.result.value)), k + param.consumed, [])
  }

  method ParseResponse(f: Stream, data: Bytes) returns (r: Result<(Bytes, Bytes)>)
    requires f.Valid()
    modifies f
    ensures var e := ParseResponseExchange(data, old(f.Remaining())); r == e.result && Did(f, e)
  {
    ghost var rest := f.Remaining();
    var header := ReadHeader(f, data);
    if |header| < 1 || header[0] != '%' {
      return Err(ValueError);
    }
    if |header| < 2 || header[1] != '1' {
      return Err(ValueError);
    }
    if |header| != 7 || header[6] != '=' {
      return Err(ValueError);
    }
    assert f.Remaining() == rest[|header| - |data|..];
    var body := Upper(header[2..6]);
    var param := ReadUntil(f, "\r");
    r := Ok((body, param.value));
  }

  /** The header read of `parse_response`: tops `data` up to seven bytes. */
  method ReadHeader(f: Stream, data: Bytes) returns (header: Bytes)
    requires f.Valid()
    modifies f`pos
    ensures f.Valid()
    ensures header == Header(data, old(f.Remaining()))
    ensures f.pos == old(f.pos) + |header| - |data|
  {
    header := data;
    if |data| < 7 {
      var more := f.Read(7 - |data|);
      header := data + more;
    }
  }

  // ---------------------------------------------------------------------
  // ERRORS and send_command

  /** The four device error codes and their messages. */
  const Errors: map<Bytes, Bytes> := map[
    "ERR1" := "undefined command",
    "ERR2" := "out of parameter",
    "ERR3" := "unavailable time",
    "ERR4" := "projector failure"
  ]

  /** How `send_command` classifies a response parameter. */
  function Classify(param: Bytes): (r: (bool, Bytes))
    ensures !r.0 <==> param in {"ERR1", "ERR2", "ERR3", "ERR4"}
    ensures r.0 ==> r.1 == param
    ensures !r.0 ==> r.1 == Errors[param]
    ensures param == "ERR1" ==> r == (false, "undefined command")
    ensures param == "ERR2" ==> r == (false, "out of parameter")
    ensures param == "ERR3" ==> r == (false, "unavailable time")
    ensures param == "ERR4" ==> r == (false, "projector failure")
  {
    if param in Errors then (false, Errors[param]) else (true, param)
  }

  /**
   * `send_command(f, body, param)`: write and flush the request line, read
   * the response, check that it echoes the request body, and classify its
   * parameter.
   */
  function SendCommandExchange(body: Bytes, param: Bytes, rest: Bytes): (e: Exchange<(bool, Bytes)>)
    ensures ToBinary(body, param).Err? ==> e == Exchange(Err(AssertionError), 0, [])
    ensures ToBinary(body, param).Ok? ==> e.sent == [ToBinary(body, param).value]
    ensures e.consumed <= |rest|
  {
    var frame := ToBinary(body, param);
    if frame.Err? then Exchange(Err(AssertionError), 0, [])
    else
      var p := ParseResponseExchange([], rest);
      var result :=
        if p.result.Err? then Err(p.result.error)
        else if p.result.value.0 != body then Err(AssertionError)
        else Ok(Classify(p.result.value.1));
      Exchange(result, p.consumed, [frame.value])
  }

  method SendCommand(f: Stream, body: Bytes, param: Bytes) returns (r: Result<(bool, Bytes)>)
    requires f.Valid()
    modifies f
    ensures var e := SendCommandExchange(body, param, old(f.Remaining())); r == e.result && Did(f, e)
  {
    var data := ToBinary(body, param);
    if data.Err? {
      return Err(AssertionError);
    }
    f.Write(data.value);
    f.Flush();
    var resp := ParseResponse(f, []);
    if resp.Err? {
      return Err(resp.error);
    }
    var (respBody, respParam) := resp.value;
    if respBody != body {
      return Err(AssertionError);
    }
    if respParam in Errors {
      return Ok((false, Errors[respParam]));
    }
    r := Ok((true, respParam));
  }

  // ---------------------------------------------------------------------
  // Properties

  /** The response line a peer sends: `%1` + body + `=` + param + `\r`. */
  function ResponseLine(body: Bytes, param: Bytes): Bytes {
    "%1" + body + "=" + param + "\r"
  }

  /**
   * A framed response line parses to its upper-cased body and its parameter,
   * consuming the line and nothing after it.
   */
  lemma ParseResponseLine(body: Bytes, param: Bytes, tail: Bytes)
    requires |body| == 4 && '\r' !in param
    ensures ParseResponseExchange([], ResponseLine(body, param) + tail)
         == Exchange(Ok((Upper(body), param)), 8 + |param|, [])
  {
    var head := "%1" + body + "=";
    var rest := ResponseLine(body, param) + tail;
    assert rest == head + (param + "\r" + tail);
    var header := Header([], rest);
    assert header == head;
    assert header[2..6] == body;
    assert WellFormedHeader(header);
    var after := param + "\r" + tail;
    assert rest[7..] == after;
    TakeUntilUnique(after, '\r', param);
    assert after[|param|] == '\r';
    var p := ReadUntilExchange(after, "\r");
    assert p.result == Ok(param) && p.consumed == |param| + 1;
  }

  /**
   * Prefetching: handing `parse_response` the first k <= 7 bytes of the
   * stream gives the same result as letting it read them itself, and only
   * 7 - k more header bytes are read.
   */
  lemma ParseResponsePrefetchSame(line: Bytes, k: nat)
    requires k <= 7 && k <= |line|
    ensures var e := ParseResponseExchange([], line);
      var p := ParseResponseExchange(line[..k], line[k..]);
      p.result == e.result && p.consumed + k == e.consumed
  {
    var rest := line[k..];
    assert Header(line[..k], rest) == Header([], line) by {
      if |line| >= 7 {
        assert line[..k] + rest[..7 - k] == line[..7];
      } else {
        assert line[..k] + rest == line;
      }
    }
    if |line| >= 7 {
      assert rest[7 - k..] == line[7..];
    }
  }

  /** The same line, with the first k header bytes already read by the caller. */
  lemma ParseResponsePrefetched(body: Bytes, param: Bytes, tail: Bytes, k: nat)
    requires |body| == 4 && '\r' !in param && k <= 7
    ensures var line := ResponseLine(body, param) + tail;
      ParseResponseExchange(line[..k], line[k..])
        == Exchange(Ok((Upper(body), param)), 8 + |param| - k, [])
  {
    ParseResponseLine(body, param, tail);
    ParseResponsePrefetchSame(ResponseLine(body, param) + tail, k);
  }

  /** More than seven prefetched bytes can never form a valid header. */
  lemma ParseResponseRejectsLongPrefetch(data: Bytes, rest: Bytes)
    requires |data| > 7
    ensures ParseResponseExchange(data, rest) == Exchange(Err(ValueError), 0, [])
  {
  }

  /**
   * `send_command` against a peer that answers with a framed line: the
   * request goes out once, the line is consumed, and the answer is
   * classified; an answer for another body is a protocol error.
   */
  lemma SendCommandAnswered(body: Bytes, param: Bytes, respBody: Bytes, reply: Bytes, tail: Bytes)
    requires ValidBody(body) && |param| <= 128
    requires |respBody| == 4 && '\r' !in reply
    ensures var e := SendCommandExchange(body, param, ResponseLine(respBody, reply) + tail);
      && e.sent == [ToBinary(body, param).value]
      && e.consumed == 8 + |reply|
      && (Upper(respBody) == body ==> e.result == Ok(Classify(reply)))
      && (Upper(respBody) != body ==> e.result == Err(AssertionError))
  {
    ParseResponseLine(respBody, reply, tail);
  }
}
