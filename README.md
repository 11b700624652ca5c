# PJLink class 1 client, modelled in Dafny

This project models the `pjlink` Python package: a client for the PJLink
class 1 protocol that controls network projectors. It also models the fake
projector the package's tests talk to. It covers four parts.

- **Wire codec** (`pjlink/protocol.py`, module `Protocol`):
  - `read_until` reads up to a one-byte terminator;
  - `to_binary` frames a request line `%1BODY PARAM\r`;
  - `parse_response` reads and checks a `%1BODY=PARAM\r` answer;
  - `send_command` does one request/answer round and maps `ERR1`..`ERR4` to their messages.

  The file-like object the code reads from and writes to is the class
  `Protocol.Stream`. It holds a fixed script of input bytes, a read cursor,
  a log of the writes and a flush count. Each method on it is proved equal
  to a pure "exchange" function of the unread input. That function gives
  the result, the number of bytes consumed and the writes made.
- **Client** (`pjlink/projector.py`, module `Projector`):
  - the lookup tables and their reverses (Python dicts are ordered lists of pairs here);
  - the MD5 challenge/response `authenticate`;
  - `get` and `set`;
  - the power, input, mute, error, lamp, input-list and information getters and setters, with their decoders.

  `Projector.Projector` is a class whose field is the stream. Each method is
  proved against its exchange function. The decoding loops of `get_lamps`
  and `get_inputs` are proved against recursive specifications.
- **Fake projector** (`tests/server.py`, module `FakeServer`):
  - the device object `FakeProjector`, whose handlers update its fields;
  - the session `FakeProjectorSession`, which buffers stdin and stdout, checks the digest, locks down on a wrong one, and dispatches each request line to a handler.

  Both are classes proved against pure step functions. `Device` holds the
  device state, `Session` the session state, and `DispatchStep`,
  `AnswerCommand`, `ServeAll`, `FlushSpec` and `ReadSpec` are the step
  functions.
- **Properties** (modules `ClientProperties`, `ServerProperties`, `RoundTrip`, `Conversation`):
  - the handshake outcomes;
  - the validation of settings;
  - the handlers keep the device valid and touch only their own state;
  - each answer of the fake projector decodes, on the client side, to the device's state;
  - wire-level conversations: a client request served by the fake session gives back the device's state, a set followed by a get reports the new setting, and the handshake succeeds against the session exactly when the digests agree.

`Builtins` holds the Python built-ins the code relies on. Bytes are
`seq<char>`. Exceptions are `Result` errors: `AssertionError`,
`ValueError`, `KeyError` and `ProjectorError(message)`.

## Model

| member | source | states |
|---|---|---|
| Builtins.Take | pjlink/projector.py:51 | reading n bytes yields the first min(n, available) bytes of the input |
| Builtins.Slice | pjlink/projector.py:53 | a Python slice `s[i:j]` is `s[i..j]` when in range and is cut short at the end otherwise |
| Builtins.TakeUntil | pjlink/protocol.py:1-8 | the bytes before the first terminator: a prefix of the input free of the terminator, followed in the input by the terminator unless the whole input was taken |
| Builtins.TakeUntilUnique | pjlink/protocol.py:1-8 | any prefix with those three properties is the one TakeUntil finds |
| Builtins.TakeUntilWhole | pjlink/protocol.py:5 | the whole input is taken exactly when it holds no terminator |
| Builtins.Split | pjlink/projector.py:165 | `str.split(sep)` gives at least one part, no part holds the separator, and joining the parts gives the input back |
| Builtins.SplitJoin | pjlink/projector.py:165 | splitting the join of separator-free parts gives those parts back |
| Builtins.JoinLength | tests/server.py:112-121 | joining k parts of at most w bytes gives at most k*(w+1)-1 bytes |
| Builtins.NatToStr | tests/server.py:119-129 | `str(n)` of a natural is a non-empty digit string, one digit exactly when n < 10 |
| Builtins.IntToStr | pjlink/projector.py:130 | `str(n)` is non-empty and starts with '-' exactly for negative n |
| Builtins.DigitsValueOfNatToStr | pjlink/projector.py:170 | reading back the digits of `str(n)` gives n |
| Builtins.ParseIntOfIntToStr | pjlink/projector.py:170 | `int(str(n)) == n` for every integer |
| Builtins.ParseIntDigit | pjlink/projector.py:190 | `int(c)` of one byte is its digit value for a digit and fails otherwise |
| Builtins.SubstringChars | pjlink/projector.py:130 | a substring is no longer than its host and every byte of it occurs in the host |
| Builtins.SingleCharSubstring | pjlink/projector.py:130 | a one-byte string is a substring exactly when that byte occurs in the host |
| Builtins.UpperChar | pjlink/protocol.py:35 | `upper()` maps a-z to A-Z and leaves every other byte alone |
| Builtins.Upper | pjlink/protocol.py:35 | `bytes.upper()` keeps the length and upper-cases byte by byte |
| Builtins.UpperOfUpper | pjlink/protocol.py:35 | upper-casing a body with no lower-case letter leaves it unchanged |
| Protocol.Stream.constructor | pjlink/protocol.py:1-62 | a fresh stream has read nothing, written nothing and flushed nothing |
| Protocol.Stream.Read | pjlink/protocol.py:4 | `f.read(n)` returns the next min(n, available) bytes and advances by that many |
| Protocol.Stream.Write | pjlink/protocol.py:54 | `f.write(data)` appends data to the write log and changes nothing else |
| Protocol.Stream.Flush | pjlink/protocol.py:55 | `f.flush()` marks every write so far as flushed |
| Protocol.ReadUntilExchange | pjlink/protocol.py:1-8 | a terminator of length other than one fails with AssertionError and reads nothing; otherwise the result is the input up to the first terminator, and the terminator is consumed when present |
| Protocol.ReadUntil | pjlink/protocol.py:1-8 | the method's result and its reads are those of ReadUntilExchange |
| Protocol.ReadThrough | pjlink/protocol.py:3-8 | the byte-at-a-time loop returns TakeUntil of the input and stops after the terminator |
| Protocol.ToBinary | pjlink/protocol.py:10-16 | succeeds exactly when the body is four bytes, passes `isupper()` and the parameter is at most 128 bytes (AssertionError otherwise); the line is `%1`, body, space, parameter, CR, byte for byte |
| Protocol.Header | pjlink/protocol.py:19-20 | bytes already read are topped up from the stream to seven bytes |
| Protocol.ParseResponseExchange | pjlink/protocol.py:18-43 | succeeds exactly when the seven-byte header is `%1????=`, otherwise ValueError; on success the body is the upper-cased header bytes 2-5 and the parameter is the following bytes up to CR, with the CR consumed |
| Protocol.ParseResponse | pjlink/protocol.py:18-43 | the method's result and its reads are those of ParseResponseExchange |
| Protocol.ReadHeader | pjlink/protocol.py:19-20 | reads exactly the bytes that complete the header |
| Protocol.Classify | pjlink/protocol.py:45-50 | a parameter is a device error exactly when it is ERR1..ERR4, and then its message from the ERRORS table replaces it: "undefined command", "out of parameter", "unavailable time", "projector failure"; any other parameter passes through |
| Protocol.SendCommandExchange | pjlink/protocol.py:52-62 | an unframeable request fails with AssertionError and sends nothing; otherwise exactly the framed request is sent |
| Protocol.SendCommand | pjlink/protocol.py:52-62 | the method's result, reads and writes are those of SendCommandExchange |
| Protocol.ParseResponseLine | pjlink/protocol.py:18-43 | a framed answer line parses to its upper-cased body and parameter and consumes that line and nothing after it |
| Protocol.ParseResponsePrefetchSame | pjlink/protocol.py:18-20 | passing the first k <= 7 bytes as already read gives the same result and k fewer bytes consumed |
| Protocol.ParseResponsePrefetched | pjlink/projector.py:72-81 | an answer line whose first bytes were read ahead still parses to its body and parameter |
| Protocol.ParseResponseRejectsLongPrefetch | pjlink/protocol.py:37-39 | more than seven bytes already read always fail the separator check |
| Protocol.SendCommandAnswered | pjlink/protocol.py:52-62 | against an answer line, send_command sends the request, consumes the line, and returns the classified parameter when the body matches and AssertionError when it does not |
| Projector.LookupFound | pjlink/projector.py:8-41 | a dict lookup finds a key exactly when some entry holds it, and returns the value of such an entry |
| Projector.ReverseDict | pjlink/projector.py:8 | the reversed table swaps each pair, in the same order |
| Projector.LookupAt | pjlink/projector.py:8-41 | with distinct keys, looking up an entry's key finds that entry's value |
| Projector.ReverseInverse | pjlink/projector.py:8 | with distinct keys and values, the reversed table maps v to k exactly when the table maps k to v |
| Projector.ReversedTables | pjlink/projector.py:16-41 | POWER_STATES_REV, SOURCE_TYPES_REV and ERROR_STATES_REV map each code back to its name |
| Projector.PowerLookup | pjlink/projector.py:10-15 | the power table maps off, on, cooling and warm-up to 0-3 and knows nothing else |
| Projector.PowerRevLookup | pjlink/projector.py:16 | the reversed power table maps 0-3 back to the four states |
| Projector.SourceLookup | pjlink/projector.py:18-24 | the source table maps RGB, VIDEO, DIGITAL, STORAGE and NETWORK to 1-5 |
| Projector.SourceRevLookup | pjlink/projector.py:25 | the reversed source table maps 1-5 back to the sources |
| Projector.ErrorLookup | pjlink/projector.py:36-40 | the severity table maps ok, warning and error to 0-2 |
| Projector.ErrorRevLookup | pjlink/projector.py:41 | the reversed severity table maps 0-2 back to the severities |
| Projector.MuteLookup | pjlink/projector.py:29-34 | the mute table maps 11, 21, 31 and 30 to (video, audio) flags |
| Projector.PowerTablesInverse | pjlink/projector.py:10-16 | the power table and its reverse are inverse |
| Projector.SourceTablesInverse | pjlink/projector.py:18-25 | the source table and its reverse are inverse |
| Projector.ErrorTablesInverse | pjlink/projector.py:36-41 | the severity table and its reverse are inverse |
| Projector.DecodeAscii | pjlink/projector.py:109 | `decode('ascii')` succeeds exactly on 7-bit bytes, unchanged, and fails with ValueError otherwise |
| Projector.DecodePower | pjlink/projector.py:108-110 | a power answer decodes exactly when it is 0-3, to the state whose code it is; other ASCII answers are a KeyError |
| Projector.DecodeInput | pjlink/projector.py:119-124 | an input answer decodes exactly when it is a source digit 1-5 followed by a digit, to that source and number |
| Projector.DecodeMute | pjlink/projector.py:137-139 | a mute answer decodes exactly when it is 11, 21, 31 or 30; other ASCII answers are a KeyError |
| Projector.ErrorsFrom | pjlink/projector.py:155-157 | the severities decode exactly when every digit is 0-2 (KeyError otherwise), giving one entry per subsystem |
| Projector.DecodeErrors | pjlink/projector.py:150-157 | an error answer decodes exactly when it is six digits 0-2, to a map over the six subsystems; another length is an AssertionError |
| Projector.LampPairs | pjlink/projector.py:168-172 | hour/state pairs decode to half as many lamps, and a non-number is a ValueError |
| Projector.LampPairsNumbers | pjlink/projector.py:168-172 | the pairs decode exactly when every token is a number |
| Projector.LampPairsValues | pjlink/projector.py:168-172 | lamp j is (int(token 2j), int(token 2j+1) != 0) |
| Projector.LampsSpec | pjlink/projector.py:161-175 | a lamp answer of more than 65 bytes is an AssertionError; a decoded answer has 1-8 lamps |
| Projector.LampsSpecCases | pjlink/projector.py:163-172 | within 65 bytes: non-ASCII is a ValueError, an odd or over-16 token count is an AssertionError, and otherwise the space-separated tokens are paired |
| Projector.DecodeLamps | pjlink/projector.py:161-175 | the method computes LampsSpec |
| Projector.PairLoop | pjlink/projector.py:168-172 | the pairing loop computes LampPairs |
| Projector.LampPairsAt | pjlink/projector.py:168-172 | one loop round: the pair at i is parsed and put before the lamps decoded from the rest, or fails with ValueError |
| Projector.InputToken | pjlink/projector.py:186-192 | one input token decodes exactly when it is a source digit 1-5 followed by a digit 1-9, to that source and number; a token not two bytes long is a ValueError, an unknown source digit a KeyError, and a known source with another number byte an AssertionError |
| Projector.InputTokens | pjlink/projector.py:186-192 | a decoded input list has one entry per token, each the decoding of its token |
| Projector.InputTokensFailure | pjlink/projector.py:186-192 | the list decodes exactly when every token does; otherwise the error is that of the first token that does not |
| Projector.InputsSpec | pjlink/projector.py:179-194 | an input-list answer of more than 95 bytes or more than 50 tokens is an AssertionError, non-ASCII text a ValueError, and otherwise the space-separated tokens are decoded; a decoded list has 1-50 entries |
| Projector.DecodeInputs | pjlink/projector.py:179-194 | the method computes InputsSpec |
| Projector.TokenLoop | pjlink/projector.py:186-192 | the token loop computes InputTokens |
| Projector.Bounded | pjlink/projector.py:198-216 | the length assertion of the information getters passes the parameter unchanged exactly when it holds |
| Projector.GetExchange | pjlink/projector.py:91-96 | get sends exactly the `BODY ?` request |
| Projector.SetExchange | pjlink/projector.py:98-104 | set sends exactly the `BODY PARAM` request |
| Projector.SetPowerExchange | pjlink/projector.py:112-115 | without force only on and off are accepted (ValueError, nothing sent, otherwise); an accepted state is sent as its code; an unknown state under force is a KeyError |
| Projector.SetInputExchange | pjlink/projector.py:126-133 | an unknown source or a number whose `str` is not a substring of 123456789 is a ValueError with nothing sent; otherwise the source digit and the number are sent |
| Projector.SetMuteExchange | pjlink/projector.py:141-146 | a selector other than 1, 2 or 3 is an AssertionError with nothing sent; otherwise the selector and 1 or 0 are sent |
| Projector.DecodeInfo | pjlink/projector.py:198-216 | an information answer passes exactly when within its length bound (and ASCII, for INF1, INF2 and INFO), unchanged; over the bound is an AssertionError |
| Projector.AuthReplyExchange | pjlink/projector.py:71-89 | the reply to the digest means a refusal exactly when it is `PJLINK ERRA\r`, which takes 12 bytes |
| Projector.PowerQuery | pjlink/projector.py:67 | the command sent with the digest is `%1POWR ?\r` |
| Projector.AuthenticateExchange | pjlink/projector.py:47-89 | the handshake never consumes more than is available |
| Projector.Projector.constructor | pjlink/projector.py:44-45 | a projector is bound to its stream |
| Projector.Projector.Authenticate | pjlink/projector.py:47-89 | the method's result, reads and writes are those of AuthenticateExchange |
| Projector.Projector.AnswerChallenge | pjlink/projector.py:56-89 | after the greeting, the rest of the handshake reads and writes what AuthenticateExchange prescribes |
| Projector.Projector.ReadAuthReply | pjlink/projector.py:71-89 | reading the reply to the digest follows AuthReplyExchange |
| Projector.Projector.Get | pjlink/projector.py:91-96 | get follows GetExchange |
| Projector.Projector.Set | pjlink/projector.py:98-104 | set follows SetExchange |
| Projector.Projector.GetPower | pjlink/projector.py:108-110 | get_power follows GetExchange on POWR, then DecodePower |
| Projector.Projector.SetPower | pjlink/projector.py:112-115 | set_power follows SetPowerExchange |
| Projector.Projector.GetInput | pjlink/projector.py:119-124 | get_input follows GetExchange on INPT, then DecodeInput |
| Projector.Projector.SetInput | pjlink/projector.py:126-133 | set_input follows SetInputExchange |
| Projector.Projector.GetMute | pjlink/projector.py:137-139 | get_mute follows GetExchange on AVMT, then DecodeMute |
| Projector.Projector.SetMute | pjlink/projector.py:141-146 | set_mute follows SetMuteExchange |
| Projector.Projector.GetErrors | pjlink/projector.py:150-157 | get_errors follows GetExchange on ERST, then DecodeErrors |
| Projector.Projector.GetLamps | pjlink/projector.py:161-175 | get_lamps follows GetExchange on LAMP, then LampsSpec |
| Projector.Projector.GetInputs | pjlink/projector.py:179-194 | get_inputs follows GetExchange on INST, then InputsSpec |
| Projector.Projector.GetName | pjlink/projector.py:198-201 | get_name follows GetExchange on NAME with a 64-byte bound |
| Projector.Projector.GetManufacturer | pjlink/projector.py:203-206 | get_manufacturer follows GetExchange on INF1 with a 32-byte ASCII bound |
| Projector.Projector.GetProductName | pjlink/projector.py:208-211 | get_product_name follows GetExchange on INF2 with a 32-byte ASCII bound |
| Projector.Projector.GetOtherInfo | pjlink/projector.py:213-216 | get_other_info follows GetExchange on INFO with a 32-byte ASCII bound |
| ClientProperties.AuthenticateWithoutPassword | pjlink/projector.py:51-55 | a `PJLINK 0` greeting in either case ends the handshake after nine bytes, sending nothing |
| ClientProperties.AuthenticateAnswersChallenge | pjlink/projector.py:56-81 | after a `PJLINK 1` challenge the client sends md5(salt + password) and the power query in one write, then reads the reply |
| ClientProperties.AuthenticateRejected | pjlink/projector.py:72-78 | an `ERRA` reply means the password was refused |
| ClientProperties.AuthenticateAccepted | pjlink/projector.py:81-89 | a power answer means the password was accepted, unless it is a device error, which is raised |
| ClientProperties.AuthReplyAnswered | pjlink/projector.py:81-89 | reading a power answer line after the digest consumes exactly that line |
| ClientProperties.AuthenticateAnswersLowerCaseChallenge | pjlink/projector.py:51-81 | a lower-case `pjlink 1` challenge is answered the same way |
| ClientProperties.ChallengeAnswered | pjlink/projector.py:51-81 | any well-formed challenge, in either case, is answered with md5(salt + password) and the power query in one write, where the salt is bytes 9-16 |
| ClientProperties.AuthenticateBadChallenge | pjlink/projector.py:56-60 | after the greeting, a flag other than 0 or 1, a ninth byte that is not a space, an eighteenth byte that is not CR, or a short challenge is an AssertionError after at most 18 bytes, with nothing sent |
| ClientProperties.AuthenticateBadGreeting | pjlink/projector.py:52 | a greeting not starting `PJLINK ` or `pjlink ` is an AssertionError with nothing sent |
| ClientProperties.InputNumbersAccepted | pjlink/projector.py:130 | numbers 1-9 pass the substring check and numbers below 1 do not |
| ClientProperties.InputNumberSubstringCheck | pjlink/projector.py:130 | the substring check also lets 12 through, and still refuses 10 and 13 |
| ClientProperties.InputsWithBadNumber | pjlink/projector.py:187-190 | an input list naming a known source with number 0 or `Z` fails the number assertion of `get_inputs` |
| ClientProperties.SetValidationSendsNothing | pjlink/projector.py:126-146 | set_input and set_mute send nothing when they refuse their arguments |
| FakeServer.ErrorDigits | tests/server.py:104-110 | the error answer has one digit per subsystem |
| FakeServer.LampTokens | tests/server.py:112-121 | the lamp answer has two tokens per lamp |
| FakeServer.InputTexts | tests/server.py:123-130 | the input-list answer has one token per input |
| FakeServer.ValidDevice | tests/server.py:14-48 | the states the handlers keep (known power, source and severities, lamp hours below 100000) |
| FakeServer.FakeProjector.constructor | tests/server.py:14-48 | a new fake projector is in the initial device state |
| FakeServer.FakeProjector.HandlePower | tests/server.py:50-61 | handle_power answers and updates power as PowerStep prescribes |
| FakeServer.FakeProjector.HandleInput | tests/server.py:63-79 | handle_input answers and updates the input as InputStep prescribes |
| FakeServer.FakeProjector.HandleMute | tests/server.py:81-102 | handle_mute answers and updates the mute flags as MuteStep prescribes |
| FakeServer.FakeProjector.HandleErrors | tests/server.py:104-110 | handle_errors answers as ErrorsStep prescribes and changes nothing |
| FakeServer.FakeProjector.HandleLamps | tests/server.py:112-121 | handle_lamps answers as LampsStep prescribes and changes nothing |
| FakeServer.FakeProjector.HandleInputs | tests/server.py:123-130 | handle_inputs answers as InputsStep prescribes and changes nothing |
| FakeServer.FakeProjector.HandleInfo | tests/server.py:132-143 | handle_info answers as InfoStep prescribes and changes nothing |
| FakeServer.ParseCommand | tests/server.py:221-223 | a request line that parses is `%1`, a four-byte body, a space and the parameter |
| FakeServer.AnswerCommand | tests/server.py:220-242 | answering one command only appends to stdout |
| FakeServer.ServeAll | tests/server.py:219-242 | serving keeps the digest and the lockdown flag, and a clean run leaves no complete line in stdin |
| FakeServer.ServeAllAppends | tests/server.py:242 | serving only appends to stdout |
| FakeServer.ServeAllUnfold | tests/server.py:219-220 | one loop round: the line before the first CR is answered, then the rest of stdin is served |
| FakeServer.FakeProjectorSession.constructor | tests/server.py:146-170 | the three authentication modes: no greeting and no digest, the `PJLINK 0` greeting, or the `PJLINK 1` challenge with md5(salt + password) expected |
| FakeServer.FakeProjectorSession.StdioClean | tests/server.py:172-174 | clean exactly when both buffers are empty |
| FakeServer.FakeProjectorSession.Write | tests/server.py:178-182 | write appends to stdin and answers nothing yet |
| FakeServer.FakeProjectorSession.Dispatch | tests/server.py:225-240 | the dispatch chain routes the body to its handler as DispatchStep prescribes |
| FakeServer.FakeProjectorSession.Flush | tests/server.py:197-242 | flush changes the session as FlushSpec prescribes |
| FakeServer.FakeProjectorSession.Serve | tests/server.py:219-242 | the command loop changes the session as ServeAll prescribes |
| FakeServer.FakeProjectorSession.Answer | tests/server.py:220-242 | one loop round changes the session as AnswerCommand prescribes |
| FakeServer.FakeProjectorSession.Read | tests/server.py:184-195 | read changes the session as ReadSpec prescribes |
| ServerProperties.InitialDeviceValid | tests/server.py:14-48 | the initial fake projector is a valid device |
| ServerProperties.ErrorDigitsDefined | tests/server.py:104-110 | every known severity has a digit, so the error answer never fails |
| ServerProperties.LampTokensDefined | tests/server.py:112-121 | lamps with hours below 100000 always render |
| ServerProperties.InputTextsDefined | tests/server.py:123-130 | inputs with known sources always render |
| ServerProperties.InputKeepsValid | tests/server.py:63-79 | handle_input on a valid device always answers and leaves it valid |
| ServerProperties.PowerKeepsValid | tests/server.py:50-61 | handle_power on a valid device always answers and leaves it valid |
| ServerProperties.MuteKeepsValid | tests/server.py:81-102 | handle_mute on a valid device always answers and leaves it valid |
| ServerProperties.DispatchKeepsValid | tests/server.py:225-240 | every request to a valid device is answered and leaves the device valid |
| ServerProperties.KnownBody | tests/server.py:225-238 | each body the fake projector knows can be framed by the client |
| ServerProperties.RoutePower | tests/server.py:225-226 | a POWR request goes to handle_power |
| ServerProperties.RouteInput | tests/server.py:227-228 | an INPT request goes to handle_input |
| ServerProperties.RouteMute | tests/server.py:229-230 | an AVMT request goes to handle_mute |
| ServerProperties.RouteErrors | tests/server.py:231-232 | an ERST request goes to handle_errors |
| ServerProperties.RouteLamps | tests/server.py:233-234 | a LAMP request goes to handle_lamps |
| ServerProperties.RouteInputs | tests/server.py:235-236 | an INST request goes to handle_inputs |
| ServerProperties.RouteInfo | tests/server.py:237-238 | NAME, INF1, INF2 and INFO requests go to handle_info |
| ServerProperties.PowerStepShape | tests/server.py:50-61 | handle_power changes at most the power state, and a query or an ERR2 changes nothing |
| ServerProperties.InputStepShape | tests/server.py:63-79 | handle_input changes at most the input, and a query or an ERR2 changes nothing |
| ServerProperties.MuteStepShape | tests/server.py:81-102 | handle_mute always answers, changes at most the mute flags, and a query or an ERR2 changes nothing |
| ServerProperties.HandlersTouchOnlyTheirState | tests/server.py:225-240 | only POWR, INPT and AVMT change the device, each only its own field; queries and ERR2 change nothing; an unknown body gets ERR1 |
| ServerProperties.PowerTransitions | tests/server.py:50-61 | power on from off gives warm-up and power off from on gives cooling; a device warming or cooling stays so |
| ServerProperties.InputSettingAccepted | tests/server.py:63-79 | an input setting is accepted exactly when it is a source digit 1-5 and a number digit 1-9; otherwise ERR2 and no change |
| ServerProperties.MuteSelectors | tests/server.py:81-102 | selector 1 sets video, 2 audio, 3 both, to the given state |
| ServerProperties.FlushWaitsForDigest | tests/server.py:199-202 | before 32 bytes of digest have arrived, flush does nothing |
| ServerProperties.FlushRejectsWrongDigest | tests/server.py:204-217 | a wrong digest is consumed, answered with `PJLINK ERRA\r` and locks the session down |
| ServerProperties.FlushAcceptsDigest | tests/server.py:204-242 | a right digest is consumed and the commands after it are served |
| ServerProperties.LockdownAnswersNothing | tests/server.py:216-217 | a locked-down session answers nothing, whatever arrives |
| ServerProperties.ParseRequestLine | tests/server.py:220-223 | the server parses a framed request back into its body and parameter |
| ServerProperties.ServeRequestLine | tests/server.py:219-242 | a request line at the head of stdin is answered with its handler's answer, then the rest is served |
| ServerProperties.ReadBuffered | tests/server.py:184-195 | a read of buffered bytes returns them without processing stdin, and a read without a count takes all of stdout |
| ServerProperties.ReadFlushesWhenShort | tests/server.py:188-195 | a read beyond the buffer flushes first and fails with AssertionError when still short |
| RoundTrip.NatToStrLength | tests/server.py:112-121 | a number below 10^k prints in at most k digits |
| RoundTrip.JoinDigitsText | tests/server.py:112-130 | joined digit tokens are digits and spaces only |
| RoundTrip.PowerQueryDecodes | pjlink/projector.py:108-110 | the fake projector's power answer decodes to its power state |
| RoundTrip.InputQueryDecodes | pjlink/projector.py:119-124 | the fake projector's input answer decodes to its input |
| RoundTrip.MuteQueryDecodes | pjlink/projector.py:137-139 | every mute answer of the fake projector decodes to its flags |
| RoundTrip.ErrorDigitsChars | tests/server.py:104-110 | the error answer is made of digits 0-2 |
| RoundTrip.ErrorDigitsDecode | pjlink/projector.py:155-157 | decoding the severity digits gives back the severities of the listed subsystems |
| RoundTrip.SelectAll | pjlink/projector.py:155-157 | selecting all six subsystems gives back the whole error map |
| RoundTrip.ErrorsQueryDecodes | pjlink/projector.py:150-157 | the fake projector's error answer decodes to its error map |
| RoundTrip.LampTokensDecode | pjlink/projector.py:168-172 | decoding the lamp tokens gives back the lamps |
| RoundTrip.LampTokensDigits | tests/server.py:112-121 | lamp tokens are digit strings |
| RoundTrip.LampTokensLength | tests/server.py:112-121 | n lamps render in at most 8n-1 bytes |
| RoundTrip.DigitTokensSplit | pjlink/projector.py:165 | splitting joined digit tokens on spaces gives them back, and the text is ASCII |
| RoundTrip.LampsQueryDecodes | pjlink/projector.py:161-175 | the lamp answer for 1-8 lamps decodes to those lamps |
| RoundTrip.InputTextDecodes | pjlink/projector.py:186-192 | one rendered input is a two-digit token decoding back to it |
| RoundTrip.InputTextsDecode | pjlink/projector.py:186-192 | decoding the rendered inputs gives them back |
| RoundTrip.InputTextsDigits | tests/server.py:123-130 | each rendered input is two digits |
| RoundTrip.InputsQueryDecodes | pjlink/projector.py:179-194 | the input-list answer for 1-32 inputs decodes to those inputs |
| Conversation.ServeOneRequest | tests/server.py:219-242 | a request framed by the client is answered with one answer line, its handler's answer |
| Conversation.GetAnswered | pjlink/projector.py:91-96 | get against an answer line returns the parameter, or raises the device error it names |
| Conversation.SetAnswered | pjlink/projector.py:98-104 | set against an answer line succeeds on OK, raises a device error, or fails its assertion on anything else |
| Conversation.AskDevice | pjlink/projector.py:91-96 | get against the fake projector returns the handler's answer and leaves the device unchanged |
| Conversation.GetPowerFromDevice | pjlink/projector.py:108-110 | get_power against the fake projector returns its power state |
| Conversation.GetInputFromDevice | pjlink/projector.py:119-124 | get_input against the fake projector returns its input |
| Conversation.GetMuteFromDevice | pjlink/projector.py:137-139 | get_mute against the fake projector returns its mute flags |
| Conversation.GetErrorsFromDevice | pjlink/projector.py:150-157 | get_errors against the fake projector returns its error map |
| Conversation.GetLampsFromDevice | pjlink/projector.py:161-175 | get_lamps against the fake projector returns its lamps |
| Conversation.GetInputsFromDevice | pjlink/projector.py:179-194 | get_inputs against the fake projector returns its inputs |
| Conversation.GetNameFromDevice | pjlink/projector.py:198-201 | get_name against the fake projector returns its name |
| Conversation.GetManufacturerFromDevice | pjlink/projector.py:203-206 | get_manufacturer returns the manufacturer |
| Conversation.GetProductNameFromDevice | pjlink/projector.py:208-211 | get_product_name returns the product name |
| Conversation.GetOtherInfoFromDevice | pjlink/projector.py:213-216 | get_other_info returns the other information |
| Conversation.SetPowerThenGetPower | pjlink/projector.py:108-115 | set_power is acknowledged; turning on moves an off device to warm-up, turning off moves an on device to cooling, any other state is unchanged; get_power then reports the resulting state |
| Conversation.SetInputThenGetInput | pjlink/projector.py:119-133 | set_input is acknowledged and get_input then reports the new input |
| Conversation.SetMuteThenGetMute | pjlink/projector.py:137-146 | set_mute is acknowledged, changes only the selected flags, and get_mute then reports them |
| Conversation.AuthenticateAgainstSession | pjlink/projector.py:47-89 | against a session expecting md5(salt + password), the handshake is accepted exactly when the digests agree and rejected (with the session locked down) exactly when they differ |
| Conversation.RejectedAgainstSession | tests/server.py:204-217 | a wrong digest makes the session answer ERRA, which the client reads as a refusal |
| Conversation.AcceptedAgainstSession | tests/server.py:204-242 | a right digest makes the session answer the power query, which the client reads as acceptance |
| Conversation.DigestTaken | tests/server.py:204-213 | once the digest is taken, the session serves the rest like a session without authentication |
| Conversation.DigestThenPowerQuery | tests/server.py:197-242 | a right digest followed by the power query is answered with the power state |

## Left out

- Sockets, the command-line tool and `make_request_handler` are not part of this model. The conversation is modelled by handing the bytes the client writes to the fake session directly.
- The stream the client reads is a fixed script of input bytes. Its answers cannot depend on what the client wrote. The Conversation lemmas connect the two sides explicitly.
- MD5 is a function parameter, not an implementation of the digest. Only its output shape (32 lower-case hex digits) is used.
- The `get_password` callback is modelled as the password value it returns.
- `to_binary`'s `sep` argument is always a space at every call site, so it is fixed to a space.
- `bytes.upper()` is modelled as ASCII upper-casing. Locale effects, noted in the source as a caveat, are not modelled.
- UTF-8 encoding and decoding of ASCII text are the identity. `get_name` decodes as UTF-8, and its rejection of malformed UTF-8 is not modelled.
- Text fields of the fake projector (name, manufacturer, product name, other information) and the salt and password stand for their UTF-8 bytes: each `char` is one byte. So Conversation.GetNameFromDevice's 64-character bound is the source's 64-byte bound on the encoded name; multi-byte characters are not modelled.
- `int()` is modelled on an optional sign followed by decimal digits. Its tolerance of surrounding whitespace and underscores is not modelled.
- Integers are unbounded, as in Python. No width or wrap-around applies.
- Projector.Projector.SetInput: the substring check is modelled as written, so 12 passes it (see ClientProperties.InputNumberSubstringCheck).
- Conversation.AuthenticateAgainstSession: the session is taken after the client has read the challenge, so its stdout starts empty.
- Projector.AuthenticateExchange: its own contract states only that it stays within the input. Its behaviour is stated by the ClientProperties lemmas (no password, well-formed or malformed challenge, bad greeting, refused or accepted reply) and the Conversation lemmas.
- Projector.LampsSpec: its own contract states the length bound and the lamp count. The case split of the remaining checks is stated by Projector.LampsSpecCases.
- FakeServer.FlushSpec, FakeServer.ReadSpec and the step functions (PowerStep, InputStep, MuteStep, ErrorsStep, LampsStep, InputsStep, InfoStep, DispatchStep) carry no contract of their own. ServerProperties and Conversation state their properties.
