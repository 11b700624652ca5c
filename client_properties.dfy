/**
 * Properties of the client session stated over the exchange functions: the
 * handshake's three outcomes and what `set_input` and `set_mute` accept.
 */
module ClientProperties {
  import opened Builtins
  import opened Protocol
  import opened Projector

  /** The greeting of a projector that asks for a password, with its salt. */
  function Challenge(salt: Bytes): Bytes {
    "PJLINK 1 " + salt + "\r"
  }

  /** A projector without authentication: the 9-byte greeting, nothing sent. */
  lemma AuthenticateWithoutPassword(tail: Bytes, password: Bytes, md5: Bytes -> HexDigest)
    ensures AuthenticateExchange("PJLINK 0\r" + tail, password, md5) == Exchange(Ok(NoAuth), 9, [])
    ensures AuthenticateExchange("pjlink 0\r" + tail, password, md5) == Exchange(Ok(NoAuth), 9, [])
  {
    var upper := "PJLINK 0\r" + tail;
    assert Take(upper, 9) == "PJLINK 0\r";
    assert Take(Take(upper, 9), 7) == "PJLINK ";
    assert Slice(Take(upper, 9), 7, 8) == "0";
    var lower := "pjlink 0\r" + tail;
    assert Take(lower, 9) == "pjlink 0\r";
    assert Take(Take(lower, 9), 7) == "pjlink ";
    assert Slice(Take(lower, 9), 7, 8) == "0";
  }

  /**
   * A well-formed challenge: the client consumes the 18-byte greeting and
   * sends, in one write, md5(salt + password) followed by `%1POWR ?\r`.
   */
  lemma AuthenticateAnswersChallenge(salt: Bytes, reply: Bytes, password: Bytes, md5: Bytes -> HexDigest)
    requires |salt| == 8
    ensures var e := AuthenticateExchange(Challenge(salt) + reply, password, md5);
      && e.sent == [md5(salt + password) + "%1POWR ?\r"]
      && e.consumed == 18 + AuthReplyExchange(reply).consumed
      && e.result == AuthReplyExchange(reply).result
  {
    var rest := Challenge(salt) + reply;
    var data := Take(rest, 9);
    assert data == "PJLINK 1 ";
    assert Take(data, 7) == "PJLINK ";
    assert Slice(data, 7, 8) == "1";
    var full := data + Take(rest[9..], 9);
    assert full == rest[..18];
    assert Slice(full, 8, 9) == " ";
    assert Drop(full, 17) == "\r";
    assert Slice(full, 9, 17) == salt;
    assert rest[18..] == reply;
    PowerQuery();
  }

  /**
   * The same for the lower-case greeting, which the client accepts too.
   */
  lemma AuthenticateAnswersLowerCaseChallenge(salt: Bytes, reply: Bytes, password: Bytes, md5: Bytes -> HexDigest)
    requires |salt| == 8
    ensures var e := AuthenticateExchange("pjlink 1 " + salt + "\r" + reply, password, md5);
      && e.sent == [md5(salt + password) + "%1POWR ?\r"]
      && e.consumed == 18 + AuthReplyExchange(reply).consumed
      && e.result == AuthReplyExchange(reply).result
  {
    var rest := "pjlink 1 " + salt + "\r" + reply;
    assert rest[..9] == "pjlink 1 " && rest[9..17] == salt && rest[17] == '\r' && rest[18..] == reply;
    ChallengeAnswered(rest, password, md5);
  }

  /**
   * Any well-formed challenge, in either case: flag `1`, a space, eight
   * salt bytes and CR. The client sends md5(salt + password) and the power
   * query in one write, then reads the reply.
   */
  lemma ChallengeAnswered(rest: Bytes, password: Bytes, md5: Bytes -> HexDigest)
    requires |rest| >= 18 && (rest[..7] == "PJLINK " || rest[..7] == "pjlink ")
    requires rest[7] == '1' && rest[8] == ' ' && rest[17] == '\r'
    ensures var e := AuthenticateExchange(rest, password, md5);
      && e.sent == [md5(rest[9..17] + password) + "%1POWR ?\r"]
      && e.consumed == 18 + AuthReplyExchange(rest[18..]).consumed
      && e.result == AuthReplyExchange(rest[18..]).result
  {
    var data := Take(rest, 9);
    assert Take(data, 7) == rest[..7];
    assert Slice(data, 7, 8) == "1";
    var full := data + Take(rest[9..], 9);
    assert full == rest[..18];
    assert Slice(full, 8, 9) == " ";
    assert Drop(full, 17) == "\r";
    assert Slice(full, 9, 17) == rest[9..17];
    PowerQuery();
  }

  /**
   * A challenge whose flag is neither 0 nor 1, whose ninth byte is not a
   * space, whose eighteenth byte is not CR, or that is cut short, fails an
   * assertion after the second read, with nothing sent.
   */
  lemma AuthenticateBadChallenge(rest: Bytes, password: Bytes, md5: Bytes -> HexDigest)
    requires Greeting(Take(rest, 9)) && Slice(Take(rest, 9), 7, 8) != "0"
    requires Slice(Take(rest, 9), 7, 8) != "1" || |rest| < 18 || rest[8] != ' ' || rest[17] != '\r'
    ensures AuthenticateExchange(rest, password, md5)
         == Exchange(Err(AssertionError), if |rest| < 18 then |rest| else 18, [])
  {
    var data := Take(rest, 9);
    var full := data + Take(rest[|data|..], 9);
    if |rest| >= 18 {
      assert full == rest[..18];
      assert Slice(full, 8, 9) == [rest[8]] && Drop(full, 17) == [rest[17]];
    } else {
      assert full == rest;
    }
  }

  /**
   * An input list naming a known source with number 0 or `Z` fails the
   * number assertion of `get_inputs`.
   */
  lemma InputsWithBadNumber()
    ensures InputsSpec("10") == Err(AssertionError)
    ensures InputsSpec("1Z") == Err(AssertionError)
  {
    SplitJoin(["10"], ' ');
    SplitJoin(["1Z"], ' ');
    assert IsAscii("10") && IsAscii("1Z");
  }

  /** A refused password: `PJLINK ERRA\r` after the digest gives False. */
  lemma AuthenticateRejected(salt: Bytes, tail: Bytes, password: Bytes, md5: Bytes -> HexDigest)
    requires |salt| == 8
    ensures AuthenticateExchange(Challenge(salt) + "PJLINK ERRA\r" + tail, password, md5)
         == Exchange(Ok(Rejected), 30, [md5(salt + password) + "%1POWR ?\r"])
  {
    var reply := "PJLINK ERRA\r" + tail;
    assert Challenge(salt) + "PJLINK ERRA\r" + tail == Challenge(salt) + reply;
    assert Take(reply, 12) == "PJLINK ERRA\r";
    AuthenticateAnswersChallenge(salt, reply, password, md5);
  }

  /**
   * An accepted password: the projector answers the `POWR ?` request; the
   * handshake gives True, unless that answer is a device error, which is
   * raised with its message.
   */
  lemma AuthenticateAccepted(salt: Bytes, param: Bytes, tail: Bytes, password: Bytes, md5: Bytes -> HexDigest)
    requires |salt| == 8 && '\r' !in param
    ensures var e := AuthenticateExchange(Challenge(salt) + ResponseLine("POWR", param) + tail, password, md5);
      && e.sent == [md5(salt + password) + "%1POWR ?\r"]
      && e.consumed == 26 + |param|
      && e.result == (if param in Errors then Err(ProjectorError(Errors[param])) else Ok(Accepted))
  {
    var line := ResponseLine("POWR", param) + tail;
    assert Challenge(salt) + ResponseLine("POWR", param) + tail == Challenge(salt) + line;
    AuthenticateAnswersChallenge(salt, line, password, md5);
    AuthReplyAnswered(param, tail);
  }

  /** The reply half of the handshake when the projector answers `POWR ?`. */
  lemma AuthReplyAnswered(param: Bytes, tail: Bytes)
    requires '\r' !in param
    ensures var e := AuthReplyExchange(ResponseLine("POWR", param) + tail);
      && e.consumed == 8 + |param|
      && e.result == (if param in Errors then Err(ProjectorError(Errors[param])) else Ok(Accepted))
  {
    var line := ResponseLine("POWR", param) + tail;
    assert Take(line, 7) == "%1POWR=";
    assert line[7..] == line[|Take(line, 7)|..];
    ParseResponsePrefetched("POWR", param, tail, 7);
    UpperOfUpper("POWR");
  }

  /** A greeting that is neither `PJLINK ` nor `pjlink ` fails before anything is sent. */
  lemma AuthenticateBadGreeting(rest: Bytes, password: Bytes, md5: Bytes -> HexDigest)
    requires !Greeting(Take(rest, 9))
    ensures AuthenticateExchange(rest, password, md5) == Exchange(Err(AssertionError), |Take(rest, 9)|, [])
  {
  }

  /** `set_input` lets every input number 1 to 9 through, and no number below 1. */
  lemma InputNumbersAccepted(number: int)
    ensures 1 <= number <= 9 ==> InputNumberAccepted(number)
    ensures number < 1 ==> !InputNumberAccepted(number)
  {
    var t := "123456789";
    if 1 <= number <= 9 {
      assert IntToStr(number) == [DigitChar(number)];
      assert t[number - 1..number] == IntToStr(number);
    } else if number < 0 {
      var s := IntToStr(number);
      if IsSubstring(s, t) {
        SubstringChars(s, t);
      }
    } else if number == 0 {
      assert IntToStr(0) == "0";
      SingleCharSubstring('0', t);
    }
  }

  /**
   * The check is a substring test on the decimal text, so some two-digit
   * numbers get through to the projector: 12 is sent, 10 and 13 are refused.
   */
  lemma InputNumberSubstringCheck()
    ensures InputNumberAccepted(12)
    ensures !InputNumberAccepted(10)
    ensures !InputNumberAccepted(13)
  {
    var t := "123456789";
    assert IntToStr(12) == "12";
    assert t[0..2] == "12";
    assert IntToStr(10) == "10";
    if IsSubstring("10", t) {
      SubstringChars("10", t);
    }
    assert IntToStr(13) == "13";
    forall i, j | 0 <= i <= j <= |t|
      ensures t[i..j] != "13"
    {
      if j == i + 2 {
        assert t[i..j][1] == t[i + 1];
      }
    }
  }

  /** A rejected `set_input` or `set_mute` argument sends nothing and reads nothing. */
  lemma SetValidationSendsNothing(source: Bytes, number: int, what: int, state: bool, rest: Bytes)
    ensures !InputNumberAccepted(number) ==> SetInputExchange(source, number, rest).sent == []
    ensures source !in ["RGB", "VIDEO", "DIGITAL", "STORAGE", "NETWORK"] ==>
      SetInputExchange(source, number, rest) == Exchange(Err(ValueError), 0, [])
    ensures what !in {1, 2, 3} ==> SetMuteExchange(what, state, rest) == Exchange(Err(AssertionError), 0, [])
  {
    SourceLookup(source);
  }
}
