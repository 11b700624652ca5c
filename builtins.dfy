/**
 * The small part of Python's built-in behaviour that the PJLink client and
 * its fake projector rely on: byte strings, the exceptions they raise, and
 * the string operations they call (`split`, `join`, `int`, `str`, `in`,
 * `upper`, `isupper`).
 *
 * A byte is modelled as a `char` (the client only ever sees ASCII on the
 * wire, and the fake projector decodes/encodes UTF-8 of ASCII text, which is
 * the identity), so `bytes` and `str` share the type `Bytes`.
 */
module Builtins {

  type Bytes = seq<char>

  datatype Option<T> = None | Some(value: T)

  /** The exceptions the modelled code raises. */
  datatype Error =
    | AssertionError            // a failed `assert`
    | ValueError                // `raise ValueError`, `int()` of a non-number, a bad unpacking
    | KeyError                  // a dictionary lookup of a missing key
    | ProjectorError(message: Bytes)  // the projector answered ERRn

  datatype Result<T> = Ok(value: T) | Err(error: Error)

  /** `s[:n]` in Python: at most the first n elements. */
  function Take(s: Bytes, n: nat): (r: Bytes)
    ensures |r| == if n <= |s| then n else |s|
    ensures r == s[..|r|]
  {
    if n <= |s| then s[..n] else s
  }

  /** `s[i:]` in Python: empty when i is past the end. */
  function Drop(s: Bytes, i: nat): (r: Bytes)
    ensures i <= |s| ==> r == s[i..]
    ensures i >= |s| ==> r == []
  {
    if i <= |s| then s[i..] else []
  }

  /** `s[i:j]` in Python, for i <= j. */
  function Slice(s: Bytes, i: nat, j: nat): (r: Bytes)
    requires i <= j
    ensures j <= |s| ==> r == s[i..j]
    ensures |r| <= j - i
    ensures j > |s| ==> r == Drop(s, i)
  {
    Take(Drop(s, i), j - i)
  }

  /**
   * The bytes before the first occurrence of `term`, or all of `s` when
   * `term` never occurs. The three postconditions characterise the result
   * uniquely (see TakeUntilUnique).
   */
  function TakeUntil(s: Bytes, term: char): (r: Bytes)
    ensures |r| <= |s| && r == s[..|r|]
    ensures term !in r
    ensures |r| < |s| ==> s[|r|] == term
  {
    if s == [] || s[0] == term then [] else [s[0]] + TakeUntil(s[1..], term)
  }

  lemma TakeUntilUnique(s: Bytes, term: char, r: Bytes)
    requires |r| <= |s| && r == s[..|r|]
    requires term !in r
    requires |r| < |s| ==> s[|r|] == term
    ensures TakeUntil(s, term) == r
  {
  }

  /** `term in s`, for a one-byte needle. */
  lemma TakeUntilWhole(s: Bytes, term: char)
    ensures (TakeUntil(s, term) == s) <==> term !in s
  {
  }

  /** Python's `sep.join(parts)` with a one-character separator. */
  function Join(parts: seq<Bytes>, sep: char): (r: Bytes)
    decreases |parts|
  {
    if parts == [] then []
    else if |parts| == 1 then parts[0]
    else parts[0] + [sep] + Join(parts[1..], sep)
  }

  /**
   * Python's `s.split(sep)` with a one-character separator: always at least
   * one piece (`''.split(' ') == ['']`), no piece holds the separator, and
   * joining the pieces again gives back `s`.
   */
  function Split(s: Bytes, sep: char): (r: seq<Bytes>)
    ensures |r| >= 1
    ensures forall i :: 0 <= i < |r| ==> sep !in r[i]
    ensures Join(r, sep) == s
    decreases |s|
  {
    var head := TakeUntil(s, sep);
    if |head| == |s| then [s]
    else
      var tail := Split(s[|head| + 1..], sep);
      assert s == head + [sep] + s[|head| + 1..];
      [head] + tail
  }

  /** Splitting is the inverse of joining pieces that hold no separator. */
  lemma {:induction false} SplitJoin(parts: seq<Bytes>, sep: char)
    requires |parts| >= 1
    requires forall i :: 0 <= i < |parts| ==> sep !in parts[i]
    ensures Split(Join(parts, sep), sep) == parts
    decreases |parts|
  {
    var s := Join(parts, sep);
    if |parts| == 1 {
      TakeUntilUnique(s, sep, parts[0]);
    } else {
      var rest := Join(parts[1..], sep);
      assert s == parts[0] + [sep] + rest;
      TakeUntilUnique(s, sep, parts[0]);
      assert s[|parts[0]| + 1..] == rest;
      SplitJoin(parts[1..], sep);
      assert parts == [parts[0]] + parts[1..];
    }
  }

  /** The length of a join: the pieces plus one separator between each two. */
  lemma {:induction false} JoinLength(parts: seq<Bytes>, sep: char, width: nat)
    requires |parts| >= 1
    requires forall i :: 0 <= i < |parts| ==> |parts[i]| <= width
    ensures |Join(parts, sep)| <= |parts| * (width + 1) - 1
    decreases |parts|
  {
    if |parts| > 1 {
      JoinLength(parts[1..], sep, width);
    }
  }

  function DigitChar(d: nat): (c: char)
    requires d < 10
    ensures '0' <= c <= '9'
  {
    (48 + d) as char
  }

  predicate IsDigit(c: char) {
    '0' <= c <= '9'
  }

  predicate AllDigits(s: Bytes) {
    forall i :: 0 <= i < |s| ==> IsDigit(s[i])
  }

  /** Python's `str(n)` for a non-negative integer. */
  function NatToStr(n: nat): (r: Bytes)
    ensures |r| >= 1
    ensures AllDigits(r)
    ensures n < 10 <==> |r| == 1
  {
    if n < 10 then [DigitChar(n)] else NatToStr(n / 10) + [DigitChar(n % 10)]
  }

  /** Python's `str(n)` for any integer. */
  function IntToStr(n: int): (r: Bytes)
    ensures |r| >= 1
    ensures n < 0 <==> r[0] == '-'
  {
    if n < 0 then "-" + NatToStr(-n) else NatToStr(n)
  }

  /** The value of a non-empty run of decimal digits, most significant first. */
  function DigitsValue(s: Bytes): (v: nat)
    requires AllDigits(s)
  {
    if s == [] then 0
    else
      assert IsDigit(s[|s| - 1]);
      DigitsValue(s[..|s| - 1]) * 10 + ((s[|s| - 1] as int) - 48)
  }

  /**
   * Python's `int(s)` on a token: an optional sign followed by at least one
   * decimal digit; anything else is refused here (None, for ValueError),
   * including surrounding whitespace and underscores, which `int()` accepts.
   */
  function ParseInt(s: Bytes): (r: Option<int>)
    ensures r.Some? ==> |s| >= 1
  {
    var neg := |s| > 0 && s[0] == '-';
    var digits := if |s| > 0 && (s[0] == '-' || s[0] == '+') then s[1..] else s;
    if digits != [] && AllDigits(digits) then
      var v: int := DigitsValue(digits);
      Some(if neg then -v else v)
    else None
  }

  lemma {:induction false} DigitsValueOfNatToStr(n: nat)
    ensures DigitsValue(NatToStr(n)) == n
  {
    if n >= 10 {
      var s := NatToStr(n);
      assert s[..|s| - 1] == NatToStr(n / 10);
      DigitsValueOfNatToStr(n / 10);
    }
  }

  /** `int(str(n)) == n`. */
  lemma ParseIntOfIntToStr(n: int)
    ensures ParseInt(IntToStr(n)) == Some(n)
  {
    var s := IntToStr(n);
    if n < 0 {
      assert s[1..] == NatToStr(-n);
      DigitsValueOfNatToStr(-n);
    } else {
      assert s == NatToStr(n);
      assert s[0] != '-' && s[0] != '+';
      DigitsValueOfNatToStr(n);
    }
  }

  /** `int(c)` of a single character: its digit value, or ValueError. */
  lemma ParseIntDigit(c: char)
    ensures IsDigit(c) ==> ParseInt([c]) == Some(c as int - '0' as int)
    ensures !IsDigit(c) ==> ParseInt([c]) == None
  {
    if IsDigit(c) {
      assert [c][..0] == [];
      assert AllDigits([c]);
      assert DigitsValue([c]) == c as int - 48;
    }
  }

  /** Python's `s in t` for strings: s occurs as a contiguous piece of t. */
  predicate IsSubstring(s: Bytes, t: Bytes) {
    exists i, j :: 0 <= i <= j <= |t| && t[i..j] == s
  }

  lemma SubstringChars(s: Bytes, t: Bytes)
    requires IsSubstring(s, t)
    ensures |s| <= |t|
    ensures forall k :: 0 <= k < |s| ==> s[k] in t
  {
    var i, j :| 0 <= i <= j <= |t| && t[i..j] == s;
    forall k | 0 <= k < |s| ensures s[k] in t {
      assert s[k] == t[i + k];
    }
  }

  /** A one-character string is a substring exactly when the character occurs. */
  lemma SingleCharSubstring(c: char, t: Bytes)
    ensures IsSubstring([c], t) <==> c in t
  {
    if c in t {
      var i :| 0 <= i < |t| && t[i] == c;
      assert t[i..i + 1] == [c];
    }
    if IsSubstring([c], t) {
      SubstringChars([c], t);
      assert [c][0] == c;
    }
  }

  predicate IsHexChar(c: char) {
    '0' <= c <= '9' || 'a' <= c <= 'f'
  }

  /** What `hashlib.md5(...).hexdigest()` returns: 32 lower-case hex digits. */
  type HexDigest = s: Bytes | |s| == 32 && forall i :: 0 <= i < |s| ==> IsHexChar(s[i])
    witness "00000000000000000000000000000000"

  /** ASCII upper-casing of one byte, as `bytes.upper()` does. */
  function UpperChar(c: char): (u: char)
    ensures 'a' <= c <= 'z' ==> 'A' <= u <= 'Z' && u as int == c as int - 32
    ensures !('a' <= c <= 'z') ==> u == c
  {
    if 'a' <= c <= 'z' then (c as int - 32) as char else c
  }

  /** `bytes.upper()`: every ASCII lower-case letter made upper-case. */
  function Upper(s: Bytes): (r: Bytes)
    ensures |r| == |s|
    ensures forall i :: 0 <= i < |s| ==> r[i] == UpperChar(s[i])
  {
    seq(|s|, i requires 0 <= i < |s| => UpperChar(s[i]))
  }

  predicate IsLowerChar(c: char) { 'a' <= c <= 'z' }
  predicate IsUpperChar(c: char) { 'A' <= c <= 'Z' }

  /**
   * `bytes.isupper()`: at least one cased (ASCII letter) byte and no
   * lower-case one.
   */
  predicate IsUpper(s: Bytes) {
    (exists i :: 0 <= i < |s| && IsUpperChar(s[i])) &&
    forall i :: 0 <= i < |s| ==> !IsLowerChar(s[i])
  }

  /** Upper-casing leaves an upper-case byte string as it is. */
  lemma UpperOfUpper(s: Bytes)
    requires forall i :: 0 <= i < |s| ==> !IsLowerChar(s[i])
    ensures Upper(s) == s
  {
  }
}
