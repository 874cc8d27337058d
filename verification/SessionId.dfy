/** Signed session ids: a random id, an optional unique id and a signature, joined by underscores.
    The signature (HMAC-SHA256 under the manager's secret, base64url-encoded) is an arbitrary
    function of the text it signs, and may itself contain underscores. */
module SessionId {
  import opened Wrappers
  import opened Strings

  const DELIMITER := '_'

  const LOWER := "abcdefghijklmnopqrstuvwxyz"
  const UPPER := "ABCDEFGHIJKLMNOPQRSTUVWXYZ"
  const DIGITS := "0123456789"
  const CHARSET := LOWER + UPPER + DIGITS

  type Signer = string -> string

  /** `OutOfRange` is the panic on a session id of exactly two parts. */
  datatype Verdict = Valid | BadShape | IdMismatch | BadSignature | OutOfRange

  // ---- Random ids ----

  lemma CharsetHasNoDelimiter()
    ensures DELIMITER !in CHARSET && |CHARSET| == 62
  {
    assert DELIMITER !in LOWER && |LOWER| == 26;
    assert DELIMITER !in UPPER && |UPPER| == 26;
    assert DELIMITER !in DIGITS && |DIGITS| == 10;
  }

  /** `s` holds the characters from `first` to `last`, in order. */
  predicate IsRange(s: string, first: char, last: char) {
    |s| == last as int - first as int + 1 && forall i :: 0 <= i < |s| ==> s[i] as int == first as int + i
  }

  lemma RangeHolds(s: string, first: char, last: char, c: char)
    requires IsRange(s, first, last)
    ensures c in s <==> first <= c <= last
  {
    if first <= c <= last {
      assert s[c as int - first as int] == c;
    }
  }

  lemma CharsetRanges()
    ensures IsRange(LOWER, 'a', 'z') && IsRange(UPPER, 'A', 'Z') && IsRange(DIGITS, '0', '9')
  {
  }

  lemma CharsetIsAlphanumeric(c: char)
    ensures c in CHARSET <==> 'a' <= c <= 'z' || 'A' <= c <= 'Z' || '0' <= c <= '9'
  {
    CharsetRanges();
    hide IsRange;
    RangeHolds(LOWER, 'a', 'z', c);
    RangeHolds(UPPER, 'A', 'Z', c);
    RangeHolds(DIGITS, '0', '9', c);
    assert c in CHARSET <==> c in LOWER || c in UPPER || c in DIGITS by {
      InThree(LOWER, UPPER, DIGITS, c);
    }
  }

  lemma InThree(a: string, b: string, d: string, c: char)
    ensures c in a + b + d <==> c in a || c in b || c in d
  {
  }

  /** Fills a buffer of `length` characters from the charset, one random draw each; `draws(i)` is
      none when the i-th draw fails. */
  method GenerateSecureId(length: nat, draws: nat -> Option<nat>) returns (id: Option<string>)
    requires forall i :: draws(i).Some? ==> draws(i).value < |CHARSET|
    ensures id.None? <==> exists i :: 0 <= i < length && draws(i).None?
    ensures id.Some? ==> |id.value| == length && '_' !in id.value
    ensures id.Some? ==> forall c | c in id.value :: 'a' <= c <= 'z' || 'A' <= c <= 'Z' || '0' <= c <= '9'
    ensures id.Some? ==> forall i :: 0 <= i < length ==> draws(i).Some? && id.value[i] == CHARSET[draws(i).value]
  {
    CharsetHasNoDelimiter();
    var result := new char[length](_ => 'a');
    for i := 0 to length
      invariant forall j :: 0 <= j < i ==> draws(j).Some? && result[j] == CHARSET[draws(j).value]
    {
      var index := draws(i);
      if index.None? {
        return None;
      }
      result[i] := CHARSET[index.value];
    }
    id := Some(result[..]);
    forall c | c in id.value ensures 'a' <= c <= 'z' || 'A' <= c <= 'Z' || '0' <= c <= '9' {
      CharsetIsAlphanumeric(c);
    }
  }

  // ---- Generate and verify ----

  function BaseString(randomId: string, uniqueId: Option<string>): string {
    randomId + [DELIMITER] + (if uniqueId.Some? then uniqueId.value else "")
  }

  /** `GenerateSessionId` for a given random id. */
  function Generate(sign: Signer, randomId: string, uniqueId: Option<string>): string {
    var base := BaseString(randomId, uniqueId);
    base + [DELIMITER] + sign(base)
  }

  function Verify(sign: Signer, sessionId: string, check: Option<string>): Verdict {
    var parts := SplitN(sessionId, DELIMITER, 3);
    if |parts| < 2 then BadShape
    else if |parts| == 2 then OutOfRange
    else
      var uniqueId := if parts[1] != "" then Some(parts[1]) else None;
      if check.Some? && (uniqueId.None? || uniqueId.value != check.value) then IdMismatch
      else if sign(BaseString(parts[0], uniqueId)) != parts[2] then BadSignature
      else Valid
  }

  /** `s` is the random id `r`, the unique id `u` and the signature of both. */
  ghost predicate Signed(sign: Signer, s: string, r: string, u: string) {
    '_' !in r && '_' !in u && s == r + "_" + u + "_" + sign(r + "_" + u)
  }

  lemma ThreeParts(r: string, u: string, rest: string)
    requires DELIMITER !in r && DELIMITER !in u
    ensures SplitN(r + [DELIMITER] + u + [DELIMITER] + rest, DELIMITER, 3) == [r, u, rest]
  {
    SplitNAfter(r, DELIMITER, u + [DELIMITER] + rest, 3);
    SplitNAfter(u, DELIMITER, rest, 2);
    assert r + [DELIMITER] + u + [DELIMITER] + rest == r + [DELIMITER] + (u + [DELIMITER] + rest);
    assert [u] + SplitN(rest, DELIMITER, 1) == [u, rest];
  }

  lemma TwoPartsRejoin(s: string)
    ensures var parts := SplitN(s, DELIMITER, 2);
            if DELIMITER in s then
              |parts| == 2 && DELIMITER !in parts[0] && s == parts[0] + [DELIMITER] + parts[1]
            else parts == [s]
  {
    if DELIMITER in s {
      var i := Index(s, DELIMITER);
      assert SplitN(s[i + 1..], DELIMITER, 1) == [s[i + 1..]];
      assert s == s[..i] + [DELIMITER] + s[i + 1..];
    }
  }

  /** The parts put together again give the string. */
  lemma PartsRejoin(s: string)
    ensures var parts := SplitN(s, DELIMITER, 3);
            match |parts|
            case 1 => DELIMITER !in s
            case 2 => DELIMITER !in parts[0] && DELIMITER !in parts[1] && s == parts[0] + [DELIMITER] + parts[1]
            case _ => DELIMITER !in parts[0] && DELIMITER !in parts[1] &&
                      s == parts[0] + [DELIMITER] + (parts[1] + [DELIMITER] + parts[2])
  {
    if DELIMITER in s {
      var i := Index(s, DELIMITER);
      var tail := s[i + 1..];
      assert s == s[..i] + [DELIMITER] + tail;
      assert SplitN(s, DELIMITER, 3) == [s[..i]] + SplitN(tail, DELIMITER, 2);
      hide SplitN;
      TwoPartsRejoin(tail);
    }
  }

  function Delimiters(s: string): nat {
    if s == "" then 0 else (if s[0] == DELIMITER then 1 else 0) + Delimiters(s[1..])
  }

  lemma {:induction false} DelimitersAfter(a: string, b: string)
    requires DELIMITER !in a
    ensures Delimiters(a + [DELIMITER] + b) == 1 + Delimiters(b)
    decreases |a|
  {
    var s := a + [DELIMITER] + b;
    if a == "" {
      assert s[1..] == b;
    } else {
      assert s[0] == a[0] && s[1..] == a[1..] + [DELIMITER] + b;
      DelimitersAfter(a[1..], b);
    }
  }

  lemma {:induction false} NoDelimiters(s: string)
    requires DELIMITER !in s
    ensures Delimiters(s) == 0
    decreases |s|
  {
    if s != "" {
      NoDelimiters(s[1..]);
    }
  }

  /** Verification, exactly, on every string: it panics on exactly one delimiter, refuses the shape
      on none, and otherwise accepts precisely the strings signed for some random and unique id,
      with the unique id that is asked for, if one is. */
  lemma VerifyExactly(sign: Signer, s: string, check: Option<string>)
    ensures Verify(sign, s, check) == OutOfRange <==> Delimiters(s) == 1
    ensures Verify(sign, s, check) == BadShape <==> Delimiters(s) == 0
    ensures Verify(sign, s, check) == Valid <==>
            exists r, u :: Signed(sign, s, r, u) && (check.Some? ==> u != "" && u == check.value)
    ensures Verify(sign, s, check) == IdMismatch <==>
            Delimiters(s) >= 2 && check.Some? && !(check.value != "" && HasSecond(s, check.value))
  {
    CountParts(s);
    SecondPart(s, if check.Some? then check.value else "");
    if Verify(sign, s, check) == Valid {
      AcceptedIsSigned(sign, s, check);
    }
    if r, u :| Signed(sign, s, r, u) && (check.Some? ==> u != "" && u == check.value) {
      SignedIsAccepted(sign, s, r, u, check);
    }
  }

  /** The text between the first two delimiters of `s` is `u`. */
  ghost predicate HasSecond(s: string, u: string) {
    '_' !in u && exists r, rest :: '_' !in r && s == r + "_" + u + "_" + rest
  }

  lemma SecondPart(s: string, u: string)
    ensures var parts := SplitN(s, DELIMITER, 3);
            |parts| == 3 ==> (HasSecond(s, u) <==> parts[1] == u)
  {
    PartsRejoin(s);
    var parts := SplitN(s, DELIMITER, 3);
    if |parts| == 3 && parts[1] == u {
      assert s == parts[0] + "_" + u + "_" + parts[2];
    }
    if HasSecond(s, u) {
      var r, rest :| '_' !in r && s == r + "_" + u + "_" + rest;
      ThreeParts(r, u, rest);
    }
  }

  lemma CountParts(s: string)
    ensures |SplitN(s, DELIMITER, 3)| == 1 <==> Delimiters(s) == 0
    ensures |SplitN(s, DELIMITER, 3)| == 2 <==> Delimiters(s) == 1
  {
    PartsRejoin(s);
    var parts := SplitN(s, DELIMITER, 3);
    hide SplitN, Delimiters;
    if |parts| == 1 {
      NoDelimiters(s);
    } else if |parts| == 2 {
      DelimitersAfter(parts[0], parts[1]);
      NoDelimiters(parts[1]);
    } else {
      var tail := parts[1] + [DELIMITER] + parts[2];
      assert s == parts[0] + [DELIMITER] + tail;
      DelimitersAfter(parts[0], tail);
      DelimitersAfter(parts[1], parts[2]);
    }
  }

  lemma AcceptedIsSigned(sign: Signer, s: string, check: Option<string>)
    requires Verify(sign, s, check) == Valid
    ensures exists r, u :: Signed(sign, s, r, u) && (check.Some? ==> u != "" && u == check.value)
  {
    PartsRejoin(s);
    var parts := SplitN(s, DELIMITER, 3);
    assert s == parts[0] + [DELIMITER] + parts[1] + [DELIMITER] + parts[2];
    assert Signed(sign, s, parts[0], parts[1]);
  }

  lemma SignedIsAccepted(sign: Signer, s: string, r: string, u: string, check: Option<string>)
    requires Signed(sign, s, r, u) && (check.Some? ==> u != "" && u == check.value)
    ensures Verify(sign, s, check) == Valid
  {
    ThreeParts(r, u, sign(r + [DELIMITER] + u));
  }

  // ---- The round trip ----

  /** Every signature has one length: 43 characters for 32 bytes in unpadded base64. */
  ghost predicate FixedLength(sign: Signer, n: nat) {
    forall text :: |sign(text)| == n
  }

  /** A unique id that survives the round trip: none, or non-empty without delimiter. */
  predicate Usable(uniqueId: Option<string>) {
    uniqueId.Some? ==> uniqueId.value != "" && '_' !in uniqueId.value
  }

  /** The parts in which verification sees a generated id: the unique id up to its first delimiter,
      and behind it whatever is left in front of the signature. */
  lemma GeneratedParts(sign: Signer, randomId: string, uniqueId: Option<string>)
    requires DELIMITER !in randomId
    ensures var u := if uniqueId.Some? then uniqueId.value else "";
            var signature := sign(BaseString(randomId, uniqueId));
            SplitN(Generate(sign, randomId, uniqueId), DELIMITER, 3) ==
            if DELIMITER !in u then [randomId, u, signature]
            else
              var i := Index(u, DELIMITER);
              [randomId, u[..i], u[i + 1..] + [DELIMITER] + signature]
  {
    var s := Generate(sign, randomId, uniqueId);
    var u := if uniqueId.Some? then uniqueId.value else "";
    var signature := sign(BaseString(randomId, uniqueId));
    if DELIMITER !in u {
      ThreeParts(randomId, u, signature);
    } else {
      var i := Index(u, DELIMITER);
      assert s == randomId + [DELIMITER] + u[..i] + [DELIMITER] + (u[i + 1..] + [DELIMITER] + signature);
      ThreeParts(randomId, u[..i], u[i + 1..] + [DELIMITER] + signature);
    }
  }

  /** A freshly generated id, verified for the unique id it was generated with, is accepted exactly
      when that unique id is usable. An empty one is taken for none, and one with a delimiter is
      cut there, so neither is the one asked for. */
  lemma GeneratedVerifies(sign: Signer, randomId: string, uniqueId: Option<string>)
    requires DELIMITER !in randomId
    ensures Verify(sign, Generate(sign, randomId, uniqueId), uniqueId) == Valid <==> Usable(uniqueId)
  {
    hide SplitN;
    GeneratedParts(sign, randomId, uniqueId);
  }

  /** Verified without asking for a unique id, it is accepted exactly when the unique id it was
      generated with has no delimiter: a delimiter lengthens the part taken for the signature. */
  lemma GeneratedVerifiesUnasked(sign: Signer, n: nat, randomId: string, uniqueId: Option<string>)
    requires FixedLength(sign, n) && DELIMITER !in randomId
    ensures Verify(sign, Generate(sign, randomId, uniqueId), None) == Valid <==>
            (uniqueId.Some? ==> '_' !in uniqueId.value)
  {
    hide SplitN;
    GeneratedParts(sign, randomId, uniqueId);
  }

  /** Generation is injective on usable ids, whatever the signatures. */
  lemma GenerateInjective(sign: Signer, r1: string, u1: Option<string>, r2: string, u2: Option<string>)
    requires DELIMITER !in r1 && DELIMITER !in r2 && Usable(u1) && Usable(u2)
    requires Generate(sign, r1, u1) == Generate(sign, r2, u2)
    ensures r1 == r2 && u1 == u2
  {
    var t1 := if u1.Some? then u1.value else "";
    var t2 := if u2.Some? then u2.value else "";
    ThreeParts(r1, t1, sign(BaseString(r1, u1)));
    ThreeParts(r2, t2, sign(BaseString(r2, u2)));
    assert [r1, t1, sign(BaseString(r1, u1))] == [r2, t2, sign(BaseString(r2, u2))];
    assert [r1, t1, sign(BaseString(r1, u1))][0] == r1 && [r1, t1, sign(BaseString(r1, u1))][1] == t1;
  }
}
