/** The string keys the user service files its cache entries under:
    "User_{id}" for one user and "AllUsers" for the whole list. The id is
    written in decimal with a leading '-' when negative. `ParseUserKey` is
    the inverse of `UserKey`, which is how distinct ids are shown to give
    distinct keys. */
module CacheKeys {
  import opened Wrappers

  const AllUsersKey: string := "AllUsers"
  const UserKeyPrefix: string := "User_"

  predicate IsDigit(c: char)
  {
    '0' <= c <= '9'
  }

  predicate AllDigits(s: string)
  {
    forall i :: 0 <= i < |s| ==> IsDigit(s[i])
  }

  function DigitChar(d: int): (c: char)
    requires 0 <= d < 10
    ensures IsDigit(c)
  {
    (48 + d) as char
  }

  function DigitValue(c: char): (d: int)
    requires IsDigit(c)
    ensures 0 <= d < 10
    ensures DigitChar(d) == c
  {
    c as int - 48
  }

  /** Decimal digits of n, most significant first, no leading zeros. */
  function FormatNat(n: nat): (s: string)
    ensures |s| >= 1 && AllDigits(s)
    decreases n
  {
    if n < 10 then [DigitChar(n)] else FormatNat(n / 10) + [DigitChar(n % 10)]
  }

  /** Int32.ToString() in the invariant culture. */
  function FormatInt(n: int): (s: string)
    ensures |s| >= 1
  {
    if n < 0 then "-" + FormatNat(-n) else FormatNat(n)
  }

  /** The key of one user's entry. */
  function UserKey(userId: int): string
  {
    UserKeyPrefix + FormatInt(userId)
  }

  function ParseNat(s: string): nat
    requires |s| >= 1 && AllDigits(s)
    decreases |s|
  {
    if |s| == 1 then DigitValue(s[0])
    else ParseNat(s[..|s| - 1]) * 10 + DigitValue(s[|s| - 1])
  }

  function ParseInt(s: string): Option<int>
  {
    if |s| >= 2 && s[0] == '-' && AllDigits(s[1..]) then Some(0 - ParseNat(s[1..]) as int)
    else if |s| >= 1 && AllDigits(s) then Some(ParseNat(s))
    else None
  }

  /** The id a user key was made from, if the string is a user key. */
  function ParseUserKey(key: string): Option<int>
  {
    if |key| >= |UserKeyPrefix| && key[..|UserKeyPrefix|] == UserKeyPrefix
    then ParseInt(key[|UserKeyPrefix|..])
    else None
  }

  lemma {:induction false} ParseFormatNat(n: nat)
    ensures ParseNat(FormatNat(n)) == n
    decreases n
  {
    if n >= 10 {
      var s := FormatNat(n);
      assert s[..|s| - 1] == FormatNat(n / 10);
      ParseFormatNat(n / 10);
    }
  }

  lemma ParseFormatInt(n: int)
    ensures ParseInt(FormatInt(n)) == Some(n)
  {
    var s := FormatInt(n);
    if n < 0 {
      assert s[1..] == FormatNat(-n);
      ParseFormatNat(-n);
    } else {
      assert IsDigit(s[0]);
      ParseFormatNat(n);
    }
  }

  /** A user key gives back the id it was made from. */
  lemma UserKeyRoundTrip(userId: int)
    ensures ParseUserKey(UserKey(userId)) == Some(userId)
  {
    var key := UserKey(userId);
    assert key[|UserKeyPrefix|..] == FormatInt(userId);
    ParseFormatInt(userId);
  }

  /** Distinct ids never share an entry. */
  lemma UserKeysDistinct(a: int, b: int)
    requires a != b
    ensures UserKey(a) != UserKey(b)
  {
    UserKeyRoundTrip(a);
    UserKeyRoundTrip(b);
  }

  /** A single-user entry never shares a key with the whole-list entry. */
  lemma UserKeyIsNotAllUsersKey(userId: int)
    ensures UserKey(userId) != AllUsersKey
  {
    assert UserKey(userId)[0] == 'U' != AllUsersKey[0];
  }
}
