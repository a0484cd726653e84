/** Values shared by the token repositories and the authorization-code flow:
    user identifiers and their stringification, and the decoded token
    response of the provider's token endpoint. */
module Tokens {

  datatype Option<T> = None | Some(value: T)

  /** A user identifier as callers pass it (`string|int`). */
  datatype UserId = IntId(n: int) | StrId(s: string)

  function DigitChar(d: nat): (c: char)
    requires d < 10
    ensures '0' <= c <= '9'
  {
    (('0' as int) + d) as char
  }

  /** Decimal digits of a natural number, most significant first, no leading zero. */
  function NatDigits(n: nat): (r: string)
    ensures 1 <= |r|
    ensures forall i :: 0 <= i < |r| ==> '0' <= r[i] <= '9'
    decreases n
  {
    if n < 10 then [DigitChar(n)] else NatDigits(n / 10) + [DigitChar(n % 10)]
  }

  /** PHP's `(string)` of an integer. */
  function IntString(n: int): (r: string)
    ensures 1 <= |r|
    ensures r[0] == '-' <==> n < 0
  {
    if n < 0 then "-" + NatDigits(-n) else NatDigits(n)
  }

  /** The repository key of a user: `(string) $userId`, which is also what a
      string interpolation `"{$userId}"` produces. */
  function Key(u: UserId): string
  {
    match u
    case IntId(n) => IntString(n)
    case StrId(s) => s
  }

  lemma {:induction false} NatDigitsInjective(a: nat, b: nat)
    requires NatDigits(a) == NatDigits(b)
    ensures a == b
    decreases a
  {
    var da, db := NatDigits(a), NatDigits(b);
    if a < 10 && b < 10 {
      assert da[0] == db[0];
    } else if a >= 10 && b >= 10 {
      var pa, pb := NatDigits(a / 10), NatDigits(b / 10);
      assert da == pa + [DigitChar(a % 10)];
      assert db == pb + [DigitChar(b % 10)];
      assert |pa| == |pb|;
      assert da[|da| - 1] == db[|db| - 1];
      assert a % 10 == b % 10;
      assert pa == da[..|pa|] == db[..|pb|] == pb;
      NatDigitsInjective(a / 10, b / 10);
    }
  }

  /** Two integer identifiers address the same row or cache key only when
      they are the same integer. */
  lemma IntKeyInjective(a: int, b: int)
    requires Key(IntId(a)) == Key(IntId(b))
    ensures a == b
  {
    if a < 0 && b < 0 {
      assert NatDigits(-a) == Key(IntId(a))[1..] == Key(IntId(b))[1..] == NatDigits(-b);
      NatDigitsInjective(-a, -b);
    } else if a >= 0 && b >= 0 {
      NatDigitsInjective(a, b);
    }
  }

  /** The integer 42 and the string "42" address the same record. */
  lemma IntAndStringShareKey()
    ensures Key(IntId(42)) == Key(StrId("42"))
    ensures Key(IntId(-7)) == Key(StrId("-7"))
    ensures Key(IntId(42)) != Key(StrId("042"))
  {
    assert NatDigits(42) == NatDigits(4) + [DigitChar(2)];
  }

  /** The decoded JSON body of a successful token-endpoint response. The
      fields the core reads are explicit; every other key (`token_type`, ...)
      is kept in `extra`. An absent key and a JSON null are both `None`. */
  datatype TokenResponse = TokenResponse(
    accessToken: string,
    expiresIn: int,
    refreshToken: Option<string>,
    scope: Option<string>,
    extra: map<string, string>)

  /** PHP's `empty()` on an optional string: absent, null, "" and "0". */
  predicate Empty(v: Option<string>)
  {
    v.None? || v.value == "" || v.value == "0"
  }
}
