/** Cache keys: a prefix followed by `Long.toString(id)`. */
module Keys {

  /** The decimal digit for `d`. */
  function Digit(d: nat): (c: char)
    requires d < 10
    ensures '0' <= c <= '9'
    ensures c as int - '0' as int == d
  {
    (48 + d) as char
  }

  /** The decimal text of a natural number, without leading zeros. */
  function NatText(n: nat): (s: string)
    ensures 1 <= |s|
    ensures forall i :: 0 <= i < |s| ==> '0' <= s[i] <= '9'
    ensures n < 10 <==> |s| == 1
    decreases n
  {
    if n < 10 then [Digit(n)] else NatText(n / 10) + [Digit(n % 10)]
  }

  /** `Long.toString(n)`: a minus sign for negative values, then the digits. */
  function LongText(n: int): (s: string)
    ensures 1 <= |s|
    ensures s[0] == '-' <==> n < 0
  {
    if n < 0 then "-" + NatText(-n) else NatText(n)
  }

  /** The key under which an entity with this id is cached. */
  function CacheKey(prefix: string, id: int): (key: string)
    ensures |key| > |prefix| && key[..|prefix|] == prefix
  {
    prefix + LongText(id)
  }

  /** Distinct naturals have distinct decimal texts. */
  lemma {:induction false} NatTextInjective(a: nat, b: nat)
    requires NatText(a) == NatText(b)
    ensures a == b
  {
    if a >= 10 && b >= 10 {
      var sa, sb := NatText(a), NatText(b);
      assert sa[|sa| - 1] == sb[|sb| - 1];
      assert a % 10 == b % 10;
      assert sa[..|sa| - 1] == NatText(a / 10);
      assert sb[..|sb| - 1] == NatText(b / 10);
      NatTextInjective(a / 10, b / 10);
    }
  }

  /** Distinct ids have distinct texts. */
  lemma LongTextInjective(a: int, b: int)
    requires LongText(a) == LongText(b)
    ensures a == b
  {
    if a < 0 {
      assert LongText(a)[1..] == NatText(-a);
      assert LongText(b)[1..] == NatText(-b);
      NatTextInjective(-a, -b);
    } else {
      NatTextInjective(a, b);
    }
  }

  /** Under one prefix, distinct ids give distinct keys. */
  lemma CacheKeyInjective(prefix: string, a: int, b: int)
    requires a != b
    ensures CacheKey(prefix, a) != CacheKey(prefix, b)
  {
    if CacheKey(prefix, a) == CacheKey(prefix, b) {
      assert CacheKey(prefix, a)[|prefix|..] == LongText(a);
      assert CacheKey(prefix, b)[|prefix|..] == LongText(b);
      LongTextInjective(a, b);
    }
  }

  /** For one id, keys under distinct prefixes are distinct. */
  lemma CacheKeyPrefixes(p: string, q: string, id: int)
    requires p != q
    ensures CacheKey(p, id) != CacheKey(q, id)
  {
  }
}
