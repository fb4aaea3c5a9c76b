/**
  * The request/response vocabulary shared by the content script and the popup,
  * and the string operations the popup applies to error texts.
  */
module Messages {

  datatype Option<+T> = None | Some(value: T)

  /** A reply `{success, error}` sent back over the extension messaging channel.
      An absent `error` field is the empty string. */
  datatype Response = Response(success: bool, error: string)

  const OK: Response := Response(true, "")

  function Failure(error: string): (r: Response)
    ensures !r.success && r.error == error
  {
    Response(false, error)
  }

  /** p occurs at the start of s: the test `includes` makes at each position. */
  predicate StartsWith(s: string, p: string) {
    |p| <= |s| && s[..|p|] == p
  }

  /** `s.includes(p)`: p occurs at some position of s. */
  predicate Contains(s: string, p: string)
    decreases |s|
  {
    StartsWith(s, p) || (|s| > 0 && Contains(s[1..], p))
  }

  /** p occurs in s at index i. */
  predicate OccursAt(s: string, p: string, i: int) {
    0 <= i <= |s| - |p| && s[i..i + |p|] == p
  }

  /** Contains finds p exactly when p occurs in s at some index. */
  lemma {:induction false} ContainsIff(s: string, p: string)
    ensures Contains(s, p) <==> exists i :: OccursAt(s, p, i)
    decreases |s|
  {
    if |s| > 0 {
      ContainsIff(s[1..], p);
      if Contains(s[1..], p) {
        var i :| OccursAt(s[1..], p, i);
        assert s[i + 1..i + 1 + |p|] == s[1..][i..i + |p|];
        assert OccursAt(s, p, i + 1);
      }
      if StartsWith(s, p) {
        assert OccursAt(s, p, 0);
      }
      if exists i :: OccursAt(s, p, i) {
        var i :| OccursAt(s, p, i);
        if i == 0 {
          assert StartsWith(s, p);
        } else {
          assert s[1..][i - 1..i - 1 + |p|] == s[i..i + |p|];
          assert OccursAt(s[1..], p, i - 1);
        }
      }
    } else {
      if StartsWith(s, p) {
        assert OccursAt(s, p, 0);
      }
      if exists i :: OccursAt(s, p, i) {
        var i :| OccursAt(s, p, i);
        assert i == 0;
        assert StartsWith(s, p);
      }
    }
  }

  /** A text that starts with p contains it. */
  lemma StartsWithContains(s: string, p: string)
    requires StartsWith(s, p)
    ensures Contains(s, p)
  {
  }

  /** Prefixing a text with a tag that does not hold the first letter of p cannot create an
      occurrence of p: any occurrence in `tag + s` lies wholly inside s. */
  lemma {:induction false} ContainsAfterTag(tag: string, s: string, p: string)
    requires |p| > 0 && p[0] !in tag
    ensures Contains(tag + s, p) <==> Contains(s, p)
    decreases |tag|
  {
    if |tag| > 0 {
      assert (tag + s)[0] == tag[0] != p[0];
      assert !StartsWith(tag + s, p);
      assert (tag + s)[1..] == tag[1..] + s;
      ContainsAfterTag(tag[1..], s, p);
    } else {
      assert tag + s == s;
    }
  }

  /** The decimal digits of n, most significant first, without leading zeros. */
  function Decimal(n: nat): (s: string)
    ensures |s| >= 1
    ensures forall i :: 0 <= i < |s| ==> '0' <= s[i] <= '9'
    ensures s[0] == '0' <==> n == 0
    ensures |s| > 1 ==> s[0] != '0'
  {
    if n < 10 then [DigitChar(n)] else Decimal(n / 10) + [DigitChar(n % 10)]
  }

  function DigitChar(d: nat): (c: char)
    requires d < 10
    ensures '0' <= c <= '9'
    ensures c == '0' <==> d == 0
  {
    "0123456789"[d]
  }

  /** Reads a string of decimal digits back as a number. */
  function ParseDecimal(s: string): nat
    requires forall i :: 0 <= i < |s| ==> '0' <= s[i] <= '9'
  {
    if s == [] then 0 else 10 * ParseDecimal(s[..|s| - 1]) + (s[|s| - 1] - '0') as nat
  }

  /** Decimal loses nothing: reading its digits back gives the number. */
  lemma {:induction false} DecimalRoundTrip(n: nat)
    ensures ParseDecimal(Decimal(n)) == n
  {
    if n >= 10 {
      DecimalRoundTrip(n / 10);
      var s := Decimal(n);
      assert s[..|s| - 1] == Decimal(n / 10);
    }
  }
}
