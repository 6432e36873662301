/** Small shared vocabulary: an Option type, Java's decimal rendering of an
    `int` (what string concatenation and `%s` of an Integer produce, and what
    `%d` produces in a locale with ASCII digits), and a substring predicate
    for the "message contains ..." promises. */
module Common {

  datatype Option<+T> = None | Some(value: T)

  /** The exceptions the modelled Java code lets escape to its caller. */
  datatype JavaException =
    | SecurityException(message: string)
    | IllegalStateException(message: string)
    | NullPointerException

  /** How a Java call ends: it returns normally or throws. */
  datatype Completion = Returned | Threw(exception: JavaException)

  function DigitChar(d: nat): (c: char)
    requires d < 10
    ensures '0' <= c <= '9'
  {
    "0123456789"[d]
  }

  /** Decimal digits of a natural number, most significant first, no leading zeros. */
  function NatToString(n: nat): (s: string)
    ensures 1 <= |s|
    ensures forall i | 0 <= i < |s| :: '0' <= s[i] <= '9'
    ensures |s| > 1 ==> s[0] != '0'
    ensures (|s| == 1) == (n < 10)
    decreases n
  {
    if n < 10 then [DigitChar(n)] else NatToString(n / 10) + [DigitChar(n % 10)]
  }

  /** Java's `Integer.toString`: a minus sign for negative values, then the digits. */
  function IntToString(i: int): (s: string)
    ensures 1 <= |s|
    ensures forall k | 0 <= k < |s| :: s[k] == '-' || '0' <= s[k] <= '9'
    ensures (s[0] == '-') == (i < 0)
  {
    if i < 0 then "-" + NatToString(-i) else NatToString(i)
  }

  lemma DigitCharInjective(a: nat, b: nat)
    requires a < 10 && b < 10 && DigitChar(a) == DigitChar(b)
    ensures a == b
  {
  }

  /** Different numbers have different decimal renderings. */
  lemma {:induction false} NatToStringInjective(a: nat, b: nat)
    requires NatToString(a) == NatToString(b)
    ensures a == b
    decreases a
  {
    var sa, sb := NatToString(a), NatToString(b);
    if a < 10 {
      DigitCharInjective(a, b);
    } else {
      var pa, pb := NatToString(a / 10), NatToString(b / 10);
      assert sa == pa + [DigitChar(a % 10)];
      assert sb == pb + [DigitChar(b % 10)];
      assert pa == sa[..|sa| - 1] == sb[..|sb| - 1] == pb;
      assert sa[|sa| - 1] == sb[|sb| - 1];
      DigitCharInjective(a % 10, b % 10);
      NatToStringInjective(a / 10, b / 10);
    }
  }

  /** Different ints have different renderings: the sign is the first character. */
  lemma IntToStringInjective(a: int, b: int)
    requires IntToString(a) == IntToString(b)
    ensures a == b
  {
    var sa, sb := IntToString(a), IntToString(b);
    if a < 0 {
      assert sb[0] == '-';
      var na, nb := NatToString(-a), NatToString(-b);
      assert sa == "-" + na && sb == "-" + nb;
      assert na == sa[1..] && nb == sb[1..];
      NatToStringInjective(-a, -b);
    } else {
      assert sb[0] != '-';
      NatToStringInjective(a, b);
    }
  }

  /** `order` lists the elements of `s`, each once. */
  ghost predicate Enumerates<T>(order: seq<T>, s: set<T>) {
    && |order| == |s|
    && (forall x | x in s :: x in order)
    && (forall i | 0 <= i < |order| :: order[i] in s)
  }

  lemma EnumeratesExtend<T>(order: seq<T>, s: set<T>, x: T)
    requires Enumerates(order, s) && x !in s
    ensures Enumerates(order + [x], s + {x})
  {
    forall i | 0 <= i < |order + [x]|
      ensures (order + [x])[i] in s + {x}
    {
      if i < |order| {
        assert (order + [x])[i] == order[i];
      }
    }
  }

  /** `s.contains(sub)` in Java: `sub` is a prefix of some suffix of `s`. */
  predicate IsSubstring(sub: string, s: string)
    decreases |s|
  {
    sub <= s || (s != [] && IsSubstring(sub, s[1..]))
  }

  /** A substring of `b` stays one when text is put in front of `b`. */
  lemma {:induction false} SubstringAfter(sub: string, a: string, b: string)
    requires IsSubstring(sub, b)
    ensures IsSubstring(sub, a + b)
    decreases |a|
  {
    if a == [] {
      assert a + b == b;
    } else {
      assert (a + b)[1..] == a[1..] + b;
      SubstringAfter(sub, a[1..], b);
    }
  }

  /** A substring of `a` stays one when text is appended to `a`. */
  lemma {:induction false} SubstringBefore(sub: string, a: string, b: string)
    requires IsSubstring(sub, a)
    ensures IsSubstring(sub, a + b)
    decreases |a|
  {
    if sub <= a {
      assert sub <= a + b by {
        assert (a + b)[..|sub|] == a[..|sub|];
      }
    } else {
      assert (a + b)[1..] == a[1..] + b;
      SubstringBefore(sub, a[1..], b);
    }
  }

  /** `a + sub + b` contains `sub`. */
  lemma SubstringMiddle(a: string, sub: string, b: string)
    ensures IsSubstring(sub, a + sub + b)
  {
    assert IsSubstring(sub, sub + b) by {
      assert sub <= sub + b;
    }
    SubstringAfter(sub, a, sub + b);
    assert a + sub + b == a + (sub + b);
  }
}
