/** The `@Pattern` regular expression that both transaction request payloads put
    on `ipAddress`:
      ^$|^((25[0-5]|2[0-4][0-9]|1[0-9]{2}|[1-9]?[0-9])\.){3}(25[0-5]|2[0-4][0-9]|1[0-9]{2}|[1-9]?[0-9])$
    The octet alternatives are written out as they stand; since no alternative
    can match a '.', a match of the dotted part is the same as splitting the text
    at every '.' into four pieces that each match an octet. */
module Ipv4Pattern {

  predicate IsDigit(c: char) {
    '0' <= c <= '9'
  }

  /** The five alternatives `25[0-5] | 2[0-4][0-9] | 1[0-9]{2} | [1-9]?[0-9]`
      (the last one spelt as its two-character and one-character cases). */
  predicate MatchesOctet(s: string) {
    || (|s| == 3 && s[0] == '2' && s[1] == '5' && '0' <= s[2] <= '5')
    || (|s| == 3 && s[0] == '2' && '0' <= s[1] <= '4' && IsDigit(s[2]))
    || (|s| == 3 && s[0] == '1' && IsDigit(s[1]) && IsDigit(s[2]))
    || (|s| == 2 && '1' <= s[0] <= '9' && IsDigit(s[1]))
    || (|s| == 1 && IsDigit(s[0]))
  }

  function DigitValue(c: char): nat
    requires IsDigit(c)
  {
    c as nat - '0' as nat
  }

  predicate AllDigits(s: string) {
    forall i :: 0 <= i < |s| ==> IsDigit(s[i])
  }

  /** The decimal number a digit string denotes. */
  function DecimalValue(s: string): nat
    requires AllDigits(s)
  {
    if s == [] then 0 else 10 * DecimalValue(s[..|s| - 1]) + DigitValue(s[|s| - 1])
  }

  /** The meaning of an octet: one to three decimal digits, no leading zero,
      and a value of at most 255. */
  predicate IsCanonicalOctet(s: string) {
    && 1 <= |s| <= 3
    && AllDigits(s)
    && (|s| > 1 ==> s[0] != '0')
    && DecimalValue(s) <= 255
  }

  /** The regular expression's octet alternatives accept exactly the canonical
      decimal spellings of 0..255. */
  lemma MatchesOctetIffCanonical(s: string)
    ensures MatchesOctet(s) <==> IsCanonicalOctet(s)
  {
    if 1 <= |s| <= 3 && AllDigits(s) {
      if |s| == 1 {
        assert DecimalValue(s) == DigitValue(s[0]) by { assert s[..0] == []; }
      } else if |s| == 2 {
        assert s[..1][..0] == [];
        assert DecimalValue(s[..1]) == DigitValue(s[0]);
        assert DecimalValue(s) == 10 * DigitValue(s[0]) + DigitValue(s[1]);
      } else {
        assert s[..2][..1] == s[..1];
        assert s[..1][..0] == [];
        assert DecimalValue(s[..1]) == DigitValue(s[0]);
        assert DecimalValue(s[..2]) == 10 * DigitValue(s[0]) + DigitValue(s[1]);
        assert DecimalValue(s) == 100 * DigitValue(s[0]) + 10 * DigitValue(s[1]) + DigitValue(s[2]);
      }
    }
  }

  /** The pieces of `s` between the '.' separators, in order (Java's
      `split("\\.", -1)`): "a.b" gives ["a", "b"], "" gives [""]. */
  function SplitDots(s: string): (parts: seq<string>)
    ensures |parts| >= 1
    ensures forall p :: p in parts ==> '.' !in p
  {
    if s == [] then [[]]
    else
      var rest := SplitDots(s[1..]);
      if s[0] == '.' then [[]] + rest
      else [[s[0]] + rest[0]] + rest[1..]
  }

  /** The pieces glued back together with '.' between them. */
  function JoinDots(parts: seq<string>): string
    requires |parts| >= 1
  {
    if |parts| == 1 then parts[0] else parts[0] + "." + JoinDots(parts[1..])
  }

  /** Splitting at the dots and joining again gives the text back. */
  lemma {:induction false} JoinSplitDots(s: string)
    ensures JoinDots(SplitDots(s)) == s
  {
    if s != [] {
      var rest := SplitDots(s[1..]);
      JoinSplitDots(s[1..]);
      if s[0] == '.' {
        assert s == [s[0]] + s[1..];
      } else {
        var parts := [[s[0]] + rest[0]] + rest[1..];
        if |rest| == 1 {
          assert s == [s[0]] + rest[0];
        } else {
          assert parts[1..] == rest[1..];
          assert s == [s[0]] + (rest[0] + "." + JoinDots(rest[1..]));
        }
      }
    }
  }

  /** Joining dot-free pieces and splitting again gives the pieces back. */
  lemma {:induction false} SplitJoinDots(parts: seq<string>)
    requires |parts| >= 1
    requires forall p :: p in parts ==> '.' !in p
    ensures SplitDots(JoinDots(parts)) == parts
  {
    if |parts| == 1 {
      SplitDotFree(parts[0]);
    } else {
      SplitJoinDots(parts[1..]);
      SplitDotPrefix(parts[0], JoinDots(parts[1..]));
    }
  }

  lemma {:induction false} SplitDotFree(p: string)
    requires '.' !in p
    ensures SplitDots(p) == [p]
  {
    if p != [] {
      SplitDotFree(p[1..]);
      assert p == [p[0]] + p[1..];
    }
  }

  lemma {:induction false} SplitDotPrefix(p: string, t: string)
    requires '.' !in p
    ensures SplitDots(p + "." + t) == [p] + SplitDots(t)
  {
    if p == [] {
      assert p + "." + t == ['.'] + t;
      assert (['.'] + t)[1..] == t;
    } else {
      SplitDotPrefix(p[1..], t);
      assert (p + "." + t)[1..] == p[1..] + "." + t;
      assert p == [p[0]] + p[1..];
    }
  }

  /** What the pattern accepts: the empty text, or four octet-matching pieces
      separated by single dots. */
  predicate MatchesIpPattern(s: string) {
    s == [] ||
    (var parts := SplitDots(s); |parts| == 4 && forall i :: 0 <= i < 4 ==> MatchesOctet(parts[i]))
  }

  /** The address that four numbers 0..255 written in canonical decimal spell. */
  ghost predicate IsDottedQuadAddress(s: string) {
    exists a: string, b: string, c: string, d: string ::
      && IsCanonicalOctet(a) && IsCanonicalOctet(b) && IsCanonicalOctet(c) && IsCanonicalOctet(d)
      && s == a + "." + b + "." + c + "." + d
  }

  /** The pattern accepts exactly the empty text and the dotted quads of
      canonical octets. */
  lemma IpPatternIffDottedQuad(s: string)
    ensures MatchesIpPattern(s) <==> s == [] || IsDottedQuadAddress(s)
  {
    var parts := SplitDots(s);
    if s != [] && MatchesIpPattern(s) {
      forall i | 0 <= i < 4 ensures IsCanonicalOctet(parts[i]) {
        MatchesOctetIffCanonical(parts[i]);
      }
      JoinSplitDots(s);
      assert JoinDots(parts[3..]) == parts[3];
      assert parts[2..][1..] == parts[3..];
      assert JoinDots(parts[2..]) == parts[2] + "." + parts[3];
      assert parts[1..][1..] == parts[2..];
      assert JoinDots(parts[1..]) == parts[1] + "." + (parts[2] + "." + parts[3]);
      assert s == parts[0] + "." + (parts[1] + "." + (parts[2] + "." + parts[3]));
      RegroupQuad(parts[0], parts[1], parts[2], parts[3]);
    }
    if IsDottedQuadAddress(s) {
      var a: string, b: string, c: string, d: string :|
        && IsCanonicalOctet(a) && IsCanonicalOctet(b) && IsCanonicalOctet(c) && IsCanonicalOctet(d)
        && s == a + "." + b + "." + c + "." + d;
      MatchesOctetIffCanonical(a);
      MatchesOctetIffCanonical(b);
      MatchesOctetIffCanonical(c);
      MatchesOctetIffCanonical(d);
      SplitQuad(a, b, c, d);
    }
  }

  /** Four dot-free pieces joined by dots split back into those four pieces. */
  lemma SplitQuad(a: string, b: string, c: string, d: string)
    requires '.' !in a && '.' !in b && '.' !in c && '.' !in d
    ensures SplitDots(a + "." + b + "." + c + "." + d) == [a, b, c, d]
  {
    var t2 := c + "." + d;
    var t1 := b + "." + t2;
    var t0 := a + "." + t1;
    SplitDotFree(d);
    SplitDotPrefix(c, d);
    assert SplitDots(t2) == [c, d];
    SplitDotPrefix(b, t2);
    assert SplitDots(t1) == [b, c, d];
    SplitDotPrefix(a, t1);
    assert SplitDots(t0) == [a, b, c, d];
    RegroupQuad(a, b, c, d);
  }

  /** The left-nested dotted quad equals the right-nested one. */
  lemma RegroupQuad(a: string, b: string, c: string, d: string)
    ensures a + "." + b + "." + c + "." + d == a + "." + (b + "." + (c + "." + d))
  {
    var dot := ".";
    var ab := a + dot + b;
    assert ab + dot + c + dot + d == ab + dot + (c + dot + d);
    assert ab + dot + (c + dot + d) == a + dot + (b + dot + (c + dot + d));
  }

  /** The private addresses "192.168.1.1" and "192.168.0.1" are accepted. */
  lemma PrivateAddressAccepted(s: string)
    requires s == "192.168.1.1" || s == "192.168.0.1"
    ensures MatchesIpPattern(s)
  {
    var third := if s == "192.168.1.1" then "1" else "0";
    var parts := ["192", "168", third, "1"];
    assert SplitDots(s) == parts by {
      assert s == "192" + "." + "168" + "." + third + "." + "1";
      SplitQuad("192", "168", third, "1");
    }
    assert forall i :: 0 <= i < 4 ==> MatchesOctet(parts[i]);
  }

  /** "999.999.999.999" and "01.2.3.4" are rejected: 999 is out of range,
      and an octet has no leading zero. */
  lemma MalformedAddressRejected(s: string)
    requires s == "999.999.999.999" || s == "01.2.3.4"
    ensures !MatchesIpPattern(s)
  {
    var parts := if s == "01.2.3.4" then ["01", "2", "3", "4"] else ["999", "999", "999", "999"];
    assert SplitDots(s) == parts by {
      assert s == parts[0] + "." + parts[1] + "." + parts[2] + "." + parts[3];
      SplitQuad(parts[0], parts[1], parts[2], parts[3]);
    }
    assert !MatchesOctet(parts[0]);
  }
}
