/**
 * String helpers the catalog and the service rely on: decimal rendering of
 * numbers (Rust's `format!("{}", n)`), splitting on '.' (Rust's
 * `str::split('.')`) and its inverse, and prefix truncation.
 */
module Strings {

  predicate IsDigit(c: char) {
    '0' <= c <= '9'
  }

  function DigitChar(d: nat): (c: char)
    requires d < 10
    ensures IsDigit(c)
  {
    (48 + d) as char
  }

  /** Decimal rendering of `n`, without leading zeros. */
  function NatToString(n: nat): (s: string)
    ensures |s| >= 1
    ensures n >= 10 ==> |s| >= 2
    ensures forall i :: 0 <= i < |s| ==> IsDigit(s[i])
    decreases n
  {
    if n < 10 then [DigitChar(n)] else NatToString(n / 10) + [DigitChar(n % 10)]
  }

  lemma NoDotInNumber(n: nat)
    ensures '.' !in NatToString(n)
  {
  }

  /** Different numbers render differently. */
  lemma {:induction false} NatToStringInjective(a: nat, b: nat)
    requires NatToString(a) == NatToString(b)
    ensures a == b
    decreases a
  {
    var s := NatToString(a);
    if a < 10 && b < 10 {
      assert s[0] == DigitChar(a) && s[0] == DigitChar(b);
    } else if a >= 10 && b >= 10 {
      assert s == NatToString(a / 10) + [DigitChar(a % 10)];
      assert s == NatToString(b / 10) + [DigitChar(b % 10)];
      assert s[..|s| - 1] == NatToString(a / 10);
      assert s[..|s| - 1] == NatToString(b / 10);
      NatToStringInjective(a / 10, b / 10);
      assert DigitChar(a % 10) == s[|s| - 1] == DigitChar(b % 10);
    }
  }

  /** The pieces of `s` between the '.' characters, as `str::split('.')` yields them. */
  function Split(s: string): (parts: seq<string>)
    ensures |parts| >= 1
  {
    if |s| == 0 then [""]
    else
      var rest := Split(s[1..]);
      if s[0] == '.' then [""] + rest
      else [[s[0]] + rest[0]] + rest[1..]
  }

  /** The pieces joined back with '.' between them. */
  function Join(parts: seq<string>): string
    requires |parts| >= 1
  {
    if |parts| == 1 then parts[0] else parts[0] + "." + Join(parts[1..])
  }

  predicate NoDots(parts: seq<string>) {
    forall i :: 0 <= i < |parts| ==> '.' !in parts[i]
  }

  lemma {:induction false} SplitNoDot(s: string)
    requires '.' !in s
    ensures Split(s) == [s]
  {
    if |s| > 0 {
      SplitNoDot(s[1..]);
      assert [s[0]] + s[1..] == s;
    }
  }

  lemma {:induction false} SplitAtDot(a: string, b: string)
    ensures Split(a + "." + b) == Split(a) + Split(b)
  {
    var s := a + "." + b;
    if |a| == 0 {
      assert s[1..] == b;
    } else {
      assert s[1..] == a[1..] + "." + b;
      SplitAtDot(a[1..], b);
    }
  }

  /** Splitting never loses a character: joining the pieces gives the input back. */
  lemma {:induction false} JoinSplit(s: string)
    ensures Join(Split(s)) == s
  {
    if |s| > 0 {
      var rest := Split(s[1..]);
      JoinSplit(s[1..]);
      if s[0] == '.' {
        assert Split(s) == [""] + rest;
        assert Join(Split(s)) == "" + "." + Join(rest);
      } else {
        var parts := Split(s);
        assert parts == [[s[0]] + rest[0]] + rest[1..];
        if |rest| == 1 {
          assert Join(parts) == [s[0]] + rest[0];
        } else {
          assert parts[1..] == rest[1..];
          assert Join(parts) == [s[0]] + rest[0] + "." + Join(rest[1..]);
          assert Join(rest) == rest[0] + "." + Join(rest[1..]);
        }
        assert Join(parts) == [s[0]] + Join(rest);
      }
      assert s == [s[0]] + s[1..];
    }
  }

  /** The pieces of a split never contain a '.'. */
  lemma {:induction false} SplitPartsNoDots(s: string)
    ensures NoDots(Split(s))
  {
    if |s| > 0 {
      SplitPartsNoDots(s[1..]);
      var rest := Split(s[1..]);
      if s[0] != '.' {
        assert '.' !in [s[0]] + rest[0] by {
          assert '.' !in rest[0];
        }
      }
    }
  }

  /** Joining dot-free pieces and splitting again gives the pieces back. */
  lemma {:induction false} SplitJoin(parts: seq<string>)
    requires |parts| >= 1 && NoDots(parts)
    ensures Split(Join(parts)) == parts
  {
    SplitNoDot(parts[0]);
    if |parts| > 1 {
      SplitJoin(parts[1..]);
      SplitAtDot(parts[0], Join(parts[1..]));
      assert [parts[0]] + parts[1..] == parts;
    }
  }

  /** Prefix truncation to at most `n` characters. */
  function Cut(s: string, n: nat): (r: string)
    ensures r <= s
    ensures |r| == if |s| <= n then |s| else n
  {
    if |s| <= n then s else s[..n]
  }
}
