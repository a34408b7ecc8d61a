/**
 * String helpers with the meaning of the Python built-ins the application
 * uses: "".join, sep.join, str.split with a one-character separator,
 * str.capitalize, str.strip, str.startswith, str(int) and str.format with
 * one keyword argument.
 * Case mapping is ASCII only.
 */
module Text {

  import opened Wrappers

  /** "".join(parts) */
  function Concat(parts: seq<string>): string
  {
    if |parts| == 0 then "" else parts[0] + Concat(parts[1..])
  }

  lemma {:induction false} ConcatAppend(a: seq<string>, b: seq<string>)
    ensures Concat(a + b) == Concat(a) + Concat(b)
  {
    if |a| == 0 {
      assert a + b == b;
    } else {
      assert (a + b)[1..] == a[1..] + b;
      ConcatAppend(a[1..], b);
    }
  }

  /** Concatenation regrouped; stated over variables so the solver sees no contents. */
  lemma ConcatAssoc(x: string, y: string, z: string)
    ensures x + y + z == x + (y + z)
  {
  }

  /** The tokens of (char for char in s): one one-character string per character. */
  function Chars(s: string): seq<string>
  {
    if |s| == 0 then [] else [[s[0]]] + Chars(s[1..])
  }

  /** Streaming the characters of s one by one and joining them gives s back. */
  lemma {:induction false} CharsRoundTrip(s: string)
    ensures |Chars(s)| == |s|
    ensures Concat(Chars(s)) == s
    ensures forall i :: 0 <= i < |s| ==> Chars(s)[i] == [s[i]]
  {
    if |s| > 0 {
      CharsRoundTrip(s[1..]);
      assert ([[s[0]]] + Chars(s[1..]))[1..] == Chars(s[1..]);
      assert [s[0]] + s[1..] == s;
    }
  }

  /** sep.join(parts) */
  function Join(sep: string, parts: seq<string>): string
  {
    if |parts| == 0 then ""
    else if |parts| == 1 then parts[0]
    else parts[0] + sep + Join(sep, parts[1..])
  }

  /** s.split(c) for a one-character separator c: never an empty list. */
  function Split(s: string, c: char): (r: seq<string>)
    ensures |r| >= 1
  {
    if |s| == 0 then [""]
    else
      var rest := Split(s[1..], c);
      if s[0] == c then [""] + rest else [[s[0]] + rest[0]] + rest[1..]
  }

  /** Every occurrence of c in s replaced by d. */
  function ReplaceChar(s: string, c: char, d: char): string
  {
    if |s| == 0 then "" else [if s[0] == c then d else s[0]] + ReplaceChar(s[1..], c, d)
  }

  lemma {:induction false} ReplaceCharAt(s: string, c: char, d: char)
    ensures |ReplaceChar(s, c, d)| == |s|
    ensures forall i :: 0 <= i < |s| ==> ReplaceChar(s, c, d)[i] == if s[i] == c then d else s[i]
  {
    if |s| > 0 {
      ReplaceCharAt(s[1..], c, d);
    }
  }

  lemma {:induction false} JoinHead(sep: string, x: string, parts: seq<string>)
    requires |parts| >= 1
    ensures Join(sep, [x + parts[0]] + parts[1..]) == x + Join(sep, parts)
  {
    var ps := [x + parts[0]] + parts[1..];
    if |parts| > 1 {
      assert ps[1..] == parts[1..];
    }
  }

  /** d.join(s.split(c)) replaces every c by d. */
  lemma {:induction false} JoinSplit(s: string, c: char, d: char)
    ensures Join([d], Split(s, c)) == ReplaceChar(s, c, d)
  {
    if |s| > 0 {
      var rest := Split(s[1..], c);
      JoinSplit(s[1..], c, d);
      if s[0] == c {
        assert ([""] + rest)[1..] == rest;
      } else {
        JoinHead([d], [s[0]], rest);
      }
    }
  }

  lemma {:induction false} ReplaceSame(s: string, c: char)
    ensures ReplaceChar(s, c, c) == s
  {
    if |s| > 0 {
      ReplaceSame(s[1..], c);
      assert [s[0]] + s[1..] == s;
    }
  }

  /** Splitting on c and joining with c again is the identity. */
  lemma SplitJoinRoundTrip(s: string, c: char)
    ensures Join([c], Split(s, c)) == s
  {
    JoinSplit(s, c, c);
    ReplaceSame(s, c);
  }

  /** A string without the separator splits into itself alone. */
  lemma {:induction false} SplitNoSeparator(s: string, c: char)
    requires c !in s
    ensures Split(s, c) == [s]
  {
    if |s| > 0 {
      assert c !in s[1..] by {
        forall i | 0 <= i < |s[1..]| ensures s[1..][i] != c {
          assert s[1..][i] == s[i + 1];
        }
      }
      SplitNoSeparator(s[1..], c);
      assert [s[0]] + s[1..] == s;
    }
  }

  /** A first field without the separator becomes the first piece. */
  lemma {:induction false} SplitAround(a: string, b: string, c: char)
    requires c !in a
    ensures Split(a + [c] + b, c) == [a] + Split(b, c)
  {
    var s := a + [c] + b;
    if |a| == 0 {
      assert s == [c] + b;
      assert s[1..] == b;
    } else {
      assert s[0] == a[0];
      assert s[1..] == a[1..] + [c] + b;
      assert c !in a[1..] by {
        forall i | 0 <= i < |a[1..]| ensures a[1..][i] != c {
          assert a[1..][i] == a[i + 1];
        }
      }
      SplitAround(a[1..], b, c);
      assert [a[0]] + a[1..] == a;
    }
  }

  /** Joining one more part adds the separator and that part at the end. */
  lemma {:induction false} JoinSnoc(sep: string, parts: seq<string>, x: string)
    requires |parts| >= 1
    ensures Join(sep, parts + [x]) == Join(sep, parts) + sep + x
  {
    var ps := parts + [x];
    if |parts| == 1 {
      assert ps[1..] == [x];
    } else {
      assert ps[1..] == parts[1..] + [x];
      JoinSnoc(sep, parts[1..], x);
    }
  }

  /** Parts without the separator are recovered by splitting their join. */
  lemma {:induction false} SplitJoin(parts: seq<string>, c: char)
    requires |parts| >= 1
    requires forall i :: 0 <= i < |parts| ==> c !in parts[i]
    ensures Split(Join([c], parts), c) == parts
  {
    if |parts| == 1 {
      SplitNoSeparator(parts[0], c);
    } else {
      var rest := parts[1..];
      SplitAround(parts[0], Join([c], rest), c);
      SplitJoin(rest, c);
      assert [parts[0]] + rest == parts;
    }
  }

  /** ASCII upper-casing of one character. */
  function Upper(ch: char): char
  {
    if 'a' <= ch <= 'z' then (ch as int - 32) as char else ch
  }

  /** ASCII lower-casing of one character. */
  function Lower(ch: char): char
  {
    if 'A' <= ch <= 'Z' then (ch as int + 32) as char else ch
  }

  /** s.lower() */
  function LowerAll(s: string): string
  {
    if |s| == 0 then "" else [Lower(s[0])] + LowerAll(s[1..])
  }

  /** s.capitalize(): first character upper case, the rest lower case. */
  function Capitalize(s: string): string
  {
    if |s| == 0 then "" else [Upper(s[0])] + LowerAll(s[1..])
  }

  lemma {:induction false} LowerAllAt(s: string)
    ensures |LowerAll(s)| == |s|
    ensures forall i :: 0 <= i < |s| ==> LowerAll(s)[i] == Lower(s[i])
  {
    if |s| > 0 {
      LowerAllAt(s[1..]);
    }
  }

  lemma LowerAllAppend(a: string, b: string)
    ensures LowerAll(a + b) == LowerAll(a) + LowerAll(b)
  {
    LowerAllAt(a + b);
    LowerAllAt(a);
    LowerAllAt(b);
    assert forall i :: 0 <= i < |a + b| ==> LowerAll(a + b)[i] == (LowerAll(a) + LowerAll(b))[i];
  }

  /** s.startswith(p) */
  predicate StartsWith(s: string, p: string)
  {
    |p| <= |s| && s[..|p|] == p
  }

  /** Python's str.isspace() for one character. */
  predicate IsSpace(ch: char)
  {
    ch in {' ', '\t', '\n', '\r', '\U{0b}', '\U{0c}', '\U{1c}', '\U{1d}', '\U{1e}', '\U{1f}',
           '\U{85}', '\U{a0}', '\U{1680}', '\U{2000}', '\U{2001}', '\U{2002}', '\U{2003}',
           '\U{2004}', '\U{2005}', '\U{2006}', '\U{2007}', '\U{2008}', '\U{2009}', '\U{200a}',
           '\U{2028}', '\U{2029}', '\U{202f}', '\U{205f}', '\U{3000}'}
  }

  function LStrip(s: string): string
  {
    if |s| > 0 && IsSpace(s[0]) then LStrip(s[1..]) else s
  }

  function RStrip(s: string): string
  {
    if |s| > 0 && IsSpace(s[|s| - 1]) then RStrip(s[..|s| - 1]) else s
  }

  /** s.strip() */
  function Strip(s: string): string
  {
    RStrip(LStrip(s))
  }

  lemma {:induction false} LStripBounds(s: string) returns (i: nat)
    ensures i <= |s| && LStrip(s) == s[i..]
    ensures forall k :: 0 <= k < i ==> IsSpace(s[k])
    ensures LStrip(s) == "" || !IsSpace(LStrip(s)[0])
  {
    if |s| > 0 && IsSpace(s[0]) {
      var j := LStripBounds(s[1..]);
      i := j + 1;
      assert s[1..][j..] == s[i..];
      forall k | 0 <= k < i ensures IsSpace(s[k]) {
        if k > 0 {
          assert s[k] == s[1..][k - 1];
        }
      }
    } else {
      i := 0;
    }
  }

  lemma {:induction false} RStripBounds(s: string) returns (j: nat)
    ensures j <= |s| && RStrip(s) == s[..j]
    ensures forall k :: j <= k < |s| ==> IsSpace(s[k])
    ensures RStrip(s) == "" || !IsSpace(RStrip(s)[|RStrip(s)| - 1])
  {
    if |s| > 0 && IsSpace(s[|s| - 1]) {
      var t := s[..|s| - 1];
      j := RStripBounds(t);
      assert t[..j] == s[..j];
      forall k | j <= k < |s| ensures IsSpace(s[k]) {
        if k < |s| - 1 {
          assert s[k] == t[k];
        }
      }
    } else {
      j := |s|;
    }
  }

  lemma {:induction false} RStripKeepsFirst(s: string)
    requires s == "" || !IsSpace(s[0])
    ensures RStrip(s) == "" || !IsSpace(RStrip(s)[0])
  {
    if |s| > 0 && IsSpace(s[|s| - 1]) {
      var t := s[..|s| - 1];
      assert t == "" || t[0] == s[0];
      RStripKeepsFirst(t);
    }
  }

  /**
   * strip() removes exactly a run of white space at each end: the result is
   * the infix s[i..j], everything outside it is white space, and the result
   * neither starts nor ends with white space.
   */
  lemma StripBounds(s: string) returns (i: nat, j: nat)
    ensures i <= j <= |s| && Strip(s) == s[i..j]
    ensures forall k :: 0 <= k < i ==> IsSpace(s[k])
    ensures forall k :: j <= k < |s| ==> IsSpace(s[k])
    ensures Strip(s) == "" || (!IsSpace(Strip(s)[0]) && !IsSpace(Strip(s)[|Strip(s)| - 1]))
  {
    i := LStripBounds(s);
    var t := s[i..];
    var m := RStripBounds(t);
    RStripKeepsFirst(t);
    j := i + m;
    assert t[..m] == s[i..j];
    forall k | j <= k < |s| ensures IsSpace(s[k]) {
      assert s[k] == t[k - i];
    }
  }

  function DigitChar(d: nat): char
    requires d < 10
  {
    ('0' as int + d) as char
  }

  /** str(n) for a natural number, in decimal without leading zeros. */
  function NatToString(n: nat): (r: string)
    ensures |r| >= 1
    decreases n
  {
    if n < 10 then [DigitChar(n)] else NatToString(n / 10) + [DigitChar(n % 10)]
  }

  /** Different numbers are written differently. */
  lemma {:induction false} NatToStringInjective(a: nat, b: nat)
    requires NatToString(a) == NatToString(b)
    ensures a == b
    decreases a
  {
    if a >= 10 && b >= 10 {
      var sa, sb := NatToString(a), NatToString(b);
      assert sa[|sa| - 1] == sb[|sb| - 1];
      assert sa[..|sa| - 1] == NatToString(a / 10);
      assert sb[..|sb| - 1] == NatToString(b / 10);
      NatToStringInjective(a / 10, b / 10);
    }
  }

  /**
   * A str.format template in the form Python's string.Formatter parses it
   * into: runs of literal text and named replacement fields.
   */
  datatype TemplatePart = Literal(text: string) | Field(name: string)

  /** The template text these parts were parsed from. */
  function Unparse(parts: seq<TemplatePart>): string
  {
    if |parts| == 0 then ""
    else
      match parts[0]
      case Literal(t) => t + Unparse(parts[1..])
      case Field(n) => "{" + n + "}" + Unparse(parts[1..])
  }

  /** template.format(name=value): a field of any other name raises KeyError (None here). */
  function FormatNamed(parts: seq<TemplatePart>, name: string, value: string): (r: Option<string>)
    ensures r.Some? <==> forall i :: 0 <= i < |parts| && parts[i].Field? ==> parts[i].name == name
  {
    if |parts| == 0 then Some("")
    else
      var rest := FormatNamed(parts[1..], name, value);
      match parts[0]
      case Literal(t) => if rest.Some? then Some(t + rest.value) else None
      case Field(n) => if n == name && rest.Some? then Some(value + rest.value) else None
  }
}
