/** The pieces of the Java standard library whose exact behaviour the
    configuration and driver code depends on: ASCII case mapping,
    `String.equalsIgnoreCase`, `Boolean.parseBoolean`, `Integer.parseInt`
    and `String.split` with a one-character separator; and a decimal writer
    in the manner of `Integer.toString`, used to state round trips. */
module JavaLang {
  import opened Wrappers

  /** `Integer.MIN_VALUE` and `Integer.MAX_VALUE`. */
  const INT_MIN: int := -0x8000_0000
  const INT_MAX: int := 0x7fff_ffff

  /** A Java `int`. */
  type Int32 = x: int | INT_MIN <= x <= INT_MAX

  /** The exceptions the modelled code can raise or let through. */
  datatype JavaException =
    | NumberFormatException(input: string)
    | ArrayIndexOutOfBoundsException(index: int, length: nat)
    | WebDriverException

  // ---------------------------------------------------------------------
  // Case mapping (ASCII letters only)
  // ---------------------------------------------------------------------

  function LowerChar(c: char): char {
    if 'A' <= c <= 'Z' then (c as int + 32) as char else c
  }

  function UpperChar(c: char): char {
    if 'a' <= c <= 'z' then (c as int - 32) as char else c
  }

  /** `String.toLowerCase()`. */
  function ToLowerAscii(s: string): (r: string)
    ensures |r| == |s|
    ensures forall i :: 0 <= i < |s| ==> r[i] == LowerChar(s[i])
  {
    seq(|s|, i requires 0 <= i < |s| => LowerChar(s[i]))
  }

  /** `s.toLowerCase().equals(t)`, compared one character at a time. */
  predicate LowerCaseEquals(s: string, t: string): (r: bool)
    ensures r ==> |s| == |t|
    ensures r && |s| > 0 ==> LowerChar(s[0]) == t[0]
    decreases |s|
  {
    |s| == |t| && (|s| == 0 || (LowerChar(s[0]) == t[0] && LowerCaseEquals(s[1..], t[1..])))
  }

  lemma {:induction false} LowerCaseEqualsIsToLower(s: string, t: string)
    ensures LowerCaseEquals(s, t) <==> ToLowerAscii(s) == t
    decreases |s|
  {
    if |s| == |t| && |s| > 0 {
      LowerCaseEqualsIsToLower(s[1..], t[1..]);
      assert ToLowerAscii(s) == [LowerChar(s[0])] + ToLowerAscii(s[1..]);
      assert t == [t[0]] + t[1..];
    }
  }

  /** One character step of `String.regionMatches(true, ...)`: equal, or
      equal after upper-casing, or equal after upper- then lower-casing. */
  predicate CharEqualsIgnoreCase(a: char, b: char) {
    a == b || UpperChar(a) == UpperChar(b) || LowerChar(UpperChar(a)) == LowerChar(UpperChar(b))
  }

  /** The character-wise comparison `String.equalsIgnoreCase` performs. */
  predicate RegionMatchesIgnoreCase(a: string, b: string) {
    |a| == |b| && forall i :: 0 <= i < |a| ==> CharEqualsIgnoreCase(a[i], b[i])
  }

  lemma CharEqualsIgnoreCaseIsLowerEquality(a: char, b: char)
    ensures CharEqualsIgnoreCase(a, b) <==> LowerChar(a) == LowerChar(b)
  {
  }

  /** Java's character-wise ignore-case comparison is the same as comparing
      the lower-cased strings. */
  lemma RegionMatchesIsLowerEquality(a: string, b: string)
    ensures RegionMatchesIgnoreCase(a, b) <==> ToLowerAscii(a) == ToLowerAscii(b)
  {
    if RegionMatchesIgnoreCase(a, b) {
      forall i | 0 <= i < |a| ensures ToLowerAscii(a)[i] == ToLowerAscii(b)[i] {
        CharEqualsIgnoreCaseIsLowerEquality(a[i], b[i]);
      }
    }
    if ToLowerAscii(a) == ToLowerAscii(b) {
      forall i | 0 <= i < |a| ensures CharEqualsIgnoreCase(a[i], b[i]) {
        assert ToLowerAscii(a)[i] == ToLowerAscii(b)[i];
        CharEqualsIgnoreCaseIsLowerEquality(a[i], b[i]);
      }
    }
  }

  /** `String.equalsIgnoreCase` on two non-null strings, for ASCII letters. */
  function EqualsIgnoreCase(a: string, b: string): (r: bool)
    ensures r <==> ToLowerAscii(a) == ToLowerAscii(b)
  {
    RegionMatchesIsLowerEquality(a, b);
    RegionMatchesIgnoreCase(a, b)
  }

  /** `Boolean.parseBoolean`: true exactly for "true" in any letter case. */
  function ParseBoolean(s: string): (r: bool)
    ensures r <==> ToLowerAscii(s) == "true"
    ensures r ==> |s| == 4
  {
    assert ToLowerAscii("true") == "true";
    EqualsIgnoreCase(s, "true")
  }

  // ---------------------------------------------------------------------
  // Integer.parseInt and Integer.toString (radix 10)
  // ---------------------------------------------------------------------

  predicate IsDigit(c: char) {
    '0' <= c <= '9'
  }

  predicate AllDigits(s: string) {
    forall i :: 0 <= i < |s| ==> IsDigit(s[i])
  }

  function DigitValue(c: char): nat
    requires IsDigit(c)
  {
    c as int - '0' as int
  }

  /** The value of a string of decimal digits, most significant first. */
  function DigitsValue(s: string): nat
    requires AllDigits(s)
  {
    if |s| == 0 then 0 else DigitsValue(s[..|s| - 1]) * 10 + DigitValue(s[|s| - 1])
  }

  /** `Integer.parseInt(s)`: an optional '+' or '-', then at least one
      decimal digit, with a value that fits in an `int`; anything else
      throws `NumberFormatException`. */
  function ParseInt(s: string): (r: Result<Int32, JavaException>)
    ensures r.Failure? ==> r.error == NumberFormatException(s)
    ensures r.Success? ==> |s| > 0 && (IsDigit(s[0]) || s[0] == '+' || s[0] == '-')
    ensures r.Success? ==> IsDigit(s[0]) || |s| >= 2
    ensures r.Success? ==> forall i :: 0 < i < |s| ==> IsDigit(s[i])
    ensures r.Success? && s[0] == '-' ==> r.value <= 0
    ensures r.Success? && s[0] != '-' ==> r.value >= 0
  {
    if |s| == 0 then Failure(NumberFormatException(s))
    else
      var digits := if s[0] == '-' || s[0] == '+' then s[1..] else s;
      if |digits| == 0 || !AllDigits(digits) then Failure(NumberFormatException(s))
      else
        var magnitude: int := DigitsValue(digits);
        var v := if s[0] == '-' then -magnitude else magnitude;
        if INT_MIN <= v <= INT_MAX then Success(v) else Failure(NumberFormatException(s))
  }

  function DigitChar(d: nat): (c: char)
    requires d < 10
    ensures IsDigit(c) && DigitValue(c) == d
  {
    ('0' as int + d) as char
  }

  /** The decimal digits of `n`, without leading zeros. */
  function NatToString(n: nat): (r: string)
    ensures |r| > 0 && AllDigits(r)
  {
    if n < 10 then [DigitChar(n)] else NatToString(n / 10) + [DigitChar(n % 10)]
  }

  /** `Integer.toString(n)`. */
  function IntToString(n: int): (r: string)
    ensures |r| > 0 && (IsDigit(r[0]) || r[0] == '-')
    ensures forall i :: 0 <= i < |r| ==> IsDigit(r[i]) || r[i] == '-'
  {
    if n < 0 then "-" + NatToString(-n) else NatToString(n)
  }

  lemma {:induction false} NatToStringValue(n: nat)
    ensures DigitsValue(NatToString(n)) == n
  {
    if n >= 10 {
      var s := NatToString(n);
      assert s[..|s| - 1] == NatToString(n / 10);
      NatToStringValue(n / 10);
    }
  }

  /** `Integer.parseInt` reads back every `int` that `Integer.toString` writes. */
  lemma ParseIntReadsToString(n: Int32)
    ensures ParseInt(IntToString(n)) == Success(n)
  {
    var s := IntToString(n);
    if n < 0 {
      var m: nat := -(n as int);
      var t := NatToString(m);
      assert s == "-" + t && s[0] == '-' && s[1..] == t;
      NatToStringValue(m);
      assert DigitsValue(t) == m;
    } else {
      var t := NatToString(n);
      assert s == t && IsDigit(s[0]);
      NatToStringValue(n);
      assert DigitsValue(t) == n;
    }
  }

  /** A decimal text whose value is outside the `int` range is rejected,
      however it is signed. */
  lemma ParseIntRejectsOutOfRange(n: int)
    requires n < INT_MIN || INT_MAX < n
    ensures ParseInt(IntToString(n)) == Failure(NumberFormatException(IntToString(n)))
  {
    var s := IntToString(n);
    if n < 0 {
      var m: nat := -n;
      var t := NatToString(m);
      assert s == "-" + t && s[0] == '-' && s[1..] == t;
      NatToStringValue(m);
    } else {
      var t := NatToString(n);
      assert s == t && IsDigit(s[0]);
      NatToStringValue(n);
    }
  }

  /** A leading '+' is accepted and changes nothing. */
  lemma ParseIntAcceptsPlus(n: nat)
    requires n <= INT_MAX
    ensures ParseInt("+" + NatToString(n)) == Success(n)
  {
    var t := NatToString(n);
    var s := "+" + t;
    assert s[0] == '+' && s[1..] == t;
    NatToStringValue(n);
  }

  /** A sign with no digits after it is rejected. */
  lemma ParseIntRejectsLoneSign()
    ensures ParseInt("+") == Failure(NumberFormatException("+"))
    ensures ParseInt("-") == Failure(NumberFormatException("-"))
  {
    assert "+"[1..] == [];
    assert "-"[1..] == [];
  }

  /** The full acceptance rule: an optional sign followed by any non-empty
      run of digits, leading zeros included, reads as its signed value when
      that fits in an `int`, and throws otherwise. */
  lemma ParseIntOfSignedDigits(sign: string, d: string)
    requires sign == "" || sign == "+" || sign == "-"
    requires |d| > 0 && AllDigits(d)
    ensures var v: int := if sign == "-" then 0 - DigitsValue(d) as int else DigitsValue(d);
            ParseInt(sign + d) == if INT_MIN <= v <= INT_MAX then Success(v)
                                  else Failure(NumberFormatException(sign + d))
  {
    var s := sign + d;
    if sign == "" {
      assert s == d && IsDigit(s[0]);
    } else {
      assert s[0] == sign[0] && s[1..] == d;
    }
  }

  /** Texts `Integer.toString` never writes: leading zeros, "-0" and a '+'
      with leading zeros. */
  lemma NonCanonicalIntExamples()
    ensures ParseInt("007") == Success(7)
    ensures ParseInt("-0") == Success(0)
    ensures ParseInt("+007") == Success(7)
  {
    ParseIntOfSignedDigits("", "007");
    assert "" + "007" == "007";
    ParseIntOfSignedDigits("-", "0");
    assert "-" + "0" == "-0";
    ParseIntOfSignedDigits("+", "007");
    assert "+" + "007" == "+007";
  }

  /** Padding does not bring a value into range: a zero before the digits
      of any number above `Integer.MAX_VALUE` still throws. */
  lemma ParseIntRejectsPaddedOutOfRange(n: nat)
    requires INT_MAX < n
    ensures ParseInt("0" + NatToString(n)) == Failure(NumberFormatException("0" + NatToString(n)))
  {
    var t := NatToString(n);
    NatToStringValue(n);
    LeadingZeroKeepsValue(t);
    ParseIntOfSignedDigits("", "0" + t);
    assert "" + ("0" + t) == "0" + t;
  }

  /** A signed value and a zero-padded one, as a window size may hold them. */
  lemma PaddedIntExamples()
    ensures ParseInt("+800") == Success(800) && ParseInt("0600") == Success(600)
  {
    hide ParseInt;
    assert "800"[..2] == "80" && "80"[..1] == "8" && "8"[..0] == "";
    assert DigitsValue("800") == 800;
    assert "0600"[..3] == "060" && "060"[..2] == "06" && "06"[..1] == "0" && "0"[..0] == "";
    assert DigitsValue("0600") == 600;
    ParseIntOfSignedDigits("+", "800");
    ParseIntOfSignedDigits("", "0600");
    assert "+" + "800" == "+800" && "" + "0600" == "0600";
  }

  /** A leading zero does not change the value of a run of digits. */
  lemma {:induction false} LeadingZeroKeepsValue(t: string)
    requires AllDigits(t)
    ensures AllDigits("0" + t) && DigitsValue("0" + t) == DigitsValue(t)
  {
    if |t| > 0 {
      var s := "0" + t;
      assert s[..|s| - 1] == "0" + t[..|t| - 1];
      LeadingZeroKeepsValue(t[..|t| - 1]);
    }
  }

  // ---------------------------------------------------------------------
  // String.split with a one-character separator and no limit
  // ---------------------------------------------------------------------

  /** The pieces of `s` between occurrences of `sep`, empty ones included. */
  function Pieces(s: string, sep: char): (r: seq<string>)
    ensures |r| >= 1
    decreases |s|
  {
    if |s| == 0 then [""]
    else
      var rest := Pieces(s[1..], sep);
      if s[0] == sep then [""] + rest else [[s[0]] + rest[0]] + rest[1..]
  }

  lemma {:induction false} PiecesHaveNoSeparator(s: string, sep: char)
    ensures forall i :: 0 <= i < |Pieces(s, sep)| ==> sep !in Pieces(s, sep)[i]
    decreases |s|
  {
    if |s| > 0 {
      PiecesHaveNoSeparator(s[1..], sep);
    }
  }

  /** `String.join`: the pieces with `sep` between neighbours. */
  function Join(parts: seq<string>, sep: char): string
    requires |parts| >= 1
  {
    if |parts| == 1 then parts[0] else parts[0] + [sep] + Join(parts[1..], sep)
  }

  /** Joining the pieces puts back the separators the split took out. */
  lemma {:induction false} JoinPieces(s: string, sep: char)
    ensures Join(Pieces(s, sep), sep) == s
    decreases |s|
  {
    if |s| > 0 {
      var rest := Pieces(s[1..], sep);
      JoinPieces(s[1..], sep);
      if s[0] == sep {
        assert Pieces(s, sep)[1..] == rest;
      } else {
        var r := Pieces(s, sep);
        if |rest| == 1 {
          assert r == [[s[0]] + rest[0]];
        } else {
          assert r[1..] == rest[1..];
          assert Join(rest, sep) == rest[0] + [sep] + Join(rest[1..], sep);
        }
        assert s == [s[0]] + s[1..];
      }
    }
  }

  lemma {:induction false} PiecesWithoutSeparator(a: string, sep: char)
    requires sep !in a
    ensures Pieces(a, sep) == [a]
    decreases |a|
  {
    if |a| > 0 {
      assert sep !in a[1..];
      PiecesWithoutSeparator(a[1..], sep);
      assert [a[0]] + a[1..] == a;
    }
  }

  /** A separator-free prefix and the separator after it make one piece. */
  lemma {:induction false} PiecesAfterSeparator(a: string, sep: char, t: string)
    requires sep !in a
    ensures Pieces(a + [sep] + t, sep) == [a] + Pieces(t, sep)
    decreases |a|
  {
    var s := a + [sep] + t;
    if |a| == 0 {
      assert s[1..] == t;
    } else {
      assert s[1..] == a[1..] + [sep] + t;
      assert sep !in a[1..];
      PiecesAfterSeparator(a[1..], sep, t);
      assert [a[0]] + a[1..] == a;
    }
  }

  /** Splitting a join of separator-free parts gives back the parts. */
  lemma {:induction false} PiecesOfJoin(parts: seq<string>, sep: char)
    requires |parts| >= 1
    requires forall i :: 0 <= i < |parts| ==> sep !in parts[i]
    ensures Pieces(Join(parts, sep), sep) == parts
  {
    if |parts| == 1 {
      PiecesWithoutSeparator(parts[0], sep);
    } else {
      PiecesOfJoin(parts[1..], sep);
      PiecesAfterSeparator(parts[0], sep, Join(parts[1..], sep));
      assert [parts[0]] + parts[1..] == parts;
    }
  }

  /** A string made only of separators splits into empty pieces. */
  lemma {:induction false} PiecesOfSeparators(s: string, sep: char)
    requires forall i :: 0 <= i < |s| ==> s[i] == sep
    ensures forall j :: 0 <= j < |Pieces(s, sep)| ==> Pieces(s, sep)[j] == ""
    decreases |s|
  {
    if |s| > 0 {
      PiecesOfSeparators(s[1..], sep);
    }
  }

  /** A string with a character other than the separator has a non-empty piece. */
  lemma {:induction false} NonSeparatorGivesNonEmptyPiece(s: string, sep: char, k: nat)
    requires k < |s| && s[k] != sep
    ensures exists j :: 0 <= j < |Pieces(s, sep)| && Pieces(s, sep)[j] != ""
    decreases |s|
  {
    var r := Pieces(s, sep);
    if s[0] != sep {
      assert r[0] != "";
    } else {
      NonSeparatorGivesNonEmptyPiece(s[1..], sep, k - 1);
      var j :| 0 <= j < |Pieces(s[1..], sep)| && Pieces(s[1..], sep)[j] != "";
      assert r[j + 1] != "";
    }
  }

  /** The list with its trailing empty strings removed, as `split` does
      when no limit is given. */
  function TrimTrailingEmpty(parts: seq<string>): seq<string> {
    if |parts| == 0 then []
    else if parts[|parts| - 1] == "" then TrimTrailingEmpty(parts[..|parts| - 1])
    else parts
  }

  /** What trimming keeps: a prefix of the parts that is empty or ends with a
      non-empty part, and only empty parts after it. */
  lemma {:induction false} TrimTrailingEmptyKeeps(parts: seq<string>)
    ensures TrimTrailingEmpty(parts) <= parts
    ensures |TrimTrailingEmpty(parts)| > 0 ==> TrimTrailingEmpty(parts)[|TrimTrailingEmpty(parts)| - 1] != ""
    ensures forall i :: |TrimTrailingEmpty(parts)| <= i < |parts| ==> parts[i] == ""
  {
    if |parts| > 0 && parts[|parts| - 1] == "" {
      TrimTrailingEmptyKeeps(parts[..|parts| - 1]);
    }
  }

  /** A part list that ends with a non-empty part keeps all its parts. */
  lemma TrimKeepsNonEmptyPrefix(a: seq<string>, b: seq<string>)
    requires |a| > 0 && a[|a| - 1] != ""
    ensures a <= TrimTrailingEmpty(a + b)
  {
    var r := TrimTrailingEmpty(a + b);
    TrimTrailingEmptyKeeps(a + b);
    assert (a + b)[|a| - 1] == a[|a| - 1];
    assert |a| <= |r|;
    assert r[..|a|] == (a + b)[..|a|];
  }

  /** Trailing empty parts after a part list that ends non-empty are all dropped. */
  lemma TrimDropsEmptyTail(a: seq<string>, b: seq<string>)
    requires |a| == 0 || a[|a| - 1] != ""
    requires forall i :: 0 <= i < |b| ==> b[i] == ""
    ensures TrimTrailingEmpty(a + b) == a
  {
    var r := TrimTrailingEmpty(a + b);
    TrimTrailingEmptyKeeps(a + b);
    if |a| > 0 {
      TrimKeepsNonEmptyPrefix(a, b);
    }
    assert r == a;
  }

  /** A part list followed by a non-empty part keeps more than its own parts. */
  lemma TrimKeepsUpToNonEmpty(a: seq<string>, b: seq<string>, j: nat)
    requires j < |b| && b[j] != ""
    ensures |TrimTrailingEmpty(a + b)| > |a| + j
    ensures TrimTrailingEmpty(a + b)[..|a|] == a
  {
    var r := TrimTrailingEmpty(a + b);
    TrimTrailingEmptyKeeps(a + b);
    assert (a + b)[|a| + j] == b[j];
    assert r[..|a|] == (a + b)[..|a|];
  }

  /** `s.split(String.valueOf(sep))` for a separator that is not a regular
      expression metacharacter: a string without the separator is returned
      whole, otherwise the pieces without their trailing empty strings. */
  function Split(s: string, sep: char): (r: seq<string>)
    ensures sep !in s ==> r == [s]
    ensures sep in s && |r| > 0 ==> r[|r| - 1] != ""
  {
    if sep !in s then [s]
    else
      TrimTrailingEmptyKeeps(Pieces(s, sep));
      TrimTrailingEmpty(Pieces(s, sep))
  }

  /** The parts of a split never contain the separator. */
  lemma SplitPartsHaveNoSeparator(s: string, sep: char)
    ensures forall i :: 0 <= i < |Split(s, sep)| ==> sep !in Split(s, sep)[i]
  {
    PiecesHaveNoSeparator(s, sep);
    TrimTrailingEmptyKeeps(Pieces(s, sep));
  }


  /** The first part of a split is the text before the first separator,
      provided the split keeps any part at all. */
  lemma SplitFirstPart(a: string, sep: char, rest: string)
    requires sep !in a
    requires a != "" || exists i :: 0 <= i < |rest| && rest[i] != sep
    ensures |Split(a + [sep] + rest, sep)| >= 1 && Split(a + [sep] + rest, sep)[0] == a
  {
    hide Pieces, TrimTrailingEmpty;
    var w := a + [sep] + rest;
    assert w[|a|] == sep;
    PiecesAfterSeparator(a, sep, rest);
    if a != "" {
      TrimKeepsNonEmptyPrefix([a], Pieces(rest, sep));
    } else {
      var i :| 0 <= i < |rest| && rest[i] != sep;
      NonSeparatorGivesNonEmptyPiece(rest, sep, i);
      var j :| 0 <= j < |Pieces(rest, sep)| && Pieces(rest, sep)[j] != "";
      TrimKeepsUpToNonEmpty([a], Pieces(rest, sep), j);
    }
  }

  /** A separator-free part followed by nothing or by a separator is the
      first piece. */
  lemma PiecesOfPartThenRest(b: string, sep: char, rest: string)
    requires sep !in b
    requires rest == [] || rest[0] == sep
    ensures Pieces(b + rest, sep) == [b] + (if rest == [] then [] else Pieces(rest[1..], sep))
  {
    if rest == [] {
      assert b + rest == b;
      PiecesWithoutSeparator(b, sep);
    } else {
      assert b + rest == b + [sep] + rest[1..];
      PiecesAfterSeparator(b, sep, rest[1..]);
    }
  }

  /** The first two parts of a split are the texts around the first
      separator and up to the second one, provided the split keeps them. */
  lemma SplitFirstTwoParts(a: string, sep: char, b: string, rest: string)
    requires sep !in a && sep !in b && a != ""
    requires rest == [] || rest[0] == sep
    requires b != "" || exists i :: 0 <= i < |rest| && rest[i] != sep
    ensures var parts := Split(a + [sep] + b + rest, sep);
            |parts| >= 2 && parts[0] == a && parts[1] == b
  {
    // The piece and trimming facts come from the lemmas above.
    hide Pieces, TrimTrailingEmpty;
    var w := a + [sep] + b + rest;
    var tail := if rest == [] then [] else Pieces(rest[1..], sep);
    assert w == a + [sep] + (b + rest);
    assert w[|a|] == sep;
    PiecesAfterSeparator(a, sep, b + rest);
    PiecesOfPartThenRest(b, sep, rest);
    assert Pieces(w, sep) == [a, b] + tail;
    var parts := TrimTrailingEmpty([a, b] + tail);
    assert sep in w;
    if b != "" {
      TrimKeepsNonEmptyPrefix([a, b], tail);
    } else {
      var i :| 0 <= i < |rest| && rest[i] != sep;
      NonSeparatorGivesNonEmptyPiece(rest[1..], sep, i - 1);
      var j :| 0 <= j < |tail| && tail[j] != "";
      TrimKeepsUpToNonEmpty([a, b], tail, j);
    }
  }

  /** A text followed only by separators splits into that text alone. */
  lemma SplitBeforeSeparators(a: string, sep: char, rest: string)
    requires sep !in a && a != ""
    requires |rest| > 0 && forall i :: 0 <= i < |rest| ==> rest[i] == sep
    ensures Split(a + rest, sep) == [a]
  {
    var w := a + rest;
    assert w[|a|] == sep;
    assert w == a + [sep] + rest[1..];
    PiecesAfterSeparator(a, sep, rest[1..]);
    PiecesOfSeparators(rest[1..], sep);
    TrimDropsEmptyTail([a], Pieces(rest[1..], sep));
  }

  /** A text made only of separators splits into nothing. */
  lemma SplitOfSeparators(w: string, sep: char)
    requires |w| > 0 && forall i :: 0 <= i < |w| ==> w[i] == sep
    ensures Split(w, sep) == []
  {
    assert w[0] == sep;
    PiecesOfSeparators(w, sep);
    TrimDropsEmptyTail([], Pieces(w, sep));
    assert [] + Pieces(w, sep) == Pieces(w, sep);
  }
}
