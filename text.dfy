/** Characters, strings and the JavaScript string and number primitives the
    chart parser relies on: trim(), the regex classes \d, [A-Z] with the /i
    flag and \s, toUpperCase/toLowerCase on ASCII names, String.split on a
    character class, parseInt(s, 10) and parseFloat. */
module Text {

  /** None stands for JavaScript's NaN wherever a number is parsed. */
  datatype Option<T> = None | Some(value: T)

  predicate IsDigit(c: char) { '0' <= c <= '9' }

  predicate IsUpperLetter(c: char) { 'A' <= c <= 'Z' }

  predicate IsLowerLetter(c: char) { 'a' <= c <= 'z' }

  /** [A-Z] under the /i flag: the regex engine folds case only within ASCII here. */
  predicate IsLetter(c: char) { IsUpperLetter(c) || IsLowerLetter(c) }

  /** The characters that trim() removes and that \s matches. */
  predicate IsSpace(c: char) {
    c in Spaces
  }

  const Spaces: set<char> :=
    {'\t', '\n', '\U{B}', '\U{C}', '\r', ' ', '\U{A0}', '\U{1680}',
     '\U{2000}', '\U{2001}', '\U{2002}', '\U{2003}', '\U{2004}', '\U{2005}',
     '\U{2006}', '\U{2007}', '\U{2008}', '\U{2009}', '\U{200A}',
     '\U{2028}', '\U{2029}', '\U{202F}', '\U{205F}', '\U{3000}', '\U{FEFF}'}

  /** The characters that the regex '.' does not match. */
  predicate IsLineTerminator(c: char) {
    c == '\n' || c == '\r' || c == '\U{2028}' || c == '\U{2029}'
  }

  predicate NotLineTerminator(c: char) { !IsLineTerminator(c) }

  predicate NotDigit(c: char) { !IsDigit(c) }

  /** The line breaks that split a chart into lines. */
  predicate IsLineBreak(c: char) { c == '\r' || c == '\n' }

  predicate NotLineBreak(c: char) { !IsLineBreak(c) }

  predicate AllDigits(s: string) {
    forall i :: 0 <= i < |s| ==> IsDigit(s[i])
  }

  predicate AllLetters(s: string) {
    forall i :: 0 <= i < |s| ==> IsLetter(s[i])
  }

  predicate AllSpace(s: string) {
    forall i :: 0 <= i < |s| ==> IsSpace(s[i])
  }

  /** Neither end of s is white space. */
  predicate Trimmed(s: string) {
    s == [] || (!IsSpace(s[0]) && !IsSpace(s[|s| - 1]))
  }

  // ---------------------------------------------------------------------------
  // Case mapping on ASCII letters

  function UpperChar(c: char): (u: char)
    ensures IsLetter(c) ==> IsUpperLetter(u) && LowerChar(u) == LowerChar(c)
    ensures !IsLetter(c) ==> u == c
  {
    if IsLowerLetter(c) then (c as int - 32) as char else c
  }

  function LowerChar(c: char): (l: char)
    ensures IsLetter(c) ==> IsLowerLetter(l)
    ensures !IsLetter(c) ==> l == c
  {
    if IsUpperLetter(c) then (c as int + 32) as char else c
  }

  function ToUpper(s: string): (u: string)
    ensures |u| == |s|
    ensures forall i :: 0 <= i < |s| ==> u[i] == UpperChar(s[i])
    decreases |s|
  {
    if |s| == 0 then [] else [UpperChar(s[0])] + ToUpper(s[1..])
  }

  function ToLower(s: string): (l: string)
    ensures |l| == |s|
    ensures forall i :: 0 <= i < |s| ==> l[i] == LowerChar(s[i])
    decreases |s|
  {
    if |s| == 0 then [] else [LowerChar(s[0])] + ToLower(s[1..])
  }

  /** Lower-casing forgets whether a name was upper-cased first. */
  lemma LowerOfUpper(s: string)
    ensures ToLower(ToUpper(s)) == ToLower(s)
  {
  }

  // ---------------------------------------------------------------------------
  // Runs and trimming

  /** Length of the longest prefix of s whose characters all satisfy p. */
  function Span(s: string, p: char -> bool): (n: nat)
    ensures n <= |s|
    ensures forall i :: 0 <= i < n ==> p(s[i])
    ensures n == |s| || !p(s[n])
    decreases |s|
  {
    if |s| > 0 && p(s[0]) then 1 + Span(s[1..], p) else 0
  }

  /** Length of the longest suffix of s whose characters all satisfy p. */
  function SpanBack(s: string, p: char -> bool): (n: nat)
    ensures n <= |s|
    ensures forall i :: |s| - n <= i < |s| ==> p(s[i])
    ensures n == |s| || !p(s[|s| - n - 1])
    decreases |s|
  {
    if |s| > 0 && p(s[|s| - 1]) then 1 + SpanBack(s[..|s| - 1], p) else 0
  }

  /** trimStart(): drop leading white space. */
  function TrimStart(s: string): (r: string)
    ensures |r| <= |s| && r == s[|s| - |r|..]
    ensures AllSpace(s[..|s| - |r|])
    ensures r == [] || !IsSpace(r[0])
  {
    s[Span(s, IsSpace)..]
  }

  /** trimEnd(): drop trailing white space. */
  function TrimEnd(s: string): (r: string)
    ensures |r| <= |s| && r == s[..|r|]
    ensures AllSpace(s[|r|..])
    ensures r == [] || !IsSpace(r[|r| - 1])
  {
    s[..|s| - SpanBack(s, IsSpace)]
  }

  /** trim(): trimEnd() after trimStart(); TrimShape states what it leaves. */
  function Trim(s: string): (r: string)
    ensures |r| <= |s|
    ensures Trimmed(r)
  {
    var t := TrimStart(s);
    var r := TrimEnd(t);
    assert r != [] ==> r[0] == t[0];
    r
  }

  /** The trimmed string is the longest substring of s that neither starts nor ends
      with white space and leaves only white space around it. */
  lemma TrimShape(s: string)
    ensures |Trim(s)| <= |TrimStart(s)| <= |s|
    ensures Trim(s) == s[|s| - |TrimStart(s)|..|s| - |TrimStart(s)| + |Trim(s)|]
    ensures AllSpace(s[..|s| - |TrimStart(s)|]) && AllSpace(s[|s| - |TrimStart(s)| + |Trim(s)|..])
  {
    var t := TrimStart(s);
    var r := TrimEnd(t);
    assert Trim(s) == r;
    PrefixOfSuffix(s, t, r);
  }

  /** A prefix r of a suffix t of s, each cut at white space, sits in s between white
      space on either side. */
  lemma PrefixOfSuffix(s: string, t: string, r: string)
    requires |t| <= |s| && t == s[|s| - |t|..] && |r| <= |t| && r == t[..|r|] && AllSpace(t[|r|..])
    ensures r == s[|s| - |t|..|s| - |t| + |r|] && AllSpace(s[|s| - |t| + |r|..])
  {
    assert s[|s| - |t| + |r|..] == t[|r|..];
  }

  /** Trimming what is already trimmed changes nothing. */
  lemma {:induction false} TrimIdempotent(s: string)
    ensures Trim(Trim(s)) == Trim(s)
  {
    var r := Trim(s);
    if r != [] {
      assert TrimStart(r) == r;
      assert TrimEnd(r) == r;
    }
  }

  // ---------------------------------------------------------------------------
  // Decimal numbers

  function DigitValue(c: char): nat
    requires IsDigit(c)
  {
    c as int - '0' as int
  }

  function DigitChar(d: nat): (c: char)
    requires d < 10
    ensures IsDigit(c) && DigitValue(c) == d
  {
    ('0' as int + d) as char
  }

  /** The value of a string of decimal digits, most significant first. */
  function Decimal(s: string): nat
    requires AllDigits(s)
  {
    if |s| == 0 then 0 else 10 * Decimal(s[..|s| - 1]) + DigitValue(s[|s| - 1])
  }

  /** The shortest decimal spelling of n, as n.toString() writes it. */
  function NatToString(n: nat): (s: string)
    ensures |s| > 0 && AllDigits(s) && Decimal(s) == n
    ensures n > 0 ==> s[0] != '0'
  {
    if n < 10 then [DigitChar(n)]
    else
      var s := NatToString(n / 10) + [DigitChar(n % 10)];
      assert s[..|s| - 1] == NatToString(n / 10);
      s
  }

  function Pow10(n: nat): (p: real)
    ensures p >= 1.0
  {
    if n == 0 then 1.0 else 10.0 * Pow10(n - 1)
  }

  /** Splits an optional leading '+' or '-' off s. */
  function SignOf(s: string): (r: (bool, string))
    ensures r.1 == s || (|s| > 0 && r.1 == s[1..])
  {
    if |s| > 0 && (s[0] == '+' || s[0] == '-') then (s[0] == '-', s[1..]) else (false, s)
  }

  /** parseInt(s, 10): leading white space, an optional sign, then the longest run of
      digits; NaN when there is no digit. */
  function ParseInt(s: string): (r: Option<int>)
    ensures r.None? <==> Span(SignOf(TrimStart(s)).1, IsDigit) == 0
  {
    var (negative, u) := SignOf(TrimStart(s));
    var n := Span(u, IsDigit);
    if n == 0 then None
    else if negative then Some(-(Decimal(u[..n]) as int)) else Some(Decimal(u[..n]))
  }

  /** The optional exponent part [eE][+-]?digits at the head of s. */
  function Exponent(s: string): Option<int>
  {
    if |s| > 0 && (s[0] == 'e' || s[0] == 'E') then
      var (negative, u) := SignOf(s[1..]);
      var n := Span(u, IsDigit);
      if n == 0 then None
      else if negative then Some(-(Decimal(u[..n]) as int)) else Some(Decimal(u[..n]))
    else None
  }

  /** The value of the digits after a decimal point. */
  function Fraction(digits: string): real
    requires AllDigits(digits)
  {
    Decimal(digits) as real / Pow10(|digits|)
  }

  /** m scaled by ten to the power of an optional exponent. */
  function Scale(m: real, e: Option<int>): real
  {
    match e
    case None => m
    case Some(x) => if x >= 0 then m * Pow10(x) else m / Pow10(-x)
  }

  /** The longest prefix digits[.digits][exponent] of u holding at least one digit
      before the exponent, read as a number; NaN when there is none. */
  function UnsignedNumber(u: string): Option<real>
  {
    var whole := Span(u, IsDigit);
    var afterWhole := u[whole..];
    if |afterWhole| > 0 && afterWhole[0] == '.' then
      var frac := Span(afterWhole[1..], IsDigit);
      if whole == 0 && frac == 0 then None
      else Some(Scale(Decimal(u[..whole]) as real + Fraction(afterWhole[1..1 + frac]), Exponent(afterWhole[1 + frac..])))
    else if whole == 0 then None
    else Some(Scale(Decimal(u[..whole]) as real, Exponent(afterWhole)))
  }

  /** parseFloat(s): leading white space, an optional sign, then an unsigned number. */
  function ParseFloat(s: string): Option<real>
  {
    var (negative, u) := SignOf(TrimStart(s));
    match UnsignedNumber(u)
    case None => None
    case Some(m) => Some(if negative then -m else m)
  }

  lemma {:induction false} SpanOfDigits(s: string)
    requires AllDigits(s)
    ensures Span(s, IsDigit) == |s|
    decreases |s|
  {
    if |s| > 0 {
      SpanOfDigits(s[1..]);
    }
  }

  /** trim() keeps a string that neither starts nor ends with white space. */
  lemma TrimKeeps(s: string)
    requires Trimmed(s)
    ensures Trim(s) == s
  {
    if s != [] {
      assert Span(s, IsSpace) == 0;
      assert SpanBack(s, IsSpace) == 0;
    }
  }

  /** trimStart() keeps a string that starts with no white space. */
  lemma TrimStartKeeps(s: string)
    requires |s| > 0 && !IsSpace(s[0])
    ensures TrimStart(s) == s
  {
    assert Span(s, IsSpace) == 0;
  }

  /** parseInt reads back what toString wrote, with or without a minus sign. */
  lemma ParseIntOfNat(n: nat)
    ensures ParseInt(NatToString(n)) == Some(n)
    ensures ParseInt("-" + NatToString(n)) == Some(-(n as int))
  {
    var s := NatToString(n);
    SpanOfDigits(s);
    TrimStartKeeps(s);
    assert SignOf(s) == (false, s);
    assert s[..|s|] == s;
    var t := "-" + s;
    TrimStartKeeps(t);
    assert t[1..] == s;
    assert SignOf(t) == (true, s);
  }

  /** parseFloat reads a plain digit string as that whole number. */
  lemma ParseFloatOfNat(n: nat)
    ensures ParseFloat(NatToString(n)) == Some(n as real)
  {
    var s := NatToString(n);
    TrimStartKeeps(s);
    assert SignOf(s) == (false, s);
    UnsignedDigits(s);
  }

  /** A digit string alone reads as its decimal value. */
  lemma UnsignedDigits(s: string)
    requires |s| > 0 && AllDigits(s)
    ensures UnsignedNumber(s) == Some(Decimal(s) as real)
  {
    SpanOfDigits(s);
    assert s[..|s|] == s;
    assert s[|s|..] == "";
  }

  // ---------------------------------------------------------------------------
  // Splitting on a character class

  /** The separator characters of s, in order. */
  function Separators(s: string, isSep: char -> bool): (seps: string)
    ensures forall i :: 0 <= i < |seps| ==> isSep(seps[i])
    decreases |s|
  {
    if |s| == 0 then ""
    else if isSep(s[0]) then [s[0]] + Separators(s[1..], isSep)
    else Separators(s[1..], isSep)
  }

  /** String.split on a single-character class: the pieces between separators,
      empty pieces included. */
  function Split(s: string, isSep: char -> bool): (pieces: seq<string>)
    ensures |pieces| == |Separators(s, isSep)| + 1
    decreases |s|
  {
    if |s| == 0 then [""]
    else
      var rest := Split(s[1..], isSep);
      if isSep(s[0]) then [""] + rest
      else Prepend(s[0], rest)
  }

  /** The pieces with c put in front of the first one. */
  function Prepend(c: char, pieces: seq<string>): (r: seq<string>)
    requires |pieces| > 0
    ensures |r| == |pieces|
  {
    [[c] + pieces[0]] + pieces[1..]
  }

  lemma PrependAppend(c: char, a: seq<string>, b: seq<string>)
    requires |a| > 0
    ensures Prepend(c, a + b) == Prepend(c, a) + b
  {
    assert (a + b)[1..] == a[1..] + b;
  }

  /** No piece holds a separator. */
  lemma {:induction false} SplitPiecesFree(s: string, isSep: char -> bool)
    ensures forall k, i :: 0 <= k < |Split(s, isSep)| && 0 <= i < |Split(s, isSep)[k]| ==> !isSep(Split(s, isSep)[k][i])
    decreases |s|
  {
    if |s| > 0 {
      SplitPiecesFree(s[1..], isSep);
      var rest := Split(s[1..], isSep);
      if !isSep(s[0]) {
        var first := [s[0]] + rest[0];
        assert forall i :: 1 <= i < |first| ==> first[i] == rest[0][i - 1];
      }
    }
  }

  /** Puts the pieces back together with the separators between them. */
  function Interleave(pieces: seq<string>, seps: string): string
    requires |pieces| == |seps| + 1
    decreases |seps|
  {
    if |seps| == 0 then pieces[0]
    else pieces[0] + [seps[0]] + Interleave(pieces[1..], seps[1..])
  }

  /** Splitting loses nothing: the pieces and separators spell the input again. */
  lemma {:induction false} SplitInterleave(s: string, isSep: char -> bool)
    ensures Interleave(Split(s, isSep), Separators(s, isSep)) == s
    decreases |s|
  {
    if |s| > 0 {
      var rest := Split(s[1..], isSep);
      var seps := Separators(s[1..], isSep);
      SplitInterleave(s[1..], isSep);
      if !isSep(s[0]) {
        var pieces := Split(s, isSep);
        if |seps| == 0 {
          assert pieces == [[s[0]] + rest[0]];
        } else {
          assert pieces[1..] == rest[1..];
          assert Interleave(pieces, seps) == [s[0]] + rest[0] + [seps[0]] + Interleave(rest[1..], seps[1..]);
        }
      }
    }
  }

  /** A string without separators is one piece. */
  lemma {:induction false} SplitNoSeparator(s: string, isSep: char -> bool)
    requires forall i :: 0 <= i < |s| ==> !isSep(s[i])
    ensures Split(s, isSep) == [s]
    decreases |s|
  {
    if |s| > 0 {
      SplitNoSeparator(s[1..], isSep);
      assert [s[0]] + s[1..] == s;
    }
  }

  /** A separator splits the text on its two sides independently. */
  lemma {:induction false} SplitAtSeparator(x: string, c: char, y: string, isSep: char -> bool)
    requires isSep(c)
    ensures Split(x + [c] + y, isSep) == Split(x, isSep) + Split(y, isSep)
    decreases |x|
  {
    if |x| == 0 {
      assert x + [c] + y == [c] + y;
      assert ([c] + y)[1..] == y;
    } else {
      var s := x + [c] + y;
      assert s[0] == x[0] && s[1..] == x[1..] + [c] + y;
      SplitAtSeparator(x[1..], c, y, isSep);
      if !isSep(x[0]) {
        PrependAppend(x[0], Split(x[1..], isSep), Split(y, isSep));
      }
    }
  }

  /** The pieces that are not empty, in order. */
  function NonEmpty(pieces: seq<string>): (r: seq<string>)
    ensures forall k :: 0 <= k < |r| ==> r[k] != "" && r[k] in pieces
    ensures forall p :: p in pieces && p != "" ==> p in r
  {
    if |pieces| == 0 then []
    else if pieces[0] == "" then NonEmpty(pieces[1..])
    else [pieces[0]] + NonEmpty(pieces[1..])
  }

  lemma {:induction false} NonEmptyAppend(a: seq<string>, b: seq<string>)
    ensures NonEmpty(a + b) == NonEmpty(a) + NonEmpty(b)
    decreases |a|
  {
    if |a| > 0 {
      assert (a + b)[1..] == a[1..] + b;
      NonEmptyAppend(a[1..], b);
    } else {
      assert a + b == b;
    }
  }
}
