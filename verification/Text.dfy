// Text conventions shared by the components: Python's blank test, decimal numbers, separators.
module Text {
  // The characters Python's str.strip() removes.
  predicate IsSpace(c: char) {
    '\t' <= c <= '\r' || '\U{1C}' <= c <= ' ' || c == '\U{85}' || c == '\U{A0}' || c == '\U{1680}'
    || '\U{2000}' <= c <= '\U{200A}' || c == '\U{2028}' || c == '\U{2029}' || c == '\U{202F}'
    || c == '\U{205F}' || c == '\U{3000}'
  }

  // `not s.strip()`
  predicate Blank(s: string) {
    forall c :: c in s ==> IsSpace(c)
  }

  // s.strip()
  function Strip(s: string): (r: string)
    ensures |r| <= |s|
  {
    if s == "" then s
    else if IsSpace(s[0]) then Strip(s[1..])
    else if IsSpace(s[|s| - 1]) then Strip(s[..|s| - 1])
    else s
  }

  // Among the ASCII characters: tab to carriage return, the four separators, and the space.
  lemma AsciiSpaces(c: char)
    requires c < '\U{80}'
    ensures IsSpace(c) <==> c in "\t\n\U{B}\U{C}\r\U{1C}\U{1D}\U{1E}\U{1F} "
  {}

  // What strip leaves: the text without a blank front and a blank end, and no space at either side.
  lemma StripMeaning(s: string) returns (front: string, end: string)
    ensures s == front + Strip(s) + end && Blank(front) && Blank(end)
    ensures Strip(s) != "" ==> !IsSpace(Strip(s)[0]) && !IsSpace(Strip(s)[|Strip(s)| - 1])
    ensures Strip(s) == "" <==> Blank(s)
  {
    front, end := StripParts(s);
    StripSides(s);
    if Strip(s) == "" {
      assert s == front + end;
    } else {
      assert s[|front|] == Strip(s)[0] && s[|front|] in s;
    }
  }

  lemma {:induction false} StripParts(s: string) returns (front: string, end: string)
    ensures s == front + Strip(s) + end && Blank(front) && Blank(end)
  {
    front, end := "", "";
    if s == "" {
    } else if IsSpace(s[0]) {
      front, end := StripParts(s[1..]);
      assert s == [s[0]] + s[1..] == ([s[0]] + front) + Strip(s) + end;
      front := [s[0]] + front;
    } else if IsSpace(s[|s| - 1]) {
      front, end := StripParts(s[..|s| - 1]);
      assert s == s[..|s| - 1] + [s[|s| - 1]] == front + Strip(s) + (end + [s[|s| - 1]]);
      end := end + [s[|s| - 1]];
    }
  }

  lemma {:induction false} StripSides(s: string)
    ensures Strip(s) != "" ==> !IsSpace(Strip(s)[0]) && !IsSpace(Strip(s)[|Strip(s)| - 1])
  {
    if s == "" {
    } else if IsSpace(s[0]) {
      StripSides(s[1..]);
    } else if IsSpace(s[|s| - 1]) {
      StripSides(s[..|s| - 1]);
    }
  }

  // A name that glob("*.json") lists.
  predicate IsJsonName(name: string) {
    |name| >= 5 && name[|name| - 5..] == ".json"
  }

  predicate IsAscii(s: string) {
    forall c :: c in s ==> c < '\U{80}'
  }

  predicate IsDigit(c: char) {
    '0' <= c <= '9'
  }

  function DecimalNat(n: nat): (s: string)
    ensures s != "" && forall c :: c in s ==> IsDigit(c)
  {
    var last := ['0' + (n % 10) as char];
    if n < 10 then last else DecimalNat(n / 10) + last
  }

  function Decimal(n: int): (s: string)
    ensures s != "" && forall c :: c in s ==> IsDigit(c) || c == '-'
  {
    if n < 0 then "-" + DecimalNat(-n) else DecimalNat(n)
  }

  // Reading decimal digits from the left.
  function ReadNat(s: string): nat {
    if s == "" then 0
    else
      var c := s[|s| - 1];
      10 * ReadNat(s[..|s| - 1]) + if IsDigit(c) then c as int - '0' as int else 0
  }

  // The decimal text of a number reads as that number.
  lemma {:induction false} DecimalReadsBack(n: nat)
    ensures ReadNat(DecimalNat(n)) == n
  {
    var s := DecimalNat(n);
    if n < 10 {
      assert s[..0] == "";
    } else {
      DecimalReadsBack(n / 10);
      assert s[..|s| - 1] == DecimalNat(n / 10);
    }
  }

  lemma DecimalNatLength(n: nat)
    ensures |DecimalNat(n)| == 1 <==> n < 10
  {}

  lemma {:induction false} DecimalNatInjective(m: nat, n: nat)
    requires DecimalNat(m) == DecimalNat(n)
    ensures m == n
  {
    var s, t := DecimalNat(m), DecimalNat(n);
    DecimalNatLength(m);
    DecimalNatLength(n);
    assert s[|s| - 1] == '0' + (m % 10) as char;
    assert t[|t| - 1] == '0' + (n % 10) as char;
    if m >= 10 {
      assert s[..|s| - 1] == DecimalNat(m / 10);
      assert t[..|t| - 1] == DecimalNat(n / 10);
      DecimalNatInjective(m / 10, n / 10);
    }
  }

  lemma DecimalSign(n: int)
    ensures Decimal(n)[0] == '-' <==> n < 0
  {
    if n >= 0 {
      assert DecimalNat(n)[0] in DecimalNat(n);
    }
  }

  lemma DecimalInjective(m: int, n: int)
    requires Decimal(m) == Decimal(n)
    ensures m == n
  {
    DecimalSign(m);
    DecimalSign(n);
    if m < 0 {
      assert Decimal(m)[1..] == DecimalNat(-m);
      assert Decimal(n)[1..] == DecimalNat(-n);
      DecimalNatInjective(-m, -n);
    } else {
      DecimalNatInjective(m, n);
    }
  }

  // Python's order on strings.
  predicate TextLess(a: string, b: string) {
    b != "" && (a == "" || a[0] < b[0] || (a[0] == b[0] && TextLess(a[1..], b[1..])))
  }

  // The first character at which two texts differ decides.
  lemma {:induction false} LessAt(a: string, b: string, k: nat)
    requires k < |a| && k < |b| && a[k] < b[k] && forall i :: 0 <= i < k ==> a[i] == b[i]
    ensures TextLess(a, b)
  {
    if k > 0 {
      LessAt(a[1..], b[1..], k - 1);
    }
  }

  // A text up to the first occurrence of a separator is determined by the joined text.
  lemma SplitAtSeparator(a: string, b: string, x: string, y: string, c: char)
    requires a + [c] + x == b + [c] + y
    requires c !in a && c !in b
    ensures a == b && x == y
  {
    var s := a + [c] + x;
    var t := b + [c] + y;
    assert forall i :: 0 <= i < |a| ==> s[i] == a[i] && a[i] in a;
    assert forall i :: 0 <= i < |b| ==> t[i] == b[i] && b[i] in b;
    assert s[|a|] == c && t[|b|] == c;
    assert |a| == |b|;
    assert s[..|a|] == a && t[..|b|] == b;
    assert s[|a| + 1..] == x && t[|b| + 1..] == y;
  }

  lemma Associative(a: string, b: string, c: string)
    ensures a + b + c == a + (b + c)
  {}

  // Dropping an equal prefix.
  lemma CancelPrefix(a: string, x: string, y: string)
    requires a + x == a + y
    ensures x == y
  {
    assert (a + x)[|a|..] == x;
    assert (a + y)[|a|..] == y;
  }

  // Dropping an equal suffix.
  lemma CancelSuffix(x: string, y: string, z: string)
    requires x + z == y + z
    ensures x == y
  {
    assert |x| == |y|;
    assert (x + z)[..|x|] == x;
    assert (y + z)[..|y|] == y;
  }
}
