// JSON values and the canonical text json.dumps gives them
// (sort_keys=True, separators=(",", ":"), ensure_ascii=False).
module JsonText {
  import opened Text

  // The characters of a number token.
  predicate IsNumberChar(c: char) {
    IsDigit(c) || c == '-' || c == '+' || c == '.' || c == 'e'
  }

  // What repr gives for a finite float: never the text of an integer.
  predicate IsFloatText(s: string) {
    s != "" && (forall c :: c in s ==> IsNumberChar(c)) && ('.' in s || 'e' in s)
  }

  // A finite float is represented by its repr, which identifies it.
  type FloatText = s: string | IsFloatText(s) witness "0.0"

  // A dict is represented by its members in key order, so that equal dicts are equal values.
  datatype Json =
    | Null
    | Bool(b: bool)
    | Int(n: int)
    | Float(text: FloatText)
    | Str(s: string)
    | Arr(items: Items)
    | Obj(members: Members)

  datatype Items = NoItems | Item(head: Json, tail: Items)

  datatype Members = NoMembers | Member(key: string, value: Json, rest: Members)

  // One line of a JSON Lines file, as json.loads sees it.
  datatype Line = BlankLine | Garbage | Doc(json: Json)

  predicate HasKey(ms: Members, key: string) {
    match ms
    case NoMembers => false
    case Member(k, _, rest) => k == key || HasKey(rest, key)
  }

  function Lookup(ms: Members, key: string): Json
    requires HasKey(ms, key)
  {
    if ms.key == key then ms.value else Lookup(ms.rest, key)
  }

  // dict.get(key)
  function Field(ms: Members, key: string): Json {
    if HasKey(ms, key) then Lookup(ms, key) else Null
  }

  // dict.pop(key, None): the members that remain.
  function Without(ms: Members, key: string): Members {
    match ms
    case NoMembers => NoMembers
    case Member(k, v, rest) => if k == key then Without(rest, key) else Member(k, v, Without(rest, key))
  }

  lemma SkipMember(k: string, v: Json, rest: Members, key: string)
    requires k != key
    ensures HasKey(Member(k, v, rest), key) == HasKey(rest, key)
    ensures HasKey(rest, key) ==> Lookup(Member(k, v, rest), key) == Lookup(rest, key)
  {}

  // The keys are in ascending order, as sort_keys puts them.
  predicate KeysAscend(ms: Members) {
    ms.NoMembers? || ms.rest.NoMembers? || (TextLess(ms.key, ms.rest.key) && KeysAscend(ms.rest))
  }

  lemma Ascends(key: string, value: Json, rest: Members, k: nat)
    requires rest.Member? && KeysAscend(rest)
    requires k < |key| && k < |rest.key| && key[k] < rest.key[k] && forall i :: 0 <= i < k ==> key[i] == rest.key[i]
    ensures KeysAscend(Member(key, value, rest))
  {
    LessAt(key, rest.key, k);
  }

  // ---- Serialisation ----

  function HexDigit(n: nat): (c: char)
    requires n < 16
  {
    "0123456789abcdef"[n]
  }

  function EscapeChar(c: char): (s: string) {
    if c == '"' then "\\\""
    else if c == '\\' then "\\\\"
    else if c == '\n' then "\\n"
    else if c == '\r' then "\\r"
    else if c == '\t' then "\\t"
    else if c == '\U{8}' then "\\b"
    else if c == '\U{C}' then "\\f"
    else if c < ' ' then "\\u00" + [HexDigit(c as int / 16), HexDigit(c as int % 16)]
    else [c]
  }

  function Escape(s: string): string {
    if s == "" then "" else EscapeChar(s[0]) + Escape(s[1..])
  }

  function Quote(s: string): string {
    "\"" + Escape(s) + "\""
  }

  function Dumps(j: Json): string {
    match j
    case Null => "null"
    case Bool(b) => if b then "true" else "false"
    case Int(n) => Decimal(n)
    case Float(text) => text
    case Str(s) => Quote(s)
    case Arr(items) => "[" + DumpsItems(items, "")
    case Obj(members) => "{" + DumpsMembers(members, "")
  }

  function DumpsItems(items: Items, separator: string): string {
    match items
    case NoItems => "]"
    case Item(head, tail) => separator + (Dumps(head) + DumpsItems(tail, ","))
  }

  function DumpsMembers(members: Members, separator: string): string {
    match members
    case NoMembers => "}"
    case Member(key, value, rest) => separator + (Quote(key) + (":" + (Dumps(value) + DumpsMembers(rest, ","))))
  }

  // ---- What the text says ----

  function HexValue(c: char): nat {
    if '0' <= c <= '9' then (c - '0') as int else if 'a' <= c <= 'f' then (c - 'a') as int + 10 else 0
  }

  // The character a two-character escape stands for (section 7 of RFC 8259).
  function ShortEscaped(c: char): char {
    if c == 'n' then '\n' else if c == 'r' then '\r' else if c == 't' then '\t'
    else if c == 'b' then '\U{8}' else if c == 'f' then '\U{C}' else c
  }

  // Reading the inside of a string literal: plain characters, two-character escapes, \u00XX.
  function Unescape(t: string): string {
    if t == "" then ""
    else if t[0] != '\\' || |t| < 2 then [t[0]] + Unescape(t[1..])
    else if t[1] == 'u' && |t| >= 6 && HexValue(t[4]) < 16 && HexValue(t[5]) < 16 then
      [(16 * HexValue(t[4]) + HexValue(t[5])) as char] + Unescape(t[6..])
    else [ShortEscaped(t[1])] + Unescape(t[2..])
  }

  lemma UnescapeControl(c: char, rest: string)
    requires c < ' ' && |EscapeChar(c)| == 6
    ensures Unescape(EscapeChar(c) + rest) == [c] + Unescape(rest)
  {
    var t := EscapeChar(c) + rest;
    assert t[..2] == ['\\', 'u'] && t[6..] == rest;
    assert t[4] == HexDigit(c as int / 16) && t[5] == HexDigit(c as int % 16);
    HexReadsBack(c as int / 16);
    HexReadsBack(c as int % 16);
  }

  lemma HexReadsBack(n: nat)
    requires n < 16
    ensures HexValue(HexDigit(n)) == n
  {}

  lemma UnescapeChar(c: char, rest: string)
    ensures Unescape(EscapeChar(c) + rest) == [c] + Unescape(rest)
  {
    var e := EscapeChar(c);
    var t := e + rest;
    if |e| == 6 {
      UnescapeControl(c, rest);
    } else if |e| == 2 {
      assert t[2..] == rest && t[1] != 'u';
    } else {
      assert t[1..] == rest;
    }
  }

  // A string literal stands for the string it was written for.
  lemma {:induction false} LiteralReadsBack(s: string)
    ensures Unescape(Escape(s)) == s
  {
    if s != "" {
      UnescapeChar(s[0], Escape(s[1..]));
      LiteralReadsBack(s[1..]);
    }
  }

  // Quotes, backslashes and control characters are escaped, five of the last by a letter; everything
  // else, non-ASCII characters too, stands for itself.
  lemma EscapesAre(c: char)
    ensures EscapeChar('"') == "\\\"" && EscapeChar('\\') == "\\\\" && EscapeChar('\n') == "\\n"
    ensures EscapeChar('\r') == "\\r" && EscapeChar('\t') == "\\t" && EscapeChar('\U{8}') == "\\b" && EscapeChar('\U{C}') == "\\f"
    ensures c < ' ' && c !in "\n\r\t\U{8}\U{C}" ==> |EscapeChar(c)| == 6 && "\\u00" <= EscapeChar(c)
    ensures c >= ' ' && c != '"' && c != '\\' ==> EscapeChar(c) == [c]
  {}

  // The shape of the text: literals as JSON writes them, no blanks, members as "key":value.
  lemma CanonicalShape(s: string, n: int, j: Json, k: Json, p: string, q: string)
    ensures Dumps(Null) == "null" && Dumps(Bool(true)) == "true" && Dumps(Bool(false)) == "false"
    ensures Dumps(Int(n)) == if n < 0 then "-" + DecimalNat(-n) else DecimalNat(n)
    ensures Dumps(Str(s)) == "\"" + Escape(s) + "\""
    ensures Dumps(Arr(NoItems)) == "[]" && Dumps(Obj(NoMembers)) == "{}"
    ensures Dumps(Arr(Item(j, Item(k, NoItems)))) == "[" + (Dumps(j) + ("," + (Dumps(k) + "]")))
    ensures Dumps(Obj(Member(p, j, Member(q, k, NoMembers))))
         == "{" + (Quote(p) + (":" + (Dumps(j) + ("," + (Quote(q) + (":" + (Dumps(k) + "}")))))))
  {
    assert DumpsItems(NoItems, ",") == "]" && DumpsMembers(NoMembers, ",") == "}";
    assert DumpsItems(Item(k, NoItems), ",") == "," + (Dumps(k) + "]");
    assert DumpsMembers(Member(q, k, NoMembers), ",") == "," + (Quote(q) + (":" + (Dumps(k) + "}")));
    var items, members := Dumps(j) + DumpsItems(Item(k, NoItems), ","), Dumps(j) + DumpsMembers(Member(q, k, NoMembers), ",");
    assert "" + items == items && "" + (Quote(p) + (":" + members)) == Quote(p) + (":" + members);
  }

  // ---- The quote scanner ----

  // Where a left-to-right reader of JSON text stands. Bad: it saw a bar or a backslash outside a
  // string literal, or an escaped bar.
  datatype Scanner = Outside | Inside | Escaped | Bad

  function ScanChar(st: Scanner, c: char): Scanner {
    match st
    case Outside => if c == '"' then Inside else if c == '|' || c == '\\' then Bad else Outside
    case Inside => if c == '"' then Outside else if c == '\\' then Escaped else Inside
    case Escaped => if c == '|' then Bad else Inside
    case Bad => Bad
  }

  function Scan(st: Scanner, text: string): Scanner
    decreases |text|
  {
    if text == "" then st else Scan(ScanChar(st, text[0]), text[1..])
  }

  lemma {:induction false} ScanConcat(st: Scanner, x: string, y: string)
    ensures Scan(st, x + y) == Scan(Scan(st, x), y)
    decreases |x|
  {
    if x == "" {
      assert x + y == y;
    } else {
      assert (x + y)[0] == x[0] && (x + y)[1..] == x[1..] + y;
      ScanConcat(ScanChar(st, x[0]), x[1..], y);
    }
  }

  lemma ScanBad(text: string)
    ensures Scan(Bad, text) == Bad
  {}

  lemma {:induction false} ScanPlain(text: string)
    requires forall c :: c in text ==> c != '"' && c != '|' && c != '\\'
    ensures Scan(Outside, text) == Outside
  {
    if text != "" {
      assert text[0] in text;
      assert forall c :: c in text[1..] ==> c in text;
      ScanPlain(text[1..]);
    }
  }

  lemma ScanShortEscape(c: char)
    requires c != '|'
    ensures Scan(Inside, ['\\', c]) == Inside
  {
    var e := ['\\', c];
    assert e[1..] == [c] && [c][1..] == "";
    assert Scan(Escaped, [c]) == Scan(Inside, "");
  }

  lemma ScanControlEscape(c: char)
    requires c < ' ' && |EscapeChar(c)| == 6
    ensures Scan(Inside, EscapeChar(c)) == Inside
  {
    var e := EscapeChar(c);
    assert e == ['\\', 'u'] + e[2..];
    ScanShortEscape('u');
    ScanConcat(Inside, ['\\', 'u'], e[2..]);
    ScanInsidePlain(e[2..]);
  }

  lemma ScanEscapeChar(c: char)
    ensures Scan(Inside, EscapeChar(c)) == Inside
  {
    var e := EscapeChar(c);
    if |e| == 1 {
      assert e[1..] == "";
    } else if |e| == 2 {
      ScanShortEscape(e[1]);
      assert e == ['\\', e[1]];
    } else {
      ScanControlEscape(c);
    }
  }

  lemma {:induction false} ScanInsidePlain(text: string)
    requires forall c :: c in text ==> c != '"' && c != '\\'
    ensures Scan(Inside, text) == Inside
  {
    if text != "" {
      assert text[0] in text;
      assert forall c :: c in text[1..] ==> c in text;
      ScanInsidePlain(text[1..]);
    }
  }

  lemma {:induction false} ScanEscape(s: string)
    ensures Scan(Inside, Escape(s)) == Inside
  {
    if s != "" {
      ScanEscapeChar(s[0]);
      ScanConcat(Inside, EscapeChar(s[0]), Escape(s[1..]));
      ScanEscape(s[1..]);
    }
  }

  lemma ScanQuote(s: string)
    ensures Scan(Outside, Quote(s)) == Outside
  {
    var e := Escape(s);
    assert ("\"" + e + "\"")[1..] == e + "\"";
    ScanConcat(Inside, e, "\"");
    ScanEscape(s);
    assert "\""[1..] == "";
  }

  // Canonical text keeps bars and backslashes inside string literals, and closes every literal.
  lemma {:induction false} CanonicalScan(j: Json)
    ensures Scan(Outside, Dumps(j)) == Outside
    decreases j, 0
  {
    match j
    case Null => ScanPlain(Dumps(j));
    case Bool(_) => ScanPlain(Dumps(j));
    case Int(_) => ScanPlain(Dumps(j));
    case Float(_) => ScanPlain(Dumps(j));
    case Str(s) => ScanQuote(s);
    case Arr(items) =>
      CanonicalScanItems(items, "");
      ScanPlain("[");
      ScanConcat(Outside, "[", DumpsItems(items, ""));
    case Obj(members) =>
      CanonicalScanMembers(members, "");
      ScanPlain("{");
      ScanConcat(Outside, "{", DumpsMembers(members, ""));
  }

  lemma {:induction false} CanonicalScanItems(items: Items, separator: string)
    requires separator == "" || separator == ","
    ensures Scan(Outside, DumpsItems(items, separator)) == Outside
    decreases items, 1
  {
    match items
    case NoItems => ScanPlain("]");
    case Item(head, tail) =>
      ScanPlain(separator);
      CanonicalScan(head);
      CanonicalScanItems(tail, ",");
      ScanConcat(Outside, Dumps(head), DumpsItems(tail, ","));
      ScanConcat(Outside, separator, Dumps(head) + DumpsItems(tail, ","));
  }

  lemma {:induction false} CanonicalScanMembers(members: Members, separator: string)
    requires separator == "" || separator == ","
    ensures Scan(Outside, DumpsMembers(members, separator)) == Outside
    decreases members, 1
  {
    match members
    case NoMembers => ScanPlain("}");
    case Member(key, value, rest) =>
      var tail := Dumps(value) + DumpsMembers(rest, ",");
      ScanPlain(separator);
      ScanQuote(key);
      ScanPlain(":");
      CanonicalScan(value);
      CanonicalScanMembers(rest, ",");
      ScanConcat(Outside, Dumps(value), DumpsMembers(rest, ","));
      ScanConcat(Outside, ":", tail);
      ScanConcat(Outside, Quote(key), ":" + tail);
      ScanConcat(Outside, separator, Quote(key) + (":" + tail));
  }

  // Two readers of the same text, one outside and one inside a literal, stay on opposite sides.
  lemma {:induction false} OppositeParity(text: string, p: Scanner, q: Scanner)
    requires (p == Outside && q == Inside) || (p == Inside && q == Outside)
    requires Scan(p, text) != Bad && Scan(q, text) != Bad
    ensures Scan(p, text) != Scan(q, text)
    decreases |text|
  {
    if text != "" {
      ScanBad(text[1..]);
      OppositeParity(text[1..], ScanChar(p, text[0]), ScanChar(q, text[0]));
    }
  }

  // No canonical text ends with a bar followed by another canonical text.
  lemma NoCanonicalSuffixAfterBar(j: Json, k: Json, front: string)
    ensures Dumps(j) != front + ("|" + Dumps(k))
  {
    var text := Dumps(k);
    if Dumps(j) == front + ("|" + text) {
      CanonicalScan(j);
      CanonicalScan(k);
      ScanConcat(Outside, front, "|" + text);
      ScanConcat(Scan(Outside, front), "|", text);
      assert "|"[1..] == "";
      ScanBad(text);
      assert Scan(Scan(Outside, front), "|") == Inside;
      OppositeParity(text, Outside, Inside);
      assert false;
    }
  }

  // ---- Injectivity ----

  // What may follow a value inside canonical text.
  predicate Delimited(x: string) {
    x == "" || x[0] == ',' || x[0] == ']' || x[0] == '}'
  }

  lemma NumberTokenUnique(a: string, b: string, x: string, y: string)
    requires forall c :: c in a ==> IsNumberChar(c)
    requires forall c :: c in b ==> IsNumberChar(c)
    requires a + x == b + y && Delimited(x) && Delimited(y)
    ensures a == b && x == y
  {
    var s := a + x;
    assert forall i :: 0 <= i < |a| ==> s[i] == a[i] && a[i] in a;
    assert forall i :: 0 <= i < |b| ==> s[i] == b[i] && b[i] in b;
    assert x != "" ==> s[|a|] == x[0] && !IsNumberChar(s[|a|]);
    assert y != "" ==> s[|b|] == y[0] && !IsNumberChar(s[|b|]);
    assert |a| == |b|;
    assert (a + x)[..|a|] == a && (b + y)[..|b|] == b;
    CancelPrefix(a, x, y);
  }

  lemma HexDigitInjective(m: nat, n: nat)
    requires m < 16 && n < 16 && HexDigit(m) == HexDigit(n)
    ensures m == n
  {}

  lemma EscapeCharUnique(c: char, d: char, x: string, y: string)
    requires EscapeChar(c) + x == EscapeChar(d) + y
    ensures c == d && x == y
  {
    var e, f := EscapeChar(c), EscapeChar(d);
    assert (e + x)[0] == e[0] && (f + y)[0] == f[0];
    if |e| > 1 && |f| > 1 {
      assert (e + x)[1] == e[1] && (f + y)[1] == f[1];
      if |e| == 6 {
        assert |f| == 6;
        assert (e + x)[4] == e[4] && (f + y)[4] == f[4];
        assert (e + x)[5] == e[5] && (f + y)[5] == f[5];
        HexDigitInjective(c as int / 16, d as int / 16);
        HexDigitInjective(c as int % 16, d as int % 16);
        assert c as int == d as int;
      }
    }
    assert c == d;
    CancelPrefix(e, x, y);
  }

  // The text of a literal's body starts with the closing quote exactly when the body is empty.
  lemma EscapeStart(s: string, x: string)
    ensures (Escape(s) + ("\"" + x))[0] == '"' <==> s == ""
  {
    if s != "" {
      assert (Escape(s) + ("\"" + x))[0] == EscapeChar(s[0])[0];
    }
  }

  lemma {:induction false} EscapeUnique(s: string, t: string, x: string, y: string)
    requires Escape(s) + ("\"" + x) == Escape(t) + ("\"" + y)
    ensures s == t && x == y
  {
    EscapeStart(s, x);
    EscapeStart(t, y);
    if s == "" {
      assert Escape(s) + ("\"" + x) == "\"" + x && Escape(t) + ("\"" + y) == "\"" + y;
      CancelPrefix("\"", x, y);
    } else {
      var u := Escape(s[1..]) + ("\"" + x);
      var v := Escape(t[1..]) + ("\"" + y);
      Associative(EscapeChar(s[0]), Escape(s[1..]), "\"" + x);
      Associative(EscapeChar(t[0]), Escape(t[1..]), "\"" + y);
      EscapeCharUnique(s[0], t[0], u, v);
      EscapeUnique(s[1..], t[1..], x, y);
      assert s == [s[0]] + s[1..] && t == [t[0]] + t[1..];
    }
  }

  lemma QuoteThen(s: string, x: string)
    ensures Quote(s) + x == "\"" + (Escape(s) + ("\"" + x))
  {
    Associative("\"" + Escape(s), "\"", x);
    Associative("\"", Escape(s), "\"" + x);
  }

  lemma QuoteUnique(s: string, t: string, x: string, y: string)
    requires Quote(s) + x == Quote(t) + y
    ensures s == t && x == y
  {
    QuoteThen(s, x);
    QuoteThen(t, y);
    CancelPrefix("\"", Escape(s) + ("\"" + x), Escape(t) + ("\"" + y));
    EscapeUnique(s, t, x, y);
  }

  // The first character of canonical text tells the kind of value.
  function KindOf(j: Json): nat {
    match j
    case Null => 0
    case Bool(b) => if b then 1 else 2
    case Int(_) => 3
    case Float(_) => 3
    case Str(_) => 4
    case Arr(_) => 5
    case Obj(_) => 6
  }

  function KindOfChar(c: char): nat {
    if c == 'n' then 0 else if c == 't' then 1 else if c == 'f' then 2
    else if c == '"' then 4 else if c == '[' then 5 else if c == '{' then 6 else 3
  }

  lemma FirstChar(j: Json)
    ensures Dumps(j) != "" && KindOfChar(Dumps(j)[0]) == KindOf(j)
    ensures Dumps(j)[0] != ']'
  {
    assert Dumps(j) != "";
    assert Dumps(j)[0] in Dumps(j);
  }

  lemma NumbersUnique(j: Json, k: Json, x: string, y: string)
    requires KindOf(j) == 3 && KindOf(k) == 3
    requires Dumps(j) + x == Dumps(k) + y && Delimited(x) && Delimited(y)
    ensures j == k && x == y
  {
    NumberTokenUnique(Dumps(j), Dumps(k), x, y);
    if j.Int? && k.Int? {
      DecimalInjective(j.n, k.n);
    }
  }

  lemma SameKind(j: Json, k: Json, x: string, y: string)
    requires Dumps(j) + x == Dumps(k) + y
    ensures KindOf(j) == KindOf(k)
  {
    FirstChar(j);
    FirstChar(k);
    assert (Dumps(j) + x)[0] == Dumps(j)[0] && (Dumps(k) + y)[0] == Dumps(k)[0];
  }

  // A value and what follows it are both determined by the text.
  lemma {:induction false} DumpsUnique(j: Json, k: Json, x: string, y: string)
    requires Dumps(j) + x == Dumps(k) + y && Delimited(x) && Delimited(y)
    ensures j == k && x == y
    decreases j, 0
  {
    SameKind(j, k, x, y);
    match j
    case Null => CancelPrefix("null", x, y);
    case Bool(_) => CancelPrefix(Dumps(j), x, y);
    case Int(_) => NumbersUnique(j, k, x, y);
    case Float(_) => NumbersUnique(j, k, x, y);
    case Str(s) => QuoteUnique(s, k.s, x, y);
    case Arr(items) =>
      Associative("[", DumpsItems(items, ""), x);
      Associative("[", DumpsItems(k.items, ""), y);
      CancelPrefix("[", DumpsItems(items, "") + x, DumpsItems(k.items, "") + y);
      ItemsUnique(items, k.items, "", x, y);
    case Obj(members) =>
      Associative("{", DumpsMembers(members, ""), x);
      Associative("{", DumpsMembers(k.members, ""), y);
      CancelPrefix("{", DumpsMembers(members, "") + x, DumpsMembers(k.members, "") + y);
      MembersUnique(members, k.members, "", x, y);
  }

  lemma DumpsItemsDelimited(items: Items)
    ensures DumpsItems(items, ",") != "" && DumpsItems(items, ",")[0] in ",]"
  {}

  lemma DumpsMembersDelimited(members: Members)
    ensures DumpsMembers(members, ",") != "" && DumpsMembers(members, ",")[0] in ",}"
  {}

  // The text of a non-empty item list, split at its parts.
  lemma ItemsText(a: Items, separator: string, x: string)
    requires a.Item?
    ensures DumpsItems(a, separator) + x == separator + (Dumps(a.head) + (DumpsItems(a.tail, ",") + x))
  {
    Associative(separator, Dumps(a.head) + DumpsItems(a.tail, ","), x);
    Associative(Dumps(a.head), DumpsItems(a.tail, ","), x);
  }

  lemma {:induction false} ItemsUnique(a: Items, b: Items, separator: string, x: string, y: string)
    requires separator == "" || separator == ","
    requires DumpsItems(a, separator) + x == DumpsItems(b, separator) + y
    ensures a == b && x == y
    decreases a, 1
  {
    ItemsStart(a, separator, x);
    ItemsStart(b, separator, y);
    if a.NoItems? {
      CancelPrefix("]", x, y);
    } else {
      var u, v := DumpsItems(a.tail, ",") + x, DumpsItems(b.tail, ",") + y;
      ItemsText(a, separator, x);
      ItemsText(b, separator, y);
      CancelPrefix(separator, Dumps(a.head) + u, Dumps(b.head) + v);
      DumpsItemsDelimited(a.tail);
      DumpsItemsDelimited(b.tail);
      DumpsUnique(a.head, b.head, u, v);
      ItemsUnique(a.tail, b.tail, ",", x, y);
    }
  }

  // The text of an item list starts with its closing bracket exactly when the list is empty.
  lemma ItemsStart(a: Items, separator: string, x: string)
    requires separator == "" || separator == ","
    ensures |DumpsItems(a, separator) + x| > 0
    ensures (DumpsItems(a, separator) + x)[0] == ']' <==> a.NoItems?
  {
    if a.Item? {
      FirstChar(a.head);
      var rest := Dumps(a.head) + DumpsItems(a.tail, ",");
      assert rest[0] == Dumps(a.head)[0];
      assert (separator + rest)[0] == if separator == "" then rest[0] else ',';
    }
  }

  lemma MembersStart(a: Members, separator: string, x: string)
    requires separator == "" || separator == ","
    ensures |DumpsMembers(a, separator) + x| > 0
    ensures (DumpsMembers(a, separator) + x)[0] == '}' <==> a.NoMembers?
  {
    if a.Member? {
      var rest := Quote(a.key) + (":" + (Dumps(a.value) + DumpsMembers(a.rest, ",")));
      assert rest[0] == '"';
      assert (separator + rest)[0] == if separator == "" then rest[0] else ',';
    }
  }

  // The text of a non-empty member list, split at its parts.
  lemma MembersText(a: Members, separator: string, x: string)
    requires a.Member?
    ensures DumpsMembers(a, separator) + x
         == separator + (Quote(a.key) + (":" + (Dumps(a.value) + (DumpsMembers(a.rest, ",") + x))))
  {
    var value, rest := Dumps(a.value), DumpsMembers(a.rest, ",");
    Associative(separator, Quote(a.key) + (":" + (value + rest)), x);
    Associative(Quote(a.key), ":" + (value + rest), x);
    Associative(":", value + rest, x);
    Associative(value, rest, x);
  }

  lemma {:induction false} MembersUnique(a: Members, b: Members, separator: string, x: string, y: string)
    requires separator == "" || separator == ","
    requires DumpsMembers(a, separator) + x == DumpsMembers(b, separator) + y
    ensures a == b && x == y
    decreases a, 1
  {
    MembersStart(a, separator, x);
    MembersStart(b, separator, y);
    if a.NoMembers? {
      CancelPrefix("}", x, y);
    } else {
      MembersText(a, separator, x);
      MembersText(b, separator, y);
      var u, v := DumpsMembers(a.rest, ",") + x, DumpsMembers(b.rest, ",") + y;
      var p, q := Dumps(a.value) + u, Dumps(b.value) + v;
      CancelPrefix(separator, Quote(a.key) + (":" + p), Quote(b.key) + (":" + q));
      QuoteUnique(a.key, b.key, ":" + p, ":" + q);
      CancelPrefix(":", p, q);
      DumpsMembersDelimited(a.rest);
      DumpsMembersDelimited(b.rest);
      DumpsUnique(a.value, b.value, u, v);
      MembersUnique(a.rest, b.rest, ",", x, y);
    }
  }

  // Canonical text identifies the value.
  lemma DumpsInjective(j: Json, k: Json)
    requires Dumps(j) == Dumps(k)
    ensures j == k
  {
    assert Dumps(j) + "" == Dumps(j) && Dumps(k) + "" == Dumps(k);
    DumpsUnique(j, k, "", "");
  }

  // Canonical text contains no raw line feed.
  lemma {:induction false} CanonicalIsOneLine(j: Json)
    ensures '\n' !in Dumps(j)
    decreases j, 0
  {
    match j
    case Str(s) => QuoteIsOneLine(s);
    case Arr(items) => ItemsAreOneLine(items, "");
    case Obj(members) => MembersAreOneLine(members, "");
    case _ =>
  }

  lemma EscapeCharIsOneLine(c: char)
    ensures '\n' !in EscapeChar(c)
  {}

  lemma {:induction false} EscapeIsOneLine(s: string)
    ensures '\n' !in Escape(s)
  {
    if s != "" {
      EscapeIsOneLine(s[1..]);
      EscapeCharIsOneLine(s[0]);
    }
  }

  lemma QuoteIsOneLine(s: string)
    ensures '\n' !in Quote(s)
  {
    EscapeIsOneLine(s);
  }

  lemma {:induction false} ItemsAreOneLine(items: Items, separator: string)
    requires '\n' !in separator
    ensures '\n' !in DumpsItems(items, separator)
    decreases items, 1
  {
    if items.Item? {
      CanonicalIsOneLine(items.head);
      ItemsAreOneLine(items.tail, ",");
    }
  }

  lemma {:induction false} MembersAreOneLine(members: Members, separator: string)
    requires '\n' !in separator
    ensures '\n' !in DumpsMembers(members, separator)
    decreases members, 1
  {
    if members.Member? {
      QuoteIsOneLine(members.key);
      CanonicalIsOneLine(members.value);
      MembersAreOneLine(members.rest, ",");
    }
  }
}
