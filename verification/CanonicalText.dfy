/** The text of canonical JSON: it can be read in only one way, so equal texts mean equal values. */
module CanonicalText {
  import opened Wrappers
  import opened Schema
  import opened CanonicalJson

  const QUOTE: CodeUnit := 0x22
  const COMMA: CodeUnit := 0x2C
  const COLON: CodeUnit := 0x3A
  const SPACE: CodeUnit := 0x20
  const NEWLINE: CodeUnit := 0x0A
  const BACKSLASH: CodeUnit := 0x5C
  const NULL: Text := [0x6E, 0x75, 0x6C, 0x6C]
  const TRUE: Text := [0x74, 0x72, 0x75, 0x65]
  const FALSE: Text := [0x66, 0x61, 0x6C, 0x73, 0x65]

  // ----- strings

  predicate IsHigh(u: CodeUnit) { 0xD800 <= u <= 0xDBFF }
  predicate IsLow(u: CodeUnit) { 0xDC00 <= u <= 0xDFFF }

  /** Half of a surrogate pair without the other half. */
  predicate Lone(text: Text, i: nat)
    requires i < |text|
  {
    || (IsHigh(text[i]) && !(i + 1 < |text| && IsLow(text[i + 1])))
    || (IsLow(text[i]) && !(i > 0 && IsHigh(text[i - 1])))
  }

  function Hex(digit: nat): CodeUnit
    requires digit < 16
  {
    if digit < 10 then (0x30 + digit) as CodeUnit else (0x57 + digit) as CodeUnit
  }

  function HexDigits(n: nat): (r: Text)
    requires n < 0x1_0000
    ensures |r| == 4
  {
    [Hex(n / 4096), Hex(n / 256 % 16), Hex(n / 16 % 16), Hex(n % 16)]
  }

  /** The letter after the backslash, for the characters that have a short escape. */
  function ShortEscape(u: CodeUnit): Option<CodeUnit> {
    if u == QUOTE || u == BACKSLASH then Some(u)
    else if u == 0x08 then Some(0x62)
    else if u == 0x09 then Some(0x74)
    else if u == 0x0A then Some(0x6E)
    else if u == 0x0C then Some(0x66)
    else if u == 0x0D then Some(0x72)
    else None
  }

  const LETTER_U: CodeUnit := 0x75

  function Escape(u: CodeUnit, lone: bool): (r: Text)
    ensures r != []
  {
    if ShortEscape(u).Some? then [BACKSLASH, ShortEscape(u).value]
    else if u < 0x20 || lone then [BACKSLASH, LETTER_U] + HexDigits(u as int)
    else [u]
  }

  /** A string from a position on, its closing quote, and what follows it. */
  function PrintString(text: Text, i: nat, rest: Text): Text
    requires i <= |text|
    decreases |text| - i
  {
    if i == |text| then [QUOTE] + rest else Escape(text[i], Lone(text, i)) + PrintString(text, i + 1, rest)
  }

  lemma HexIsUnique(a: nat, b: nat)
    requires a < 16 && b < 16 && Hex(a) == Hex(b)
    ensures a == b
  {
  }

  lemma HexDigitsAreUnique(a: nat, b: nat)
    requires a < 0x1_0000 && b < 0x1_0000 && HexDigits(a) == HexDigits(b)
    ensures a == b
  {
    assert HexDigits(a)[0] == HexDigits(b)[0] && HexDigits(a)[1] == HexDigits(b)[1];
    assert HexDigits(a)[2] == HexDigits(b)[2] && HexDigits(a)[3] == HexDigits(b)[3];
    HexIsUnique(a / 4096, b / 4096);
    HexIsUnique(a / 256 % 16, b / 256 % 16);
    HexIsUnique(a / 16 % 16, b / 16 % 16);
    HexIsUnique(a % 16, b % 16);
    FromDigits(a);
    FromDigits(b);
  }

  lemma FromDigits(n: nat)
    requires n < 0x1_0000
    ensures n == (n / 4096) * 4096 + (n / 256 % 16) * 256 + (n / 16 % 16) * 16 + n % 16
  {
    assert n / 256 == (n / 4096) * 16 + n / 256 % 16;
    assert n / 16 == (n / 256) * 16 + n / 16 % 16;
  }

  /** Texts that agree behind equally long beginnings agree in both parts. */
  lemma Cut(p: Text, a: Text, q: Text, b: Text)
    requires p + a == q + b && |p| == |q|
    ensures p == q && a == b
  {
    assert p == (p + a)[..|p|] && q == (q + b)[..|q|];
    assert a == (p + a)[|p|..] && b == (q + b)[|q|..];
  }

  lemma EscapesAreUnique(u: CodeUnit, uLone: bool, v: CodeUnit, vLone: bool, a: Text, b: Text)
    requires Escape(u, uLone) + a == Escape(v, vLone) + b
    ensures u == v && a == b
  {
    var p, q := Escape(u, uLone), Escape(v, vLone);
    assert (p + a)[0] == p[0] && (q + b)[0] == q[0];
    if p[0] == BACKSLASH {
      assert (p + a)[1] == p[1] && (q + b)[1] == q[1];
      Cut(p, a, q, b);
      if p[1] == LETTER_U {
        assert HexDigits(u as int) == p[2..] && HexDigits(v as int) == q[2..];
        HexDigitsAreUnique(u as int, v as int);
      }
    } else {
      Cut(p, a, q, b);
    }
  }

  lemma EscapeIsNoQuote(u: CodeUnit, lone: bool, a: Text)
    ensures (Escape(u, lone) + a)[0] != QUOTE
  {
  }

  /** A string can be read back, up to its closing quote. */
  lemma {:induction false} StringsAreUnique(s: Text, i: nat, t: Text, j: nat, a: Text, b: Text)
    requires i <= |s| && j <= |t| && PrintString(s, i, a) == PrintString(t, j, b)
    ensures s[i..] == t[j..] && a == b
    decreases |s| - i
  {
    if i < |s| && j < |t| {
      EscapesAreUnique(s[i], Lone(s, i), t[j], Lone(t, j), PrintString(s, i + 1, a), PrintString(t, j + 1, b));
      StringsAreUnique(s, i + 1, t, j + 1, a, b);
      assert s[i..] == [s[i]] + s[i + 1..] && t[j..] == [t[j]] + t[j + 1..];
    } else if i < |s| {
      EscapeIsNoQuote(s[i], Lone(s, i), PrintString(s, i + 1, a));
    } else if j < |t| {
      EscapeIsNoQuote(t[j], Lone(t, j), PrintString(t, j + 1, b));
    } else {
      Cut([QUOTE], a, [QUOTE], b);
    }
  }

  // ----- numbers

  type Digits = Double -> Text

  predicate NumberCharacter(u: CodeUnit) { 0x30 <= u <= 0x39 || u == 0x2B || u == 0x2D || u == 0x2E || u == 0x65 }

  lemma NumberCharacters(u: CodeUnit)
    ensures NumberCharacter(u) <==> exists i :: 0 <= i < 14 && "0123456789+-.e"[i] as int == u as int
  {
    var characters := "0123456789+-.e";
    if NumberCharacter(u) {
      var i := if u <= 0x39 && u >= 0x30 then u as int - 0x30
        else if u == 0x2B then 10 else if u == 0x2D then 11 else if u == 0x2E then 12 else 13;
      assert characters[i] as int == u as int;
    }
  }

  /** How numbers are written: in digits, signs, points and exponents, and differently for different numbers. */
  ghost predicate ProperDigits(digits: Digits) {
    && (forall x :: digits(x) != [] && forall i :: 0 <= i < |digits(x)| ==> NumberCharacter(digits(x)[i]))
    && (forall x, y :: digits(x) == digits(y) ==> x == y)
  }

  predicate Stops(rest: Text) { rest == [] || !NumberCharacter(rest[0]) }

  lemma NumbersAreUnique(digits: Digits, x: Double, y: Double, a: Text, b: Text)
    requires ProperDigits(digits) && Stops(a) && Stops(b) && digits(x) + a == digits(y) + b
    ensures x == y && a == b
  {
    SameRun(digits(x), a, digits(y), b);
    SameRun(digits(y), b, digits(x), a);
    Cut(digits(x), a, digits(y), b);
  }

  lemma SameRun(p: Text, a: Text, q: Text, b: Text)
    requires Stops(a) && p + a == q + b && forall i :: 0 <= i < |q| ==> NumberCharacter(q[i])
    ensures |q| <= |p|
  {
    if |p| < |q| {
      NumberGoesOn(p, a, q, b);
      assert false;
    }
  }

  lemma NumberGoesOn(p: Text, a: Text, q: Text, b: Text)
    requires p + a == q + b && |p| < |q| && forall i :: 0 <= i < |q| ==> NumberCharacter(q[i])
    ensures a != [] && NumberCharacter(a[0])
  {
    assert |a| == |q| + |b| - |p|;
    assert (p + a)[|p|] == a[0] && (q + b)[|p|] == q[|p|];
  }

  // ----- values

  function Spaces(n: nat): (r: Text)
    ensures |r| == n && forall i :: 0 <= i < n ==> r[i] == SPACE
  {
    seq(n, i => SPACE)
  }

  function Indent(depth: nat): (r: Text)
    ensures r != [] && r[0] == NEWLINE
  {
    [NEWLINE] + Spaces(2 * depth)
  }

  /** What the printer can be given: no holes, no special numbers, nothing unsupported. */
  ghost predicate Printable(value: Value) {
    match value
    case Numeric(number) => number.Finite?
    case Array(items) => forall i :: 0 <= i < |items| ==> items[i].Element? && Printable(items[i].value)
    case Object(members) => forall i :: 0 <= i < |members| ==> Printable(members[i].value)
    case Unsupported => false
    case _ => true
  }

  const OPEN_LIST: CodeUnit := 0x5B
  const CLOSE_LIST: CodeUnit := 0x5D
  const OPEN_OBJECT: CodeUnit := 0x7B
  const CLOSE_OBJECT: CodeUnit := 0x7D

  /** The text of a value at a depth, and what follows it. */
  ghost function Print(value: Value, depth: nat, rest: Text, digits: Digits): Text
    requires Printable(value)
    decreases value
  {
    match value
    case Null => NULL + rest
    case Bool(b) => (if b then TRUE else FALSE) + rest
    case Numeric(number) => digits(number.value) + rest
    case Str(text) => [QUOTE] + PrintString(text, 0, rest)
    case Array(items) => [OPEN_LIST] + if items == [] then [CLOSE_LIST] + rest
      else PrintItems(items, depth + 1, rest, digits)
    case Object(members) =>
      [OPEN_OBJECT] + if members == [] then [CLOSE_OBJECT] + rest else PrintMembers(members, depth + 1, rest, digits)
  }

  ghost function PrintItems(items: seq<Item>, depth: nat, rest: Text, digits: Digits): Text
    requires items != [] && depth > 0 && forall i :: 0 <= i < |items| ==> items[i].Element? && Printable(items[i].value)
    decreases items
  {
    var after := if |items| == 1 then Indent(depth - 1) + [CLOSE_LIST] + rest
      else [COMMA] + PrintItems(items[1..], depth, rest, digits);
    Indent(depth) + PrintItem(items[0], depth, after, digits)
  }

  ghost function PrintItem(item: Item, depth: nat, rest: Text, digits: Digits): Text
    requires item.Element? && Printable(item.value)
    decreases item
  {
    Print(item.value, depth, rest, digits)
  }

  ghost function PrintMembers(members: seq<Member>, depth: nat, rest: Text, digits: Digits): Text
    requires members != [] && depth > 0 && forall i :: 0 <= i < |members| ==> Printable(members[i].value)
    decreases members
  {
    var after := if |members| == 1 then Indent(depth - 1) + [CLOSE_OBJECT] + rest
      else [COMMA] + PrintMembers(members[1..], depth, rest, digits);
    Indent(depth) + PrintMember(members[0], depth, after, digits)
  }

  ghost function PrintMember(member: Member, depth: nat, rest: Text, digits: Digits): Text
    requires Printable(member.value)
    decreases member
  {
    [QUOTE] + PrintString(member.key, 0, [COLON, SPACE] + Print(member.value, depth, rest, digits))
  }

  // ----- reading is unique

  /** The first character tells what kind of value follows. */
  lemma FirstCharacter(value: Value, depth: nat, rest: Text, digits: Digits)
    requires Printable(value) && ProperDigits(digits)
    ensures var text := Print(value, depth, rest, digits);
            && text != []
            && (text[0] == NULL[0] <==> value.Null?) && (text[0] == QUOTE <==> value.Str?)
            && (text[0] == TRUE[0] <==> value == Bool(true)) && (text[0] == FALSE[0] <==> value == Bool(false))
            && (text[0] == OPEN_LIST <==> value.Array?) && (text[0] == OPEN_OBJECT <==> value.Object?)
  {
    if value.Numeric? {
      var number := digits(value.number.value);
      assert number != [] && NumberCharacter(number[0]);
      assert (number + rest)[0] == number[0];
    }
  }

  lemma {:induction false} ValuesAreUnique(v: Value, w: Value, depth: nat, a: Text, b: Text, digits: Digits)
    requires Printable(v) && Printable(w) && ProperDigits(digits) && Stops(a) && Stops(b)
    requires Print(v, depth, a, digits) == Print(w, depth, b, digits)
    ensures v == w && a == b
    decreases v
  {
    FirstCharacter(v, depth, a, digits);
    FirstCharacter(w, depth, b, digits);
    match v
    case Null => Cut(NULL, a, NULL, b);
    case Bool(x) => Cut(if x then TRUE else FALSE, a, if x then TRUE else FALSE, b);
    case Numeric(number) => NumbersAreUnique(digits, number.value, w.number.value, a, b);
    case Str(text) =>
      Cut([QUOTE], PrintString(text, 0, a), [QUOTE], PrintString(w.text, 0, b));
      StringsAreUnique(text, 0, w.text, 0, a, b);
      assert text[0..] == text && w.text[0..] == w.text;
    case Array(items) => ListsAreUnique(items, w.items, depth, a, b, digits);
    case Object(members) => ObjectsAreUnique(members, w.members, depth, a, b, digits);
  }

  lemma {:induction false} ListsAreUnique(xs: seq<Item>, ys: seq<Item>, depth: nat, a: Text, b: Text, digits: Digits)
    requires Printable(Array(xs)) && Printable(Array(ys)) && ProperDigits(digits) && Stops(a) && Stops(b)
    requires Print(Array(xs), depth, a, digits) == Print(Array(ys), depth, b, digits)
    ensures xs == ys && a == b
    decreases xs, 1
  {
    var x := if xs == [] then [CLOSE_LIST] + a else PrintItems(xs, depth + 1, a, digits);
    var y := if ys == [] then [CLOSE_LIST] + b else PrintItems(ys, depth + 1, b, digits);
    Cut([OPEN_LIST], x, [OPEN_LIST], y);
    assert x[0] == y[0];
    if xs == [] && ys == [] {
      Cut([CLOSE_LIST], a, [CLOSE_LIST], b);
    } else if xs != [] && ys != [] {
      ItemsAreUnique(xs, ys, depth + 1, a, b, digits);
    } else {
      assert false;
    }
  }

  lemma {:induction false} ItemsAreUnique(xs: seq<Item>, ys: seq<Item>, depth: nat, a: Text, b: Text, digits: Digits)
    requires Printable(Array(xs)) && Printable(Array(ys)) && xs != [] && ys != [] && depth > 0
    requires ProperDigits(digits) && Stops(a) && Stops(b)
    requires PrintItems(xs, depth, a, digits) == PrintItems(ys, depth, b, digits)
    ensures xs == ys && a == b
    decreases xs, 0
  {
    var x := if |xs| == 1 then Indent(depth - 1) + [CLOSE_LIST] + a
      else [COMMA] + PrintItems(xs[1..], depth, a, digits);
    var y := if |ys| == 1 then Indent(depth - 1) + [CLOSE_LIST] + b
      else [COMMA] + PrintItems(ys[1..], depth, b, digits);
    Cut(Indent(depth), PrintItem(xs[0], depth, x, digits), Indent(depth), PrintItem(ys[0], depth, y, digits));
    ItemIsUnique(xs[0], ys[0], depth, x, y, digits);
    assert x[0] == y[0];
    if |xs| == 1 && |ys| == 1 {
      Cut(Indent(depth - 1) + [CLOSE_LIST], a, Indent(depth - 1) + [CLOSE_LIST], b);
    } else if |xs| > 1 && |ys| > 1 {
      Cut([COMMA], PrintItems(xs[1..], depth, a, digits), [COMMA], PrintItems(ys[1..], depth, b, digits));
      ItemsAreUnique(xs[1..], ys[1..], depth, a, b, digits);
      assert xs == [xs[0]] + xs[1..] && ys == [ys[0]] + ys[1..];
    } else {
      assert false;
    }
  }

  lemma {:induction false} ItemIsUnique(x: Item, y: Item, depth: nat, a: Text, b: Text, digits: Digits)
    requires x.Element? && y.Element? && Printable(x.value) && Printable(y.value) && ProperDigits(digits) && Stops(a)
             && Stops(b)
    requires PrintItem(x, depth, a, digits) == PrintItem(y, depth, b, digits)
    ensures x == y && a == b
    decreases x
  {
    ValuesAreUnique(x.value, y.value, depth, a, b, digits);
  }

  lemma {:induction false} ObjectsAreUnique(xs: seq<Member>, ys: seq<Member>, depth: nat, a: Text, b: Text,
                                            digits: Digits)
    requires Printable(Object(xs)) && Printable(Object(ys)) && ProperDigits(digits) && Stops(a) && Stops(b)
    requires Print(Object(xs), depth, a, digits) == Print(Object(ys), depth, b, digits)
    ensures xs == ys && a == b
    decreases xs, 1
  {
    var x := if xs == [] then [CLOSE_OBJECT] + a else PrintMembers(xs, depth + 1, a, digits);
    var y := if ys == [] then [CLOSE_OBJECT] + b else PrintMembers(ys, depth + 1, b, digits);
    Cut([OPEN_OBJECT], x, [OPEN_OBJECT], y);
    assert x[0] == y[0];
    if xs == [] && ys == [] {
      Cut([CLOSE_OBJECT], a, [CLOSE_OBJECT], b);
    } else if xs != [] && ys != [] {
      MembersAreUnique(xs, ys, depth + 1, a, b, digits);
    } else {
      assert false;
    }
  }

  lemma {:induction false} MembersAreUnique(xs: seq<Member>, ys: seq<Member>, depth: nat, a: Text, b: Text,
                                            digits: Digits)
    requires Printable(Object(xs)) && Printable(Object(ys)) && xs != [] && ys != [] && depth > 0
    requires ProperDigits(digits) && Stops(a) && Stops(b)
    requires PrintMembers(xs, depth, a, digits) == PrintMembers(ys, depth, b, digits)
    ensures xs == ys && a == b
    decreases xs, 0
  {
    var x := if |xs| == 1 then Indent(depth - 1) + [CLOSE_OBJECT] + a
      else [COMMA] + PrintMembers(xs[1..], depth, a, digits);
    var y := if |ys| == 1 then Indent(depth - 1) + [CLOSE_OBJECT] + b
      else [COMMA] + PrintMembers(ys[1..], depth, b, digits);
    Cut(Indent(depth), PrintMember(xs[0], depth, x, digits), Indent(depth), PrintMember(ys[0], depth, y, digits));
    MemberIsUnique(xs[0], ys[0], depth, x, y, digits);
    assert x[0] == y[0];
    if |xs| == 1 && |ys| == 1 {
      Cut(Indent(depth - 1) + [CLOSE_OBJECT], a, Indent(depth - 1) + [CLOSE_OBJECT], b);
    } else if |xs| > 1 && |ys| > 1 {
      Cut([COMMA], PrintMembers(xs[1..], depth, a, digits), [COMMA], PrintMembers(ys[1..], depth, b, digits));
      MembersAreUnique(xs[1..], ys[1..], depth, a, b, digits);
      assert xs == [xs[0]] + xs[1..] && ys == [ys[0]] + ys[1..];
    } else {
      assert false;
    }
  }

  lemma {:induction false} MemberIsUnique(x: Member, y: Member, depth: nat, a: Text, b: Text, digits: Digits)
    requires Printable(x.value) && Printable(y.value) && ProperDigits(digits) && Stops(a) && Stops(b)
    requires PrintMember(x, depth, a, digits) == PrintMember(y, depth, b, digits)
    ensures x == y && a == b
    decreases x
  {
    var p := [COLON, SPACE] + Print(x.value, depth, a, digits);
    var q := [COLON, SPACE] + Print(y.value, depth, b, digits);
    Cut([QUOTE], PrintString(x.key, 0, p), [QUOTE], PrintString(y.key, 0, q));
    StringsAreUnique(x.key, 0, y.key, 0, p, q);
    assert x.key[0..] == x.key && y.key[0..] == y.key;
    Cut([COLON, SPACE], Print(x.value, depth, a, digits), [COLON, SPACE], Print(y.value, depth, b, digits));
    ValuesAreUnique(x.value, y.value, depth, a, b, digits);
  }

  // ----- the serializer

  lemma {:induction false} CanonicalIsPrintable(value: Value)
    requires Canonical(value).Ok?
    ensures Printable(Canonical(value).value)
    decreases value
  {
    if value.Array? {
      var items := CanonicalItems(value.items).value;
      ItemsAreCanonical(value.items, 0);
      forall i | 0 <= i < |items|
        ensures items[i].Element? && Printable(items[i].value)
      {
        ItemsAreCanonical(value.items, i);
        CanonicalIsPrintable(value.items[i].value);
      }
    } else if value.Object? {
      var members := CanonicalMembers(value.members).value;
      MembersAreCanonical(value.members, 0);
      forall i | 0 <= i < |members|
        ensures Printable(members[i].value)
      {
        MembersAreCanonical(value.members, i);
        CanonicalIsPrintable(value.members[i].value);
      }
      forall i | 0 <= i < |SortMembers(members)|
        ensures Printable(SortMembers(members)[i].value)
      {
        SortKeeps(members, SortMembers(members)[i]);
      }
    }
  }

  /** The canonical form, printed with an indentation of two, and a final newline. */
  ghost function Serialized(value: Value, digits: Digits): Text
    requires Canonical(value).Ok?
  {
    CanonicalIsPrintable(value);
    Print(Canonical(value).value, 0, [NEWLINE], digits)
  }

  /** Two plain values serialize to one text exactly when they differ only in key order and the sign of zero. */
  lemma TextsDecide(left: Value, right: Value, digits: Digits)
    requires Proper(left) && Proper(right) && Canonical(left).Ok? && Canonical(right).Ok? && ProperDigits(digits)
    ensures Serialized(left, digits) == Serialized(right, digits) <==> Same(left, right)
  {
    CanonicalFormsDecide(left, right);
    CanonicalIsPrintable(left);
    CanonicalIsPrintable(right);
    if Serialized(left, digits) == Serialized(right, digits) {
      ValuesAreUnique(Canonical(left).value, Canonical(right).value, 0, [NEWLINE], [NEWLINE], digits);
    }
  }
}
