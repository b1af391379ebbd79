/** Reading JSON text as RFC 8259 defines it, and that canonical text is read as the canonical value. */
module JsonReading {
  import opened Wrappers
  import opened Schema
  import opened CanonicalJson
  import opened CanonicalText

  datatype Read<T> = Read(value: T, rest: Text)

  // ----- strings, section 7 of RFC 8259

  const TAB: CodeUnit := 0x09
  const RETURN: CodeUnit := 0x0D

  /** The character that a letter after a backslash stands for. */
  function Meaning(letter: CodeUnit): Option<CodeUnit> {
    match letter
    case 0x22 => Some(0x22)
    case 0x5C => Some(0x5C)
    case 0x2F => Some(0x2F)
    case 0x62 => Some(0x08)
    case 0x66 => Some(0x0C)
    case 0x6E => Some(0x0A)
    case 0x72 => Some(0x0D)
    case 0x74 => Some(0x09)
    case _ => None
  }

  function HexValue(u: CodeUnit): Option<nat> {
    if 0x30 <= u <= 0x39 then Some(u as int - 0x30)
    else if 0x61 <= u <= 0x66 then Some(u as int - 0x61 + 10)
    else if 0x41 <= u <= 0x46 then Some(u as int - 0x41 + 10)
    else None
  }

  function HexUnit(text: Text): (r: Option<CodeUnit>)
    requires |text| == 4
  {
    var a, b, c, d := HexValue(text[0]), HexValue(text[1]), HexValue(text[2]), HexValue(text[3]);
    if a == None || b == None || c == None || d == None then None
    else
      var n := ((a.value * 16 + b.value) * 16 + c.value) * 16 + d.value;
      if n < 0x1_0000 then Some(n as CodeUnit) else None
  }

  function Prepend(u: CodeUnit, read: Option<Read<Text>>): Option<Read<Text>> {
    if read == None then None else Some(Read([u] + read.value.value, read.value.rest))
  }

  /** What is left of a string after its opening quote. */
  function ReadString(text: Text): (r: Option<Read<Text>>)
    ensures r.Some? ==> |r.value.rest| < |text|
  {
    if text == [] || text[0] < SPACE then None
    else if text[0] == QUOTE then Some(Read([], text[1..]))
    else if text[0] != BACKSLASH then Prepend(text[0], ReadString(text[1..]))
    else if |text| >= 2 && Meaning(text[1]).Some? then Prepend(Meaning(text[1]).value, ReadString(text[2..]))
    else if |text| >= 6 && text[1] == LETTER_U && HexUnit(text[2..6]).Some? then
      Prepend(HexUnit(text[2..6]).value, ReadString(text[6..]))
    else None
  }

  // ----- values, sections 2 to 6 of RFC 8259

  function SkipSpace(text: Text): (r: Text)
    ensures |r| <= |text|
  {
    if text != [] && text[0] in {SPACE, TAB, NEWLINE, RETURN} then SkipSpace(text[1..]) else text
  }

  function NumberRun(text: Text): (n: nat)
    ensures n <= |text|
  {
    if text != [] && NumberCharacter(text[0]) then 1 + NumberRun(text[1..]) else 0
  }

  type Numbers = Text -> Option<Double>

  /** The number reader undoes the number printer. */
  ghost predicate ReadsDigits(numbers: Numbers, digits: Digits) { forall x :: numbers(digits(x)) == Some(x) }

  function ReadNumber(text: Text, numbers: Numbers): (r: Option<Read<Value>>)
    ensures r.Some? ==> |r.value.rest| < |text|
  {
    var run := NumberRun(text);
    if run == 0 || numbers(text[..run]) == None then None
    else Some(Read(Numeric(Finite(numbers(text[..run]).value)), text[run..]))
  }

  /** `null`, `true`, `false` or a number. */
  function ReadWord(text: Text, numbers: Numbers): (r: Option<Read<Value>>)
    ensures r.Some? ==> |r.value.rest| < |text|
  {
    if NULL <= text then Some(Read(Null, text[4..]))
    else if TRUE <= text then Some(Read(Bool(true), text[4..]))
    else if FALSE <= text then Some(Read(Bool(false), text[5..]))
    else ReadNumber(text, numbers)
  }

  function ReadText(text: Text): (r: Option<Read<Value>>)
    ensures r.Some? ==> |r.value.rest| < |text|
  {
    var read := ReadString(text);
    if read == None then None else Some(Read(Str(read.value.value), read.value.rest))
  }

  function ReadValue(raw: Text, numbers: Numbers): (r: Option<Read<Value>>)
    ensures r.Some? ==> |r.value.rest| < |raw|
    decreases |raw|, 0
  {
    var text := SkipSpace(raw);
    if text == [] then None
    else if text[0] == QUOTE then ReadText(text[1..])
    else if text[0] == OPEN_LIST then ReadList(text[1..], numbers)
    else if text[0] == OPEN_OBJECT then ReadObject(text[1..], numbers)
    else ReadWord(text, numbers)
  }

  /** What is left of an array after its opening bracket. */
  function ReadList(text: Text, numbers: Numbers): (r: Option<Read<Value>>)
    ensures r.Some? ==> |r.value.rest| < |text|
    decreases |text|, 2
  {
    var inner := SkipSpace(text);
    if inner != [] && inner[0] == CLOSE_LIST then Some(Read(Array([]), inner[1..]))
    else
      var items := ReadItems(text, numbers);
      if items == None then None else Some(Read(Array(items.value.value), items.value.rest))
  }

  function ReadObject(text: Text, numbers: Numbers): (r: Option<Read<Value>>)
    ensures r.Some? ==> |r.value.rest| < |text|
    decreases |text|, 2
  {
    var inner := SkipSpace(text);
    if inner != [] && inner[0] == CLOSE_OBJECT then Some(Read(Object([]), inner[1..]))
    else
      var members := ReadMembers(text, numbers);
      if members == None then None else Some(Read(Object(members.value.value), members.value.rest))
  }

  function ReadItems(text: Text, numbers: Numbers): (r: Option<Read<seq<Item>>>)
    ensures r.Some? ==> |r.value.rest| < |text|
    decreases |text|, 1
  {
    var first := ReadValue(text, numbers);
    if first == None then None
    else
      var after := SkipSpace(first.value.rest);
      if after == [] then None
      else if after[0] == CLOSE_LIST then Some(Read([Element(first.value.value)], after[1..]))
      else if after[0] != COMMA then None
      else
        var rest := ReadItems(after[1..], numbers);
        if rest == None then None
        else Some(Read([Element(first.value.value)] + rest.value.value, rest.value.rest))
  }

  function ReadMember(raw: Text, numbers: Numbers): (r: Option<Read<Member>>)
    ensures r.Some? ==> |r.value.rest| < |raw|
    decreases |raw|, 0
  {
    var text := SkipSpace(raw);
    if text == [] || text[0] != QUOTE then None
    else
      var key := ReadString(text[1..]);
      if key == None then None else ReadUnder(key.value.value, key.value.rest, numbers)
  }

  /** A member after its key. */
  function ReadUnder(key: Text, raw: Text, numbers: Numbers): (r: Option<Read<Member>>)
    ensures r.Some? ==> |r.value.rest| < |raw|
    decreases |raw|, 1
  {
    var text := SkipSpace(raw);
    if text == [] || text[0] != COLON then None
    else
      var value := ReadValue(text[1..], numbers);
      if value == None then None else Some(Read(Member(key, value.value.value), value.value.rest))
  }

  function ReadMembers(text: Text, numbers: Numbers): (r: Option<Read<seq<Member>>>)
    ensures r.Some? ==> |r.value.rest| < |text|
    decreases |text|, 1
  {
    var first := ReadMember(text, numbers);
    if first == None then None
    else
      var after := SkipSpace(first.value.rest);
      if after == [] then None
      else if after[0] == CLOSE_OBJECT then Some(Read([first.value.value], after[1..]))
      else if after[0] != COMMA then None
      else
        var rest := ReadMembers(after[1..], numbers);
        if rest == None then None else Some(Read([first.value.value] + rest.value.value, rest.value.rest))
  }

  /** A text that holds one value and nothing but white space around it. */
  function Parse(text: Text, numbers: Numbers): Option<Value> {
    var read := ReadValue(text, numbers);
    if read.Some? && SkipSpace(read.value.rest) == [] then Some(read.value.value) else None
  }

  // ----- printed strings are read

  lemma HexIsRead(n: nat)
    requires n < 0x1_0000
    ensures HexUnit(HexDigits(n)) == Some(n as CodeUnit)
  {
    FromDigits(n);
  }

  lemma LongEscapeIsRead(hex: Text, u: CodeUnit, rest: Text)
    requires |hex| == 4 && HexUnit(hex) == Some(u)
    ensures ReadString([BACKSLASH, LETTER_U] + hex + rest) == Prepend(u, ReadString(rest))
  {
    var text := [BACKSLASH, LETTER_U] + hex + rest;
    assert text[2..6] == hex && text[6..] == rest && Meaning(LETTER_U) == None;
  }

  lemma ShortEscapeIsRead(letter: CodeUnit, rest: Text)
    requires Meaning(letter).Some?
    ensures ReadString([BACKSLASH, letter] + rest) == Prepend(Meaning(letter).value, ReadString(rest))
  {
    assert ([BACKSLASH, letter] + rest)[2..] == rest;
  }

  lemma EscapeIsRead(u: CodeUnit, lone: bool, rest: Text)
    ensures ReadString(Escape(u, lone) + rest) == Prepend(u, ReadString(rest))
  {
    if ShortEscape(u).Some? {
      ShortEscapeIsRead(ShortEscape(u).value, rest);
    } else if u < 0x20 || lone {
      HexIsRead(u as int);
      LongEscapeIsRead(HexDigits(u as int), u, rest);
    } else {
      assert ([u] + rest)[1..] == rest;
    }
  }

  /** A printed string is read as itself, whatever characters it has. */
  lemma {:induction false} StringIsRead(text: Text, i: nat, rest: Text)
    requires i <= |text|
    ensures ReadString(PrintString(text, i, rest)) == Some(Read(text[i..], rest))
    decreases |text| - i
  {
    if i == |text| {
      assert ([QUOTE] + rest)[1..] == rest;
    } else {
      StringIsRead(text, i + 1, rest);
      EscapeIsRead(text[i], Lone(text, i), PrintString(text, i + 1, rest));
      assert text[i..] == [text[i]] + text[i + 1..];
    }
  }

  // ----- how strings are printed

  predicate High(u: CodeUnit) { 0xD800 <= u < 0xDC00 }
  predicate Low(u: CodeUnit) { 0xDC00 <= u < 0xE000 }

  /** Half of a surrogate pair without its other half next to it. */
  predicate Unpaired(text: Text, i: nat)
    requires i < |text|
  {
    || (High(text[i]) && (i == |text| - 1 || !Low(text[i + 1])))
    || (Low(text[i]) && (i == 0 || !High(text[i - 1])))
  }

  predicate MustBeEscaped(text: Text, i: nat)
    requires i < |text|
  {
    text[i] == 0x22 || text[i] == 0x5C || text[i] <= 0x1F || Unpaired(text, i)
  }

  predicate SmallHex(u: CodeUnit) { 0x30 <= u <= 0x39 || 0x61 <= u <= 0x66 }

  /**
   Nothing is escaped without need: quotes, backslashes and the control
   characters with letters of their own take a letter, others four small
   hexadecimal digits, and every other character stands for itself.
  */
  lemma UnitsArePrinted(text: Text, i: nat, rest: Text)
    requires i < |text|
    ensures var printed, next := PrintString(text, i, rest), PrintString(text, i + 1, rest);
            && (!MustBeEscaped(text, i) ==> printed == [text[i]] + next)
            && (text[i] in {0x22, 0x5C, 0x08, 0x09, 0x0A, 0x0C, 0x0D} ==>
                  |printed| == 2 + |next| && printed[0] == 0x5C && printed[1] != 0x75)
            && (MustBeEscaped(text, i) && text[i] !in {0x22, 0x5C, 0x08, 0x09, 0x0A, 0x0C, 0x0D} ==>
                  && |printed| == 6 + |next| && printed[0] == 0x5C && printed[1] == 0x75
                  && forall k :: 2 <= k < 6 ==> SmallHex(printed[k]))
  {
    var u := text[i];
    var escape, next := Escape(u, Lone(text, i)), PrintString(text, i + 1, rest);
    assert PrintString(text, i, rest) == escape + next;
    assert Lone(text, i) <==> Unpaired(text, i);
    assert forall k :: 0 <= k < |escape| ==> (escape + next)[k] == escape[k];
  }

  /** Two halves that belong together stay together, so the printed text of a string has no half on its own. */
  lemma {:induction false} PrintedStringIsPaired(text: Text, i: nat, rest: Text, k: nat)
    requires i <= |text| && k < |PrintString(text, i, rest)| - |rest|
    requires Unpaired(PrintString(text, i, rest), k)
    ensures k == 0 && 0 < i < |text| && Low(text[i]) && High(text[i - 1])
    decreases |text| - i
  {
    if i < |text| {
      var escape, next := Escape(text[i], Lone(text, i)), PrintString(text, i + 1, rest);
      if k >= |escape| {
        UnpairedBehind(escape + next, escape, next, k - |escape|, text[i]);
        PrintedStringIsPaired(text, i + 1, rest, k - |escape|);
        EscapedHigh(text, i);
        NextUnit(text, i + 1, rest);
      } else {
        FirstIsPaired(text, i, rest, k);
      }
    }
  }

  lemma EscapedHigh(text: Text, i: nat)
    requires i + 1 < |text| && High(text[i]) && Low(text[i + 1])
    ensures Escape(text[i], Lone(text, i)) == [text[i]]
  {
  }

  lemma FirstIsPaired(text: Text, i: nat, rest: Text, k: nat)
    requires i < |text| && k < |Escape(text[i], Lone(text, i))|
    requires Unpaired(PrintString(text, i, rest), k)
    ensures k == 0 && 0 < i && Low(text[i]) && High(text[i - 1])
  {
    var escape, next := Escape(text[i], Lone(text, i)), PrintString(text, i + 1, rest);
    var printed := escape + next;
    assert forall m :: 0 <= m < |escape| ==> printed[m] == escape[m];
    assert next != [] ==> printed[|escape|] == next[0];
    if i + 1 < |text| {
      NextUnit(text, i + 1, rest);
    }
  }

  lemma UnpairedBehind(printed: Text, escape: Text, next: Text, m: nat, u: CodeUnit)
    requires printed == escape + next && m < |next| && escape != [] && Unpaired(printed, |escape| + m)
    ensures Unpaired(next, m) && (m == 0 && Low(next[0]) ==> !High(escape[|escape| - 1]))
  {
    assert printed[|escape| + m] == next[m];
    assert m + 1 < |next| ==> printed[|escape| + m + 1] == next[m + 1];
    assert printed[|escape| - 1] == escape[|escape| - 1];
    assert m > 0 ==> printed[|escape| + m - 1] == next[m - 1];
  }

  lemma NextUnit(text: Text, i: nat, rest: Text)
    requires i < |text|
    ensures PrintString(text, i, rest) != []
    ensures PrintString(text, i, rest)[0] == text[i] || PrintString(text, i, rest)[0] == 0x5C
    ensures i > 0 && Low(text[i]) && High(text[i - 1]) ==> PrintString(text, i, rest)[0] == text[i]
  {
    var escape, next := Escape(text[i], Lone(text, i)), PrintString(text, i + 1, rest);
    assert (escape + next)[0] == escape[0];
  }

  // ----- printed values are read

  predicate Visible(text: Text) { text != [] && text[0] !in {SPACE, TAB, NEWLINE, RETURN} }

  lemma {:induction false} SpacesAreSkipped(n: nat, text: Text)
    requires Visible(text)
    ensures SkipSpace(Spaces(n) + text) == text
  {
    if n == 0 {
      assert Spaces(0) + text == text;
    } else {
      SpacesAreSkipped(n - 1, text);
      assert (Spaces(n) + text)[1..] == Spaces(n - 1) + text;
    }
  }

  lemma IndentIsSkipped(depth: nat, text: Text)
    requires Visible(text)
    ensures SkipSpace(Indent(depth) + text) == text
  {
    SpacesAreSkipped(2 * depth, text);
    assert (Indent(depth) + text)[1..] == Spaces(2 * depth) + text;
  }

  lemma PrintedIsVisible(value: Value, depth: nat, rest: Text, digits: Digits)
    requires Printable(value) && ProperDigits(digits)
    ensures Visible(Print(value, depth, rest, digits))
  {
    if value.Numeric? {
      var number := digits(value.number.value);
      assert NumberCharacter(number[0]) && (number + rest)[0] == number[0];
    }
  }

  lemma {:induction false} RunOfDigits(number: Text, rest: Text)
    requires Stops(rest) && forall i :: 0 <= i < |number| ==> NumberCharacter(number[i])
    ensures NumberRun(number + rest) == |number|
  {
    if number == [] {
      assert number + rest == rest;
    } else {
      RunOfDigits(number[1..], rest);
      assert (number + rest)[1..] == number[1..] + rest;
    }
  }

  lemma NumberIsRead(x: Double, rest: Text, digits: Digits, numbers: Numbers)
    requires ProperDigits(digits) && ReadsDigits(numbers, digits) && Stops(rest)
    ensures ReadValue(digits(x) + rest, numbers) == Some(Read(Numeric(Finite(x)), rest))
  {
    var number := digits(x);
    var text := number + rest;
    RunOfDigits(number, rest);
    assert NumberCharacter(number[0]) && text[0] == number[0];
    assert text[..|number|] == number && text[|number|..] == rest;
  }

  /** White space before a value changes nothing. */
  lemma SpaceBefore(depth: nat, text: Text, numbers: Numbers)
    requires Visible(text)
    ensures ReadValue(Indent(depth) + text, numbers) == ReadValue(text, numbers)
  {
    IndentIsSkipped(depth, text);
  }

  lemma ItemsGoOn(text: Text, value: Value, after: Text, more: Text, items: seq<Item>, rest: Text, numbers: Numbers)
    requires ReadValue(text, numbers) == Some(Read(value, after))
    requires SkipSpace(after) == if items == [] then [CLOSE_LIST] + rest else [COMMA] + more
    requires items != [] ==> ReadItems(more, numbers) == Some(Read(items, rest))
    ensures ReadItems(text, numbers) == Some(Read([Element(value)] + items, rest))
  {
    assert ([CLOSE_LIST] + rest)[1..] == rest && ([COMMA] + more)[1..] == more;
    assert [Element(value)] + [] == [Element(value)];
  }

  lemma MembersGoOn(text: Text, member: Member, after: Text, more: Text, members: seq<Member>, rest: Text,
                    numbers: Numbers)
    requires ReadMember(text, numbers) == Some(Read(member, after))
    requires SkipSpace(after) == if members == [] then [CLOSE_OBJECT] + rest else [COMMA] + more
    requires members != [] ==> ReadMembers(more, numbers) == Some(Read(members, rest))
    ensures ReadMembers(text, numbers) == Some(Read([member] + members, rest))
  {
    assert ([CLOSE_OBJECT] + rest)[1..] == rest && ([COMMA] + more)[1..] == more;
    assert [member] + [] == [member];
  }

  lemma UnderIsRead(key: Text, text: Text, value: Value, rest: Text, numbers: Numbers)
    requires ReadValue(text, numbers) == Some(Read(value, rest))
    ensures ReadUnder(key, [COLON, SPACE] + text, numbers) == Some(Read(Member(key, value), rest))
  {
    assert ([COLON, SPACE] + text)[1..] == [SPACE] + text;
    OneSpaceBefore(text, numbers);
  }

  lemma OneSpaceBefore(text: Text, numbers: Numbers)
    ensures ReadValue([SPACE] + text, numbers) == ReadValue(text, numbers)
  {
    assert ([SPACE] + text)[1..] == text;
  }

  lemma LiteralsAreRead(rest: Text, numbers: Numbers)
    ensures ReadValue(NULL + rest, numbers) == Some(Read(Null, rest))
    ensures ReadValue(TRUE + rest, numbers) == Some(Read(Bool(true), rest))
    ensures ReadValue(FALSE + rest, numbers) == Some(Read(Bool(false), rest))
  {
    var null_, true_, false_ := NULL + rest, TRUE + rest, FALSE + rest;
    assert null_[0] == NULL[0] && true_[0] == TRUE[0] && false_[0] == FALSE[0];
    assert null_[4..] == rest && true_[4..] == rest && false_[5..] == rest;
  }

  lemma FirstDecides(first: CodeUnit, inner: Text, numbers: Numbers)
    requires first in {QUOTE, OPEN_LIST, OPEN_OBJECT}
    ensures ReadValue([first] + inner, numbers)
            == if first == QUOTE then ReadText(inner)
               else if first == OPEN_LIST then ReadList(inner, numbers) else ReadObject(inner, numbers)
  {
    assert ([first] + inner)[1..] == inner;
  }

  lemma {:induction false} ValueIsRead(value: Value, depth: nat, rest: Text, digits: Digits, numbers: Numbers)
    requires Printable(value) && ProperDigits(digits) && ReadsDigits(numbers, digits) && Stops(rest)
    ensures ReadValue(Print(value, depth, rest, digits), numbers) == Some(Read(value, rest))
    decreases value
  {
    match value
    case Null => LiteralsAreRead(rest, numbers);
    case Bool(_) => LiteralsAreRead(rest, numbers);
    case Numeric(number) => NumberIsRead(number.value, rest, digits, numbers);
    case Str(text) =>
      StringIsRead(text, 0, rest);
      assert text[0..] == text;
      FirstDecides(QUOTE, PrintString(text, 0, rest), numbers);
    case Array(items) =>
      var inner := if items == [] then [CLOSE_LIST] + rest else PrintItems(items, depth + 1, rest, digits);
      FirstDecides(OPEN_LIST, inner, numbers);
      ListIsRead(items, depth + 1, rest, digits, numbers);
    case Object(members) =>
      var inner := if members == [] then [CLOSE_OBJECT] + rest else PrintMembers(members, depth + 1, rest, digits);
      FirstDecides(OPEN_OBJECT, inner, numbers);
      ObjectIsRead(members, depth + 1, rest, digits, numbers);
  }

  lemma {:induction false} ListIsRead(items: seq<Item>, depth: nat, rest: Text, digits: Digits, numbers: Numbers)
    requires Printable(Array(items)) && depth > 0
    requires ProperDigits(digits) && ReadsDigits(numbers, digits) && Stops(rest)
    ensures var inner := if items == [] then [CLOSE_LIST] + rest else PrintItems(items, depth, rest, digits);
            ReadList(inner, numbers) == Some(Read(Array(items), rest))
    decreases items, 1
  {
    if items != [] {
      ListStarts(items, depth, rest, digits);
      ItemsAreRead(items, depth, rest, digits, numbers);
    }
  }

  lemma ListStarts(items: seq<Item>, depth: nat, rest: Text, digits: Digits)
    requires Printable(Array(items)) && items != [] && depth > 0 && ProperDigits(digits)
    ensures var inner := SkipSpace(PrintItems(items, depth, rest, digits)); inner != [] && inner[0] != CLOSE_LIST
  {
    var after := AfterItem(items, depth, rest, digits);
    PrintedIsVisible(items[0].value, depth, after, digits);
    NotClosed(items[0].value, depth, after, digits);
    IndentIsSkipped(depth, Print(items[0].value, depth, after, digits));
  }

  ghost function AfterItem(items: seq<Item>, depth: nat, rest: Text, digits: Digits): Text
    requires items != [] && depth > 0 && Printable(Array(items))
  {
    if |items| == 1 then Indent(depth - 1) + [CLOSE_LIST] + rest
    else [COMMA] + PrintItems(items[1..], depth, rest, digits)
  }

  lemma NotClosed(value: Value, depth: nat, rest: Text, digits: Digits)
    requires Printable(value) && ProperDigits(digits)
    ensures Print(value, depth, rest, digits)[0] !in {CLOSE_LIST, CLOSE_OBJECT}
  {
    if value.Numeric? {
      var number := digits(value.number.value);
      assert NumberCharacter(number[0]) && (number + rest)[0] == number[0];
    }
  }

  lemma {:induction false} ItemsAreRead(items: seq<Item>, depth: nat, rest: Text, digits: Digits, numbers: Numbers)
    requires Printable(Array(items)) && items != [] && depth > 0
    requires ProperDigits(digits) && ReadsDigits(numbers, digits) && Stops(rest)
    ensures ReadItems(PrintItems(items, depth, rest, digits), numbers) == Some(Read(items, rest))
    decreases items, 0
  {
    var after := AfterItem(items, depth, rest, digits);
    ItemIsRead(items[0], depth, after, digits, numbers);
    var text := PrintItems(items, depth, rest, digits);
    assert items == [items[0]] + items[1..];
    if |items| == 1 {
      Closed(depth - 1, CLOSE_LIST, rest);
      ItemsGoOn(text, items[0].value, after, [], [], rest, numbers);
    } else {
      var more := PrintItems(items[1..], depth, rest, digits);
      ItemsAreRead(items[1..], depth, rest, digits, numbers);
      ItemsGoOn(text, items[0].value, after, more, items[1..], rest, numbers);
    }
  }

  lemma Closed(depth: nat, close: CodeUnit, rest: Text)
    requires close == CLOSE_LIST || close == CLOSE_OBJECT
    ensures SkipSpace(Indent(depth) + [close] + rest) == [close] + rest
  {
    assert Indent(depth) + [close] + rest == Indent(depth) + ([close] + rest);
    IndentIsSkipped(depth, [close] + rest);
  }

  lemma {:induction false} ItemIsRead(item: Item, depth: nat, rest: Text, digits: Digits, numbers: Numbers)
    requires item.Element? && Printable(item.value)
    requires ProperDigits(digits) && ReadsDigits(numbers, digits) && Stops(rest)
    ensures ReadValue(Indent(depth) + PrintItem(item, depth, rest, digits), numbers) == Some(Read(item.value, rest))
    decreases item
  {
    PrintedIsVisible(item.value, depth, rest, digits);
    SpaceBefore(depth, Print(item.value, depth, rest, digits), numbers);
    ValueIsRead(item.value, depth, rest, digits, numbers);
  }

  lemma {:induction false} ObjectIsRead(members: seq<Member>, depth: nat, rest: Text, digits: Digits,
                                        numbers: Numbers)
    requires Printable(Object(members)) && depth > 0
    requires ProperDigits(digits) && ReadsDigits(numbers, digits) && Stops(rest)
    ensures var inner := if members == [] then [CLOSE_OBJECT] + rest else PrintMembers(members, depth, rest, digits);
            ReadObject(inner, numbers) == Some(Read(Object(members), rest))
    decreases members, 1
  {
    if members != [] {
      IndentIsSkipped(depth, PrintMember(members[0], depth, AfterMember(members, depth, rest, digits), digits));
      MembersAreRead(members, depth, rest, digits, numbers);
    }
  }

  ghost function AfterMember(members: seq<Member>, depth: nat, rest: Text, digits: Digits): Text
    requires members != [] && depth > 0 && Printable(Object(members))
  {
    if |members| == 1 then Indent(depth - 1) + [CLOSE_OBJECT] + rest
    else [COMMA] + PrintMembers(members[1..], depth, rest, digits)
  }

  lemma {:induction false} MembersAreRead(members: seq<Member>, depth: nat, rest: Text, digits: Digits,
                                          numbers: Numbers)
    requires Printable(Object(members)) && members != [] && depth > 0
    requires ProperDigits(digits) && ReadsDigits(numbers, digits) && Stops(rest)
    ensures ReadMembers(PrintMembers(members, depth, rest, digits), numbers) == Some(Read(members, rest))
    decreases members, 0
  {
    var after := AfterMember(members, depth, rest, digits);
    MemberIsRead(members[0], depth, after, digits, numbers);
    var text := Indent(depth) + PrintMember(members[0], depth, after, digits);
    if |members| == 1 {
      Closed(depth - 1, CLOSE_OBJECT, rest);
      MembersGoOn(text, members[0], after, [], [], rest, numbers);
      assert members == [members[0]] + [];
    } else {
      MembersAreRead(members[1..], depth, rest, digits, numbers);
      CommaIsRead(text, members, after, PrintMembers(members[1..], depth, rest, digits), rest, numbers);
    }
  }

  lemma CommaIsRead(text: Text, members: seq<Member>, after: Text, more: Text, rest: Text, numbers: Numbers)
    requires |members| > 1 && ReadMember(text, numbers) == Some(Read(members[0], after)) && after == [COMMA] + more
    requires ReadMembers(more, numbers) == Some(Read(members[1..], rest))
    ensures ReadMembers(text, numbers) == Some(Read(members, rest))
  {
    MembersGoOn(text, members[0], after, more, members[1..], rest, numbers);
    assert members == [members[0]] + members[1..];
  }

  lemma {:induction false} MemberIsRead(member: Member, depth: nat, rest: Text, digits: Digits, numbers: Numbers)
    requires Printable(member.value)
    requires ProperDigits(digits) && ReadsDigits(numbers, digits) && Stops(rest)
    ensures ReadMember(Indent(depth) + PrintMember(member, depth, rest, digits), numbers) == Some(Read(member, rest))
    decreases member
  {
    ValueIsRead(member.value, depth, rest, digits, numbers);
    KeyIsRead(member.key, depth, Print(member.value, depth, rest, digits), member.value, rest, numbers);
  }

  lemma KeyIsRead(key: Text, depth: nat, text: Text, value: Value, rest: Text, numbers: Numbers)
    requires ReadValue(text, numbers) == Some(Read(value, rest))
    ensures ReadMember(Indent(depth) + ([QUOTE] + PrintString(key, 0, [COLON, SPACE] + text)), numbers)
            == Some(Read(Member(key, value), rest))
  {
    var body := PrintString(key, 0, [COLON, SPACE] + text);
    IndentIsSkipped(depth, [QUOTE] + body);
    StringIsRead(key, 0, [COLON, SPACE] + text);
    assert key[0..] == key && ([QUOTE] + body)[1..] == body;
    UnderIsRead(key, text, value, rest, numbers);
  }

  // ----- the serializer

  /** The text of a value, read as JSON, is the canonical form of the value. */
  lemma SerializedIsRead(value: Value, digits: Digits, numbers: Numbers)
    requires Canonical(value).Ok? && ProperDigits(digits) && ReadsDigits(numbers, digits)
    ensures Parse(Serialized(value, digits), numbers) == Some(Canonical(value).value)
  {
    CanonicalIsPrintable(value);
    ValueIsRead(Canonical(value).value, 0, [NEWLINE], digits, numbers);
    assert SkipSpace([NEWLINE]) == SkipSpace([]);
  }
}
