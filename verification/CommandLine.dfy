/**
 Windows command lines: how arguments are quoted, and how a program takes the line apart again by the
 rules Microsoft documents for the arguments after the program name.
*/
module CommandLine {
  import opened Sequences
  import opened Schema

  const SPACE: CodeUnit := 0x20
  const TABULATOR: CodeUnit := 0x09
  const QUOTE: CodeUnit := 0x22
  const BACKSLASH: CodeUnit := 0x5C

  function Backslashes(n: nat): (r: Text)
    ensures |r| == n && forall i :: 0 <= i < n ==> r[i] == BACKSLASH
  {
    seq(n, i => BACKSLASH)
  }

  // ----- quoting

  predicate NeedsQuotes(value: Text) { SPACE in value || TABULATOR in value || QUOTE in value }

  /** What is written for a value so far, and the backslashes still held back. */
  datatype Quoting = Quoting(output: Text, slashes: nat)

  function QuoteNext(quoting: Quoting, character: CodeUnit): Quoting {
    if character == BACKSLASH then Quoting(quoting.output, quoting.slashes + 1)
    else if character == QUOTE then Quoting(quoting.output + Backslashes(quoting.slashes * 2 + 1) + [character], 0)
    else Quoting(quoting.output + Backslashes(quoting.slashes) + [character], 0)
  }

  function QuoteAll(value: Text): Quoting {
    if value == [] then Quoting([QUOTE], 0) else QuoteNext(QuoteAll(value[..|value| - 1]), value[|value| - 1])
  }

  function Quoted(value: Text): Text {
    if !NeedsQuotes(value) then value
    else QuoteAll(value).output + Backslashes(QuoteAll(value).slashes * 2) + [QUOTE]
  }

  method Quote(value: Text) returns (output: Text)
    ensures output == Quoted(value)
  {
    if !NeedsQuotes(value) {
      return value;
    }
    output := [QUOTE];
    var slashes := 0;
    for n := 0 to |value|
      invariant Quoting(output, slashes) == QuoteAll(value[..n])
    {
      assert value[..n + 1][..n] == value[..n];
      if value[n] == BACKSLASH {
        slashes := slashes + 1;
      } else if value[n] == QUOTE {
        output := output + Backslashes(slashes * 2 + 1) + [value[n]];
        slashes := 0;
      } else {
        output := output + Backslashes(slashes) + [value[n]];
        slashes := 0;
      }
    }
    assert value[..|value|] == value;
    output := output + Backslashes(slashes * 2) + [QUOTE];
  }

  lemma {:induction false} NothingIsDropped(value: Text)
    ensures |QuoteAll(value).output| + QuoteAll(value).slashes > |value|
  {
    if value != [] {
      NothingIsDropped(value[..|value| - 1]);
    }
  }

  /** An argument is written as it is exactly when there is no space, tabulator or quote in it. */
  lemma PlainArgumentsStay(value: Text)
    ensures Quoted(value) == value <==> forall character | character in value :: character !in {0x20, 0x09, 0x22}
  {
    NothingIsDropped(value);
    if NeedsQuotes(value) {
      assert |Quoted(value)| > |value|;
    }
  }

  /** The command line after the program name: every argument quoted, each after a space. */
  function Tail(arguments: seq<Text>): Text {
    if arguments == [] then [] else Tail(arguments[..|arguments| - 1]) + [SPACE] + Quoted(arguments[|arguments| - 1])
  }

  method BuildTail(arguments: seq<Text>) returns (command: Text)
    ensures command == Tail(arguments)
  {
    command := [];
    for n := 0 to |arguments|
      invariant command == Tail(arguments[..n])
    {
      assert arguments[..n + 1][..n] == arguments[..n];
      var quoted := Quote(arguments[n]);
      command := command + [SPACE] + quoted;
    }
    assert arguments[..|arguments|] == arguments;
  }

  // ----- splitting

  /**
   The state of a reader: arguments already read, the one being read, the backslashes before the next
   character, whether it is inside quotes, and whether it has just left them.
  */
  datatype Reader = Reader(arguments: seq<Text>, current: Text, slashes: nat, inside: bool, justClosed: bool,
                           started: bool)

  function Flushed(reader: Reader): Text { reader.current + Backslashes(reader.slashes) }

  function Half(n: nat): nat { n / 2 }
  predicate Odd(n: nat) { n % 2 == 1 }

  lemma Doubled(n: nat)
    ensures Half(n * 2) == n && !Odd(n * 2) && Half(n * 2 + 1) == n && Odd(n * 2 + 1)
  {
  }

  function Feed(reader: Reader, character: CodeUnit): Reader {
    var Reader(arguments, current, slashes, inside, justClosed, _) := reader;
    if character == BACKSLASH then Reader(arguments, current, slashes + 1, inside, false, true)
    else if character == QUOTE then
      if Odd(slashes) then Reader(arguments, current + Backslashes(Half(slashes)) + [QUOTE], 0, inside, false, true)
      else if justClosed then Reader(arguments, current + [QUOTE], 0, true, false, true)
      else Reader(arguments, current + Backslashes(Half(slashes)), 0, !inside, inside, true)
    else if (character == SPACE || character == TABULATOR) && !inside then
      Reader(if reader.started then arguments + [Flushed(reader)] else arguments, [], 0, false, false, false)
    else Reader(arguments, Flushed(reader) + [character], 0, inside, false, true)
  }

  function FeedAll(reader: Reader, text: Text): Reader {
    if text == [] then reader else Feed(FeedAll(reader, text[..|text| - 1]), text[|text| - 1])
  }

  function Idle(arguments: seq<Text>): Reader { Reader(arguments, [], 0, false, false, false) }

  function Finish(reader: Reader): seq<Text> {
    if reader.started then reader.arguments + [Flushed(reader)] else reader.arguments
  }

  function SplitArguments(text: Text): seq<Text> { Finish(FeedAll(Idle([]), text)) }

  // ----- the round trip

  lemma NoBackslashes(text: Text)
    ensures text + Backslashes(0) == text
  {
  }

  lemma OneMoreBackslash(text: Text, n: nat)
    ensures text + Backslashes(n + 1) == text + Backslashes(n) + [BACKSLASH]
  {
  }

  lemma {:induction false} FeedConcat(reader: Reader, a: Text, b: Text)
    ensures FeedAll(reader, a + b) == FeedAll(FeedAll(reader, a), b)
  {
    if b == [] {
      assert a + b == a;
    } else {
      assert (a + b)[..|a + b| - 1] == a + b[..|b| - 1];
      FeedConcat(reader, a, b[..|b| - 1]);
    }
  }

  lemma FeedSnoc(reader: Reader, text: Text, character: CodeUnit)
    ensures FeedAll(reader, text + [character]) == Feed(FeedAll(reader, text), character)
  {
    assert (text + [character])[..|text|] == text;
  }

  lemma {:induction false} FeedBackslashes(reader: Reader, n: nat)
    requires n > 0
    ensures FeedAll(reader, Backslashes(n))
            == Reader(reader.arguments, reader.current, reader.slashes + n, reader.inside, false, true)
  {
    assert Backslashes(n) == Backslashes(n - 1) + [BACKSLASH];
    FeedSnoc(reader, Backslashes(n - 1), BACKSLASH);
    if n > 1 {
      FeedBackslashes(reader, n - 1);
    } else {
      assert Backslashes(0) == [];
    }
  }

  function Inside(arguments: seq<Text>, current: Text): Reader { Reader(arguments, current, 0, true, false, true) }

  /** Inside quotes, held-back backslashes and a character are read as they were meant. */
  lemma FeedsBack(arguments: seq<Text>, current: Text, slashes: nat, character: CodeUnit)
    requires character != BACKSLASH
    ensures var written := Backslashes(if character == QUOTE then slashes * 2 + 1 else slashes);
            FeedAll(Inside(arguments, current), written + [character])
              == Inside(arguments, current + Backslashes(slashes) + [character])
  {
    var count := if character == QUOTE then slashes * 2 + 1 else slashes;
    FeedHeldBack(Inside(arguments, current), count, character);
    Doubled(slashes);
  }

  /** Backslashes and then a character. */
  lemma FeedHeldBack(reader: Reader, n: nat, character: CodeUnit)
    requires reader.slashes == 0 && reader.started && !reader.justClosed
    ensures FeedAll(reader, Backslashes(n) + [character])
            == Feed(Reader(reader.arguments, reader.current, n, reader.inside, false, true), character)
  {
    FeedSnoc(reader, Backslashes(n), character);
    if n > 0 {
      FeedBackslashes(reader, n);
    } else {
      assert Backslashes(n) == [];
    }
  }

  lemma OpeningQuoteIsRead(arguments: seq<Text>)
    ensures FeedAll(Idle(arguments), [QUOTE]) == Inside(arguments, [])
  {
    FeedSnoc(Idle(arguments), [], QUOTE);
    assert [] + [QUOTE] == [QUOTE];
    NoBackslashes([]);
  }

  /** While a value is being quoted, the reader has all of it but the backslashes held back. */
  lemma {:induction false} QuotingIsRead(arguments: seq<Text>, value: Text) returns (current: Text)
    ensures FeedAll(Idle(arguments), QuoteAll(value).output) == Inside(arguments, current)
    ensures current + Backslashes(QuoteAll(value).slashes) == value
  {
    if value == [] {
      current := [];
      OpeningQuoteIsRead(arguments);
      NoBackslashes([]);
    } else {
      var init, character := value[..|value| - 1], value[|value| - 1];
      var before := QuotingIsRead(arguments, init);
      var quoting := QuoteAll(init);
      assert value == init + [character];
      if character == BACKSLASH {
        current := before;
        OneMoreBackslash(before, quoting.slashes);
      } else {
        QuoteNextIsRead(arguments, quoting, before, character);
        current := before + Backslashes(quoting.slashes) + [character];
        NoBackslashes(current);
      }
    }
  }

  lemma QuoteNextIsRead(arguments: seq<Text>, quoting: Quoting, current: Text, character: CodeUnit)
    requires character != BACKSLASH && FeedAll(Idle(arguments), quoting.output) == Inside(arguments, current)
    ensures FeedAll(Idle(arguments), QuoteNext(quoting, character).output)
            == Inside(arguments, current + Backslashes(quoting.slashes) + [character])
  {
    var written := Backslashes(if character == QUOTE then quoting.slashes * 2 + 1 else quoting.slashes);
    Associate(quoting.output, written, [character]);
    FeedConcat(Idle(arguments), quoting.output, written + [character]);
    FeedsBack(arguments, current, quoting.slashes, character);
  }

  /** The reader is done with a value: the next space or the end of the line turns it into an argument. */
  ghost predicate Holds(reader: Reader, arguments: seq<Text>) {
    !reader.inside && Finish(reader) == arguments
  }

  lemma ClosingQuoteIsRead(arguments: seq<Text>, current: Text, slashes: nat)
    ensures Holds(FeedAll(Inside(arguments, current), Backslashes(slashes * 2) + [QUOTE]),
                  arguments + [current + Backslashes(slashes)])
  {
    FeedHeldBack(Inside(arguments, current), slashes * 2, QUOTE);
    Doubled(slashes);
    NoBackslashes(current + Backslashes(slashes));
  }

  lemma QuotedIsRead(arguments: seq<Text>, value: Text)
    requires NeedsQuotes(value)
    ensures Holds(FeedAll(Idle(arguments), Quoted(value)), arguments + [value])
  {
    var quoting := QuoteAll(value);
    var current := QuotingIsRead(arguments, value);
    var closing := Backslashes(quoting.slashes * 2) + [QUOTE];
    Associate(quoting.output, Backslashes(quoting.slashes * 2), [QUOTE]);
    FeedConcat(Idle(arguments), quoting.output, closing);
    ClosingQuoteIsRead(arguments, current, quoting.slashes);
  }

  ghost predicate PlainlyRead(reader: Reader, arguments: seq<Text>, value: Text) {
    && reader.arguments == arguments && !reader.inside && !reader.justClosed
    && (reader.started <==> value != []) && Flushed(reader) == value
  }

  lemma {:induction false} PlainIsRead(arguments: seq<Text>, value: Text)
    requires !NeedsQuotes(value)
    ensures PlainlyRead(FeedAll(Idle(arguments), value), arguments, value)
  {
    if value == [] {
      NoBackslashes([]);
    } else {
      var init, character := value[..|value| - 1], value[|value| - 1];
      assert character in value;
      InitIsPlain(value);
      PlainIsRead(arguments, init);
      PlainCharacterIsRead(FeedAll(Idle(arguments), init), character);
      assert value == init + [character];
    }
  }

  lemma InitIsPlain(value: Text)
    requires value != [] && !NeedsQuotes(value)
    ensures !NeedsQuotes(value[..|value| - 1])
  {
    assert forall c :: c in value[..|value| - 1] ==> c in value;
  }

  lemma PlainCharacterIsRead(reader: Reader, character: CodeUnit)
    requires character != SPACE && character != TABULATOR && character != QUOTE && !reader.inside
    ensures var after := Feed(reader, character);
            && after.arguments == reader.arguments && !after.inside && !after.justClosed && after.started
            && Flushed(after) == Flushed(reader) + [character]
  {
    OneMoreBackslash(reader.current, reader.slashes);
    NoBackslashes(Flushed(reader) + [character]);
  }

  function NonEmpty(arguments: seq<Text>): seq<Text> {
    if arguments == [] then []
    else NonEmpty(arguments[..|arguments| - 1]) + if arguments[|arguments| - 1] == [] then []
         else [arguments[|arguments| - 1]]
  }

  lemma {:induction false} TailIsRead(arguments: seq<Text>)
    ensures Holds(FeedAll(Idle([]), Tail(arguments)), NonEmpty(arguments))
  {
    if arguments != [] {
      var init, last := arguments[..|arguments| - 1], arguments[|arguments| - 1];
      TailIsRead(init);
      FeedConcat(Idle([]), Tail(init) + [SPACE], Quoted(last));
      FeedSnoc(Idle([]), Tail(init), SPACE);
      assert FeedAll(Idle([]), Tail(init) + [SPACE]) == Idle(NonEmpty(init));
      if NeedsQuotes(last) {
        QuotedIsRead(NonEmpty(init), last);
      } else {
        PlainIsRead(NonEmpty(init), last);
      }
    }
  }

  /** Splitting a quoted command line gives back every argument except the empty ones. */
  lemma SplittingUndoesQuoting(arguments: seq<Text>)
    ensures SplitArguments(Tail(arguments)) == NonEmpty(arguments)
  {
    TailIsRead(arguments);
  }

  lemma {:induction false} NonEmptyKeepsLength(arguments: seq<Text>)
    ensures |NonEmpty(arguments)| <= |arguments|
    ensures |NonEmpty(arguments)| == |arguments| <==> [] !in arguments
    ensures [] !in arguments ==> NonEmpty(arguments) == arguments
  {
    if arguments != [] {
      assert arguments == arguments[..|arguments| - 1] + [arguments[|arguments| - 1]];
      NonEmptyKeepsLength(arguments[..|arguments| - 1]);
    }
  }

  /** The arguments come back unchanged exactly when none of them is empty. */
  lemma QuotingRoundTripsExactlyWithoutEmptyArguments(arguments: seq<Text>)
    ensures SplitArguments(Tail(arguments)) == arguments <==> [] !in arguments
  {
    SplittingUndoesQuoting(arguments);
    NonEmptyKeepsLength(arguments);
  }
}
