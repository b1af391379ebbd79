/** What counts as white space, markup, a header or a block in lyrics files, written out. */
module LyricsSyntax {
  import opened Schema
  import opened LyricsText
  import opened Lrc
  import opened LrcImport
  import opened LrcTimes
  import opened ProjectRules
  import opened LyricsDocuments
  import opened SubtitleFile

  /** Plain letters as code units. */
  function Ascii(letters: string): (r: Text)
    requires forall i :: 0 <= i < |letters| ==> letters[i] < 128 as char
    ensures |r| == |letters| && forall i :: 0 <= i < |r| ==> r[i] as int == letters[i] as int
  {
    seq(|letters|, i requires 0 <= i < |letters| => (letters[i] as int) as CodeUnit)
  }

  // ----- characters

  /** White space and line terminators, as section 12 of ECMA-262 lists them. */
  lemma WhiteSpaceIs(u: CodeUnit)
    ensures IsSpace(u) <==>
            u in {0x09, 0x0A, 0x0B, 0x0C, 0x0D, 0x20, 0xA0, 0x1680, 0x2000, 0x2001, 0x2002, 0x2003, 0x2004, 0x2005,
                  0x2006, 0x2007, 0x2008, 0x2009, 0x200A, 0x2028, 0x2029, 0x202F, 0x205F, 0x3000, 0xFEFF}
  {
  }

  /** Characters that end a line for a pattern, and those that split a text. */
  lemma LineTerminatorsAre(u: CodeUnit)
    ensures IsBreak(u) || IsSeparator(u) <==> u in {0x0A, 0x0D, 0x2028, 0x2029}
    ensures IsBreak(u) <==> u in {0x0A, 0x0D}
  {
  }

  /** Control characters other than the tab. */
  lemma ControlsAre(u: CodeUnit)
    ensures IsControl(u) <==> (u as int != 9 && (u as int) / 32 == 0) || u as int == 127
  {
  }

  // ----- tags and headers of LRC files

  /** A bracket, one to three digits, a colon, two digits, and anything. */
  ghost predicate TimeStandsAt(text: Text, at: nat, minutes: Text, seconds: Text) {
    && AllDigits(minutes) && 0 < |minutes| <= 3 && AllDigits(seconds) && |seconds| == 2
    && at + |minutes| + 4 <= |text| && text[at] in {0x5B, 0x3C}
    && text[at + 1..at + 1 + |minutes|] == minutes && text[at + 1 + |minutes|] == 0x3A
    && text[at + 2 + |minutes|..at + 4 + |minutes|] == seconds
  }

  /** A line has an inner time exactly when a bracket is followed by minutes, a colon and two digits somewhere. */
  lemma InnerTimes(text: Text)
    ensures HasTag(text) <==> exists at: nat, minutes, seconds :: TimeStandsAt(text, at, minutes, seconds)
  {
    if HasTag(text) {
      var at :| 0 <= at < |text| && TagAt(text, at);
      TagIsATime(text, at);
    }
    if at: nat, minutes, seconds :| TimeStandsAt(text, at, minutes, seconds) {
      TimeIsATag(text, at, minutes, seconds);
    }
  }

  lemma TagIsATime(text: Text, at: nat)
    requires at < |text| && TagAt(text, at)
    ensures var n := DigitRun(text, at + 1, 3);
            && at + 4 + n <= |text|
            && TimeStandsAt(text, at, text[at + 1..at + 1 + n], text[at + 2 + n..at + 4 + n])
  {
    var n := DigitRun(text, at + 1, 3);
    DigitsOf(text, at + 1, n);
    DigitsOf(text, at + 2 + n, 2);
  }

  lemma TimeIsATag(text: Text, at: nat, minutes: Text, seconds: Text)
    requires TimeStandsAt(text, at, minutes, seconds)
    ensures at < |text| && TagAt(text, at)
  {
    NumberIsRead(text, at + 1, minutes);
    RunIsCounted(text, at + 1, |minutes|, 3);
    NumberIsRead(text, at + 2 + |minutes|, seconds);
    assert DigitRun(text, at + 3 + |minutes|, 1) == 1 + DigitRun(text, at + 4 + |minutes|, 0);
  }

  ghost predicate HeaderName(name: Text) {
    || name == Ascii("ar") || name == Ascii("al") || name == Ascii("ti") || name == Ascii("au") || name == Ascii("by")
    || name == Ascii("re") || name == Ascii("ve") || name == Ascii("length")
  }

  ghost predicate IsHeaderOf(line: Text, name: Text, body: Text) {
    HeaderName(name) && 0x5D !in body && line == [0x5B] + name + [0x3A] + body + [0x5D]
  }

  lemma TagsAreNames(k: nat)
    requires k < |TAGS|
    ensures HeaderName(TAGS[k])
  {
    assert TAGS[0] == Ascii("ar") && TAGS[1] == Ascii("al") && TAGS[2] == Ascii("ti") && TAGS[3] == Ascii("au");
    assert TAGS[4] == Ascii("by") && TAGS[5] == Ascii("re") && TAGS[6] == Ascii("ve") && TAGS[7] == Ascii("length");
  }

  lemma NamesAreTags(name: Text) returns (k: nat)
    requires HeaderName(name)
    ensures k < |TAGS| && TAGS[k] == name
  {
    TagsAreNames(0);
    k := if name == Ascii("ar") then 0 else if name == Ascii("al") then 1 else if name == Ascii("ti") then 2
         else if name == Ascii("au") then 3 else if name == Ascii("by") then 4 else if name == Ascii("re") then 5
         else if name == Ascii("ve") then 6 else 7;
    assert TAGS[0] == Ascii("ar") && TAGS[1] == Ascii("al") && TAGS[2] == Ascii("ti") && TAGS[3] == Ascii("au");
    assert TAGS[4] == Ascii("by") && TAGS[5] == Ascii("re") && TAGS[6] == Ascii("ve") && TAGS[7] == Ascii("length");
  }

  /** A header is a bracketed name and value, with one of eight names. */
  lemma Headers(line: Text)
    ensures IsHeader(line) <==> exists name, body :: IsHeaderOf(line, name, body)
  {
    if IsHeader(line) {
      var k :| 0 <= k < |TAGS| && OpensWith(line, TAGS[k]);
      OpenedIsAHeader(line, k);
    }
    if name, body :| IsHeaderOf(line, name, body) {
      HeaderOpens(line, name, body);
    }
  }

  lemma OpenedIsAHeader(line: Text, k: nat)
    requires k < |TAGS| && OpensWith(line, TAGS[k])
    ensures exists name, body :: IsHeaderOf(line, name, body)
  {
    TagsAreNames(k);
    var open := [OPEN] + TAGS[k] + [COLON];
    var body := line[|open|..|line| - 1];
    assert line == open + body + [CLOSE];
    assert forall i :: 0 <= i < |body| ==> body[i] == line[|open| + i] != CLOSE;
    assert IsHeaderOf(line, TAGS[k], body);
  }

  lemma HeaderOpens(line: Text, name: Text, body: Text)
    requires IsHeaderOf(line, name, body)
    ensures IsHeader(line)
  {
    var k := NamesAreTags(name);
    var open := [OPEN] + TAGS[k] + [COLON];
    assert line == open + (body + [CLOSE]);
    assert line[..|open|] == open;
    assert forall i :: |open| <= i < |line| - 1 ==> line[i] == body[i - |open|];
    assert OpensWith(line, TAGS[k]);
  }

  // ----- blocks of subtitle files

  ghost predicate Holds(line: Text, before: Text, inner: Text, after: Text) { line == before + inner + after }

  /** A time line has an arrow between spaces. */
  lemma Arrows(line: Text)
    ensures HasArrow(line) <==> exists before, after :: Holds(line, before, Ascii(" --> "), after)
  {
    assert ARROW == Ascii(" --> ");
    if HasArrow(line) {
      var at :| 0 <= at <= |line| && ArrowAt(line, at);
      assert Holds(line, line[..at], Ascii(" --> "), line[at + 5..]);
    }
    if before, after :| Holds(line, before, Ascii(" --> "), after) {
      assert ArrowAt(line, |before|);
    }
  }

  ghost predicate Begins(block: Text, word: Text) {
    word <= block && (|block| > |word| ==> IsSpace(block[|word|]))
  }

  /** Left out are blank blocks, and those that begin with the word for a file or a note. */
  lemma WhatIsLeftOut(block: Text, sampleRate: nat)
    ensures ReadBlock(block, sampleRate).Ignored?
            <==> Blank(block) || Begins(block, Ascii("WEBVTT")) || Begins(block, Ascii("NOTE"))
  {
    assert WEBVTT == Ascii("WEBVTT") && NOTE == Ascii("NOTE");
  }

  ghost predicate NoEmptyLine(block: Text) {
    forall i, j :: 0 <= i < j < |block| && j == i + 1 ==> block[i] != 0x0A || block[j] != 0x0A
  }

  ghost predicate AllFeeds(gap: Text) { forall i :: 0 <= i < |gap| ==> gap[i] == 0x0A }

  /** A text is its blocks with gaps of two or more line feeds between them. */
  ghost predicate Separated(text: Text, blocks: seq<Text>, gaps: seq<Text>) {
    && |blocks| == |gaps| + 1
    && (forall i :: 0 <= i < |blocks| ==> NoEmptyLine(blocks[i]))
    && (forall i :: 0 <= i < |gaps| ==> |gaps[i]| >= 2 && AllFeeds(gaps[i]))
    && (forall i :: 0 < i < |blocks| ==> blocks[i] == [] || blocks[i][0] != 0x0A)
    && text == Interleaved(blocks, gaps)
  }

  ghost function Interleaved(blocks: seq<Text>, gaps: seq<Text>): Text
    requires |blocks| == |gaps| + 1
  {
    if gaps == [] then blocks[0] else blocks[0] + gaps[0] + Interleaved(blocks[1..], gaps[1..])
  }

  /** Blocks are what stands between empty lines, however many: no block has one inside, nor begins with a break. */
  lemma {:induction false} BlocksAreSeparated(text: Text, at: nat) returns (gaps: seq<Text>)
    requires at <= |text|
    ensures Separated(text[at..], SplitBlocks(text, at), gaps)
    ensures at < |text| && text[at] != LF ==> SplitBlocks(text, at)[0] != [] && SplitBlocks(text, at)[0][0] == text[at]
    decreases |text| - at
  {
    var end := BlockEnd(text, at);
    var block := text[at..end];
    BlockHasNoEmptyLine(text, at);
    if end == |text| {
      gaps := [];
      assert [block] + [] == [block];
    } else {
      var next := FeedsEnd(text, end);
      FeedsAreFeeds(text, end);
      assert text[end + 1] == LF;
      var rest := BlocksAreSeparated(text, next);
      gaps := [text[end..next]] + rest;
      FirstBlock(text, at, end, next, SplitBlocks(text, next), rest);
    }
  }

  lemma FirstBlock(text: Text, at: nat, end: nat, next: nat, blocks: seq<Text>, gaps: seq<Text>)
    requires at <= end <= next <= |text| && Separated(text[next..], blocks, gaps) && NoEmptyLine(text[at..end])
    requires next - end >= 2 && AllFeeds(text[end..next]) && (next < |text| ==> text[next] != LF)
    requires next < |text| ==> blocks[0] != [] && blocks[0][0] == text[next]
    ensures Separated(text[at..], [text[at..end]] + blocks, [text[end..next]] + gaps)
  {
    var all, between := [text[at..end]] + blocks, [text[end..next]] + gaps;
    assert all[1..] == blocks && between[1..] == gaps;
    assert text[at..] == text[at..end] + text[end..next] + text[next..];
    if next == |text| {
      NothingSeparated(blocks, gaps);
    }
    forall i | 0 < i < |all|
      ensures all[i] == [] || all[i][0] != 0x0A
    {
      assert all[i] == blocks[i - 1];
    }
  }

  lemma NothingSeparated(blocks: seq<Text>, gaps: seq<Text>)
    requires Separated([], blocks, gaps)
    ensures blocks[0] == []
  {
    if gaps != [] {
      assert |Interleaved(blocks, gaps)| >= |blocks[0]|;
    }
  }

  lemma {:induction false} BlockHasNoEmptyLine(text: Text, at: nat)
    requires at <= |text|
    ensures NoEmptyLine(text[at..BlockEnd(text, at)])
    ensures at < |text| && text[at] != LF ==> BlockEnd(text, at) > at
    decreases |text| - at
  {
    var end := BlockEnd(text, at);
    if at < end {
      BlockHasNoEmptyLine(text, at + 1);
      var block, rest := text[at..end], text[at + 1..end];
      forall i, j | 0 <= i < j < |block| && j == i + 1
        ensures block[i] != 0x0A || block[j] != 0x0A
      {
        if i > 0 {
          assert block[i] == rest[i - 1] && block[j] == rest[j - 1];
        }
      }
    }
  }

  lemma {:induction false} FeedsAreFeeds(text: Text, at: nat)
    requires at <= |text|
    ensures AllFeeds(text[at..FeedsEnd(text, at)])
    ensures FeedsEnd(text, at) < |text| ==> text[FeedsEnd(text, at)] != LF
    ensures at + 1 < |text| && text[at] == LF && text[at + 1] == LF ==> FeedsEnd(text, at) >= at + 2
    decreases |text| - at
  {
    if at < |text| && text[at] == LF {
      FeedsAreFeeds(text, at + 1);
      assert text[at..FeedsEnd(text, at)] == [text[at]] + text[at + 1..FeedsEnd(text, at)];
    }
  }

  /** A byte order mark in front of a file is dropped, and nothing else. */
  lemma ByteOrderMark(text: Text)
    requires text != [] ==> text[0] != 0xFEFF
    ensures Normalized([0xFEFF] + text) == WithLineFeeds([0xFEFF] + text, 1)
    ensures Normalized(text) == WithLineFeeds(text, 0)
  {
    assert ([0xFEFF] + text)[0] == 0xFEFF;
  }

  // ----- documents

  ghost predicate AllDecimal(digits: string) { forall i :: 0 <= i < |digits| ==> '0' <= digits[i] <= '9' }

  ghost function Worth(digits: string): int {
    if digits == [] then 0 else 10 * Worth(digits[..|digits| - 1]) + (digits[|digits| - 1] as int - '0' as int)
  }

  /** Numbers in names are written in digits, without zeros in front. */
  lemma {:induction false} NumbersAreDecimal(n: nat)
    ensures AllDecimal(Decimal(n)) && Worth(Decimal(n)) == n && (Decimal(n)[0] == '0' ==> n == 0)
  {
    assert forall d :: 0 <= d < 10 ==> DIGITS[d] as int == '0' as int + d;
    if n >= 10 {
      NumbersAreDecimal(n / 10);
      var init := Decimal(n / 10);
      assert Decimal(n)[..|init|] == init && Decimal(n)[0] == init[0];
    } else {
      assert Decimal(n)[..0] == [];
    }
  }

  lemma {:induction false} LinesAreNamed(pieces: seq<Piece>, id: Id, k: nat)
    requires k < |DocumentLines(pieces, id)|
    ensures DocumentLines(pieces, id)[k].id == id + "_line_" + Decimal(k)
  {
    var init := pieces[..|pieces| - 1];
    if k < |DocumentLines(init, id)| {
      LinesAreNamed(init, id, k);
    }
  }

  ghost predicate IsWord(token: LyricsToken, word: Match, line: LyricsLine, text: Text, id: Id, k: nat) {
    var start := line.startOffset + word.index;
    && token.id == id + "_token_" + Decimal(k) && token.lineId == line.id
    && token.startOffset == start && token.endOffset == start + word.length
    && token.text == Slice(text, start, start + word.length)
  }

  function WordsIn(line: LyricsLine, text: Text, tokenizer: Tokenizer): seq<Match> {
    tokenizer(Slice(text, line.startOffset, line.endOffset))
  }

  lemma LastTokens(lines: seq<LyricsLine>, text: Text, id: Id, tokenizer: Tokenizer, k: nat) returns (m: nat)
    requires lines != [] && |DocumentTokens(lines[..|lines| - 1], text, id, tokenizer)| <= k
    requires k < |DocumentTokens(lines, text, id, tokenizer)|
    ensures m < |WordsIn(lines[|lines| - 1], text, tokenizer)|
    ensures IsWord(DocumentTokens(lines, text, id, tokenizer)[k], WordsIn(lines[|lines| - 1], text, tokenizer)[m],
                   lines[|lines| - 1], text, id, k)
  {
    var before := DocumentTokens(lines[..|lines| - 1], text, id, tokenizer);
    m := k - |before|;
    assert DocumentTokens(lines, text, id, tokenizer)[k]
        == TokenOf(WordsIn(lines[|lines| - 1], text, tokenizer)[m], lines[|lines| - 1], text, id, k);
  }

  /** The k-th token is a word of a line, at its place in the text, with its number in its name. */
  lemma {:induction false} TokensAreWords(lines: seq<LyricsLine>, text: Text, id: Id, tokenizer: Tokenizer, k: nat)
    returns (l: nat, m: nat)
    requires k < |DocumentTokens(lines, text, id, tokenizer)|
    ensures l < |lines| && m < |WordsIn(lines[l], text, tokenizer)|
    ensures IsWord(DocumentTokens(lines, text, id, tokenizer)[k], WordsIn(lines[l], text, tokenizer)[m], lines[l], text,
                   id, k)
  {
    var init := lines[..|lines| - 1];
    if k < |DocumentTokens(init, text, id, tokenizer)| {
      l, m := TokensAreWords(init, text, id, tokenizer, k);
    } else {
      l := |init|;
      m := LastTokens(lines, text, id, tokenizer, k);
    }
  }

  /** Every word of every line is a token. */
  lemma {:induction false} WordsAreTokens(lines: seq<LyricsLine>, text: Text, id: Id, tokenizer: Tokenizer, l: nat,
                                          m: nat) returns (k: nat)
    requires l < |lines| && m < |WordsIn(lines[l], text, tokenizer)|
    ensures k < |DocumentTokens(lines, text, id, tokenizer)|
    ensures var word := WordsIn(lines[l], text, tokenizer)[m];
            var token := DocumentTokens(lines, text, id, tokenizer)[k];
            token.lineId == lines[l].id && token.startOffset == lines[l].startOffset + word.index
    decreases |lines|
  {
    var init := lines[..|lines| - 1];
    if l < |init| {
      k := WordsAreTokens(init, text, id, tokenizer, l, m);
    } else {
      k := |DocumentTokens(init, text, id, tokenizer)| + m;
    }
  }
}
