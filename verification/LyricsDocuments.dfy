/** Making a lyrics document from a text: its non-blank lines and their words, found by offset. */
module LyricsDocuments {
  import opened Sequences
  import opened Schema
  import opened ProjectRules
  import opened LyricsText

  // ----- names

  const DIGITS: string := "0123456789"

  function Decimal(n: nat): (r: string)
    ensures r != []
  {
    if n < 10 then [DIGITS[n]] else Decimal(n / 10) + [DIGITS[n % 10]]
  }

  lemma {:induction false} DecimalIsUnique(a: nat, b: nat)
    requires Decimal(a) == Decimal(b)
    ensures a == b
  {
    var x, y := Decimal(a), Decimal(b);
    assert x[|x| - 1] == DIGITS[a % 10] && y[|y| - 1] == DIGITS[b % 10];
    assert DIGITS[a % 10] == DIGITS[b % 10];
    if a >= 10 && b >= 10 {
      assert x[..|x| - 1] == Decimal(a / 10) && y[..|y| - 1] == Decimal(b / 10);
      DecimalIsUnique(a / 10, b / 10);
    }
  }

  function LineName(id: Id, n: nat): Id { id + "_line_" + Decimal(n) }
  function TokenName(id: Id, n: nat): Id { id + "_token_" + Decimal(n) }

  lemma LineNamesDiffer(id: Id, a: nat, b: nat)
    requires a != b
    ensures LineName(id, a) != LineName(id, b)
  {
    if LineName(id, a) == LineName(id, b) {
      assert LineName(id, a)[|id + "_line_"|..] == Decimal(a);
      assert LineName(id, b)[|id + "_line_"|..] == Decimal(b);
      DecimalIsUnique(a, b);
      assert false;
    }
  }

  lemma TokenNamesDiffer(id: Id, a: nat, b: nat)
    requires a != b
    ensures TokenName(id, a) != TokenName(id, b)
  {
    if TokenName(id, a) == TokenName(id, b) {
      assert TokenName(id, a)[|id + "_token_"|..] == Decimal(a);
      assert TokenName(id, b)[|id + "_token_"|..] == Decimal(b);
      DecimalIsUnique(a, b);
      assert false;
    }
  }

  // ----- lines by offset

  /** A line of a text and where it starts. */
  datatype Piece = Piece(offset: nat, text: Text)

  function Pieces(text: Text, at: nat): (pieces: seq<Piece>)
    requires at <= |text|
    ensures pieces != []
    decreases |text| - at
  {
    var end := LineEnd(text, at);
    [Piece(at, text[at..end])] + if end == |text| then [] else Pieces(text, NextLine(text, end))
  }

  function PieceTexts(pieces: seq<Piece>): (r: seq<Text>)
    ensures |r| == |pieces| && forall i :: 0 <= i < |r| ==> r[i] == pieces[i].text
  {
    seq(|pieces|, i requires 0 <= i < |pieces| => pieces[i].text)
  }

  lemma TextsOfCons(piece: Piece, rest: seq<Piece>)
    ensures PieceTexts([piece] + rest) == [piece.text] + PieceTexts(rest)
  {
  }

  lemma {:induction false} PiecesAreLines(text: Text, at: nat)
    requires at <= |text|
    ensures PieceTexts(Pieces(text, at)) == SplitFrom(text, at)
    decreases |text| - at
  {
    var end := LineEnd(text, at);
    if end < |text| {
      PiecesAreLines(text, NextLine(text, end));
      TextsOfCons(Piece(at, text[at..end]), Pieces(text, NextLine(text, end)));
    }
  }

  ghost predicate PieceSlices(piece: Piece, whole: Text) {
    piece.offset + |piece.text| <= |whole| && whole[piece.offset..piece.offset + |piece.text|] == piece.text
  }

  /** Every line is found back at its offset, whichever breaks separate the lines. */
  lemma {:induction false} PiecesSlice(text: Text, at: nat, k: nat)
    requires at <= |text| && k < |Pieces(text, at)|
    ensures Pieces(text, at)[k].offset >= at && PieceSlices(Pieces(text, at)[k], text)
    decreases |text| - at
  {
    if k > 0 {
      PiecesSlice(text, NextLine(text, LineEnd(text, at)), k - 1);
    }
  }

  lemma {:induction false} PiecesFollow(text: Text, at: nat, i: nat, j: nat)
    requires at <= |text| && i < j < |Pieces(text, at)|
    ensures Pieces(text, at)[i].offset + |Pieces(text, at)[i].text| < Pieces(text, at)[j].offset
    decreases |text| - at
  {
    var next := NextLine(text, LineEnd(text, at));
    if i == 0 {
      PiecesSlice(text, next, j - 1);
    } else {
      PiecesFollow(text, next, i - 1, j - 1);
    }
  }

  // ----- lines and tokens of the document

  function DocumentLines(pieces: seq<Piece>, id: Id): seq<LyricsLine> {
    if pieces == [] then []
    else
      var before, piece := DocumentLines(pieces[..|pieces| - 1], id), pieces[|pieces| - 1];
      before + if Blank(piece.text) then []
        else [LyricsLine(LineName(id, |before|), piece.offset, piece.offset + |piece.text|)]
  }

  /** A word of a line: where it starts in the line, and its length. */
  datatype Match = Match(index: nat, length: nat)

  ghost predicate ProperMatches(matches: seq<Match>, length: nat) {
    && (forall i :: 0 <= i < |matches| ==> matches[i].length > 0 && matches[i].index + matches[i].length <= length)
    && (forall i, j :: 0 <= i < j < |matches| ==> matches[i].index + matches[i].length <= matches[j].index)
  }

  type Tokenizer = Text -> seq<Match>

  ghost predicate ProperTokenizer(tokenizer: Tokenizer) {
    forall line :: ProperMatches(tokenizer(line), |line|)
  }

  function TokenOf(match_: Match, line: LyricsLine, text: Text, id: Id, n: nat): LyricsToken {
    var start := line.startOffset + match_.index;
    LyricsToken(TokenName(id, n), line.id, Slice(text, start, start + match_.length), start, start + match_.length)
  }

  function TokensOfLine(matches: seq<Match>, line: LyricsLine, text: Text, id: Id, count: nat): (r: seq<LyricsToken>)
    ensures |r| == |matches| && forall i :: 0 <= i < |r| ==> r[i] == TokenOf(matches[i], line, text, id, count + i)
  {
    seq(|matches|, i requires 0 <= i < |matches| => TokenOf(matches[i], line, text, id, count + i))
  }

  function DocumentTokens(lines: seq<LyricsLine>, text: Text, id: Id, tokenizer: Tokenizer): seq<LyricsToken> {
    if lines == [] then []
    else
      var before, line := DocumentTokens(lines[..|lines| - 1], text, id, tokenizer), lines[|lines| - 1];
      before + TokensOfLine(tokenizer(Slice(text, line.startOffset, line.endOffset)), line, text, id, |before|)
  }

  lemma {:induction false} LineComesFromAPiece(pieces: seq<Piece>, id: Id, k: nat) returns (p: nat)
    requires k < |DocumentLines(pieces, id)|
    ensures p < |pieces| && !Blank(pieces[p].text)
    ensures DocumentLines(pieces, id)[k]
            == LyricsLine(LineName(id, k), pieces[p].offset, pieces[p].offset + |pieces[p].text|)
    ensures k <= p && k == |DocumentLines(pieces[..p], id)|
  {
    var init := pieces[..|pieces| - 1];
    if k < |DocumentLines(init, id)| {
      p := LineComesFromAPiece(init, id, k);
      assert init[..p] == pieces[..p];
    } else {
      p := |pieces| - 1;
      LineCount(init, id);
    }
  }

  lemma {:induction false} LineCount(pieces: seq<Piece>, id: Id)
    ensures |DocumentLines(pieces, id)| <= |pieces|
  {
    if pieces != [] {
      LineCount(pieces[..|pieces| - 1], id);
    }
  }

  lemma {:induction false} MoreLinesFromMorePieces(pieces: seq<Piece>, id: Id, p: nat, q: nat)
    requires p <= q <= |pieces|
    ensures |DocumentLines(pieces[..p], id)| <= |DocumentLines(pieces[..q], id)|
    decreases q - p
  {
    if p < q {
      assert pieces[..q][..q - 1] == pieces[..q - 1];
      MoreLinesFromMorePieces(pieces, id, p, q - 1);
    }
  }

  lemma LinesInOrder(text: Text, id: Id)
    ensures var lines := DocumentLines(Pieces(text, 0), id);
            OffsetsInOrder(Map(LineOffsets, lines), |text|) && Distinct(LineIds(lines))
  {
    var pieces := Pieces(text, 0);
    var lines := DocumentLines(pieces, id);
    forall k | 0 <= k < |lines|
      ensures lines[k].startOffset < lines[k].endOffset <= |text|
    {
      var p := LineComesFromAPiece(pieces, id, k);
      PiecesSlice(text, 0, p);
    }
    forall k, m | 0 <= k < m < |lines|
      ensures lines[k].endOffset <= lines[m].startOffset && lines[k].id != lines[m].id
    {
      LaterLineIsFurther(text, id, k, m);
    }
  }

  lemma LaterLineIsFurther(text: Text, id: Id, k: nat, m: nat)
    requires k < m < |DocumentLines(Pieces(text, 0), id)|
    ensures var lines := DocumentLines(Pieces(text, 0), id);
            lines[k].endOffset <= lines[m].startOffset && lines[k].id != lines[m].id
  {
    var pieces := Pieces(text, 0);
    var p := LineComesFromAPiece(pieces, id, k);
    var q := LineComesFromAPiece(pieces, id, m);
    if q <= p {
      MoreLinesFromMorePieces(pieces, id, q, p);
      assert false;
    }
    PiecesFollow(text, 0, p, q);
    LineNamesDiffer(id, k, m);
  }

  /** The document has exactly the non-blank lines of the text. */
  function NonBlank(lines: seq<Text>): seq<Text> {
    if lines == [] then []
    else NonBlank(lines[..|lines| - 1]) + if Blank(lines[|lines| - 1]) then [] else [lines[|lines| - 1]]
  }

  function LineTexts(lines: seq<LyricsLine>, text: Text): (r: seq<Text>)
    ensures |r| == |lines| && forall i :: 0 <= i < |r| ==> r[i] == Slice(text, lines[i].startOffset, lines[i].endOffset)
  {
    seq(|lines|, i requires 0 <= i < |lines| => Slice(text, lines[i].startOffset, lines[i].endOffset))
  }

  lemma {:induction false} LinesReadBack(pieces: seq<Piece>, id: Id, text: Text)
    requires forall piece :: piece in pieces ==> PieceSlices(piece, text)
    ensures LineTexts(DocumentLines(pieces, id), text) == NonBlank(PieceTexts(pieces))
  {
    if pieces != [] {
      var init, last := pieces[..|pieces| - 1], pieces[|pieces| - 1];
      LinesReadBack(init, id, text);
      assert last in pieces;
      assert PieceTexts(pieces)[..|pieces| - 1] == PieceTexts(init);
    }
  }

  lemma DocumentLinesReadBack(text: Text, id: Id)
    ensures LineTexts(DocumentLines(Pieces(text, 0), id), text) == NonBlank(SplitLines(text))
  {
    forall piece | piece in Pieces(text, 0)
      ensures PieceSlices(piece, text)
    {
      var k :| 0 <= k < |Pieces(text, 0)| && Pieces(text, 0)[k] == piece;
      PiecesSlice(text, 0, k);
    }
    LinesReadBack(Pieces(text, 0), id, text);
    PiecesAreLines(text, 0);
  }

  // ----- tokens

  ghost predicate TokenFits(token: LyricsToken, line: LyricsLine, text: Text) {
    && token.lineId == line.id && ReadsBack(token, text)
    && line.startOffset <= token.startOffset < token.endOffset <= line.endOffset
  }

  lemma LineTokensFit(matches: seq<Match>, line: LyricsLine, text: Text, id: Id, count: nat)
    requires line.startOffset <= line.endOffset <= |text|
    requires ProperMatches(matches, line.endOffset - line.startOffset)
    ensures var tokens := TokensOfLine(matches, line, text, id, count);
            TokensFollow(tokens) && forall token :: token in tokens ==> TokenFits(token, line, text)
  {
  }

  ghost predicate FitsSome(token: LyricsToken, lines: seq<LyricsLine>, text: Text) {
    exists line :: line in lines && TokenFits(token, line, text)
  }

  ghost predicate TokensFollow(tokens: seq<LyricsToken>) {
    forall i, j :: 0 <= i < j < |tokens| ==> tokens[i].endOffset <= tokens[j].startOffset
  }

  /** Every token lies in its line, reads back, and lies behind the token before it. */
  lemma {:induction false} TokensInOrder(lines: seq<LyricsLine>, text: Text, id: Id, tokenizer: Tokenizer)
    requires OffsetsInOrder(Map(LineOffsets, lines), |text|) && ProperTokenizer(tokenizer)
    ensures var tokens := DocumentTokens(lines, text, id, tokenizer);
            TokensFollow(tokens) && forall token :: token in tokens ==> FitsSome(token, lines, text)
  {
    if lines != [] {
      var init, line := lines[..|lines| - 1], lines[|lines| - 1];
      var offsets := Map(LineOffsets, lines);
      assert Map(LineOffsets, init) == offsets[..|lines| - 1];
      assert offsets[|lines| - 1] == LineOffsets(line);
      TokensInOrder(init, text, id, tokenizer);
      var before := DocumentTokens(init, text, id, tokenizer);
      var own := TokensOfLine(tokenizer(Slice(text, line.startOffset, line.endOffset)), line, text, id, |before|);
      LineTokensFit(tokenizer(Slice(text, line.startOffset, line.endOffset)), line, text, id, |before|);
      MoreTokens(lines, text, before, own);
    }
  }

  lemma MoreTokens(lines: seq<LyricsLine>, text: Text, before: seq<LyricsToken>, own: seq<LyricsToken>)
    requires lines != [] && OffsetsInOrder(Map(LineOffsets, lines), |text|)
    requires TokensFollow(before) && forall token :: token in before ==> FitsSome(token, lines[..|lines| - 1], text)
    requires TokensFollow(own) && forall token :: token in own ==> TokenFits(token, lines[|lines| - 1], text)
    ensures TokensFollow(before + own) && forall token :: token in before + own ==> FitsSome(token, lines, text)
  {
    var line := lines[|lines| - 1];
    forall token | token in before
      ensures token.endOffset <= line.startOffset && FitsSome(token, lines, text)
    {
      EarlierTokenIsBefore(lines, text, token);
    }
    TokensConcat(before, own, line.startOffset);
    assert line in lines;
  }

  lemma EarlierTokenIsBefore(lines: seq<LyricsLine>, text: Text, token: LyricsToken)
    requires lines != [] && OffsetsInOrder(Map(LineOffsets, lines), |text|)
    requires FitsSome(token, lines[..|lines| - 1], text)
    ensures token.endOffset <= lines[|lines| - 1].startOffset && FitsSome(token, lines, text)
  {
    var own :| own in lines[..|lines| - 1] && TokenFits(token, own, text);
    var k :| 0 <= k < |lines| - 1 && lines[k] == own;
    var offsets := Map(LineOffsets, lines);
    assert offsets[k].endOffset <= offsets[|lines| - 1].startOffset;
    assert own in lines;
  }

  lemma TokensConcat(a: seq<LyricsToken>, b: seq<LyricsToken>, middle: nat)
    requires TokensFollow(a) && TokensFollow(b)
    requires forall token :: token in a ==> token.endOffset <= middle
    requires forall token :: token in b ==> middle <= token.startOffset
    ensures TokensFollow(a + b)
  {
  }

  lemma {:induction false} TokensAreNamed(lines: seq<LyricsLine>, text: Text, id: Id, tokenizer: Tokenizer, k: nat)
    requires k < |DocumentTokens(lines, text, id, tokenizer)|
    ensures DocumentTokens(lines, text, id, tokenizer)[k].id == TokenName(id, k)
  {
    var init := lines[..|lines| - 1];
    if k < |DocumentTokens(init, text, id, tokenizer)| {
      TokensAreNamed(init, text, id, tokenizer, k);
    }
  }

  function BuiltDocument(text: Text, id: Id, tokenizer: Tokenizer): LyricsDocument {
    var lines := DocumentLines(Pieces(text, 0), id);
    LyricsDocument(id, text, lines, DocumentTokens(lines, text, id, tokenizer))
  }

  /** A document built from any text is valid, whatever breaks its lines are separated by. */
  lemma BuiltDocumentIsValid(text: Text, id: Id, tokenizer: Tokenizer)
    requires ProperTokenizer(tokenizer)
    ensures ValidDocument(BuiltDocument(text, id, tokenizer))
  {
    var document := BuiltDocument(text, id, tokenizer);
    LinesInOrder(text, id);
    TokensInOrder(document.lines, text, id, tokenizer);
    BuiltTokenIds(text, id, tokenizer);
    TokensAreValid(document);
  }

  lemma TokensAreValid(document: LyricsDocument)
    requires OffsetsInOrder(Map(LineOffsets, document.lines), |document.text|)
    requires TokensFollow(document.tokens)
             && forall token :: token in document.tokens ==> FitsSome(token, document.lines, document.text)
    ensures OffsetsInOrder(Map(TokenOffsets, document.tokens), |document.text|)
    ensures forall token :: token in document.tokens ==>
              token.lineId in LineIds(document.lines) && ReadsBack(token, document.text)
  {
    forall token | token in document.tokens
      ensures token.startOffset < token.endOffset <= |document.text| && token.lineId in LineIds(document.lines)
              && ReadsBack(token, document.text)
    {
      TokenIsAtHome(document, token);
    }
    assert forall i :: 0 <= i < |document.tokens| ==> document.tokens[i] in document.tokens;
  }

  lemma TokenIsAtHome(document: LyricsDocument, token: LyricsToken)
    requires OffsetsInOrder(Map(LineOffsets, document.lines), |document.text|)
    requires FitsSome(token, document.lines, document.text)
    ensures token.startOffset < token.endOffset <= |document.text|
    ensures token.lineId in LineIds(document.lines) && ReadsBack(token, document.text)
  {
    var line :| line in document.lines && TokenFits(token, line, document.text);
    var k :| 0 <= k < |document.lines| && document.lines[k] == line;
    assert LineIds(document.lines)[k] == line.id;
    assert Map(LineOffsets, document.lines)[k] == LineOffsets(line);
  }

  lemma BuiltTokenIds(text: Text, id: Id, tokenizer: Tokenizer)
    ensures Distinct(TokenIds(BuiltDocument(text, id, tokenizer).tokens))
  {
    var document := BuiltDocument(text, id, tokenizer);
    forall i, j | 0 <= i < j < |document.tokens|
      ensures TokenIds(document.tokens)[i] != TokenIds(document.tokens)[j]
    {
      TokensAreNamed(document.lines, text, id, tokenizer, i);
      TokensAreNamed(document.lines, text, id, tokenizer, j);
      TokenNamesDiffer(id, i, j);
    }
  }

  // ----- the loop

  /** A piece ends where its line does, and the next one starts behind the break. */
  lemma {:induction false} PieceEnds(text: Text, at: nat, k: nat)
    requires at <= |text| && k < |Pieces(text, at)|
    ensures var pieces := Pieces(text, at);
            var piece := pieces[k];
            && piece.offset <= |text| && piece.text == text[piece.offset..LineEnd(text, piece.offset)]
            && (k + 1 < |pieces| ==>
                  LineEnd(text, piece.offset) < |text|
                    && pieces[k + 1].offset == NextLine(text, LineEnd(text, piece.offset)))
    decreases |text| - at
  {
    var end := LineEnd(text, at);
    if end < |text| {
      var rest := Pieces(text, NextLine(text, end));
      assert Pieces(text, at) == [Piece(at, text[at..end])] + rest;
      FirstPiece(text, NextLine(text, end));
      if k > 0 {
        PieceEnds(text, NextLine(text, end), k - 1);
      }
    }
  }

  lemma FirstPiece(text: Text, at: nat)
    requires at <= |text|
    ensures Pieces(text, at)[0] == Piece(at, text[at..LineEnd(text, at)])
  {
  }

  /** Every piece is found at its offset, and the next one starts behind the break. */
  ghost predicate Chained(pieces: seq<Piece>, text: Text) {
    forall k :: 0 <= k < |pieces| ==>
      && PieceSlices(pieces[k], text)
      && (k + 1 < |pieces| ==>
            var end := pieces[k].offset + |pieces[k].text|; end < |text| && pieces[k + 1].offset == NextLine(text, end))
  }

  lemma PieceIsChained(text: Text, k: nat)
    requires k < |Pieces(text, 0)|
    ensures var piece := Pieces(text, 0)[k];
            && PieceSlices(piece, text)
            && (k + 1 < |Pieces(text, 0)| ==>
                  piece.offset + |piece.text| < |text|
                    && Pieces(text, 0)[k + 1].offset == NextLine(text, piece.offset + |piece.text|))
  {
    PiecesSlice(text, 0, k);
    PieceEnds(text, 0, k);
  }

  lemma PiecesAreChained(text: Text)
    ensures Chained(Pieces(text, 0), text)
  {
    forall k | 0 <= k < |Pieces(text, 0)|
      ensures PieceSlices(Pieces(text, 0)[k], text)
    {
      PieceIsChained(text, k);
    }
    forall k | 0 <= k && k + 1 < |Pieces(text, 0)|
      ensures var end := Pieces(text, 0)[k].offset + |Pieces(text, 0)[k].text|;
              end < |text| && Pieces(text, 0)[k + 1].offset == NextLine(text, end)
    {
      PieceIsChained(text, k);
    }
  }

  /** The state of the loop over lines: what is built, and the offset of the next line. */
  ghost predicate BuiltUpTo(lines: seq<LyricsLine>, tokens: seq<LyricsToken>, offset: nat, pieces: seq<Piece>, n: nat,
                            text: Text, id: Id, tokenizer: Tokenizer) {
    && n <= |pieces|
    && lines == DocumentLines(pieces[..n], id)
    && tokens == DocumentTokens(lines, text, id, tokenizer)
    && (n < |pieces| ==> offset == pieces[n].offset)
  }

  method BuildDocument(text: Text, id: Id, tokenizer: Tokenizer) returns (document: LyricsDocument)
    ensures document == BuiltDocument(text, id, tokenizer)
  {
    var texts := SplitLines(text);
    ghost var pieces := Pieces(text, 0);
    PiecesAreLines(text, 0);
    PiecesAreChained(text);
    FirstPiece(text, 0);
    var lines, tokens, offset := [], [], 0;
    for n := 0 to |texts|
      invariant BuiltUpTo(lines, tokens, offset, pieces, n, text, id, tokenizer)
    {
      lines, tokens, offset := AddNext(lines, tokens, offset, pieces, n, texts[n], text, id, tokenizer);
    }
    assert pieces[..|texts|] == pieces;
    document := LyricsDocument(id, text, lines, tokens);
  }

  method AddNext(lines: seq<LyricsLine>, tokens: seq<LyricsToken>, offset: nat, ghost pieces: seq<Piece>, ghost n: nat,
                 line: Text, text: Text, id: Id, tokenizer: Tokenizer)
    returns (nowLines: seq<LyricsLine>, nowTokens: seq<LyricsToken>, next: nat)
    requires BuiltUpTo(lines, tokens, offset, pieces, n, text, id, tokenizer) && Chained(pieces, text)
    requires n < |pieces| && pieces[n].text == line
    ensures BuiltUpTo(nowLines, nowTokens, next, pieces, n + 1, text, id, tokenizer)
  {
    nowLines, nowTokens := AddLine(pieces[..n], lines, tokens, text, id, tokenizer, Piece(offset, line));
    assert pieces[..n + 1] == pieces[..n] + [Piece(offset, line)];
    next := offset + |line|;
    next := next + if next + 1 < |text| && text[next] == CR && text[next + 1] == LF then 2 else 1;
  }

  method AddLine(ghost before: seq<Piece>, lines: seq<LyricsLine>, tokens: seq<LyricsToken>,
                 text: Text, id: Id, tokenizer: Tokenizer, piece: Piece)
    returns (nowLines: seq<LyricsLine>, nowTokens: seq<LyricsToken>)
    requires lines == DocumentLines(before, id) && tokens == DocumentTokens(lines, text, id, tokenizer)
    requires PieceSlices(piece, text)
    ensures nowLines == DocumentLines(before + [piece], id)
            && nowTokens == DocumentTokens(nowLines, text, id, tokenizer)
  {
    assert (before + [piece])[..|before|] == before;
    nowLines, nowTokens := lines, tokens;
    if !Blank(piece.text) {
      var record := LyricsLine(LineName(id, |lines|), piece.offset, piece.offset + |piece.text|);
      var own := TokenizeLine(record, piece.text, text, id, tokenizer, |tokens|);
      assert (lines + [record])[..|lines|] == lines;
      nowLines, nowTokens := lines + [record], tokens + own;
    }
  }

  method TokenizeLine(record: LyricsLine, line: Text, text: Text, id: Id, tokenizer: Tokenizer, count: nat)
    returns (tokens: seq<LyricsToken>)
    requires record.startOffset + |line| == record.endOffset <= |text|
             && text[record.startOffset..record.endOffset] == line
    ensures tokens == TokensOfLine(tokenizer(Slice(text, record.startOffset, record.endOffset)), record, text, id,
                                   count)
  {
    var matches := tokenizer(line);
    assert Slice(text, record.startOffset, record.endOffset) == line;
    tokens := [];
    for m := 0 to |matches|
      invariant tokens == TokensOfLine(matches, record, text, id, count)[..m]
    {
      tokens := tokens + [TokenOf(matches[m], record, text, id, count + m)];
    }
  }
}
