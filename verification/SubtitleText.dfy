/** What the words of a subtitle cue are, however they are marked up, and which subtitle files are accepted. */
module SubtitleText {
  import opened Wrappers
  import opened Schema
  import opened LyricsText
  import opened Lrc
  import opened SubtitleFile
  import opened LyricsImport

  // ----- marked-up words

  /** Words, or a tag with what stands between its angle brackets. */
  datatype Piece = Words(text: Text) | Tag(body: Text)

  /** One character, with entities for those that have one. */
  function Encoded(u: CodeUnit, wide: bool): Text {
    if u == 0x26 then [0x26, 0x61, 0x6D, 0x70, 0x3B]
    else if u == 0x3C then [0x26, 0x6C, 0x74, 0x3B]
    else if u == 0x3E then [0x26, 0x67, 0x74, 0x3B]
    else if u == 0x20 && wide then [0x26, 0x6E, 0x62, 0x73, 0x70, 0x3B]
    else [u]
  }

  function EncodedText(text: Text, wide: bool): Text {
    if text == [] then [] else Encoded(text[0], wide) + EncodedText(text[1..], wide)
  }

  predicate ProperTags(pieces: seq<Piece>) {
    forall i :: 0 <= i < |pieces| && pieces[i].Tag? ==> 0x3E !in pieces[i].body
  }

  function WrittenPiece(piece: Piece, wide: bool): Text {
    match piece
    case Words(text) => EncodedText(text, wide)
    case Tag(body) => [0x3C] + body + [0x3E]
  }

  /** The pieces as they are written in a file. */
  function MarkedUp(pieces: seq<Piece>, wide: bool): Text {
    if pieces == [] then [] else WrittenPiece(pieces[0], wide) + MarkedUp(pieces[1..], wide)
  }

  function WordsOf(piece: Piece): Text { if piece.Words? then piece.text else [] }

  function AllWords(pieces: seq<Piece>): Text {
    if pieces == [] then [] else WordsOf(pieces[0]) + AllWords(pieces[1..])
  }

  /** Cutting a text behind what stands at a position. */
  lemma Behind(whole: Text, at: nat, first: Text, rest: Text)
    requires at <= |whole| && whole[at..] == first + rest
    ensures at + |first| <= |whole| && whole[at..at + |first|] == first && whole[at + |first|..] == rest
    ensures first != [] ==> whole[at] == first[0]
  {
    var tail := whole[at..];
    assert tail[..|first|] == first && tail[|first|..] == rest;
    assert whole[at..at + |first|] == tail[..|first|] && whole[at + |first|..] == tail[|first|..];
    if first != [] {
      assert tail[0] == first[0];
    }
  }

  lemma PlainUnitStays(whole: Text, at: nat)
    requires at < |whole| && whole[at] != LESS
    ensures WithoutTags(whole, at) == [whole[at]] + WithoutTags(whole, at + 1)
  {
  }

  lemma {:induction false} PlainUnitsStay(whole: Text, at: nat, n: nat)
    requires at + n <= |whole| && LESS !in whole[at..at + n]
    ensures WithoutTags(whole, at) == whole[at..at + n] + WithoutTags(whole, at + n)
  {
    if n == 0 {
      Nothing(WithoutTags(whole, at));
    } else {
      var init := whole[at..at + n - 1];
      assert whole[at..at + n] == init + [whole[at + n - 1]];
      PlainUnitsStay(whole, at, n - 1);
      PlainUnitStays(whole, at + n - 1);
      Regroup(init, [whole[at + n - 1]], WithoutTags(whole, at + n));
    }
  }

  lemma {:induction false} TagEndsAt(text: Text, at: nat, end: nat)
    requires at <= end < |text| && text[end] == GREATER && forall i :: at <= i < end ==> text[i] != GREATER
    ensures TagEnd(text, at) == end
    decreases end - at
  {
    if at < end {
      TagEndsAt(text, at + 1, end);
    }
  }

  lemma TagIsRemoved(whole: Text, at: nat, next: nat, body: Text)
    requires at <= next <= |whole| && whole[at..next] == [0x3C] + body + [0x3E] && GREATER !in body
    ensures WithoutTags(whole, at) == WithoutTags(whole, next)
  {
    var tag, end := [0x3C] + body + [0x3E], at + 1 + |body|;
    assert next == end + 1;
    assert whole[end] == whole[at..end + 1][1 + |body|] == tag[1 + |body|] == GREATER;
    assert whole[at] == whole[at..end + 1][0] == tag[0] == LESS;
    forall i | at + 1 <= i < end
      ensures whole[i] != GREATER
    {
      assert whole[i] == whole[at..end + 1][i - at] == tag[i - at] == body[i - at - 1];
    }
    TagEndsAt(whole, at + 1, end);
  }

  lemma {:induction false} EncodedHasNoTags(text: Text, wide: bool)
    ensures LESS !in EncodedText(text, wide)
  {
    if text != [] {
      EncodedHasNoTags(text[1..], wide);
    }
  }

  lemma WordsAreKept(whole: Text, at: nat, next: nat, text: Text, more: Text, wide: bool)
    requires at <= next <= |whole| && whole[at..next] == EncodedText(text, wide)
    requires WithoutTags(whole, next) == EncodedText(more, wide)
    ensures WithoutTags(whole, at) == EncodedText(text + more, wide)
  {
    assert next == at + |EncodedText(text, wide)|;
    EncodedHasNoTags(text, wide);
    PlainUnitsStay(whole, at, |EncodedText(text, wide)|);
    EncodedConcat(text, more, wide);
  }

  lemma Nothing(text: Text)
    ensures [] + text == text
  {
  }

  /** A piece stands between two positions. */
  ghost predicate Holds(whole: Text, at: nat, next: nat, piece: Piece, wide: bool) {
    at <= next <= |whole| && whole[at..next] == WrittenPiece(piece, wide)
  }

  lemma PieceIsRead(whole: Text, at: nat, next: nat, piece: Piece, more: Text, wide: bool)
    requires Holds(whole, at, next, piece, wide) && (piece.Tag? ==> GREATER !in piece.body)
    requires WithoutTags(whole, next) == EncodedText(more, wide)
    ensures WithoutTags(whole, at) == EncodedText(WordsOf(piece) + more, wide)
  {
    match piece
    case Words(text) => WordsAreKept(whole, at, next, text, more, wide);
    case Tag(body) =>
      TagIsRemoved(whole, at, next, body);
      Nothing(more);
  }

  lemma FirstPiece(whole: Text, at: nat, pieces: seq<Piece>, wide: bool) returns (next: nat)
    requires at <= |whole| && whole[at..] == MarkedUp(pieces, wide) && pieces != []
    ensures Holds(whole, at, next, pieces[0], wide) && whole[next..] == MarkedUp(pieces[1..], wide)
  {
    Behind(whole, at, WrittenPiece(pieces[0], wide), MarkedUp(pieces[1..], wide));
    next := at + |WrittenPiece(pieces[0], wide)|;
  }

  lemma {:induction false} TagsAreRemoved(whole: Text, at: nat, pieces: seq<Piece>, wide: bool)
    requires at <= |whole| && whole[at..] == MarkedUp(pieces, wide) && ProperTags(pieces)
    ensures WithoutTags(whole, at) == EncodedText(AllWords(pieces), wide)
    decreases pieces
  {
    if pieces != [] {
      var next := FirstPiece(whole, at, pieces, wide);
      TagsAreRemoved(whole, next, pieces[1..], wide);
      PieceIsRead(whole, at, next, pieces[0], AllWords(pieces[1..]), wide);
    }
  }

  lemma {:induction false} EncodedConcat(a: Text, b: Text, wide: bool)
    ensures EncodedText(a + b, wide) == EncodedText(a, wide) + EncodedText(b, wide)
  {
    if a == [] {
      assert a + b == b && [] + EncodedText(b, wide) == EncodedText(b, wide);
    } else {
      assert (a + b)[1..] == a[1..] + b;
      EncodedConcat(a[1..], b, wide);
      Regroup(Encoded(a[0], wide), EncodedText(a[1..], wide), EncodedText(b, wide));
    }
  }

  lemma Regroup(a: Text, b: Text, c: Text)
    ensures a + (b + c) == a + b + c
  {
  }

  lemma UnitIsDecoded(whole: Text, at: nat, u: CodeUnit, wide: bool, code: Text)
    requires code == Encoded(u, wide) && at + |code| <= |whole| && whole[at..at + |code|] == code
    ensures Decoded(whole, at) == [u] + Decoded(whole, at + |code|)
  {
    assert whole[at..at + |code|][0] == whole[at] == code[0];
    if |code| > 1 {
      EntityIsFound(whole, at, u, wide);
    } else {
      NothingIsFound(whole, at, u);
    }
  }

  lemma NothingIsFound(whole: Text, at: nat, u: CodeUnit)
    requires at < |whole| && whole[at] == u && u != AMPERSAND
    ensures EntityAt(whole, at) == None
  {
    assert forall k :: 0 <= k < 4 && Names(ENTITIES[k], whole, at) ==>
                         whole[at..at + |ENTITIES[k].name|][0] == whole[at];
  }

  /** Which entity stands at a position is told by its second and third letters. */
  lemma EntityIsFound(whole: Text, at: nat, u: CodeUnit, wide: bool)
    requires var code := Encoded(u, wide); |code| > 1 && at + |code| <= |whole| && whole[at..at + |code|] == code
    ensures EntityAt(whole, at) == Some(Entity(Encoded(u, wide), u))
  {
    var code := Encoded(u, wide);
    assert whole[at..at + |code|][1] == whole[at + 1] && whole[at..at + |code|][2] == whole[at + 2];
    forall k | 0 <= k < 4 && Names(ENTITIES[k], whole, at)
      ensures whole[at + 1] == ENTITIES[k].name[1] && whole[at + 2] == ENTITIES[k].name[2]
    {
      var name := ENTITIES[k].name;
      assert whole[at..at + |name|][1] == whole[at + 1] && whole[at..at + |name|][2] == whole[at + 2];
    }
  }

  lemma FirstCode(whole: Text, at: nat, text: Text, wide: bool) returns (code: Text)
    requires at <= |whole| && text != [] && whole[at..] == EncodedText(text, wide)
    ensures code == Encoded(text[0], wide) && at + |code| <= |whole| && whole[at..at + |code|] == code
    ensures whole[at + |code|..] == EncodedText(text[1..], wide)
  {
    code := Encoded(text[0], wide);
    Behind(whole, at, code, EncodedText(text[1..], wide));
  }

  lemma FirstUnit(whole: Text, at: nat, text: Text, wide: bool) returns (next: nat)
    requires at <= |whole| && text != [] && whole[at..] == EncodedText(text, wide)
    ensures next <= |whole| && whole[next..] == EncodedText(text[1..], wide)
    ensures Decoded(whole, at) == [text[0]] + Decoded(whole, next)
  {
    var code := FirstCode(whole, at, text, wide);
    UnitIsDecoded(whole, at, text[0], wide, code);
    next := at + |code|;
  }

  lemma NothingIsLeft(whole: Text, at: nat)
    requires at <= |whole| && whole[at..] == []
    ensures Decoded(whole, at) == []
  {
  }

  lemma {:induction false} EntitiesAreDecoded(whole: Text, at: nat, text: Text, wide: bool)
    requires at <= |whole| && whole[at..] == EncodedText(text, wide)
    ensures Decoded(whole, at) == text
    decreases text
  {
    if text == [] {
      NothingIsLeft(whole, at);
    } else {
      var next := FirstUnit(whole, at, text, wide);
      EntitiesAreDecoded(whole, next, text[1..], wide);
      assert text == [text[0]] + text[1..];
    }
  }

  /**
   Any words can be written in a cue, with entities for the characters of markup and for spaces, and with tags
   anywhere between them: what is read is the words.
  */
  lemma MarkedUpTextIsRead(pieces: seq<Piece>, wide: bool)
    requires ProperTags(pieces)
    ensures PlainText(MarkedUp(pieces, wide)) == AllWords(pieces)
  {
    var written, words := MarkedUp(pieces, wide), EncodedText(AllWords(pieces), wide);
    assert written[0..] == written && words[0..] == words;
    TagsAreRemoved(written, 0, pieces, wide);
    EntitiesAreDecoded(words, 0, AllWords(pieces), wide);
  }

  // ----- which files are accepted

  /** Every block is left out or a cue with words, and cues are not empty, in time, and after one another. */
  ghost predicate ProperCues(blocks: seq<Block>, duration: nat) {
    && (forall i :: 0 <= i < |blocks| ==> !blocks[i].Malformed?)
    && (forall i :: 0 <= i < |blocks| && blocks[i].CueBlock? ==>
          blocks[i].startSample < blocks[i].endSample <= duration && !Blank(blocks[i].text))
    && (forall i, j :: 0 <= i < j < |blocks| && blocks[i].CueBlock? && blocks[j].CueBlock? ==>
          blocks[i].endSample <= blocks[j].startSample)
  }

  ghost predicate EndsAt(blocks: seq<Block>, end: nat) {
    && (forall i :: 0 <= i < |blocks| && blocks[i].CueBlock? ==> blocks[i].endSample <= end)
    && (end > 0 ==> exists i :: 0 <= i < |blocks| && blocks[i].CueBlock? && blocks[i].endSample == end)
  }

  function CueWords(blocks: seq<Block>): seq<Text> {
    if blocks == [] then []
    else
      CueWords(blocks[..|blocks| - 1])
      + if blocks[|blocks| - 1].CueBlock? then [blocks[|blocks| - 1].text] else []
  }

  /** A file is accepted exactly when its cues are proper, and its texts are those of its cues. */
  lemma {:induction false} ProperFilesAreRead(blocks: seq<Block>, duration: nat)
    ensures ReadSubtitles(blocks, duration).Ok? <==> ProperCues(blocks, duration)
    ensures ReadSubtitles(blocks, duration).Ok? ==>
              var read := ReadSubtitles(blocks, duration).value;
              read.texts == CueWords(blocks) && EndsAt(blocks, read.previousEnd)
  {
    if blocks != [] {
      var n := |blocks| - 1;
      var init, last := blocks[..n], blocks[n];
      ProperFilesAreRead(init, duration);
      assert forall i :: 0 <= i < n ==> blocks[i] == init[i];
      if ReadSubtitles(init, duration).Ok? {
        OneMoreCue(blocks, ReadSubtitles(init, duration).value.previousEnd, duration);
        EndMoves(blocks, ReadSubtitles(init, duration).value.previousEnd, last);
      }
    }
  }

  lemma OneMoreCue(blocks: seq<Block>, end: nat, duration: nat)
    requires blocks != [] && ProperCues(blocks[..|blocks| - 1], duration) && EndsAt(blocks[..|blocks| - 1], end)
    ensures ProperCues(blocks, duration)
            <==> blocks[|blocks| - 1].Ignored? || BlockFits(blocks[|blocks| - 1], end, duration)
  {
    var n := |blocks| - 1;
    var init := blocks[..n];
    assert forall i :: 0 <= i < n ==> blocks[i] == init[i];
    if ProperCues(blocks, duration) && blocks[n].CueBlock? && end > 0 {
      var i :| 0 <= i < |init| && init[i].CueBlock? && init[i].endSample == end;
      assert blocks[i].endSample <= blocks[n].startSample;
    }
  }

  lemma EndMoves(blocks: seq<Block>, end: nat, last: Block)
    requires blocks != [] && EndsAt(blocks[..|blocks| - 1], end) && last == blocks[|blocks| - 1]
    ensures last.CueBlock? && end <= last.startSample < last.endSample ==> EndsAt(blocks, last.endSample)
    ensures last.Ignored? ==> EndsAt(blocks, end)
  {
    var n := |blocks| - 1;
    assert forall i :: 0 <= i < n ==> blocks[i] == blocks[..n][i];
  }
}
