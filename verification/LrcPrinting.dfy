/** Which lines an LRC file prints, said of the samples they start at. */
module LrcPrinting {
  import opened Wrappers
  import opened Sequences
  import opened Schema
  import opened LyricsText
  import opened Lrc

  /** A sample lies in a hundredth of a second. */
  ghost predicate FallsIn(sample: nat, hundredth: nat, sampleRate: nat) {
    hundredth * sampleRate <= 100 * sample < (hundredth + 1) * sampleRate
  }

  lemma OnsetFallsIn(line: SungLine, hundredth: nat, sampleRate: nat)
    requires sampleRate > 0 && line.start.Some?
    ensures Onset(line, sampleRate) == Some(hundredth) <==> FallsIn(line.start.value, hundredth, sampleRate)
  {
    var product := line.start.value * 100;
    var whole := product / sampleRate;
    assert whole * sampleRate <= product < (whole + 1) * sampleRate;
    if FallsIn(line.start.value, hundredth, sampleRate) {
      if hundredth < whole {
        Steps(hundredth + 1, whole, sampleRate);
      } else if whole < hundredth {
        Steps(whole + 1, hundredth, sampleRate);
      }
    }
  }

  lemma Steps(a: nat, b: nat, d: nat)
    requires a <= b
    ensures a * d <= b * d
  {
  }

  ghost predicate StartsIn(line: SungLine, hundredth: nat, sampleRate: nat) {
    line.start.Some? && FallsIn(line.start.value, hundredth, sampleRate)
  }

  /** The timed lines before it start in earlier hundredths, and those behind it in later ones. */
  ghost predicate InPlace(lines: seq<SungLine>, index: nat, hundredth: nat, sampleRate: nat) {
    forall other, h {:trigger StartsIn(lines[other], h, sampleRate)} ::
      0 <= other < |lines| && h >= 0 && StartsIn(lines[other], h, sampleRate) ==>
        (other < index ==> h < hundredth) && (other > index ==> hundredth < h)
  }

  /** The line is printed, with the hundredth it starts in. */
  ghost predicate IsPrinted(lines: seq<SungLine>, index: nat, hundredth: nat, sampleRate: nat)
    requires index < |lines|
  {
    var line := lines[index];
    && StartsIn(line, hundredth, sampleRate)
    && (exists i :: 0 <= i < |line.text| && !IsSpace(line.text[i]))
    && (forall i :: 0 <= i < |line.text| ==> !IsControl(line.text[i]))
    && line.text[0] != 0x5B
    && hundredth < 100 * 60 * 100
    && InPlace(lines, index, hundredth, sampleRate)
  }

  lemma StartMeans(line: SungLine, hundredth: nat, sampleRate: nat)
    requires sampleRate > 0
    ensures StartsIn(line, hundredth, sampleRate) <==> Onset(line, sampleRate) == Some(hundredth)
  {
    if line.start.Some? {
      OnsetFallsIn(line, hundredth, sampleRate);
    }
  }

  ghost predicate Ordered(index: nat, onset: nat, other: nat, h: nat) {
    (other < index ==> h < onset) && (other > index ==> onset < h)
  }

  lemma MonotonicMeans(lines: seq<SungLine>, index: nat, onset: nat, sampleRate: nat)
    requires sampleRate > 0
    ensures Monotonic(lines, index, onset, sampleRate) <==> InPlace(lines, index, onset, sampleRate)
  {
    if Monotonic(lines, index, onset, sampleRate) {
      forall other: nat, h: nat | other < |lines| && StartsIn(lines[other], h, sampleRate)
        ensures Ordered(index, onset, other, h)
      {
        MonotonicOrders(lines, index, onset, sampleRate, other, h);
      }
    }
    if InPlace(lines, index, onset, sampleRate) {
      forall other: nat | other < |lines| && other != index && Onset(lines[other], sampleRate).Some?
        ensures Ordered(index, onset, other, Onset(lines[other], sampleRate).value)
      {
        StartMeans(lines[other], Onset(lines[other], sampleRate).value, sampleRate);
      }
    }
  }

  lemma MonotonicOrders(lines: seq<SungLine>, index: nat, onset: nat, sampleRate: nat, other: nat, h: nat)
    requires sampleRate > 0 && Monotonic(lines, index, onset, sampleRate)
    requires other < |lines| && StartsIn(lines[other], h, sampleRate)
    ensures Ordered(index, onset, other, h)
  {
    StartMeans(lines[other], h, sampleRate);
  }

  lemma EmitsMeans(lines: seq<SungLine>, index: nat, hundredth: nat, sampleRate: nat)
    requires sampleRate > 0 && index < |lines|
    ensures IsPrinted(lines, index, hundredth, sampleRate)
            <==> Emits(lines, index, sampleRate) && Onset(lines[index], sampleRate) == Some(hundredth)
  {
    if lines[index].start.Some? {
      OnsetFallsIn(lines[index], hundredth, sampleRate);
      MonotonicMeans(lines, index, hundredth, sampleRate);
    }
  }

  ghost predicate PrintsAs(lines: seq<SungLine>, index: nat, stamped: Stamped, sampleRate: nat) {
    && index < |lines| && IsPrinted(lines, index, stamped.centiseconds, sampleRate)
    && stamped.text == lines[index].text && lines[index].start == Some(stamped.start)
  }

  lemma LastEmitted(lines: seq<SungLine>, index: nat, sampleRate: nat, stamped: Stamped)
    requires sampleRate > 0 && index < |lines|
    ensures PrintsAs(lines, index, stamped, sampleRate)
            <==> Emits(lines, index, sampleRate)
                 && stamped == Stamped(Onset(lines[index], sampleRate).value, lines[index].text,
                                       lines[index].start.value)
  {
    EmitsMeans(lines, index, stamped.centiseconds, sampleRate);
  }

  lemma {:induction false} EmittedUpTo(lines: seq<SungLine>, n: nat, sampleRate: nat, stamped: Stamped)
    requires sampleRate > 0 && n <= |lines|
    ensures stamped in Emitted(lines, n, sampleRate)
            <==> exists index: nat :: index < n && PrintsAs(lines, index, stamped, sampleRate)
  {
    if n > 0 {
      EmittedUpTo(lines, n - 1, sampleRate, stamped);
      LastEmitted(lines, n - 1, sampleRate, stamped);
    }
  }

  /**
   Printed are exactly the timed lines with words, without control characters or a leading bracket, in the first
   hundred minutes, whose hundredth of a second lies strictly between those of the timed lines around them.
  */
  lemma PrintedExactly(lines: seq<SungLine>, sampleRate: nat, stamped: Stamped)
    requires sampleRate > 0
    ensures stamped in Emitted(lines, |lines|, sampleRate)
            <==> exists index: nat :: PrintsAs(lines, index, stamped, sampleRate)
  {
    EmittedUpTo(lines, |lines|, sampleRate, stamped);
  }

  // ----- the header

  /** A title is printed without control characters and closing brackets, and with all others in order. */
  lemma {:induction false} TitlesArePrinted(title: Text)
    ensures SafeTitle(title) == Filter(title, (u: CodeUnit) => !IsControl(u) && u != 0x5D)
  {
    if title != [] {
      TitlesArePrinted(title[1..]);
    }
  }

  /** The file begins with `[ti:` and the title in brackets if there is one, and ends with a line feed. */
  lemma FileBegins(title: Text, lines: seq<Stamped>)
    requires AllPrintable(lines)
    ensures SafeTitle(title) == [] ==> PrintFile(title, lines) == JoinLines(PrintLines(lines)) + [0x0A]
    ensures SafeTitle(title) != [] ==>
              PrintFile(title, lines)
              == JoinLines([[0x5B, 0x74, 0x69, 0x3A] + SafeTitle(title) + [0x5D]] + PrintLines(lines)) + [0x0A]
  {
    assert [] + PrintLines(lines) == PrintLines(lines);
  }
}
