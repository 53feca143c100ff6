/** Splitting a text into messages of at most 1800 UTF-16 code units. */
module Chunker {

  type CodeUnit = u: int | 0 <= u < 65536
  type Text = seq<CodeUnit>

  const MAX_LENGTH: nat := 1800
  const NEWLINE: CodeUnit := 10
  const SPACE: CodeUnit := 32

  /** `lastIndexOf`: the last position of `c` up to `from`, or -1. */
  function LastIndexOf(s: Text, c: CodeUnit, from: int): (i: int)
    requires -1 <= from < |s|
    ensures -1 <= i <= from
    ensures i >= 0 ==> s[i] == c
    ensures forall j :: i < j <= from ==> s[j] != c
    decreases from
  {
    if from < 0 || s[from] == c then from else LastIndexOf(s, c, from - 1)
  }

  predicate Within(s: Text, c: CodeUnit, lo: int, hi: int)
    requires 0 <= lo && hi < |s|
  {
    exists j :: lo <= j <= hi && s[j] == c
  }

  /** Where a long text is cut: at its last newline within reach, or else its last space, or else hard. */
  function SplitAt(s: Text): (r: nat)
    requires |s| > MAX_LENGTH
    ensures 1 <= r <= MAX_LENGTH
    ensures s[r] == NEWLINE <==> Within(s, NEWLINE, 1, MAX_LENGTH)
    ensures s[r] == NEWLINE ==> forall j :: r < j <= MAX_LENGTH ==> s[j] != NEWLINE
    ensures s[r] != NEWLINE && Within(s, SPACE, 1, MAX_LENGTH) ==> s[r] == SPACE && forall j :: r < j <= MAX_LENGTH ==> s[j] != SPACE
    ensures !Within(s, NEWLINE, 1, MAX_LENGTH) && !Within(s, SPACE, 1, MAX_LENGTH) ==> r == MAX_LENGTH
  {
    var newline := LastIndexOf(s, NEWLINE, MAX_LENGTH);
    var space := LastIndexOf(s, SPACE, MAX_LENGTH);
    if newline > 0 then newline else if space > 0 then space else MAX_LENGTH
  }

  function DropNewline(s: Text): Text { if s != [] && s[0] == NEWLINE then s[1..] else s }

  /** The chunks of a text that is cut from its start. */
  function Cut(s: Text): seq<Text>
    decreases |s|
  {
    if s == [] then []
    else if |s| <= MAX_LENGTH then [s]
    else [s[..SplitAt(s)]] + Cut(DropNewline(s[SplitAt(s)..]))
  }

  function Chunks(text: Text): seq<Text> { if |text| <= MAX_LENGTH then [text] else Cut(text) }

  // ---------------------------------------------------------------- what the chunks mean

  /** The text is the chunks in order, with one newline skipped after a chunk exactly where the text has
      a newline there. */
  predicate Restores(text: Text, chunks: seq<Text>)
    decreases |chunks|
  {
    if chunks == [] then text == []
    else chunks[0] <= text && Restores(DropNewline(text[|chunks[0]|..]), chunks[1..])
  }

  /** Chunks and, for each, whether a newline is put back after it. */
  function Rejoin(chunks: seq<Text>, newlines: seq<bool>): Text
    requires |chunks| == |newlines|
    decreases |chunks|
  {
    if chunks == [] then [] else chunks[0] + (Ending(newlines[0]) + Rejoin(chunks[1..], newlines[1..]))
  }

  function Ending(newline: bool): Text { if newline then [NEWLINE] else [] }

  lemma EndingDropped(tail: Text)
    ensures tail == Ending(tail != [] && tail[0] == NEWLINE) + DropNewline(tail)
  {
  }

  lemma RejoinStep(chunks: seq<Text>, cut: bool, rest: seq<bool>)
    requires chunks != [] && |rest| == |chunks| - 1
    ensures Rejoin(chunks, [cut] + rest) == chunks[0] + (Ending(cut) + Rejoin(chunks[1..], rest))
  {
    assert ([cut] + rest)[1..] == rest;
  }

  predicate Sized(chunks: seq<Text>) { forall i :: 0 <= i < |chunks| ==> 1 <= |chunks[i]| <= MAX_LENGTH }

  lemma {:induction false} CutRestores(s: Text)
    ensures Restores(s, Cut(s)) && Sized(Cut(s))
    decreases |s|
  {
    if s == [] {
    } else if |s| <= MAX_LENGTH {
      assert s[|s|..] == [];
      assert Restores([], [s][1..]);
    } else {
      CutRestores(DropNewline(s[SplitAt(s)..]));
    }
  }

  /** Restoring determines the text: it is the chunks rejoined, newlines put back where they were cut. */
  lemma {:induction false} RestoredIsRejoined(text: Text, chunks: seq<Text>) returns (newlines: seq<bool>)
    requires Restores(text, chunks)
    ensures |newlines| == |chunks| && text == Rejoin(chunks, newlines)
    decreases |chunks|
  {
    if chunks == [] {
      newlines := [];
    } else {
      var tail := text[|chunks[0]|..];
      var rest := RestoredIsRejoined(DropNewline(tail), chunks[1..]);
      var cut := tail != [] && tail[0] == NEWLINE;
      newlines := [cut] + rest;
      EndingDropped(tail);
      RejoinStep(chunks, cut, rest);
      assert text == chunks[0] + tail;
    }
  }

  /** Chunking is lossless for every text: put one newline back after each chunk that was cut at one, and
      nothing else is missing. A long text gives chunks of 1 to 1800 units. */
  lemma Lossless(text: Text)
    ensures Restores(text, Chunks(text))
    ensures exists newlines :: |newlines| == |Chunks(text)| && text == Rejoin(Chunks(text), newlines)
    ensures |text| > 1800 ==> forall i :: 0 <= i < |Chunks(text)| ==> 1 <= |Chunks(text)[i]| <= 1800
    ensures |text| <= 1800 ==> Chunks(text) == [text]
  {
    if |text| <= MAX_LENGTH {
      assert text[|text|..] == [] && Restores([], [text][1..]);
    } else {
      CutRestores(text);
    }
    var newlines := RestoredIsRejoined(text, Chunks(text));
  }

  predicate NoneIn(s: Text, c: int, lo: int, hi: int)
    requires 0 <= lo && hi < |s|
  {
    forall j :: lo <= j <= hi ==> s[j] != c
  }

  /** Where a long text is cut: at the last line feed of its first 1801 units but not at its start, or else
      at the last space, or else after 1800. */
  lemma CutPlace(text: Text)
    requires |text| > 1800
    ensures var n := SplitAt(text);
            && 1 <= n <= 1800
            && (text[n] == 10 ==> NoneIn(text, 10, n + 1, 1800))
            && (text[n] != 10 ==> NoneIn(text, 10, 1, 1800))
            && (text[n] != 10 && text[n] == 32 ==> NoneIn(text, 32, n + 1, 1800))
            && (text[n] != 10 && text[n] != 32 ==> n == 1800 && NoneIn(text, 32, 1, 1800))
  {
    if !Within(text, SPACE, 1, MAX_LENGTH) {
      assert NoneIn(text, 32, 1, 1800);
    }
    if !Within(text, NEWLINE, 1, MAX_LENGTH) {
      assert NoneIn(text, 10, 1, 1800);
    }
  }

  /** A long text is cut there; what follows is chunked the same way, without the line feed it was cut at. */
  lemma CutAndGoOn(text: Text)
    requires |text| > 1800
    ensures var n := SplitAt(text);
            var rest := if text[n] == 10 then text[n + 1..] else text[n..];
            Chunks(text) == [text[..n]] + if rest == [] then [] else Chunks(rest)
  {
    var n := SplitAt(text);
    assert text[n..][0] == text[n] && text[n..][1..] == text[n + 1..];
    var rest := DropNewline(text[n..]);
    assert Cut(rest) == if rest == [] then [] else Chunks(rest);
  }

  function Total(chunks: seq<Text>): nat { if chunks == [] then 0 else |chunks[0]| + Total(chunks[1..]) }

  /** At most one unit is lost per chunk, and never a unit other than a newline. */
  lemma {:induction false} FewLost(text: Text, chunks: seq<Text>)
    requires Restores(text, chunks)
    ensures Total(chunks) <= |text| <= Total(chunks) + |chunks|
    ensures NEWLINE !in text ==> |text| == Total(chunks)
    decreases |chunks|
  {
    if chunks != [] {
      var tail := text[|chunks[0]|..];
      FewLost(DropNewline(tail), chunks[1..]);
      assert forall i :: 0 <= i < |DropNewline(tail)| ==> DropNewline(tail)[i] in text;
    }
  }

  method ChooseSplit(s: Text) returns (splitAt: nat)
    requires |s| > MAX_LENGTH
    ensures splitAt == SplitAt(s)
  {
    var at := LastIndexOf(s, NEWLINE, MAX_LENGTH);
    if at <= 0 {
      at := LastIndexOf(s, SPACE, MAX_LENGTH);
    }
    if at <= 0 {
      at := MAX_LENGTH;
    }
    splitAt := at;
  }

  lemma CutStep(done: seq<Text>, s: Text)
    requires |s| > MAX_LENGTH
    ensures done + Cut(s) == done + [s[..SplitAt(s)]] + Cut(DropNewline(s[SplitAt(s)..]))
  {
  }

  lemma CutLast(done: seq<Text>, s: Text)
    requires |s| <= MAX_LENGTH
    ensures done + Cut(s) == if s == [] then done else done + [s]
  {
    assert done + [] == done;
  }

  method ChunkText(text: Text) returns (chunks: seq<Text>)
    ensures chunks == Chunks(text)
  {
    if |text| <= MAX_LENGTH {
      return [text];
    }
    chunks := [];
    ghost var all := Cut(text);
    var remaining := text;
    while |remaining| > 0
      invariant chunks + Cut(remaining) == all
      decreases |remaining|
    {
      if |remaining| <= MAX_LENGTH {
        CutLast(chunks, remaining);
        return chunks + [remaining];
      }
      var splitAt := ChooseSplit(remaining);
      CutStep(chunks, remaining);
      chunks := chunks + [remaining[..splitAt]];
      remaining := DropNewline(remaining[splitAt..]);
    }
    CutLast(chunks, remaining);
  }
}
