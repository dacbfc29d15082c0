/** The reply chunker `split_message` (bot.py:57-69): the text is cut into
    lines that keep their terminators, and consecutive lines are packed
    greedily into chunks of at most `max_length` characters. */
module Chunker {
  import opened Text

  /** `split_message`'s default limit, the chat platform's message size. */
  const DefaultMaxLength := 2000

  /** The state of the packing loop: the groups of lines already appended to
      `chunks`, and the lines that make up `current`. */
  datatype Packing = Packing(closed: seq<seq<string>>, open: seq<string>)

  /** One iteration of the loop at bot.py:61-66. */
  function Step(p: Packing, line: string, maxLength: int): Packing
  {
    if |Concat(p.open)| + |line| <= maxLength then Packing(p.closed, p.open + [line])
    else Packing(p.closed + [p.open], [line])
  }

  /** The loop state after it has consumed `lines`, one line at a time. */
  function PackLines(lines: seq<string>, maxLength: int): Packing
    decreases |lines|
  {
    if lines == [] then Packing([], [])
    else Step(PackLines(lines[..|lines| - 1], maxLength), lines[|lines| - 1], maxLength)
  }

  /** The groups of lines whose concatenations are the chunks: the closed ones,
      and `current` when it is non-empty (bot.py:67-68). */
  function Groups(lines: seq<string>, maxLength: int): seq<seq<string>>
  {
    var p := PackLines(lines, maxLength);
    if Concat(p.open) != "" then p.closed + [p.open] else p.closed
  }

  function ConcatEach(gs: seq<seq<string>>): seq<string>
  {
    seq(|gs|, i requires 0 <= i < |gs| => Concat(gs[i]))
  }

  /** What `split_message(text, maxLength)` returns. */
  function Chunks(text: string, maxLength: int): seq<string>
  {
    ConcatEach(Groups(SplitLines(text), maxLength))
  }

  /** A group is within the limit unless it is a single oversized line (or the
      empty group, whose length 0 exceeds only a negative limit). */
  predicate Fits(g: seq<string>, maxLength: int)
  {
    |Concat(g)| > maxLength ==> g == [] || |g| == 1
  }

  /** `gs` packs `lines` the way the chunker promises: the groups are the
      lines in order, cut into runs; only the first group may be empty, and it
      is empty exactly when the first line alone exceeds the limit; a group
      longer than the limit is one line; and no group could have taken the
      first line of the group after it. */
  ghost predicate IsGreedyPacking(lines: seq<string>, maxLength: int, gs: seq<seq<string>>)
  {
    Flatten(gs) == lines
    && (lines == [] <==> gs == [])
    && (forall i :: 0 < i < |gs| ==> gs[i] != [])
    && (gs != [] ==> gs[|gs| - 1] != [])
    && (lines != [] ==> (gs[0] == [] <==> |lines[0]| > maxLength))
    && (forall i :: 0 <= i < |gs| ==> Fits(gs[i], maxLength))
    && (forall i :: 0 <= i < |gs| - 1 ==> |Concat(gs[i])| + |gs[i + 1][0]| > maxLength)
  }

  ghost predicate NonEmptyLines(lines: seq<string>)
  {
    forall i :: 0 <= i < |lines| ==> lines[i] != ""
  }

  /** What the loop keeps true: the groups closed so far plus `current` form a
      greedy packing of the lines consumed so far. */
  ghost predicate PackingInvariant(lines: seq<string>, maxLength: int, p: Packing)
  {
    if lines == [] then p == Packing([], [])
    else p.open != [] && IsGreedyPacking(lines, maxLength, p.closed + [p.open])
  }

  lemma ConcatLengthMonotone(a: seq<string>, b: seq<string>)
    ensures |Concat(a + b)| >= |Concat(a)|
  {
    FlattenAppend(a, b);
  }

  /** `current += line` keeps the invariant. */
  lemma ExtendKeepsInvariant(lines: seq<string>, line: string, maxLength: int, p: Packing)
    requires line != "" && lines != [] && NonEmptyLines(lines)
    requires PackingInvariant(lines, maxLength, p)
    requires |Concat(p.open)| + |line| <= maxLength
    ensures PackingInvariant(lines + [line], maxLength, Packing(p.closed, p.open + [line]))
  {
    var all := p.closed + [p.open];
    var all' := p.closed + [p.open + [line]];
    FlattenSnoc(p.closed, p.open);
    FlattenSnoc(p.closed, p.open + [line]);
    FlattenSnoc(p.open, line);
    assert (lines + [line])[0] == lines[0];
    forall i | 0 < i < |all'|
      ensures all'[i] != []
    {
      if i < |all'| - 1 {
        assert all'[i] == all[i];
      }
    }
    forall i | 0 <= i < |all'| - 1
      ensures |Concat(all'[i])| + |all'[i + 1][0]| > maxLength
    {
      assert all'[i] == all[i];
      assert all'[i + 1][0] == all[i + 1][0];
    }
    forall i | 0 <= i < |all'|
      ensures Fits(all'[i], maxLength)
    {
      if i < |all'| - 1 {
        assert all'[i] == all[i];
      }
    }
  }

  /** `chunks.append(current); current = line` keeps the invariant. */
  lemma CloseKeepsInvariant(lines: seq<string>, line: string, maxLength: int, p: Packing)
    requires line != "" && lines != [] && NonEmptyLines(lines)
    requires PackingInvariant(lines, maxLength, p)
    requires |Concat(p.open)| + |line| > maxLength
    ensures PackingInvariant(lines + [line], maxLength, Packing(p.closed + [p.open], [line]))
  {
    var all := p.closed + [p.open];
    var all' := all + [[line]];
    FlattenSnoc(all, [line]);
    assert (lines + [line])[0] == lines[0];
    forall i | 0 < i < |all'|
      ensures all'[i] != []
    {
      if i < |all'| - 1 {
        assert all'[i] == all[i];
      }
    }
    forall i | 0 <= i < |all'| - 1
      ensures |Concat(all'[i])| + |all'[i + 1][0]| > maxLength
    {
      if i < |all'| - 2 {
        assert all'[i] == all[i];
        assert all'[i + 1][0] == all[i + 1][0];
      }
    }
    forall i | 0 <= i < |all'|
      ensures Fits(all'[i], maxLength)
    {
      if i < |all'| - 1 {
        assert all'[i] == all[i];
      }
    }
  }

  /** One step of the loop keeps the invariant. */
  lemma StepKeepsInvariant(lines: seq<string>, line: string, maxLength: int, p: Packing)
    requires line != "" && NonEmptyLines(lines)
    requires PackingInvariant(lines, maxLength, p)
    ensures PackingInvariant(lines + [line], maxLength, Step(p, line, maxLength))
  {
    if lines == [] {
      // the first line: it is `current`, after an empty chunk if it alone is too long
      assert lines + [line] == [line];
      ConcatSingleton(line);
      if |line| <= maxLength {
        assert Step(p, line, maxLength).closed + [Step(p, line, maxLength).open] == [[line]];
        assert Flatten([[line]]) == [line] + Flatten<string>([]);
      } else {
        assert Step(p, line, maxLength).closed + [Step(p, line, maxLength).open] == [[], [line]];
        assert [[], [line]][1..] == [[line]];
        assert Flatten([[line]]) == [line] + Flatten<string>([]);
        assert Flatten([[], [line]]) == [] + Flatten([[line]]);
      }
    } else if |Concat(p.open)| + |line| <= maxLength {
      ExtendKeepsInvariant(lines, line, maxLength, p);
    } else {
      CloseKeepsInvariant(lines, line, maxLength, p);
    }
  }

  lemma {:induction false} PackLinesInvariant(lines: seq<string>, maxLength: int)
    requires NonEmptyLines(lines)
    ensures PackingInvariant(lines, maxLength, PackLines(lines, maxLength))
    decreases |lines|
  {
    if lines != [] {
      var init := lines[..|lines| - 1];
      assert init + [lines[|lines| - 1]] == lines;
      PackLinesInvariant(init, maxLength);
      StepKeepsInvariant(init, lines[|lines| - 1], maxLength, PackLines(init, maxLength));
    }
  }

  /** The groups the chunker forms are a greedy packing of the lines. */
  lemma GroupsAreGreedy(lines: seq<string>, maxLength: int)
    requires NonEmptyLines(lines)
    ensures IsGreedyPacking(lines, maxLength, Groups(lines, maxLength))
  {
    var p := PackLines(lines, maxLength);
    PackLinesInvariant(lines, maxLength);
    if lines != [] {
      assert p.open[0] == lines[|Flatten(p.closed)|] by {
        FlattenSnoc(p.closed, p.open);
      }
      assert |Concat(p.open)| >= |p.open[0]| > 0 by {
        ConcatLengthMonotone([p.open[0]], p.open[1..]);
        assert [p.open[0]] + p.open[1..] == p.open;
        ConcatSingleton(p.open[0]);
      }
    }
  }

  // ------------------------------------------------------------------
  // The greedy packing is unique
  // ------------------------------------------------------------------

  /** A greedy packing with no empty group at all. */
  ghost predicate IsTailPacking(lines: seq<string>, maxLength: int, gs: seq<seq<string>>)
  {
    Flatten(gs) == lines
    && (forall i :: 0 <= i < |gs| ==> gs[i] != [])
    && (forall i :: 0 <= i < |gs| ==> Fits(gs[i], maxLength))
    && (forall i :: 0 <= i < |gs| - 1 ==> |Concat(gs[i])| + |gs[i + 1][0]| > maxLength)
  }

  lemma TailOfTailPacking(lines: seq<string>, maxLength: int, gs: seq<seq<string>>)
    requires gs != [] && IsTailPacking(lines, maxLength, gs)
    ensures |gs[0]| <= |lines| && gs[0] == lines[..|gs[0]|]
    ensures IsTailPacking(lines[|gs[0]|..], maxLength, gs[1..])
  {
  }

  /** If the first group stops before line `a`, it could not take line `a`. */
  lemma FirstGroupCannotGrow(lines: seq<string>, maxLength: int, gs: seq<seq<string>>, b: nat)
    requires gs != [] && IsTailPacking(lines, maxLength, gs)
    requires |gs[0]| < b <= |lines|
    ensures |Concat(lines[..b])| > maxLength
  {
    TailOfTailPacking(lines, maxLength, gs);
    var a := |gs[0]|;
    assert |gs| > 1;
    assert gs[1][0] == lines[a] by {
      assert Flatten(gs[1..]) == gs[1] + Flatten(gs[2..]);
    }
    assert lines[..b] == lines[..a] + [lines[a]] + lines[a + 1..b];
    FlattenSnoc(lines[..a], lines[a]);
    ConcatLengthMonotone(lines[..a] + [lines[a]], lines[a + 1..b]);
  }

  lemma {:induction false} TailPackingUnique(lines: seq<string>, maxLength: int, g1: seq<seq<string>>, g2: seq<seq<string>>)
    requires IsTailPacking(lines, maxLength, g1) && IsTailPacking(lines, maxLength, g2)
    ensures g1 == g2
    decreases |lines|
  {
    if g1 == [] || g2 == [] {
    } else {
      TailOfTailPacking(lines, maxLength, g1);
      TailOfTailPacking(lines, maxLength, g2);
      var a, b := |g1[0]|, |g2[0]|;
      if a < b {
        FirstGroupCannotGrow(lines, maxLength, g1, b);
        assert false;
      } else if b < a {
        FirstGroupCannotGrow(lines, maxLength, g2, a);
        assert false;
      }
      TailPackingUnique(lines[a..], maxLength, g1[1..], g2[1..]);
      assert g1 == [g1[0]] + g1[1..] && g2 == [g2[0]] + g2[1..];
    }
  }

  /** Dropping the (possibly empty) first group leaves a packing without empty groups. */
  lemma GreedyRest(lines: seq<string>, maxLength: int, gs: seq<seq<string>>)
    requires lines != [] && IsGreedyPacking(lines, maxLength, gs)
    ensures gs[0] == [] ==> IsTailPacking(lines, maxLength, gs[1..])
    ensures gs[0] != [] ==> IsTailPacking(lines, maxLength, gs)
  {
  }

  /** There is only one greedy packing of a sequence of lines. */
  lemma GreedyPackingUnique(lines: seq<string>, maxLength: int, g1: seq<seq<string>>, g2: seq<seq<string>>)
    requires IsGreedyPacking(lines, maxLength, g1) && IsGreedyPacking(lines, maxLength, g2)
    ensures g1 == g2
  {
    if lines != [] {
      GreedyRest(lines, maxLength, g1);
      GreedyRest(lines, maxLength, g2);
      if g1[0] == [] {
        TailPackingUnique(lines, maxLength, g1[1..], g2[1..]);
        assert g1 == [g1[0]] + g1[1..] && g2 == [g2[0]] + g2[1..];
      } else {
        TailPackingUnique(lines, maxLength, g1, g2);
      }
    }
  }

  // ------------------------------------------------------------------
  // The chunks themselves
  // ------------------------------------------------------------------

  lemma {:induction false} ConcatOfConcatEach(gs: seq<seq<string>>)
    ensures Concat(ConcatEach(gs)) == Concat(Flatten(gs))
    decreases |gs|
  {
    if gs != [] {
      assert ConcatEach(gs)[1..] == ConcatEach(gs[1..]);
      ConcatOfConcatEach(gs[1..]);
      FlattenAppend(gs[0], Flatten(gs[1..]));
    }
  }

  /** The chunks are the greedy packing of the text's lines, and no other
      packing is: they are the concatenations of the unique greedy packing. */
  lemma ChunksAreTheGreedyPacking(text: string, maxLength: int, gs: seq<seq<string>>)
    ensures IsGreedyPacking(SplitLines(text), maxLength, Groups(SplitLines(text), maxLength))
    ensures IsGreedyPacking(SplitLines(text), maxLength, gs) <==> Chunks(text, maxLength) == ConcatEach(gs) && gs == Groups(SplitLines(text), maxLength)
  {
    GroupsAreGreedy(SplitLines(text), maxLength);
    if IsGreedyPacking(SplitLines(text), maxLength, gs) {
      GreedyPackingUnique(SplitLines(text), maxLength, gs, Groups(SplitLines(text), maxLength));
    }
  }

  /** The chunk-level promises of `split_message`: the chunks concatenate back
      to the text; there are none for the empty text; the last is never empty;
      only the first may be empty, and it is exactly when the first line alone
      exceeds the limit; and a non-empty chunk over the limit is a single line.
      That no chunk could have taken the next chunk's first line is part of
      `ChunksAreTheGreedyPacking`. */
  lemma ChunkProperties(text: string, maxLength: int)
    ensures Concat(Chunks(text, maxLength)) == text
    ensures Chunks(text, maxLength) == [] <==> text == ""
    ensures Chunks(text, maxLength) != [] ==> Chunks(text, maxLength)[|Chunks(text, maxLength)| - 1] != ""
    ensures forall i :: 0 < i < |Chunks(text, maxLength)| ==> Chunks(text, maxLength)[i] != ""
    ensures text != "" ==> (Chunks(text, maxLength)[0] == "" <==> |SplitLines(text)[0]| > maxLength)
    ensures forall i :: 0 <= i < |Chunks(text, maxLength)| && |Chunks(text, maxLength)[i]| > maxLength ==>
              Chunks(text, maxLength)[i] == "" || Chunks(text, maxLength)[i] in SplitLines(text)
  {
    var lines := SplitLines(text);
    var gs := Groups(lines, maxLength);
    var cs := Chunks(text, maxLength);
    GroupsAreGreedy(lines, maxLength);
    ConcatOfConcatEach(gs);
    forall i | 0 <= i < |gs| && gs[i] != []
      ensures cs[i] != ""
    {
      ConcatNonEmptyGroup(lines, gs, i);
    }
    forall i | 0 <= i < |cs| && |cs[i]| > maxLength
      ensures cs[i] == "" || cs[i] in lines
    {
      if gs[i] != [] {
        assert gs[i] == [] + [gs[i][0]];
        FlattenSnoc<char>([], gs[i][0]);
        assert cs[i] == Concat(gs[i]) == gs[i][0];
        FlattenContains(gs, i, 0);
      }
    }
    if text != "" {
      assert lines != [];
      if gs[0] == [] {
        assert cs[0] == "";
      }
    }
  }

  lemma {:induction false} FlattenContains(gs: seq<seq<string>>, i: nat, j: nat)
    requires i < |gs| && j < |gs[i]|
    ensures gs[i][j] in Flatten(gs)
    decreases i
  {
    if i == 0 {
      assert Flatten(gs) == gs[0] + Flatten(gs[1..]);
      assert Flatten(gs)[j] == gs[0][j];
    } else {
      FlattenContains(gs[1..], i - 1, j);
      assert Flatten(gs) == gs[0] + Flatten(gs[1..]);
    }
  }

  lemma ConcatNonEmptyGroup(lines: seq<string>, gs: seq<seq<string>>, i: nat)
    requires NonEmptyLines(lines) && Flatten(gs) == lines
    requires i < |gs| && gs[i] != []
    ensures Concat(gs[i]) != ""
  {
    FlattenContains(gs, i, 0);
    var k :| 0 <= k < |lines| && lines[k] == gs[i][0];
    ConcatLengthMonotone([gs[i][0]], gs[i][1..]);
    assert [gs[i][0]] + gs[i][1..] == gs[i];
    ConcatSingleton(gs[i][0]);
  }

  lemma ExampleLines()
    ensures SplitLines("abcd\nx") == ["abcd\n", "x"]
  {
    var s := "abcd\nx";
    assert !IsLineBreak(s[0]) && !IsLineBreak(s[1]) && !IsLineBreak(s[2]) && !IsLineBreak(s[3]);
    assert NextBreak(s, 4) == 4;
    assert NextBreak(s, 0) == 4;
    assert FirstLineLength(s) == 5;
    assert s[..5] == "abcd\n" && s[5..] == "x";
    assert NextBreak("x", 1) == 1 && NextBreak("x", 0) == 1;
    assert "x"[..1] == "x" && "x"[1..] == "";
    assert SplitLines("x") == ["x"] + SplitLines("");
  }

  /** A line longer than the limit stands alone, and when it is the first line
      an empty chunk precedes it. */
  lemma OversizedFirstLine()
    ensures Chunks("abcd\nx", 3) == ["", "abcd\n", "x"]
  {
    ExampleLines();
    var lines := ["abcd\n", "x"];
    assert lines[..1] == ["abcd\n"];
    ConcatSingleton("abcd\n");
    assert PackLines(["abcd\n"], 3) == Packing([[]], ["abcd\n"]);
    assert PackLines(lines, 3) == Packing([[], ["abcd\n"]], ["x"]);
    ConcatSingleton("x");
    var gs := Groups(lines, 3);
    assert gs == [[], ["abcd\n"], ["x"]];
    var cs := ConcatEach(gs);
    assert |cs| == 3 && cs[0] == "" && cs[1] == "abcd\n" && cs[2] == "x";
  }

  /** `split_message` (bot.py:57-69). */
  method SplitMessage(text: string, maxLength: int) returns (chunks: seq<string>)
    ensures chunks == Chunks(text, maxLength)
    ensures Concat(chunks) == text
    ensures chunks == [] <==> text == ""
    ensures chunks != [] ==> chunks[|chunks| - 1] != ""
    ensures forall i :: 0 < i < |chunks| ==> chunks[i] != ""
  {
    var lines := SplitLines(text);
    chunks := [];
    var current := "";
    ghost var p := Packing([], []);
    for i := 0 to |lines|
      invariant p == PackLines(lines[..i], maxLength)
      invariant current == Concat(p.open)
      invariant chunks == ConcatEach(p.closed)
    {
      assert lines[..i + 1][..i] == lines[..i];
      if |current| + |lines[i]| <= maxLength {
        FlattenSnoc(p.open, lines[i]);
        current := current + lines[i];
      } else {
        chunks := chunks + [current];
        current := lines[i];
        ConcatSingleton(lines[i]);
      }
      p := Step(p, lines[i], maxLength);
    }
    assert lines[..|lines|] == lines;
    if current != "" {
      chunks := chunks + [current];
    }
    ChunkProperties(text, maxLength);
  }
}
