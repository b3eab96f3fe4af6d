/**
 Reading a transcript backwards: fixed-size blocks taken from the end of the file yield the
 same lines as splitting the whole file, last line first, whatever the block size.
 */
module ReverseLines {
  type Bytes = seq<bv8>

  const NEWLINE: bv8 := 0x0A

  /** `bytes.split(b"\n")`: always at least one piece. */
  function Split(b: Bytes): (lines: seq<Bytes>)
    ensures |lines| > 0
  {
    if b == [] then [[]]
    else if b[0] == NEWLINE then [[]] + Split(b[1..])
    else
      var rest := Split(b[1..]);
      [[b[0]] + rest[0]] + rest[1..]
  }

  /** `bytes.join(b"\n")`, the inverse that fixes what `Split` must mean. */
  function Join(lines: seq<Bytes>): Bytes
    requires |lines| > 0
  {
    if |lines| == 1 then lines[0] else lines[0] + [NEWLINE] + Join(lines[1..])
  }

  lemma JoinCons(line: Bytes, rest: seq<Bytes>)
    requires rest != []
    ensures Join([line] + rest) == line + [NEWLINE] + Join(rest)
  {
    assert ([line] + rest)[1..] == rest;
  }

  /** A byte in front of the first line is a byte in front of the whole. */
  lemma JoinGrows(c: bv8, rest: seq<Bytes>)
    requires rest != []
    ensures Join([[c] + rest[0]] + rest[1..]) == [c] + Join(rest)
  {
    var first, others := rest[0], rest[1..];
    assert rest == [first] + others;
    hide Join;
    if others == [] {
      assert [[c] + first] + others == [[c] + first] && rest == [first];
      JoinOfOne([c] + first);
      JoinOfOne(first);
    } else {
      JoinCons([c] + first, others);
      JoinCons(first, others);
      Prefixed([c], first, [NEWLINE], Join(others));
    }
  }

  lemma Prefixed<X>(a: seq<X>, b: seq<X>, c: seq<X>, d: seq<X>)
    ensures (a + b) + c + d == a + (b + c + d)
  {
  }

  lemma {:induction false} SplitIsTheOnlyCut(b: Bytes)
    ensures Join(Split(b)) == b && forall i | 0 <= i < |Split(b)| :: NEWLINE !in Split(b)[i]
  {
    hide Join;
    if b == [] {
      assert Join([[]]) == [] by { JoinOfOne([]); }
    } else {
      var rest := Split(b[1..]);
      SplitIsTheOnlyCut(b[1..]);
      if b[0] == NEWLINE {
        JoinCons([], rest);
        assert [] + [NEWLINE] + b[1..] == b;
      } else {
        JoinGrows(b[0], rest);
        assert [b[0]] + b[1..] == b;
      }
    }
  }

  lemma JoinOfOne(line: Bytes)
    ensures Join([line]) == line
  {
  }

  /** ASCII whitespace as `bytes.strip` sees it. */
  predicate IsSpace(c: bv8) {
    c == 0x20 || 0x09 <= c <= 0x0D
  }

  /** `raw.strip()` is non-empty. */
  predicate NonBlank(line: Bytes) {
    exists i | 0 <= i < |line| :: !IsSpace(line[i])
  }

  /** The non-blank lines of `lines`, last first. */
  function Backwards(lines: seq<Bytes>): seq<Bytes> {
    if lines == [] then []
    else Backwards(lines[1..]) + if NonBlank(lines[0]) then [lines[0]] else []
  }

  lemma {:induction false} BackwardsConcat(a: seq<Bytes>, b: seq<Bytes>)
    ensures Backwards(a + b) == Backwards(b) + Backwards(a)
  {
    if a == [] {
      assert a + b == b;
    } else {
      assert (a + b)[1..] == a[1..] + b;
      BackwardsConcat(a[1..], b);
    }
  }

  /** One more byte in front: a newline starts a line of its own, any other byte extends the first. */
  function Grown(c: bv8, lines: seq<Bytes>): seq<Bytes>
    requires lines != []
  {
    if c == NEWLINE then [[]] + lines else [[c] + lines[0]] + lines[1..]
  }

  lemma SplitCons(c: bv8, b: Bytes)
    ensures Split([c] + b) == Grown(c, Split(b))
  {
    assert ([c] + b)[1..] == b;
  }

  lemma EmptySplit()
    ensures Split([]) == [[]] && Backwards(Split([])[1..]) == []
  {
  }

  lemma BackwardsFirst(lines: seq<Bytes>)
    requires |lines| > 0
    ensures Backwards(lines) == Backwards(lines[1..]) + if NonBlank(lines[0]) then [lines[0]] else []
  {
  }

  /** Only the first piece of what follows a block can still grow when the block is prepended. */
  lemma {:induction false} SplitPrepend(block: Bytes, after: Bytes)
    ensures Split(block + after) == Split(block + Split(after)[0]) + Split(after)[1..]
  {
    hide Split, Grown;
    var head, others := Split(after)[0], Split(after)[1..];
    if block == [] {
      assert block + after == after && block + head == head;
      HeadIsOneLine(after);
    } else {
      var c, rest := block[0], block[1..];
      SplitPrepend(rest, after);
      SplitCons(c, rest + after);
      SplitCons(c, rest + head);
      assert [c] + (rest + after) == block + after && [c] + (rest + head) == block + head;
      FirstGrows(c, Split(rest + head), others);
    }
  }

  /** Only the first piece grows. */
  lemma FirstGrows(c: bv8, open: seq<Bytes>, others: seq<Bytes>)
    requires open != []
    ensures Grown(c, open + others) == Grown(c, open) + others
  {
    if c == NEWLINE {
      assert [[]] + (open + others) == ([[]] + open) + others;
    } else {
      var first: seq<Bytes> := [[c] + open[0]];
      assert (open + others)[1..] == open[1..] + others;
      assert first + (open[1..] + others) == (first + open[1..]) + others;
    }
  }

  lemma {:induction false} HeadIsOneLine(b: Bytes)
    ensures Split(Split(b)[0]) == [Split(b)[0]]
  {
    if b != [] && b[0] != NEWLINE {
      HeadIsOneLine(b[1..]);
      assert Split(b)[0][1..] == Split(b[1..])[0];
    }
  }

  /** `_reverse_lines`: the lines it yields, in the order it yields them. */
  method ReverseLines(content: Bytes, chunkSize: nat) returns (yielded: seq<Bytes>)
    requires chunkSize >= 1
    ensures yielded == Backwards(Split(content))
  {
    hide Backwards, Split, NonBlank;
    yielded := [];
    assert content[|content|..] == [];
    EmptySplit();
    var pos := |content|;
    var tail: Bytes := [];
    while pos > 0
      invariant 0 <= pos <= |content|
      invariant tail == Split(content[pos..])[0]
      invariant yielded == Backwards(Split(content[pos..])[1..])
    {
      var step := if chunkSize < pos then chunkSize else pos;
      ghost var after := content[pos..];
      pos := pos - step;
      var block := content[pos..pos + step];
      assert content[pos..] == block + after;
      SplitPrepend(block, after);
      var lines := Split(block + tail);
      assert Split(content[pos..])[1..] == lines[1..] + Split(after)[1..];
      BackwardsConcat(lines[1..], Split(after)[1..]);
      tail := lines[0];
      var news := YieldReversed(lines[1..]);
      yielded := yielded + news;
    }
    assert content[0..] == content;
    BackwardsFirst(Split(content));
    if NonBlank(tail) {
      yielded := yielded + [tail];
    }
  }

  method YieldReversed(lines: seq<Bytes>) returns (yielded: seq<Bytes>)
    ensures yielded == Backwards(lines)
  {
    yielded := [];
    var i := |lines|;
    while i > 0
      invariant 0 <= i <= |lines|
      invariant yielded == Backwards(lines[i..])
    {
      i := i - 1;
      assert lines[i..][1..] == lines[i + 1..];
      if NonBlank(lines[i]) {
        yielded := yielded + [lines[i]];
      }
    }
    assert lines[0..] == lines;
  }

  /** `Backwards` is the reverse of the lines kept in file order. */
  lemma {:induction false} BackwardsReverses(lines: seq<Bytes>)
    ensures |Backwards(lines)| == |Kept(lines)|
    ensures forall i | 0 <= i < |Kept(lines)| :: Backwards(lines)[i] == Kept(lines)[|Kept(lines)| - 1 - i]
  {
    if lines != [] {
      BackwardsReverses(lines[1..]);
    }
  }

  /** The non-blank lines of `lines`, in file order. */
  function Kept(lines: seq<Bytes>): seq<Bytes> {
    if lines == [] then []
    else (if NonBlank(lines[0]) then [lines[0]] else []) + Kept(lines[1..])
  }

  /** A byte other than the six of ASCII white space. */
  predicate Inked(line: Bytes) {
    exists i :: 0 <= i < |line| && line[i] !in {0x20, 0x09, 0x0A, 0x0B, 0x0C, 0x0D}
  }

  lemma {:induction false} KeptSplits(a: seq<Bytes>, b: seq<Bytes>)
    ensures Kept(a + b) == Kept(a) + Kept(b)
  {
    hide NonBlank;
    if a == [] {
      assert a + b == b;
    } else {
      assert (a + b)[1..] == a[1..] + b;
      KeptSplits(a[1..], b);
    }
  }

  lemma KeptOfOne(line: Bytes)
    ensures Kept([line]) == if Inked(line) then [line] else []
    ensures Kept([]) == []
  {
    SameInk(line);
    assert [line][1..] == [];
  }

  /** A line among others is kept, where it stands, exactly when it holds more than white space. */
  lemma KeptAreTheInked(before: seq<Bytes>, line: Bytes, after: seq<Bytes>)
    ensures Kept(before + [line] + after) == Kept(before) + (if Inked(line) then [line] else []) + Kept(after)
    ensures Kept([]) == []
  {
    KeptSplits(before + [line], after);
    KeptSplits(before, [line]);
    KeptOfOne(line);
    hide Kept, Inked;
  }

  lemma SameInk(line: Bytes)
    ensures NonBlank(line) <==> Inked(line)
  {
    forall c: bv8 ensures IsSpace(c) <==> c in {0x20, 0x09, 0x0A, 0x0B, 0x0C, 0x0D} {
    }
    if NonBlank(line) {
      var i :| 0 <= i < |line| && !IsSpace(line[i]);
      assert line[i] !in {0x20, 0x09, 0x0A, 0x0B, 0x0C, 0x0D};
    }
  }

  // ---------------------------------------------------------------- the compaction summary

  /** What reading one line as a transcript entry comes to: not a usable summary, the text of a
      summary, an error that ends the search with nothing, or one nobody catches. */
  datatype Verdict = Skip | Text(text: string) | Malformed | Uncaught

  datatype Search = Nothing | Found(text: string) | Raised

  /** The scan of `_read_compaction_summary` over the lines read backwards. */
  method ReadCompactionSummary(content: Bytes, chunkSize: nat, classify: Bytes -> Verdict) returns (summary: Search)
    requires chunkSize >= 1
    ensures Decides(Kept(Split(content)), classify, summary)
  {
    var lines := ReverseLines(content, chunkSize);
    ghost var kept := Kept(Split(content));
    BackwardsReverses(Split(content));
    var i := 0;
    while i < |lines|
      invariant 0 <= i <= |lines|
      invariant forall j | |kept| - i <= j < |kept| :: classify(kept[j]) == Skip
    {
      ghost var at := |kept| - 1 - i;
      assert lines[i] == kept[at];
      match classify(lines[i]) {
        case Skip => i := i + 1;
        case Text(text) =>
          assert LastTelling(kept, classify, at);
          return Found(text);
        case Malformed =>
          assert LastTelling(kept, classify, at);
          return Nothing;
        case Uncaught =>
          assert LastTelling(kept, classify, at);
          return Raised;
      }
    }
    return Nothing;
  }

  /** Line `i` is the last one that is not skipped. */
  ghost predicate LastTelling(lines: seq<Bytes>, classify: Bytes -> Verdict, i: nat) {
    i < |lines| && classify(lines[i]) != Skip && forall j | i < j < |lines| :: classify(lines[j]) == Skip
  }

  /** The summary is the text of the last line not skipped, if that is a summary; an uncaught error there is raised. */
  ghost predicate Decides(lines: seq<Bytes>, classify: Bytes -> Verdict, summary: Search) {
    match summary
    case Found(text) => exists i: nat :: LastTelling(lines, classify, i) && classify(lines[i]) == Text(text)
    case Raised => exists i: nat :: LastTelling(lines, classify, i) && classify(lines[i]) == Uncaught
    case Nothing =>
      || (forall j | 0 <= j < |lines| :: classify(lines[j]) == Skip)
      || exists i: nat :: LastTelling(lines, classify, i) && classify(lines[i]) == Malformed
  }
}
