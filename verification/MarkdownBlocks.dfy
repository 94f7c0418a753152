/** The block loop of renderMarkdown (ui/src/lib/markdown.ts): it cuts a message's lines into blocks, one turn of
    the loop after the other. The line patterns are written out over characters. */
module MarkdownBlocks {
  import opened Prelude

  // ----- line patterns -----

  /** White space and line terminators, as trim and \s see them. */
  predicate IsSpace(c: char) {
    || '\t' <= c <= '\r' || c == ' ' || c == '\U{A0}' || c == '\U{1680}' || '\U{2000}' <= c <= '\U{200A}'
    || c == '\U{2028}' || c == '\U{2029}' || c == '\U{202F}' || c == '\U{205F}' || c == '\U{3000}' || c == '\U{FEFF}'
  }

  /** What a dot does not match. */
  predicate IsLineEnd(c: char) {
    c == '\n' || c == '\r' || c == '\U{2028}' || c == '\U{2029}'
  }

  predicate IsDigit(c: char) {
    '0' <= c <= '9'
  }

  /** The end of the longest run of characters from i on that all satisfy p. */
  function RunEnd(s: string, i: nat, p: char -> bool): (j: nat)
    requires i <= |s|
    ensures i <= j <= |s|
    ensures forall k :: i <= k < j ==> p(s[k])
    ensures j < |s| ==> !p(s[j])
    decreases |s| - i
  {
    if i < |s| && p(s[i]) then RunEnd(s, i + 1, p) else i
  }

  function Indent(line: string): (j: nat)
    ensures j <= |line| && (j < |line| ==> !IsSpace(line[j]))
  {
    RunEnd(line, 0, c => IsSpace(c))
  }

  predicate IsBlank(line: string) {
    forall i :: 0 <= i < |line| ==> IsSpace(line[i])
  }

  predicate IsFence(line: string) {
    "```" <= line[Indent(line)..]
  }

  function Hashes(line: string): (j: nat)
    ensures j <= |line|
  {
    RunEnd(line, 0, c => c == '#')
  }

  /** ^#{1,3}\s, the part of the paragraph's guard that stands for headings. */
  predicate HeadingGuard(line: string) {
    var h := Hashes(line);
    1 <= h <= 3 && h < |line| && IsSpace(line[h])
  }

  function AfterHashes(line: string): (j: nat)
    ensures j <= |line|
  {
    RunEnd(line, Hashes(line), c => IsSpace(c))
  }

  predicate NoLineEnd(s: string) {
    forall i :: 0 <= i < |s| ==> !IsLineEnd(s[i])
  }

  /** ^(#{1,3})\s+(.*)$, with the greedy split. */
  predicate IsHeading(line: string) {
    HeadingGuard(line) && NoLineEnd(line[AfterHashes(line)..])
  }

  predicate IsBullet(line: string) {
    var i := Indent(line);
    i + 1 < |line| && (line[i] == '-' || line[i] == '*') && IsSpace(line[i + 1])
  }

  predicate IsNumbered(line: string) {
    var i := Indent(line);
    var j := RunEnd(line, i, c => IsDigit(c));
    i < j && j + 1 < |line| && (line[j] == '.' || line[j] == ')') && IsSpace(line[j + 1])
  }

  predicate IsQuote(line: string) {
    var i := Indent(line);
    i < |line| && line[i] == '>'
  }

  /** The lines a paragraph goes on with. */
  predicate IsPlain(line: string) {
    !IsBlank(line) && !HeadingGuard(line) && !IsFence(line) && !IsBullet(line) && !IsNumbered(line) && !IsQuote(line)
  }

  /** A line that looks like a heading to the paragraph's guard and is none to the heading pattern. */
  predicate IsStuck(line: string) {
    HeadingGuard(line) && !IsHeading(line)
  }

  /** The pattern, as it is written: some number of hashes, some white space, then no line end up to the end. */
  ghost predicate HeadingMatch(line: string, hashes: nat, text: nat) {
    && 1 <= hashes <= 3 && hashes < text <= |line|
    && (forall i :: 0 <= i < hashes ==> line[i] == '#')
    && (forall i :: hashes <= i < text ==> IsSpace(line[i]))
    && NoLineEnd(line[text..])
  }

  /** The greedy split finds a heading whenever any split does. */
  lemma HeadingIsPattern(line: string)
    ensures IsHeading(line) <==> exists h: nat, t: nat :: HeadingMatch(line, h, t)
    ensures HeadingGuard(line) <==> exists h :: 1 <= h <= 3 && h < |line| && (forall i :: 0 <= i < h ==> line[i] == '#') && IsSpace(line[h])
  {
    if h: nat, t: nat :| HeadingMatch(line, h, t) {
      assert IsSpace(line[h]) && Hashes(line) == h;
      var m := AfterHashes(line);
      assert m >= t;
      forall i | 0 <= i < |line| - m ensures !IsLineEnd(line[m..][i]) {
        assert line[m..][i] == line[t..][m - t + i];
      }
    }
    if IsHeading(line) {
      assert HeadingMatch(line, Hashes(line), AfterHashes(line));
    }
    if h :| 1 <= h <= 3 && h < |line| && (forall i :: 0 <= i < h ==> line[i] == '#') && IsSpace(line[h]) {
      assert Hashes(line) == h;
    }
  }

  /** Only a line with a carriage return or a Unicode line separator behind its heading mark is stuck. */
  lemma StuckNeedsLineEnd(line: string)
    ensures IsStuck(line) <==> HeadingGuard(line) && exists i :: AfterHashes(line) <= i < |line| && IsLineEnd(line[i])
  {
    var m := AfterHashes(line);
    if IsStuck(line) {
      var i :| 0 <= i < |line[m..]| && IsLineEnd(line[m..][i]);
      assert IsLineEnd(line[m + i]);
    }
    if HeadingGuard(line) && exists i :: m <= i < |line| && IsLineEnd(line[i]) {
      var i :| m <= i < |line| && IsLineEnd(line[i]);
      assert line[m..][i - m] == line[i];
    }
  }

  // The other patterns, as they are written: some white space, then the mark.

  ghost predicate Spaces(line: string, i: nat) {
    i <= |line| && forall k :: 0 <= k < i ==> IsSpace(line[k])
  }

  ghost predicate FenceMatch(line: string, i: nat) {
    Spaces(line, i) && i + 3 <= |line| && line[i] == '`' && line[i + 1] == '`' && line[i + 2] == '`'
  }

  ghost predicate BulletMatch(line: string, i: nat) {
    Spaces(line, i) && i + 1 < |line| && (line[i] == '-' || line[i] == '*') && IsSpace(line[i + 1])
  }

  ghost predicate NumberMatch(line: string, i: nat, j: nat) {
    && Spaces(line, i) && i < j && j + 1 < |line| && (forall k :: i <= k < j ==> '0' <= line[k] <= '9')
    && (line[j] == '.' || line[j] == ')') && IsSpace(line[j + 1])
  }

  ghost predicate QuoteMatch(line: string, i: nat) {
    Spaces(line, i) && i < |line| && line[i] == '>'
  }

  lemma IndentIs(line: string, i: nat)
    requires Spaces(line, i) && i < |line| && !IsSpace(line[i])
    ensures Indent(line) == i
  {
  }

  lemma MarksArePatterns(line: string)
    ensures IsFence(line) <==> exists i: nat :: FenceMatch(line, i)
    ensures IsBullet(line) <==> exists i: nat :: BulletMatch(line, i)
    ensures IsQuote(line) <==> exists i: nat :: QuoteMatch(line, i)
  {
    var m := Indent(line);
    assert Spaces(line, m);
    if IsFence(line) {
      assert line[m..][0] == '`' && line[m..][1] == '`' && line[m..][2] == '`';
      assert FenceMatch(line, m);
    }
    if i: nat :| FenceMatch(line, i) {
      IndentIs(line, i);
      assert line[i..][..3] == "```";
    }
    if IsBullet(line) {
      assert BulletMatch(line, m);
    }
    if i: nat :| BulletMatch(line, i) {
      IndentIs(line, i);
    }
    if IsQuote(line) {
      assert QuoteMatch(line, m);
    }
    if i: nat :| QuoteMatch(line, i) {
      IndentIs(line, i);
    }
  }

  lemma NumberIsPattern(line: string)
    ensures IsNumbered(line) <==> exists i: nat, j: nat :: NumberMatch(line, i, j)
  {
    var m := Indent(line);
    assert Spaces(line, m);
    if IsNumbered(line) {
      assert NumberMatch(line, m, RunEnd(line, m, c => IsDigit(c)));
    }
    if i: nat, j: nat :| NumberMatch(line, i, j) {
      IndentIs(line, i);
      var e := RunEnd(line, i, c => IsDigit(c));
      assert !(e < j) && !(j < e);
    }
  }

  lemma GuardIsNothingElse(line: string)
    requires HeadingGuard(line)
    ensures !IsBlank(line) && !IsFence(line) && !IsBullet(line) && !IsNumbered(line) && !IsQuote(line)
  {
    assert line[0] == '#';
    assert Indent(line) == 0;
    assert line[0..] == line;
  }

  // ----- what a line is -----

  /** The classes of lines the loop tells apart; a stuck line is one that nothing accepts. */
  datatype Class = Blank | Fence | Heading | Bullet | Numbered | Quote | Plain | Stuck

  function ClassOf(line: string): Class {
    if IsBlank(line) then Blank
    else if IsFence(line) then Fence
    else if IsHeading(line) then Heading
    else if IsBullet(line) then Bullet
    else if IsNumbered(line) then Numbered
    else if IsQuote(line) then Quote
    else if HeadingGuard(line) then Stuck
    else Plain
  }

  /** The tests exclude one another, so that the order in which the loop makes them does not matter, and
      the class of a line says which of them it passes. */
  lemma ClassIsExact(line: string)
    ensures IsBlank(line) <==> ClassOf(line) == Blank
    ensures IsFence(line) <==> ClassOf(line) == Fence
    ensures IsHeading(line) <==> ClassOf(line) == Heading
    ensures IsBullet(line) <==> ClassOf(line) == Bullet
    ensures IsNumbered(line) <==> ClassOf(line) == Numbered
    ensures IsQuote(line) <==> ClassOf(line) == Quote
    ensures IsPlain(line) <==> ClassOf(line) == Plain
    ensures IsStuck(line) <==> ClassOf(line) == Stuck
  {
    if HeadingGuard(line) {
      GuardIsNothingElse(line);
    }
    var i := Indent(line);
    if IsBlank(line) {
      assert i == |line|;
    }
    if IsFence(line) {
      assert line[i..][0] == '`';
    }
  }

  function Classes(lines: seq<string>): (cs: seq<Class>)
    ensures |cs| == |lines| && forall k :: 0 <= k < |lines| ==> cs[k] == ClassOf(lines[k])
  {
    seq(|lines|, k requires 0 <= k < |lines| => ClassOf(lines[k]))
  }

  // ----- one turn of the loop -----

  /** The first line from i on that is not of the class (for code: that is a fence), or the end. */
  function RunOf(cs: seq<Class>, i: nat, c: Class): (j: nat)
    requires i <= |cs|
    ensures i <= j <= |cs|
    ensures forall k :: i <= k < j ==> if c == Fence then cs[k] != Fence else cs[k] == c
    ensures j < |cs| ==> if c == Fence then cs[j] == Fence else cs[j] != c
    decreases |cs| - i
  {
    if i < |cs| && (if c == Fence then cs[i] != Fence else cs[i] == c) then RunOf(cs, i + 1, c) else i
  }

  /** Where one turn of the loop that starts at line i leaves the line counter. A stuck line starts a paragraph
      of no lines. */
  function TurnEnd(cs: seq<Class>, i: nat): (j: nat)
    requires i < |cs|
    ensures j == i <==> cs[i] == Stuck
    ensures i <= j <= |cs| + 1
  {
    match cs[i]
    case Blank => i + 1
    case Heading => i + 1
    case Fence => RunOf(cs, i + 1, Fence) + 1
    case Stuck => RunOf(cs, i, Plain)
    case c => RunOf(cs, i, c)
  }

  // ----- when the loop ends -----

  /** The line counter after n turns of the loop. */
  function Position(cs: seq<Class>, n: nat): nat {
    if n == 0 then 0
    else
      var i := Position(cs, n - 1);
      if i < |cs| then TurnEnd(cs, i) else i
  }

  ghost predicate Terminates(cs: seq<Class>) {
    exists n :: Position(cs, n) >= |cs|
  }

  /** Whether line k lies inside an open fence, counting the fences before it. */
  function InFence(cs: seq<Class>, k: nat): bool
    requires k <= |cs|
  {
    if k == 0 then false
    else if cs[k - 1] == Fence then !InFence(cs, k - 1)
    else InFence(cs, k - 1)
  }

  ghost predicate StuckOutside(cs: seq<Class>, k: nat) {
    k < |cs| && cs[k] == Stuck && !InFence(cs, k)
  }

  lemma {:induction false} FenceUnchanged(cs: seq<Class>, i: nat, j: nat)
    requires i <= j <= |cs| && forall k :: i <= k < j ==> cs[k] != Fence
    ensures forall k :: i <= k <= j ==> InFence(cs, k) == InFence(cs, i)
    decreases j - i
  {
    if i < j {
      FenceUnchanged(cs, i, j - 1);
    }
  }

  /** A turn that starts outside the fences ends outside them, and the only stuck lines it passes are inside. */
  lemma TurnStaysOutside(cs: seq<Class>, i: nat)
    requires i < |cs| && !InFence(cs, i)
    ensures TurnEnd(cs, i) <= |cs| ==> !InFence(cs, TurnEnd(cs, i))
    ensures forall k: nat :: i <= k < TurnEnd(cs, i) ==> !StuckOutside(cs, k)
  {
    if cs[i] == Fence {
      FenceUnchanged(cs, i + 1, RunOf(cs, i + 1, Fence));
    } else if cs[i] != Blank && cs[i] != Heading {
      FenceUnchanged(cs, i, TurnEnd(cs, i));
    }
  }

  lemma {:induction false} PositionsOutside(cs: seq<Class>, n: nat)
    ensures Position(cs, n) <= |cs| ==> !InFence(cs, Position(cs, n))
  {
    if n > 0 {
      PositionsOutside(cs, n - 1);
      if Position(cs, n - 1) < |cs| {
        TurnStaysOutside(cs, Position(cs, n - 1));
      }
    }
  }

  /** The line counter never passes a stuck line that is outside the fences. */
  lemma {:induction false} NeverPasses(cs: seq<Class>, k: nat, n: nat)
    requires StuckOutside(cs, k)
    ensures Position(cs, n) <= k
  {
    if n > 0 {
      NeverPasses(cs, k, n - 1);
      PositionsOutside(cs, n - 1);
      TurnStaysOutside(cs, Position(cs, n - 1));
    }
  }

  lemma {:induction false} KeepsMoving(cs: seq<Class>, n: nat)
    requires forall k: nat :: !StuckOutside(cs, k)
    ensures Position(cs, n) >= n || Position(cs, n) >= |cs|
  {
    if n > 0 {
      var i := Position(cs, n - 1);
      KeepsMoving(cs, n - 1);
      if i < |cs| {
        PositionsOutside(cs, n - 1);
        assert !StuckOutside(cs, i);
        assert Position(cs, n) == TurnEnd(cs, i) > i;
      } else {
        assert Position(cs, n) == i;
      }
    }
  }

  lemma StuckHangs(cs: seq<Class>, k: nat)
    requires StuckOutside(cs, k)
    ensures !Terminates(cs)
  {
    forall n: nat ensures Position(cs, n) < |cs| {
      NeverPasses(cs, k, n);
    }
  }

  lemma ClassesTerminateExactlyWhen(cs: seq<Class>)
    ensures Terminates(cs) <==> forall k: nat :: !StuckOutside(cs, k)
  {
    if k: nat :| StuckOutside(cs, k) {
      StuckHangs(cs, k);
    } else {
      KeepsMoving(cs, |cs|);
    }
  }

  /** The loop ends exactly when every line that looks like a heading to the paragraph's guard, and is none to the
      heading pattern, lies inside fenced code. */
  lemma TerminatesExactlyWhen(lines: seq<string>)
    ensures Terminates(Classes(lines)) <==>
            forall k :: 0 <= k < |lines| && IsStuck(lines[k]) ==> InFence(Classes(lines), k)
  {
    var cs := Classes(lines);
    ClassesTerminateExactlyWhen(cs);
    forall k: nat | k < |lines| ensures StuckOutside(cs, k) <==> IsStuck(lines[k]) && !InFence(cs, k) {
      ClassIsExact(lines[k]);
    }
  }

  /** Text without carriage returns and Unicode line separators always renders. */
  lemma PlainTextTerminates(lines: seq<string>)
    requires forall k, i :: 0 <= k < |lines| && 0 <= i < |lines[k]| ==> !IsLineEnd(lines[k][i])
    ensures Terminates(Classes(lines))
  {
    forall k | 0 <= k < |lines| ensures !IsStuck(lines[k]) {
      StuckNeedsLineEnd(lines[k]);
    }
    TerminatesExactlyWhen(lines);
  }

  /** A message on which it does not end: a heading that ends in a carriage return. */
  lemma CarriageReturnHangs()
    ensures !Terminates(Classes(["# T\r"]))
  {
    var line := "# T\r";
    assert Hashes(line) == 1;
    assert AfterHashes(line) == 2;
    assert IsLineEnd(line[3]);
    StuckNeedsLineEnd(line);
    assert IsStuck([line][0]) && !InFence(Classes([line]), 0);
    TerminatesExactlyWhen([line]);
  }

  // ----- the blocks -----

  /** One turn's lines: the class of the first, and the lines themselves. */
  datatype Piece = Piece(class_: Class, lines: seq<string>)

  function Min(a: nat, b: nat): nat {
    if a < b then a else b
  }

  function PieceAt(lines: seq<string>, i: nat, j: nat): Piece
    requires i < |lines| && i < j
  {
    Piece(ClassOf(lines[i]), lines[i..Min(j, |lines|)])
  }

  /** The turns from line i on, up to the end or to a stuck line. */
  function Pieces(lines: seq<string>, i: nat): seq<Piece>
    decreases |lines| - i
  {
    if i >= |lines| then []
    else
      var j := TurnEnd(Classes(lines), i);
      if j <= i then [] else [PieceAt(lines, i, j)] + Pieces(lines, j)
  }

  function Flatten(pieces: seq<Piece>): seq<string> {
    if pieces == [] then [] else pieces[0].lines + Flatten(pieces[1..])
  }

  /** The pieces from line i on are consecutive: together they are the lines from i up to the first stuck line
      that is outside the fences, or to the end if there is none. */
  lemma {:induction false} PiecesCoverLines(lines: seq<string>, i: nat) returns (end: nat)
    requires i <= |lines| && !InFence(Classes(lines), i)
    ensures i <= end <= |lines| && Flatten(Pieces(lines, i)) == lines[i..end]
    ensures end < |lines| ==> StuckOutside(Classes(lines), end)
    ensures forall k: nat :: i <= k < end ==> !StuckOutside(Classes(lines), k)
    decreases |lines| - i
  {
    if i == |lines| {
      return i;
    }
    var j := TurnEnd(Classes(lines), i);
    TurnStaysOutside(Classes(lines), i);
    if j <= i {
      return i;
    }
    OnePiece(PieceAt(lines, i, j), Pieces(lines, j));
    if j > |lines| {
      return |lines|;
    }
    end := PiecesCoverLines(lines, j);
    SliceJoin(lines, i, j, end);
  }

  lemma OnePiece(p: Piece, rest: seq<Piece>)
    ensures Flatten([p] + rest) == p.lines + Flatten(rest)
  {
    assert ([p] + rest)[1..] == rest;
  }

  lemma SliceJoin(lines: seq<string>, i: nat, j: nat, k: nat)
    requires i <= j <= k <= |lines|
    ensures lines[i..j] + lines[j..k] == lines[i..k]
  {
  }

  /** Every line is consumed exactly once, in order, whenever the loop ends. */
  lemma EachLineOnce(lines: seq<string>)
    requires Terminates(Classes(lines))
    ensures Flatten(Pieces(lines, 0)) == lines
  {
    ClassesTerminateExactlyWhen(Classes(lines));
    var end := PiecesCoverLines(lines, 0);
    assert lines[0..|lines|] == lines;
  }

  /** What a piece looks like: one blank line or heading, a fence with what is between it and the next, or
      lines that all pass the test of its kind. */
  predicate WellFormed(p: Piece) {
    p.lines != [] &&
    match p.class_
    case Blank => |p.lines| == 1 && IsBlank(p.lines[0])
    case Heading => |p.lines| == 1 && IsHeading(p.lines[0])
    case Fence => IsFence(p.lines[0]) && forall k :: 1 <= k < |p.lines| - 1 ==> !IsFence(p.lines[k])
    case Bullet => forall k :: 0 <= k < |p.lines| ==> IsBullet(p.lines[k])
    case Numbered => forall k :: 0 <= k < |p.lines| ==> IsNumbered(p.lines[k])
    case Quote => forall k :: 0 <= k < |p.lines| ==> IsQuote(p.lines[k])
    case Plain => forall k :: 0 <= k < |p.lines| ==> IsPlain(p.lines[k])
    case Stuck => false
  }

  lemma {:induction false} PiecesAreWellFormed(lines: seq<string>, i: nat)
    ensures forall p :: p in Pieces(lines, i) ==> WellFormed(p)
    decreases |lines| - i
  {
    if i < |lines| && TurnEnd(Classes(lines), i) > i {
      PiecesAreWellFormed(lines, TurnEnd(Classes(lines), i));
      FirstPieceIsWellFormed(lines, i);
    }
  }

  lemma FirstPieceIsWellFormed(lines: seq<string>, i: nat)
    requires i < |lines| && TurnEnd(Classes(lines), i) > i
    ensures WellFormed(PieceAt(lines, i, TurnEnd(Classes(lines), i)))
  {
    var p := PieceAt(lines, i, TurnEnd(Classes(lines), i));
    forall k | 0 <= k < |p.lines|
      ensures p.lines[k] == lines[i + k] && ClassOf(p.lines[k]) == Classes(lines)[i + k]
    {
    }
    forall k | 0 <= k < |p.lines| {
      ClassIsExact(p.lines[k]);
    }
  }

  /** No piece could be longer: what follows a list, a quote or a paragraph is no line of the same kind, and a fenced
      block that something follows ends with its closing fence. */
  predicate AsLongAsCanBe(p: Piece, next: Piece) {
    && (p.class_ in {Bullet, Numbered, Quote, Plain} ==> next.class_ != p.class_)
    && (p.class_ == Fence ==> |p.lines| >= 2 && IsFence(p.lines[|p.lines| - 1]))
  }

  lemma FenceEnds(cs: seq<Class>, i: nat)
    requires i < |cs| && cs[i] == Fence && TurnEnd(cs, i) < |cs|
    ensures TurnEnd(cs, i) >= i + 2 && cs[TurnEnd(cs, i) - 1] == Fence
  {
  }

  /** The fences among the lines, as the classes have them. */
  ghost predicate KnowsFences(lines: seq<string>, cs: seq<Class>) {
    |cs| == |lines| && forall k :: 0 <= k < |lines| ==> (cs[k] == Fence <==> IsFence(lines[k]))
  }

  lemma ClassesKnowFences(lines: seq<string>)
    ensures KnowsFences(lines, Classes(lines))
  {
    forall k | 0 <= k < |lines| ensures Classes(lines)[k] == Fence <==> IsFence(lines[k]) {
      ClassIsExact(lines[k]);
    }
  }

  lemma NeighboursDiffer(lines: seq<string>, cs: seq<Class>, i: nat, p: Piece, next: Piece)
    requires i < |cs| && KnowsFences(lines, cs) && i < TurnEnd(cs, i) < |cs|
    requires p.class_ == cs[i] && p.lines == lines[i..TurnEnd(cs, i)] && next.class_ == cs[TurnEnd(cs, i)]
    ensures AsLongAsCanBe(p, next)
  {
    if cs[i] == Fence {
      FenceEnds(cs, i);
      assert p.lines[|p.lines| - 1] == lines[TurnEnd(cs, i) - 1];
    }
  }

  lemma ClassAt(lines: seq<string>, i: nat, j: nat)
    requires i < |lines| && i < j
    ensures PieceAt(lines, i, j).class_ == Classes(lines)[i]
    ensures j <= |lines| ==> PieceAt(lines, i, j).lines == lines[i..j]
  {
  }

  lemma {:induction false} PiecesAreLongest(lines: seq<string>, i: nat)
    ensures forall k :: 0 <= k < |Pieces(lines, i)| - 1 ==> AsLongAsCanBe(Pieces(lines, i)[k], Pieces(lines, i)[k + 1])
    decreases |lines| - i
  {
    if i < |lines| && TurnEnd(Classes(lines), i) > i {
      var j := TurnEnd(Classes(lines), i);
      PiecesAreLongest(lines, j);
      var rest := Pieces(lines, j);
      if rest != [] {
        ClassesKnowFences(lines);
        ClassAt(lines, i, j);
        ClassAt(lines, j, TurnEnd(Classes(lines), j));
        NeighboursDiffer(lines, Classes(lines), i, PieceAt(lines, i, j), rest[0]);
      }
      forall k | 0 <= k < |rest| ensures Pieces(lines, i)[k + 1] == rest[k] {
      }
    }
  }

  // ----- the loop, as it runs -----

  datatype Result = Rendered(pieces: seq<Piece>) | Hangs(line: nat)

  /** The test of the inner loop that gathers a block of the given class. */
  predicate GoesOn(c: Class, line: string) {
    match c
    case Fence => !IsFence(line)
    case Bullet => IsBullet(line)
    case Numbered => IsNumbered(line)
    case Quote => IsQuote(line)
    case _ => IsPlain(line)
  }

  method Turn(lines: seq<string>, start: nat) returns (i: nat)
    requires start < |lines|
    ensures i == TurnEnd(Classes(lines), start)
  {
    var c := ClassOf(lines[start]);
    i := start;
    if c == Blank || c == Heading {
      return i + 1;
    }
    if c == Fence {
      i := i + 1;
    }
    ghost var cs := Classes(lines);
    ghost var run := if c == Stuck then Plain else c;
    ghost var from := i;
    while i < |lines| && GoesOn(c, lines[i])
      invariant from <= i <= |lines| && RunOf(cs, from, run) == RunOf(cs, i, run)
    {
      ClassIsExact(lines[i]);
      i := i + 1;
    }
    if i < |lines| {
      ClassIsExact(lines[i]);
    }
    if c == Fence {
      i := i + 1;
    }
  }

  /** After n turns the loop is at line i with the pieces of the lines before. */
  ghost predicate Rendering(lines: seq<string>, pieces: seq<Piece>, i: nat, n: nat) {
    i == Position(Classes(lines), n) && Pieces(lines, 0) == pieces + Pieces(lines, i)
  }

  lemma RenderingStarts(lines: seq<string>)
    ensures Rendering(lines, [], 0, 0)
  {
  }

  lemma RenderingStep(lines: seq<string>, pieces: seq<Piece>, i: nat, n: nat)
    requires Rendering(lines, pieces, i, n) && i < |lines|
    ensures var j := TurnEnd(Classes(lines), i);
            if j == i then StuckOutside(Classes(lines), i) && !Terminates(Classes(lines))
            else Rendering(lines, pieces + [PieceAt(lines, i, j)], j, n + 1)
  {
    PositionsOutside(Classes(lines), n);
    if TurnEnd(Classes(lines), i) > i {
      PiecesStep(lines, pieces, i);
    } else {
      StuckHangs(Classes(lines), i);
    }
  }

  lemma PiecesStep(lines: seq<string>, pieces: seq<Piece>, i: nat)
    requires i < |lines| && TurnEnd(Classes(lines), i) > i
    ensures var j := TurnEnd(Classes(lines), i);
            pieces + Pieces(lines, i) == pieces + [PieceAt(lines, i, j)] + Pieces(lines, j)
  {
  }

  lemma RenderingDone(lines: seq<string>, pieces: seq<Piece>, i: nat, n: nat)
    requires Rendering(lines, pieces, i, n) && i >= |lines|
    ensures Terminates(Classes(lines)) && pieces == Pieces(lines, 0) && Flatten(pieces) == lines
  {
    EachLineOnce(lines);
  }

  /** Renders, or reports the line at which the loop would turn forever. */
  method RenderBlocks(lines: seq<string>) returns (r: Result)
    ensures r.Rendered? <==> Terminates(Classes(lines))
    ensures r.Rendered? ==> r.pieces == Pieces(lines, 0) && Flatten(r.pieces) == lines
    ensures r.Rendered? ==> forall k :: 0 <= k < |r.pieces| ==> WellFormed(r.pieces[k])
    ensures r.Rendered? ==> forall k :: 0 <= k < |r.pieces| - 1 ==> AsLongAsCanBe(r.pieces[k], r.pieces[k + 1])
    ensures r.Hangs? ==> StuckOutside(Classes(lines), r.line)
  {
    var pieces: seq<Piece> := [];
    var i := 0;
    ghost var n := 0;
    RenderingStarts(lines);
    while i < |lines|
      invariant Rendering(lines, pieces, i, n)
      decreases |lines| - i
    {
      RenderingStep(lines, pieces, i, n);
      var next := Turn(lines, i);
      if next == i {
        return Hangs(i);
      }
      pieces := pieces + [PieceAt(lines, i, next)];
      i, n := next, n + 1;
    }
    RenderingDone(lines, pieces, i, n);
    PiecesAreWellFormed(lines, 0);
    PiecesAreLongest(lines, 0);
    return Rendered(pieces);
  }
}
