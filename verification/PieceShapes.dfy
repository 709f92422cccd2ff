/** What the pieces look like, by shape and in order of preference, and that this fixes where text is cut:
    src/qwen/qwen_tokenizer.cc:95-250. */
module PieceShapes {
  import opened Utf8
  import opened Utf8Units
  import opened Pretokenizing

  // ---------------------------------------------------------------- kinds of characters

  datatype Kind = Letter | Digit | Newline | Space | Mark

  /** Line feed and carriage return; the other ASCII blanks and the Unicode spaces; ASCII digits; the rest of ASCII but its
      letters; and everything else. */
  function KindOf(c: bv32): Kind {
    if c in {0x0A, 0x0D} then Newline
    else if c in {0x09, 0x0B, 0x0C, 0x20, 0xA0, 0x1680, 0x2028, 0x2029, 0x202F, 0x205F, 0x3000} || 0x2000 <= c <= 0x200A then Space
    else if 0x30 <= c <= 0x39 then Digit
    else if c < 0x41 || 0x5A < c < 0x61 || 0x7A < c < 0x80 then Mark
    else Letter
  }

  /** The tests of the code, by kind. */
  lemma KindsAre(c: bv32)
    ensures IsLetter(c) <==> KindOf(c) == Letter
    ensures IsNumber(c) <==> KindOf(c) == Digit
    ensures IsNewline(c) <==> KindOf(c) == Newline
    ensures IsSpace(c) <==> KindOf(c) in {Space, Newline}
    ensures IsOther(c) <==> KindOf(c) == Mark
    ensures c == 0x20 ==> KindOf(c) == Space
    ensures c == 0x27 ==> KindOf(c) == Mark
  {
  }

  function At(units: seq<Unit>, i: nat): Kind
    requires i < |units|
  {
    KindOf(units[i].codepoint)
  }

  predicate Is(units: seq<Unit>, i: nat, kind: Kind) {
    i < |units| && At(units, i) == kind
  }

  /** All of these kinds, and as far as possible. */
  ghost predicate Run(units: seq<Unit>, from: nat, to: nat, kinds: set<Kind>) {
    && from <= to <= |units|
    && (forall i :: from <= i < to ==> At(units, i) in kinds)
    && (to < |units| ==> At(units, to) !in kinds)
  }

  lemma RunInside(units: seq<Unit>, from: nat, to: nat, kinds: set<Kind>, i: nat)
    requires Run(units, from, to, kinds) && from <= i < to
    ensures i < |units| && At(units, i) in kinds
  {
  }

  lemma RunOnce(units: seq<Unit>, from: nat, a: nat, b: nat, kinds: set<Kind>)
    requires Run(units, from, a, kinds) && Run(units, from, b, kinds)
    ensures a == b
  {
    if a < b {
      RunInside(units, from, b, kinds, a);
    } else if b < a {
      RunInside(units, from, a, kinds, b);
    }
  }

  // ---------------------------------------------------------------- shapes of pieces

  /** Capital ASCII letters read as small ones. */
  function Small(c: bv32): bv32 {
    if 0x41 <= c <= 0x5A then c | 0x20 else c
  }

  /** These letters stand there, small or capital. */
  predicate Spelt(units: seq<Unit>, from: nat, letters: seq<bv32>) {
    from + |letters| <= |units| && forall i :: 0 <= i < |letters| ==> Small(units[from + i].codepoint) == letters[i]
  }

  /** What may follow the apostrophe of a contraction: s, t, re, ve, m, ll or d. */
  predicate Suffix(letters: seq<bv32>) {
    letters in {[0x73], [0x74], [0x72, 0x65], [0x76, 0x65], [0x6D], [0x6C, 0x6C], [0x64]}
  }

  ghost predicate Contracted(units: seq<Unit>, a: nat, b: nat) {
    && a < |units| && units[a].codepoint == 0x27
    && exists letters :: Suffix(letters) && Spelt(units, a + 1, letters) && b == a + 1 + |letters|
  }

  /** Letters to the end of their run, with at most one character before them that is no letter, digit or newline. */
  ghost predicate Word(units: seq<Unit>, a: nat, b: nat) {
    || (Is(units, a, Letter) && Run(units, a, b, {Letter}))
    || ((Is(units, a, Space) || Is(units, a, Mark)) && Is(units, a + 1, Letter) && Run(units, a + 1, b, {Letter}))
  }

  /** Marks to the end of their run: after a single blank, or with the newlines that follow. */
  ghost predicate Marks(units: seq<Unit>, a: nat, b: nat) {
    || (Is(units, a, Mark) && exists m :: Run(units, a, m, {Mark}) && Run(units, m, b, {Newline}))
    || (a < |units| && units[a].codepoint == 0x20 && Is(units, a + 1, Mark) && Run(units, a + 1, b, {Mark}))
  }

  datatype Shape = Shortened | Worded | OneDigit | Lines | Marked | Blank

  ghost predicate Shaped(units: seq<Unit>, a: nat, b: nat, shape: Shape) {
    match shape
    case Shortened => Contracted(units, a, b)
    case Worded => Word(units, a, b)
    case OneDigit => Is(units, a, Digit) && b == a + 1
    case Lines => Is(units, a, Newline) && Run(units, a, b, {Newline, Space})
    case Marked => Marks(units, a, b)
    case Blank => Is(units, a, Space) && Run(units, a, b, {Space})
  }

  /** The order of preference. */
  function Preference(shape: Shape): nat {
    match shape
    case Shortened => 0
    case Worded => 1
    case OneDigit => 2
    case Lines => 3
    case Marked => 4
    case Blank => 5
  }

  /** Nothing of a preferred shape starts here. */
  ghost predicate Foremost(units: seq<Unit>, a: nat, shape: Shape) {
    forall other, c: nat :: Preference(other) < Preference(shape) ==> !Shaped(units, a, c, other)
  }

  ghost predicate Piece(units: seq<Unit>, a: nat, b: nat) {
    exists shape :: Shaped(units, a, b, shape) && Foremost(units, a, shape)
  }

  // ---------------------------------------------------------------- the shapes fix the cut

  lemma SpeltOnce(units: seq<Unit>, from: nat, s: seq<bv32>, t: seq<bv32>)
    requires Suffix(s) && Suffix(t) && Spelt(units, from, s) && Spelt(units, from, t)
    ensures s == t
  {
    assert s[0] == t[0];
    assert |s| == |t|;
    assert |s| == 2 ==> s[1] == t[1];
  }

  lemma ContractedOnce(units: seq<Unit>, a: nat, b: nat, c: nat)
    requires Contracted(units, a, b) && Contracted(units, a, c)
    ensures b == c
  {
    hide Suffix, Spelt;
    var s :| Suffix(s) && Spelt(units, a + 1, s) && b == a + 1 + |s|;
    var t :| Suffix(t) && Spelt(units, a + 1, t) && c == a + 1 + |t|;
    SpeltOnce(units, a + 1, s, t);
  }

  lemma WordOnce(units: seq<Unit>, a: nat, b: nat, c: nat)
    requires Word(units, a, b) && Word(units, a, c)
    ensures b == c
  {
    hide Run;
    RunOnce(units, if Is(units, a, Letter) then a else a + 1, b, c, {Letter});
  }

  lemma MarksOnce(units: seq<Unit>, a: nat, b: nat, c: nat)
    requires Marks(units, a, b) && Marks(units, a, c)
    ensures b == c
  {
    hide Run, KindOf;
    if Is(units, a, Mark) {
      KindsAre(units[a].codepoint);
      var m: nat :| Run(units, a, m, {Mark}) && Run(units, m, b, {Newline});
      var n: nat :| Run(units, a, n, {Mark}) && Run(units, n, c, {Newline});
      RunOnce(units, a, m, n, {Mark});
      RunOnce(units, m, b, c, {Newline});
    } else {
      RunOnce(units, a + 1, b, c, {Mark});
    }
  }

  lemma ShapedOnce(units: seq<Unit>, a: nat, b: nat, c: nat, shape: Shape)
    requires Shaped(units, a, b, shape) && Shaped(units, a, c, shape)
    ensures b == c
  {
    hide Contracted, Word, Marks, Run;
    match shape {
      case Shortened => ContractedOnce(units, a, b, c);
      case Worded => WordOnce(units, a, b, c);
      case OneDigit =>
      case Lines => RunOnce(units, a, b, c, {Newline, Space});
      case Marked => MarksOnce(units, a, b, c);
      case Blank => RunOnce(units, a, b, c, {Space});
    }
  }

  lemma PreferenceOnce(s: Shape, t: Shape)
    requires Preference(s) == Preference(t)
    ensures s == t
  {
  }

  /** A piece that starts at a given place ends at one place only. */
  lemma PieceOnce(units: seq<Unit>, a: nat, b: nat, c: nat)
    requires Piece(units, a, b) && Piece(units, a, c)
    ensures b == c
  {
    hide Shaped, Preference;
    var s :| Shaped(units, a, b, s) && Foremost(units, a, s);
    var t :| Shaped(units, a, c, t) && Foremost(units, a, t);
    assert !(Preference(s) < Preference(t)) && !(Preference(t) < Preference(s));
    PreferenceOnce(s, t);
    ShapedOnce(units, a, b, c, s);
  }

  // ---------------------------------------------------------------- the code cuts pieces of these shapes

  function KindsOf(class_: Class): set<Kind> {
    match class_
    case Letters => {Letter}
    case Others => {Mark}
    case SpacesOrNewlines => {Newline, Space}
    case Blanks => {Space}
    case Newlines => {Newline}
  }

  lemma ClassIs(class_: Class, c: bv32)
    ensures InClass(class_, c) <==> KindOf(c) in KindsOf(class_)
  {
    hide KindOf;
    KindsAre(c);
  }

  lemma {:induction false} RunEndRuns(units: seq<Unit>, end: nat, class_: Class)
    requires end <= |units|
    ensures Run(units, end, RunEnd(units, end, class_), KindsOf(class_))
    decreases |units| - end
  {
    hide InClass, KindOf, KindsOf;
    if end < |units| {
      ClassIs(class_, units[end].codepoint);
      if InClass(class_, units[end].codepoint) {
        RunEndRuns(units, end + 1, class_);
      }
    }
  }

  lemma RunLonger(units: seq<Unit>, a: nat, b: nat, kinds: set<Kind>)
    requires a < |units| && At(units, a) in kinds && Run(units, a + 1, b, kinds)
    ensures Run(units, a, b, kinds)
  {
  }

  lemma SmallIs(c: bv32, letter: bv32)
    requires 0x61 <= letter <= 0x7A
    ensures c < 128 && ToLower(c) == letter <==> Small(c) == letter
  {
  }

  lemma {:induction false} MatchesSpelt(units: seq<Unit>, at: nat, suffix: seq<bv32>)
    requires forall i :: 0 <= i < |suffix| ==> 0x61 <= suffix[i] <= 0x7A
    requires at <= |units|
    ensures Matches(units, at, suffix) <==> Spelt(units, at, suffix)
    decreases |suffix|
  {
    hide ToLower, Small;
    if suffix != [] && at < |units| {
      SmallIs(units[at].codepoint, suffix[0]);
      MatchesSpelt(units, at + 1, suffix[1..]);
      SpeltCons(units, at, suffix);
    }
  }

  lemma SpeltCons(units: seq<Unit>, at: nat, suffix: seq<bv32>)
    requires suffix != [] && at < |units|
    ensures Spelt(units, at, suffix) <==> Small(units[at].codepoint) == suffix[0] && Spelt(units, at + 1, suffix[1..])
  {
    hide Small;
    var rest := suffix[1..];
    if Spelt(units, at, suffix) {
      assert Small(units[at + 0].codepoint) == suffix[0];
      forall i | 0 <= i < |rest| ensures Small(units[at + 1 + i].codepoint) == rest[i] {
        assert rest[i] == suffix[i + 1] && units[at + (i + 1)] == units[at + 1 + i];
      }
    }
    if Small(units[at].codepoint) == suffix[0] && Spelt(units, at + 1, rest) {
      forall i | 0 <= i < |suffix| ensures Small(units[at + i].codepoint) == suffix[i] {
        if i > 0 {
          assert rest[i - 1] == suffix[i] && units[at + 1 + (i - 1)] == units[at + i];
        }
      }
    }
  }

  lemma SuffixesAre(j: nat)
    requires j < |SUFFIXES|
    ensures Suffix(SUFFIXES[j]) && forall i :: 0 <= i < |SUFFIXES[j]| ==> 0x61 <= SUFFIXES[j][i] <= 0x7A
  {
  }

  lemma SuffixListed(letters: seq<bv32>) returns (j: nat)
    requires Suffix(letters)
    ensures j < |SUFFIXES| && SUFFIXES[j] == letters
  {
    j := if letters == [0x73] then 0 else if letters == [0x74] then 1 else if letters == [0x72, 0x65] then 2
    else if letters == [0x76, 0x65] then 3 else if letters == [0x6D] then 4 else if letters == [0x6C, 0x6C] then 5 else 6;
  }

  lemma {:induction false} FromSpelt(units: seq<Unit>, offset: nat, j: nat) returns (letters: seq<bv32>)
    requires offset < |units| && j <= |SUFFIXES|
    ensures var r := ContractionFrom(units, offset, j);
            if r == 0 then forall i :: j <= i < |SUFFIXES| ==> !Spelt(units, offset + 1, SUFFIXES[i])
            else Suffix(letters) && Spelt(units, offset + 1, letters) && r == 1 + |letters|
    decreases |SUFFIXES| - j
  {
    hide Suffix, Spelt, Matches;
    letters := [];
    if j < |SUFFIXES| {
      letters := SUFFIXES[j];
      SuffixesAre(j);
      MatchesSpelt(units, offset + 1, letters);
      if !Matches(units, offset + 1, letters) {
        letters := FromSpelt(units, offset, j + 1);
      }
    }
  }

  lemma ContractionIs(units: seq<Unit>, a: nat)
    requires a < |units|
    ensures var n := Contraction(units, a);
            if n > 0 then Contracted(units, a, a + n) else forall c: nat :: !Contracted(units, a, c)
  {
    hide Suffix, Spelt, ContractionFrom;
    if units[a].codepoint == 0x27 {
      var letters := FromSpelt(units, a, 0);
      if ContractionFrom(units, a, 0) == 0 {
        forall c: nat ensures !Contracted(units, a, c) {
          NotContracted(units, a, c);
        }
      }
    }
  }

  lemma NotContracted(units: seq<Unit>, a: nat, c: nat)
    requires forall i :: 0 <= i < |SUFFIXES| ==> !Spelt(units, a + 1, SUFFIXES[i])
    ensures !Contracted(units, a, c)
  {
    hide Suffix, Spelt;
    if Contracted(units, a, c) {
      var letters :| Suffix(letters) && Spelt(units, a + 1, letters);
      var j := SuffixListed(letters);
      assert false;
    }
  }

  lemma WordIs(units: seq<Unit>, a: nat)
    requires a < |units|
    ensures if IsLetter(units[a].codepoint) || PrefixedLetter(units, a) then Word(units, a, RunEnd(units, a + 1, Letters))
            else forall c: nat :: !Word(units, a, c)
  {
    hide KindOf, Run, RunEnd, IsLetter, IsNumber, IsNewline, IsSpace, IsOther;
    KindsAre(units[a].codepoint);
    RunEndRuns(units, a + 1, Letters);
    if a + 1 < |units| {
      KindsAre(units[a + 1].codepoint);
    }
    if IsLetter(units[a].codepoint) {
      RunLonger(units, a, RunEnd(units, a + 1, Letters), {Letter});
    }
  }

  /** The end of the marks that start here, with or without a blank, and what makes the difference. */
  lemma MarksAre(units: seq<Unit>, a: nat)
    requires a < |units|
    ensures IsOther(units[a].codepoint) ==> Marks(units, a, RunEnd(units, RunEnd(units, a + 1, Others), Newlines))
    ensures units[a].codepoint == 0x20 && a + 1 < |units| && IsOther(units[a + 1].codepoint) ==>
              Marks(units, a, RunEnd(units, a + 1, Others))
    ensures !IsOther(units[a].codepoint) && !(units[a].codepoint == 0x20 && Is(units, a + 1, Mark)) ==>
              forall c: nat :: !Marks(units, a, c)
  {
    hide KindOf, Run, RunEnd, IsLetter, IsNumber, IsNewline, IsSpace, IsOther;
    KindsAre(units[a].codepoint);
    RunEndRuns(units, a + 1, Others);
    var m := RunEnd(units, a + 1, Others);
    if a + 1 < |units| {
      KindsAre(units[a + 1].codepoint);
    }
    if IsOther(units[a].codepoint) {
      RunLonger(units, a, m, {Mark});
      RunEndRuns(units, m, Newlines);
    }
  }

  lemma PieceOf(units: seq<Unit>, a: nat, b: nat, shape: Shape)
    requires Shaped(units, a, b, shape)
    requires shape.Shortened? || forall c: nat :: !Contracted(units, a, c)
    requires shape.Shortened? || shape.Worded? || forall c: nat :: !Word(units, a, c)
    requires shape.Shortened? || shape.Worded? || At(units, a) != Digit || shape.OneDigit?
    requires shape.Shortened? || shape.Worded? || shape.OneDigit? || At(units, a) != Newline || shape.Lines?
    requires shape.Blank? ==> forall c: nat :: !Marks(units, a, c)
    ensures Piece(units, a, b)
  {
    hide Contracted, Word, Marks, Run, KindOf;
    forall other, c: nat | Preference(other) < Preference(shape) ensures !Shaped(units, a, c, other) {
    }
    assert Foremost(units, a, shape);
  }

  /** Every piece that the code cuts is the preferred one. */
  lemma PieceEnds(units: seq<Unit>, a: nat)
    requires a < |units|
    ensures Piece(units, a, PieceEnd(units, a))
  {
    hide Contracted, Word, Marks, KindOf, Piece, IsLetter, IsNumber, IsNewline, IsSpace, IsOther, PrefixedLetter, Run,
      Contraction, RunEnd;
    var c := units[a].codepoint;
    var end := PieceEnd(units, a);
    KindsAre(c);
    ContractionIs(units, a);
    WordIs(units, a);
    MarksAre(units, a);
    if Contraction(units, a) > 0 {
      PieceOf(units, a, end, Shortened);
    } else if IsLetter(c) || PrefixedLetter(units, a) {
      PieceOf(units, a, end, Worded);
    } else if IsNumber(c) {
      PieceOf(units, a, end, OneDigit);
    } else if IsNewline(c) {
      RunEndRuns(units, a + 1, SpacesOrNewlines);
      RunLonger(units, a, end, {Newline, Space});
      PieceOf(units, a, end, Lines);
    } else if IsSpace(c) {
      SpacePiece(units, a);
    } else {
      PieceOf(units, a, end, Marked);
    }
  }

  lemma SpacePiece(units: seq<Unit>, a: nat)
    requires a < |units| && At(units, a) == Space
    requires Contraction(units, a) == 0 && !IsLetter(units[a].codepoint) && !PrefixedLetter(units, a)
    requires (forall c: nat :: !Contracted(units, a, c)) && (forall c: nat :: !Word(units, a, c))
    ensures Piece(units, a, PieceEnd(units, a))
  {
    hide Contracted, Word, Marks, KindOf, Piece, IsLetter, IsNumber, IsNewline, IsSpace, IsOther, PrefixedLetter, Run,
      Contraction, RunEnd;
    var c := units[a].codepoint;
    KindsAre(c);
    MarksAre(units, a);
    if a + 1 < |units| {
      KindsAre(units[a + 1].codepoint);
    }
    if c == 0x20 && a + 1 < |units| && IsOther(units[a + 1].codepoint) {
      PieceOf(units, a, RunEnd(units, a + 1, Others), Marked);
    } else {
      RunEndRuns(units, a + 1, Blanks);
      RunLonger(units, a, RunEnd(units, a + 1, Blanks), {Space});
      PieceOf(units, a, RunEnd(units, a + 1, Blanks), Blank);
    }
  }

  // ---------------------------------------------------------------- the whole text

  /** From one place to the next, the preferred piece. */
  ghost predicate PartAt(units: seq<Unit>, at: seq<nat>, j: nat)
    requires j + 1 < |at|
  {
    at[j] < at[j + 1] <= |units| && Piece(units, at[j], at[j + 1])
  }

  /** The text cut at these places from `offset` on. */
  ghost predicate CutFrom(units: seq<Unit>, offset: nat, at: seq<nat>) {
    && at != [] && at[0] == offset && at[|at| - 1] == |units|
    && forall j :: 0 <= j < |at| - 1 ==> PartAt(units, at, j)
  }

  lemma {:induction false} PiecesCut(units: seq<Unit>, offset: nat) returns (at: seq<nat>)
    requires offset <= |units|
    ensures CutFrom(units, offset, at)
    decreases |units| - offset
  {
    hide Piece, PieceEnd;
    at := [offset];
    if offset < |units| {
      var end := PieceEnd(units, offset);
      PieceEnds(units, offset);
      var rest := PiecesCut(units, end);
      at := at + rest;
      CutLonger(units, offset, rest);
    }
  }

  lemma CutLonger(units: seq<Unit>, offset: nat, rest: seq<nat>)
    requires rest != [] && CutFrom(units, rest[0], rest) && offset < rest[0] <= |units| && Piece(units, offset, rest[0])
    ensures CutFrom(units, offset, [offset] + rest)
  {
    hide Piece;
    var at := [offset] + rest;
    forall j | 0 <= j < |at| - 1 ensures PartAt(units, at, j) {
      if j > 0 {
        assert PartAt(units, rest, j - 1);
      }
    }
  }

  lemma CutRest(units: seq<Unit>, at: seq<nat>)
    requires |at| > 1 && CutFrom(units, at[0], at)
    ensures at[0] < at[1] <= |units| && Piece(units, at[0], at[1]) && CutFrom(units, at[1], at[1..])
  {
    hide Piece;
    var rest := at[1..];
    assert PartAt(units, at, 0);
    forall j | 0 <= j < |rest| - 1 ensures PartAt(units, rest, j) {
      assert PartAt(units, at, j + 1);
    }
  }

  /** The text from place j to the next. */
  predicate TextAt(units: seq<Unit>, at: seq<nat>, piece: Str, j: nat)
    requires j + 1 < |at|
  {
    at[j] <= at[j + 1] <= |units| && piece == JoinUnits(units[at[j]..at[j + 1]])
  }

  /** The pieces are the text between the places. */
  ghost predicate PiecesAt(units: seq<Unit>, at: seq<nat>, pieces: seq<Str>) {
    |at| == |pieces| + 1 && forall j :: 0 <= j < |pieces| ==> TextAt(units, at, pieces[j], j)
  }

  lemma {:induction false} PiecesBetween(units: seq<Unit>, offset: nat, at: seq<nat>)
    requires CutFrom(units, offset, at) && offset <= |units|
    ensures PiecesAt(units, at, Pieces(units, offset))
    decreases |at|
  {
    hide Piece, PieceEnd;
    if |at| > 1 {
      CutRest(units, at);
      PieceEnds(units, offset);
      PieceOnce(units, offset, at[1], PieceEnd(units, offset));
      PiecesBetween(units, at[1], at[1..]);
      var pieces, rest := Pieces(units, offset), Pieces(units, at[1]);
      assert pieces == [JoinUnits(units[offset..at[1]])] + rest;
      forall j | 0 <= j < |pieces| ensures TextAt(units, at, pieces[j], j) {
        if j > 0 {
          assert TextAt(units, at[1..], rest[j - 1], j - 1);
        }
      }
    }
  }

  /** Two cuts from the same place are the same. */
  lemma {:induction false} CutOnce(units: seq<Unit>, offset: nat, a: seq<nat>, b: seq<nat>)
    requires CutFrom(units, offset, a) && CutFrom(units, offset, b)
    ensures a == b
    decreases |a|
  {
    hide Piece;
    if |a| > 1 && |b| > 1 {
      CutRest(units, a);
      CutRest(units, b);
      PieceOnce(units, offset, a[1], b[1]);
      CutOnce(units, a[1], a[1..], b[1..]);
      assert a == [a[0]] + a[1..] && b == [b[0]] + b[1..];
    } else {
      CutShort(units, offset, a);
      CutShort(units, offset, b);
    }
  }

  lemma CutShort(units: seq<Unit>, offset: nat, at: seq<nat>)
    requires CutFrom(units, offset, at)
    ensures |at| > 1 <==> offset != |units|
    ensures |at| == 1 ==> at == [offset]
  {
    hide Piece;
    if |at| > 1 {
      CutRest(units, at);
    }
  }

  /** Well-formed text can be cut into preferred pieces in one way only, and pretokenize cuts it so. */
  lemma CutsOneWay(text: Str) returns (at: seq<nat>)
    requires WellFormed(text)
    ensures SplitUtf8(text).Some? && Pretokenize(text).Some?
    ensures CutFrom(SplitUtf8(text).value, 0, at) && PiecesAt(SplitUtf8(text).value, at, Pretokenize(text).value)
    ensures forall other :: CutFrom(SplitUtf8(text).value, 0, other) ==> other == at
  {
    hide SplitUtf8, CutFrom, PiecesAt, WellFormed, Pieces;
    SplitExactly(text);
    var units := SplitUtf8(text).value;
    at := PiecesCut(units, 0);
    PiecesBetween(units, 0, at);
    forall other | CutFrom(units, 0, other) ensures other == at {
      CutOnce(units, 0, at, other);
    }
  }
}
