/** Splitting text into pieces before byte-pair merging: src/qwen/qwen_tokenizer.cc:95-250. */
module Pretokenizing {
  import opened Wrappers
  import opened Utf8
  import opened Utf8Units

  // ---------------------------------------------------------------- character classes

  predicate IsUnicodeSpace(c: bv32) {
    c == 0x00A0 || c == 0x1680 || 0x2000 <= c <= 0x200A || c == 0x2028 || c == 0x2029 || c == 0x202F || c == 0x205F
    || c == 0x3000
  }

  /** std::isalpha in ASCII; beyond it, everything that is not a Unicode space. */
  predicate IsLetter(c: bv32) {
    if c < 128 then 0x41 <= c <= 0x5A || 0x61 <= c <= 0x7A else !IsUnicodeSpace(c)
  }

  predicate IsNumber(c: bv32) {
    0x30 <= c <= 0x39
  }

  /** std::isspace in ASCII: tab to carriage return, and the blank. */
  predicate IsSpace(c: bv32) {
    if c < 128 then c == 0x20 || 0x09 <= c <= 0x0D else IsUnicodeSpace(c)
  }

  predicate IsNewline(c: bv32) {
    c == 0x0D || c == 0x0A
  }

  predicate IsOther(c: bv32) {
    !IsSpace(c) && !IsLetter(c) && !IsNumber(c)
  }

  /** std::tolower in ASCII. */
  function ToLower(c: bv32): bv32 {
    if 0x41 <= c <= 0x5A then c + 0x20 else c
  }

  /** The contraction suffixes s, t, re, ve, m, ll, d. */
  const SUFFIXES: seq<seq<bv32>> := [[0x73], [0x74], [0x72, 0x65], [0x76, 0x65], [0x6D], [0x6C, 0x6C], [0x64]]

  // ---------------------------------------------------------------- where a piece ends

  predicate Matches(units: seq<Unit>, at: nat, suffix: seq<bv32>)
    decreases |suffix|
  {
    suffix == []
    || (at < |units| && units[at].codepoint < 128 && ToLower(units[at].codepoint) == suffix[0]
        && Matches(units, at + 1, suffix[1..]))
  }

  lemma {:induction false} MatchFits(units: seq<Unit>, at: nat, suffix: seq<bv32>)
    requires at <= |units|
    ensures Matches(units, at, suffix) ==> at + |suffix| <= |units|
    decreases |suffix|
  {
    if suffix != [] && at < |units| {
      MatchFits(units, at + 1, suffix[1..]);
    }
  }

  /** The length of the first matching suffix from entry j on, with its apostrophe; 0 when none matches. */
  function ContractionFrom(units: seq<Unit>, offset: nat, j: nat): (r: nat)
    requires offset < |units| && j <= |SUFFIXES|
    ensures offset + r <= |units|
    decreases |SUFFIXES| - j
  {
    if j == |SUFFIXES| then 0
    else if Matches(units, offset + 1, SUFFIXES[j]) then
      MatchFits(units, offset + 1, SUFFIXES[j]);
      1 + |SUFFIXES[j]|
    else ContractionFrom(units, offset, j + 1)
  }

  /** starts_contraction. */
  function Contraction(units: seq<Unit>, offset: nat): (r: nat)
    requires offset < |units|
    ensures offset + r <= |units|
  {
    if units[offset].codepoint != 0x27 then 0 else ContractionFrom(units, offset, 0)
  }

  datatype Class = Letters | Others | SpacesOrNewlines | Blanks | Newlines

  predicate InClass(class_: Class, c: bv32) {
    match class_
    case Letters => IsLetter(c)
    case Others => IsOther(c)
    case SpacesOrNewlines => IsSpace(c) || IsNewline(c)
    case Blanks => IsSpace(c) && !IsNewline(c)
    case Newlines => IsNewline(c)
  }

  /** The end of the run of a class that starts at `end`. */
  function RunEnd(units: seq<Unit>, end: nat, class_: Class): (r: nat)
    requires end <= |units|
    ensures end <= r <= |units|
    decreases |units| - end
  {
    if end < |units| && InClass(class_, units[end].codepoint) then RunEnd(units, end + 1, class_) else end
  }

  predicate PrefixedLetter(units: seq<Unit>, offset: nat)
    requires offset < |units|
  {
    var c := units[offset].codepoint;
    !IsNewline(c) && !IsLetter(c) && !IsNumber(c) && offset + 1 < |units| && IsLetter(units[offset + 1].codepoint)
  }

  /** The end of the piece that starts at `offset`. */
  function PieceEnd(units: seq<Unit>, offset: nat): (r: nat)
    requires offset < |units|
    ensures offset < r <= |units|
  {
    var c := units[offset].codepoint;
    if Contraction(units, offset) > 0 then offset + Contraction(units, offset)
    else if IsLetter(c) || PrefixedLetter(units, offset) then RunEnd(units, offset + 1, Letters)
    else if IsNumber(c) then offset + 1
    else if IsNewline(c) then RunEnd(units, offset + 1, SpacesOrNewlines)
    else if IsSpace(c) then
      if c == 0x20 && offset + 1 < |units| && IsOther(units[offset + 1].codepoint)
      then RunEnd(units, offset + 1, Others) else RunEnd(units, offset + 1, Blanks)
    else RunEnd(units, RunEnd(units, offset + 1, Others), Newlines)
  }

  /** The pieces from `offset` on. */
  function Pieces(units: seq<Unit>, offset: nat): (r: seq<Str>)
    requires offset <= |units|
    decreases |units| - offset
  {
    if offset == |units| then []
    else
      var end := PieceEnd(units, offset);
      [JoinUnits(units[offset..end])] + Pieces(units, end)
  }

  function Pretokenize(text: Str): Option<seq<Str>> {
    var units := SplitUtf8(text);
    if units == None then None else Some(Pieces(units.value, 0))
  }

  // ---------------------------------------------------------------- pieces partition the text

  function Concat(pieces: seq<Str>): Str {
    if pieces == [] then [] else pieces[0] + Concat(pieces[1..])
  }

  lemma {:induction false} JoinConcat(a: seq<Unit>, b: seq<Unit>)
    ensures JoinUnits(a + b) == JoinUnits(a) + JoinUnits(b)
  {
    if a == [] {
      assert a + b == b;
    } else {
      assert (a + b)[1..] == a[1..] + b;
      JoinConcat(a[1..], b);
    }
  }

  lemma JoinNonempty(units: seq<Unit>)
    requires units != [] && units[0].bytes != []
    ensures JoinUnits(units) != []
  {
  }

  lemma {:induction false} PiecesPartition(units: seq<Unit>, offset: nat)
    requires offset <= |units| && forall i :: 0 <= i < |units| ==> units[i].bytes != []
    ensures Concat(Pieces(units, offset)) == JoinUnits(units[offset..])
    ensures forall i :: 0 <= i < |Pieces(units, offset)| ==> Pieces(units, offset)[i] != []
    decreases |units| - offset
  {
    hide PieceEnd;
    if offset < |units| {
      var end := PieceEnd(units, offset);
      PiecesPartition(units, end);
      JoinConcat(units[offset..end], units[end..]);
      assert units[offset..] == units[offset..end] + units[end..];
      JoinNonempty(units[offset..end]);
      var piece, rest := JoinUnits(units[offset..end]), Pieces(units, end);
      assert ([piece] + rest)[1..] == rest;
    }
  }

  /** pretokenize cuts exactly the well-formed texts, into non-empty pieces that together are the text. */
  lemma PretokenizePartitions(text: Str)
    ensures Pretokenize(text).Some? <==> WellFormed(text)
    ensures Pretokenize(text).Some? ==>
              var pieces := Pretokenize(text).value;
              Concat(pieces) == text && forall i :: 0 <= i < |pieces| ==> pieces[i] != []
  {
    hide SplitUtf8, Pieces, WellFormed;
    SplitExactly(text);
    SplitJoins(text);
    if SplitUtf8(text).Some? {
      var units := SplitUtf8(text).value;
      PiecesPartition(units, 0);
      assert units[0..] == units;
    }
  }

  // ---------------------------------------------------------------- the loops

  method StartsContraction(units: seq<Unit>, offset: nat) returns (length: nat)
    requires offset < |units|
    ensures length == Contraction(units, offset)
  {
    if units[offset].codepoint != 0x27 {
      return 0;
    }
    var j := 0;
    while j < |SUFFIXES|
      invariant j <= |SUFFIXES|
      invariant ContractionFrom(units, offset, j) == ContractionFrom(units, offset, 0)
    {
      var suffix := SUFFIXES[j];
      MatchFits(units, offset + 1, suffix);
      if offset + 1 + |suffix| <= |units| {
        var matches := MatchesAt(units, offset + 1, suffix);
        if matches {
          return |suffix| + 1;
        }
      }
      j := j + 1;
    }
    return 0;
  }

  method MatchesAt(units: seq<Unit>, at: nat, suffix: seq<bv32>) returns (r: bool)
    requires at + |suffix| <= |units|
    ensures r == Matches(units, at, suffix)
  {
    var index := 0;
    assert suffix[0..] == suffix;
    while index < |suffix|
      invariant index <= |suffix|
      invariant Matches(units, at + index, suffix[index..]) == Matches(units, at, suffix)
    {
      assert suffix[index..][1..] == suffix[index + 1..] && suffix[index..][0] == suffix[index];
      var codepoint := units[at + index].codepoint;
      if codepoint >= 128 || ToLower(codepoint) != suffix[index] {
        return false;
      }
      index := index + 1;
    }
    return true;
  }

  method RunTo(units: seq<Unit>, from: nat, class_: Class) returns (end: nat)
    requires from <= |units|
    ensures end == RunEnd(units, from, class_)
  {
    end := from;
    while end < |units| && InClass(class_, units[end].codepoint)
      invariant from <= end <= |units|
      invariant RunEnd(units, from, class_) == RunEnd(units, end, class_)
    {
      end := end + 1;
    }
  }

  /** The end of one piece, with the runs as loops. */
  method FindPieceEnd(units: seq<Unit>, offset: nat) returns (end: nat)
    requires offset < |units|
    ensures end == PieceEnd(units, offset)
  {
    hide RunEnd, ContractionFrom, InClass;
    var contraction := StartsContraction(units, offset);
    if contraction > 0 {
      return offset + contraction;
    }
    var c := units[offset].codepoint;
    if IsLetter(c) || PrefixedLetter(units, offset) {
      end := RunTo(units, offset + 1, Letters);
    } else if IsNumber(c) {
      end := offset + 1;
    } else if IsNewline(c) {
      end := RunTo(units, offset + 1, SpacesOrNewlines);
    } else if IsSpace(c) {
      if c == 0x20 && offset + 1 < |units| && IsOther(units[offset + 1].codepoint) {
        end := RunTo(units, offset + 1, Others);
      } else {
        end := RunTo(units, offset + 1, Blanks);
      }
    } else {
      end := RunTo(units, offset + 1, Others);
      end := RunTo(units, end, Newlines);
    }
  }

  method PretokenizeText(text: Str) returns (r: Option<seq<Str>>)
    ensures r == Pretokenize(text)
  {
    hide PieceEnd, SplitUtf8;
    var split := Split(text);
    if split == None {
      return None;
    }
    var units := split.value;
    var pieces: seq<Str> := [];
    var offset := 0;
    while offset < |units|
      invariant offset <= |units|
      invariant Pieces(units, 0) == pieces + Pieces(units, offset)
      decreases |units| - offset
    {
      var end := FindPieceEnd(units, offset);
      var piece := JoinUnits(units[offset..end]);
      assert pieces + ([piece] + Pieces(units, end)) == pieces + [piece] + Pieces(units, end);
      pieces := pieces + [piece];
      offset := end;
    }
    assert pieces + [] == pieces;
    return Some(pieces);
  }
}
