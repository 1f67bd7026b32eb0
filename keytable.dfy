/** The fixed table of key spellings and the rule that assigns a key to each
    column of the chart. */
module KeyTable {

  /** The seven note names of each key's scale, root first, one key per
      semitone upward from A. */
  const Keys: seq<seq<string>> := [
    ["A", "B", "C#", "D", "E", "F#", "G#"],
    ["Bb", "C", "D", "Eb", "F", "G", "A"],
    ["B", "C#", "D#", "E", "F#", "G#", "A#"],
    ["C", "D", "E", "F", "G", "A", "B"],
    ["Db", "Eb", "F", "Gb", "Ab", "Bb", "C"],
    ["D", "E", "F#", "G", "A", "B", "C#"],
    ["Eb", "F", "G", "Ab", "Bb", "C", "D"],
    ["E", "F#", "G#", "A", "B", "C#", "D#"],
    ["F", "G", "A", "Bb", "C", "D", "E"],
    ["Gb", "Ab", "Bb", "Cb", "Db", "Eb", "F"],
    ["G", "A", "B", "C", "D", "E", "F#"],
    ["Ab", "Bb", "C", "Db", "Eb", "F", "G"]
  ]

  /** The table row drawn in column col: (col * 7) mod 12, seven semitones
      (a fifth) further round for each column. Both operands are
      non-negative, so the remainder agrees with the one in the source. */
  function KeyIndex(col: nat): (k: nat)
    ensures k < |Keys|
  {
    (col * 7) % 12
  }

  /** The scale whose names are written in column col. */
  function Scale(col: nat): (s: seq<string>)
    ensures |s| == 7
    ensures s in Keys
  {
    Keys[KeyIndex(col)]
  }

  /** Since 7 * 7 = 49 is 1 more than a multiple of 12, choosing the key
      twice leads back to the column: the choice undoes itself. */
  lemma KeyIndexSelfInverse(col: nat)
    requires col < 12
    ensures KeyIndex(KeyIndex(col)) == col
  {
    assert col == 0 || col == 1 || col == 2 || col == 3 || col == 4 || col == 5 ||
           col == 6 || col == 7 || col == 8 || col == 9 || col == 10 || col == 11;
  }

  /** The table rows that the twelve columns read. */
  function RowsUsed(): set<nat>
  {
    set c: nat | c < 12 :: KeyIndex(c)
  }

  /** The twelve columns use the twelve table rows, each exactly once. */
  lemma KeyIndexIsPermutation()
    ensures forall c1: nat, c2: nat :: c1 < 12 && c2 < 12 && KeyIndex(c1) == KeyIndex(c2) ==> c1 == c2
    ensures forall k: nat :: k in RowsUsed() <==> k < |Keys|
  {
    forall c1: nat, c2: nat | c1 < 12 && c2 < 12 && KeyIndex(c1) == KeyIndex(c2)
      ensures c1 == c2
    {
      KeyIndexSelfInverse(c1);
      KeyIndexSelfInverse(c2);
    }
    forall k: nat | k < 12
      ensures k in RowsUsed()
    {
      KeyIndexSelfInverse(k);
    }
  }

  /** Every row of the table has seven names, so any row index 0..6 reads a
      defined name. */
  lemma KeysShape()
    ensures |Keys| == 12
    ensures forall k :: 0 <= k < |Keys| ==> |Keys[k]| == 7
  {
  }

  /** A note name: a letter A..G, optionally followed by a sharp '#' or a
      flat 'b'. */
  predicate IsNoteName(name: string)
  {
    (|name| == 1 || |name| == 2) && 'A' <= name[0] <= 'G' &&
    (|name| == 2 ==> name[1] == '#' || name[1] == 'b')
  }

  /** Position of a name's letter in A..G. */
  function LetterIndex(name: string): int
  {
    if |name| == 0 then 0 else (name[0] as int) - ('A' as int)
  }

  /** Semitones above A of a natural (unaltered) letter. */
  function NaturalPitch(letter: char): int
  {
    match letter
    case 'A' => 0
    case 'B' => 2
    case 'C' => 3
    case 'D' => 5
    case 'E' => 7
    case 'F' => 8
    case 'G' => 10
    case _ => 0
  }

  /** Pitch class of a note name, in semitones above A, modulo the octave. */
  function PitchClass(name: string): int
  {
    if |name| == 0 then 0
    else
      var alter := if |name| == 1 then 0 else if name[1] == '#' then 1 else -1;
      var p := NaturalPitch(name[0]) + alter;
      if p < 0 then p + 12 else p
  }

  /** x reduced modulo n, for x in [0, 2n). */
  function Wrap(x: int, n: int): int
  {
    if x >= n then x - n else x
  }

  /** Semitones above the tonic of the seven degrees of a major scale. */
  const MajorDegrees: seq<int> := [0, 2, 4, 5, 7, 9, 11]

  /** name spells degree i of the major scale on tonic (a pitch class above
      A) whose root is written with letter number rootLetter. */
  predicate IsDegree(name: string, tonic: int, rootLetter: int, i: int)
    requires 0 <= i < 7
  {
    IsNoteName(name) &&
    PitchClass(name) == Wrap(tonic + MajorDegrees[i], 12) &&
    LetterIndex(name) == Wrap(rootLetter + i, 7)
  }

  /** scale is the major scale on tonic, spelled with one name per letter,
      the letters rising one step per degree. */
  predicate IsMajorScaleOn(scale: seq<string>, tonic: int)
  {
    |scale| == 7 &&
    forall i :: 0 <= i < 7 ==> IsDegree(scale[i], tonic, LetterIndex(scale[0]), i)
  }

  /** IsMajorScaleOn written out degree by degree, with no quantifier. It is
      a proof device only: the solver checks a concrete table row against it
      much more cheaply, and SpelledAsMajorIsMajor carries the result over. */
  predicate SpelledAsMajor(scale: seq<string>, tonic: int)
  {
    |scale| == 7 &&
    var l := LetterIndex(scale[0]);
    IsDegree(scale[0], tonic, l, 0) && IsDegree(scale[1], tonic, l, 1) &&
    IsDegree(scale[2], tonic, l, 2) && IsDegree(scale[3], tonic, l, 3) &&
    IsDegree(scale[4], tonic, l, 4) && IsDegree(scale[5], tonic, l, 5) &&
    IsDegree(scale[6], tonic, l, 6)
  }

  lemma SpelledAsMajorIsMajor(scale: seq<string>, tonic: int)
    requires SpelledAsMajor(scale, tonic)
    ensures IsMajorScaleOn(scale, tonic)
  {
    forall i | 0 <= i < 7
      ensures IsDegree(scale[i], tonic, LetterIndex(scale[0]), i)
    {
      assert i == 0 || i == 1 || i == 2 || i == 3 || i == 4 || i == 5 || i == 6;
    }
  }

  /** Pitch class and letter of every name the table uses. */
  lemma NameFacts()
    ensures IsNoteName("A") && PitchClass("A") == 0 && LetterIndex("A") == 0 &&
            IsNoteName("A#") && PitchClass("A#") == 1 && LetterIndex("A#") == 0 &&
            IsNoteName("Ab") && PitchClass("Ab") == 11 && LetterIndex("Ab") == 0 &&
            IsNoteName("B") && PitchClass("B") == 2 && LetterIndex("B") == 1 &&
            IsNoteName("Bb") && PitchClass("Bb") == 1 && LetterIndex("Bb") == 1 &&
            IsNoteName("C") && PitchClass("C") == 3 && LetterIndex("C") == 2 &&
            IsNoteName("C#") && PitchClass("C#") == 4 && LetterIndex("C#") == 2 &&
            IsNoteName("Cb") && PitchClass("Cb") == 2 && LetterIndex("Cb") == 2 &&
            IsNoteName("D") && PitchClass("D") == 5 && LetterIndex("D") == 3 &&
            IsNoteName("D#") && PitchClass("D#") == 6 && LetterIndex("D#") == 3 &&
            IsNoteName("Db") && PitchClass("Db") == 4 && LetterIndex("Db") == 3 &&
            IsNoteName("E") && PitchClass("E") == 7 && LetterIndex("E") == 4 &&
            IsNoteName("Eb") && PitchClass("Eb") == 6 && LetterIndex("Eb") == 4 &&
            IsNoteName("F") && PitchClass("F") == 8 && LetterIndex("F") == 5 &&
            IsNoteName("F#") && PitchClass("F#") == 9 && LetterIndex("F#") == 5 &&
            IsNoteName("G") && PitchClass("G") == 10 && LetterIndex("G") == 6 &&
            IsNoteName("G#") && PitchClass("G#") == 11 && LetterIndex("G#") == 6 &&
            IsNoteName("Gb") && PitchClass("Gb") == 9 && LetterIndex("Gb") == 6
  {
  }

  /** C, G and D major (no sharp, one, two) are major scales on their rows. */
  lemma FewSharpKeysAreMajor()
    ensures SpelledAsMajor(Keys[3], 3) && SpelledAsMajor(Keys[10], 10) && SpelledAsMajor(Keys[5], 5)
  {
    NameFacts();
  }

  /** A, E and B major (three to five sharps) are major scales on their rows. */
  lemma ManySharpKeysAreMajor()
    ensures SpelledAsMajor(Keys[0], 0) && SpelledAsMajor(Keys[7], 7) && SpelledAsMajor(Keys[2], 2)
  {
    NameFacts();
  }

  /** F, Bb and Eb major (one to three flats) are major scales on their rows. */
  lemma FewFlatKeysAreMajor()
    ensures SpelledAsMajor(Keys[8], 8) && SpelledAsMajor(Keys[1], 1) && SpelledAsMajor(Keys[6], 6)
  {
    NameFacts();
  }

  /** Ab, Db and Gb major (four to six flats) are major scales on their rows. */
  lemma ManyFlatKeysAreMajor()
    ensures SpelledAsMajor(Keys[11], 11) && SpelledAsMajor(Keys[4], 4) && SpelledAsMajor(Keys[9], 9)
  {
    NameFacts();
  }

  /** Row k of the table is the major scale k semitones above A, each degree
      spelled on its own letter. */
  lemma RowIsMajorScale(k: nat)
    requires k < |Keys|
    ensures IsMajorScaleOn(Keys[k], k)
  {
    if k == 3 || k == 10 || k == 5 {
      FewSharpKeysAreMajor();
    } else if k == 0 || k == 7 || k == 2 {
      ManySharpKeysAreMajor();
    } else if k == 8 || k == 1 || k == 6 {
      FewFlatKeysAreMajor();
    } else {
      ManyFlatKeysAreMajor();
    }
    SpelledAsMajorIsMajor(Keys[k], k);
  }

  /** One column further round, the key index moves up a fifth (seven
      semitones), modulo the octave; twelve columns further round it is back
      where it was. */
  lemma KeyIndexNext(col: nat)
    requires col < 12
    ensures KeyIndex(col + 1) == Wrap(KeyIndex(col) + 7, 12)
    ensures KeyIndex(col + 12) == KeyIndex(col)
  {
    assert col == 0 || col == 1 || col == 2 || col == 3 || col == 4 || col == 5 ||
           col == 6 || col == 7 || col == 8 || col == 9 || col == 10 || col == 11;
  }

  /** Degree i of the scale in column col is degree i of the major scale on
      that column's key. */
  lemma ScaleDegree(col: nat, i: int)
    requires 0 <= i < 7
    ensures IsDegree(Scale(col)[i], KeyIndex(col), LetterIndex(Scale(col)[0]), i)
  {
    RowIsMajorScale(KeyIndex(col));
  }

  /** Walking the columns walks the circle of fifths: the key of the next
      column has as its root the fifth degree of this column's key (the
      column after the last one would read the first column's key again). */
  lemma ColumnsAscendByFifths(col: nat)
    requires col < 12
    ensures IsNoteName(Scale(col)[4]) && IsNoteName(Scale(col + 1)[0])
    ensures PitchClass(Scale(col + 1)[0]) == PitchClass(Scale(col)[4])
    ensures Scale(col + 12) == Scale(col)
  {
    ScaleDegree(col, 4);
    ScaleDegree(col + 1, 0);
    KeyIndexNext(col);
  }

  /** The first two columns: A major, then E major. */
  lemma FirstColumns()
    ensures Scale(0) == ["A", "B", "C#", "D", "E", "F#", "G#"]
    ensures Scale(1) == ["E", "F#", "G#", "A", "B", "C#", "D#"]
  {
  }
}
