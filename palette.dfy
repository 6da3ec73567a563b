/**
 * The game's colour palette (the `UIColor` extension): five fixed colours
 * in score-rank order, and a random pick among them.
 *
 * Each component of a palette literal is the 10-digit decimal of n/255;
 * the model keeps n, as four 8-bit channels, which tells the five colours
 * apart exactly as their literals do. Two colours are equal exactly when
 * all four channels are.
 */
module Colors {
  import opened Wrappers

  newtype Channel = x: int | 0 <= x < 256

  datatype Color = Rgba(red: Channel, green: Channel, blue: Channel, alpha: Channel)

  const Wine: Color := Rgba(88, 24, 69, 255)
  const DarkRed: Color := Rgba(144, 12, 63, 255)
  const Red: Color := Rgba(199, 0, 57, 255)
  const Orange: Color := Rgba(255, 87, 51, 255)
  const Yellow: Color := Rgba(255, 195, 15, 255)

  /** All colours of the game, lowest score rank first. */
  const Palette: seq<Color> := [Wine, DarkRed, Red, Orange, Yellow]

  predicate Distinct<T(==)>(s: seq<T>) {
    forall i, j :: 0 <= i < j < |s| ==> s[i] != s[j]
  }

  /** The palette has five pairwise distinct entries, in rank order. */
  lemma PaletteShape()
    ensures |Palette| == 5
    ensures Palette[0] == Wine && Palette[1] == DarkRed && Palette[2] == Red
    ensures Palette[3] == Orange && Palette[4] == Yellow
    ensures Distinct(Palette)
  {
  }

  /** Swift's `Array.firstIndex(of:)`: the lowest index holding `x`, if any. */
  function FirstIndex<T(==)>(s: seq<T>, x: T): (r: Option<nat>)
    ensures r.None? <==> x !in s
    ensures r.Some? ==> r.value < |s| && s[r.value] == x
    ensures r.Some? ==> forall j :: 0 <= j < r.value ==> s[j] != x
  {
    if |s| == 0 then None
    else if s[0] == x then Some(0)
    else match FirstIndex(s[1..], x)
      case None => None
      case Some(i) => Some(i + 1)
  }

  /** In a sequence without repeats, the first index of an entry is its position. */
  lemma {:induction false} FirstIndexOfDistinct<T>(s: seq<T>, i: nat)
    requires Distinct(s) && i < |s|
    ensures FirstIndex(s, s[i]) == Some(i)
  {
  }

  /** Each palette colour's first index is its rank. */
  lemma PaletteIndexUnique(i: nat)
    requires i < |Palette|
    ensures FirstIndex(Palette, Palette[i]) == Some(i)
  {
  }

  /**
   * `UIColor.random`: the palette entry at an index drawn from
   * `0..<palette.count`; the draw itself is an input.
   */
  function Random(index: nat): (c: Color)
    requires index < |Palette|
    ensures c in Palette
    ensures FirstIndex(Palette, c) == Some(index)
  {
    PaletteIndexUnique(index);
    Palette[index]
  }

  /** Every palette colour is drawn by exactly one index, so a uniform draw gives a uniform colour. */
  lemma RandomIsBijective(c: Color)
    requires c in Palette
    ensures exists i :: 0 <= i < |Palette| && Random(i) == c
    ensures forall i, j :: 0 <= i < |Palette| && 0 <= j < |Palette| && Random(i) == c && Random(j) == c ==> i == j
  {
    var i :| 0 <= i < |Palette| && Palette[i] == c;
    assert Random(i) == c;
  }
}
