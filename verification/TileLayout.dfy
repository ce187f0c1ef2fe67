/** The 32x32 device tile: four 16x16 faces stored one after another, row-major within a face. */
module TileLayout {
  /** Storage index of row `r`, column `c` of a tile. */
  function FaceIndex(r: nat, c: nat): (i: nat)
    requires r < 32 && c < 32
    ensures i < 1024
  {
    (r / 16) * 512 + (c / 16) * 256 + (r % 16) * 16 + c % 16
  }

  function RowOf(i: nat): (r: nat)
    requires i < 1024
    ensures r < 32
  {
    (i / 512) * 16 + (i % 256) / 16
  }

  function ColumnOf(i: nat): (c: nat)
    requires i < 1024
    ensures c < 32
  {
    ((i % 512) / 256) * 16 + i % 16
  }

  /** An index is four digits: face row, face column, row in face, column in face. */
  lemma Digits(f: nat, g: nat, x: nat, y: nat)
    requires f < 2 && g < 2 && x < 16 && y < 16
    ensures var i := f * 512 + g * 256 + x * 16 + y;
      i / 512 == f && (i % 512) / 256 == g && (i % 256) / 16 == x && i % 16 == y
  {
    var i := f * 512 + g * 256 + x * 16 + y;
    assert i == 16 * (32 * f + 16 * g + x) + y;
    assert i % 256 == x * 16 + y;
    assert i % 512 == g * 256 + x * 16 + y;
  }

  /** The layout is a bijection between coordinates and storage indices. */
  lemma FaceIndexInverts(r: nat, c: nat)
    requires r < 32 && c < 32
    ensures RowOf(FaceIndex(r, c)) == r && ColumnOf(FaceIndex(r, c)) == c
  {
    Digits(r / 16, c / 16, r % 16, c % 16);
  }

  lemma DigitsSum(i: nat)
    requires i < 1024
    ensures i == (i / 512) * 512 + ((i % 512) / 256) * 256 + ((i % 256) / 16) * 16 + i % 16
  {
    assert i % 256 == (i % 512) % 256;
    assert i % 16 == (i % 256) % 16;
  }

  lemma CoordinatesInvert(i: nat)
    requires i < 1024
    ensures FaceIndex(RowOf(i), ColumnOf(i)) == i
  {
    DigitsSum(i);
    CoordinateDigits(i / 512, (i % 256) / 16);
    CoordinateDigits((i % 512) / 256, i % 16);
  }

  lemma CoordinateDigits(high: nat, low: nat)
    requires low < 16
    ensures (high * 16 + low) / 16 == high && (high * 16 + low) % 16 == low
  {
  }
}
