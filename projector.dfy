/** The projector's texture image: a 64 x 64 RGBA checkerboard of 8 x 8 squares that
    `makeCheckImage` writes into a file-level byte array, texel by texel. */
module Projector {
  /** `GLubyte` */
  newtype Byte = x: int | 0 <= x < 256

  /** the image's width and height in texels, and its channels per texel (RGBA) */
  const CheckImageWidth: nat := 64
  const CheckImageHeight: nat := 64
  const Channels: nat := 4

  /** bit 3 of a non-negative index, that is `n & 0x8` being non-zero: which 8-texel band the
      index falls in, counting from 0, is odd */
  predicate Bit3(n: nat) {
    (n / 8) % 2 == 1
  }

  /** for the indices the image uses, `Bit3` is the bit-and with 0x8 */
  lemma Bit3IsMask(n: nat)
    requires n < 256
    ensures Bit3(n) <==> (n as bv8) & 8 != 0
  {
  }

  /** the checker value of texel (i, j): 255 where exactly one of the two indices has bit 3 set,
      that is where `((i & 0x8) == 0) ^ ((j & 0x8) == 0)` is 1, and 0 elsewhere */
  function CheckValue(i: nat, j: nat): (c: Byte)
    ensures c == 255 || c == 0
    ensures c == 255 <==> Bit3(i) != Bit3(j)
  {
    if Bit3(i) != Bit3(j) then 255 else 0
  }

  /** channel k of texel (i, j): red, blue and alpha carry the checker value, green is 0 */
  function Texel(i: nat, j: nat, k: nat): Byte
    requires k < Channels
  {
    if k == 1 then 0 else CheckValue(i, j)
  }

  /** the checkerboard is symmetric in its two indices */
  lemma CheckSymmetric(i: nat, j: nat)
    ensures CheckValue(i, j) == CheckValue(j, i)
  {
  }

  /** moving one band (8 texels) along either index toggles bit 3 */
  lemma {:induction false} Bit3Shift(n: nat)
    ensures Bit3(n + 8) == !Bit3(n)
    ensures Bit3(n + 16) == Bit3(n)
  {
    assert (n + 8) / 8 == n / 8 + 1;
    assert (n + 16) / 8 == n / 8 + 2;
  }

  /** shifting a texel by 8 along either index flips its value between 0 and 255; shifting by 16
      keeps it */
  lemma CheckShift(i: nat, j: nat)
    ensures CheckValue(i + 8, j) == 255 - CheckValue(i, j)
    ensures CheckValue(i, j + 8) == 255 - CheckValue(i, j)
    ensures CheckValue(i + 16, j) == CheckValue(i, j)
    ensures CheckValue(i, j + 16) == CheckValue(i, j)
  {
    Bit3Shift(i);
    Bit3Shift(j);
  }

  /** `checkImage` before any call: zero-initialised, 64 rows of 64 texels of 4 channels */
  method NewCheckImage() returns (checkImage: array3<Byte>)
    ensures fresh(checkImage)
    ensures checkImage.Length0 == CheckImageHeight && checkImage.Length1 == CheckImageWidth && checkImage.Length2 == Channels
    ensures forall i, j, k | 0 <= i < CheckImageHeight && 0 <= j < CheckImageWidth && 0 <= k < Channels :: checkImage[i, j, k] == 0
  {
    checkImage := new Byte[CheckImageHeight, CheckImageWidth, Channels]((i, j, k) => 0);
  }

  /** `makeCheckImage`: every texel of the image, row by row, gets the checker value in red, blue
      and alpha and 0 in green; nothing of what the image held before survives */
  method MakeCheckImage(checkImage: array3<Byte>)
    requires checkImage.Length0 == CheckImageHeight && checkImage.Length1 == CheckImageWidth && checkImage.Length2 == Channels
    modifies checkImage
    ensures forall i, j, k | 0 <= i < CheckImageHeight && 0 <= j < CheckImageWidth && 0 <= k < Channels :: checkImage[i, j, k] == Texel(i, j, k)
  {
    for i := 0 to CheckImageHeight
      invariant forall i', j, k | 0 <= i' < i && 0 <= j < CheckImageWidth && 0 <= k < Channels :: checkImage[i', j, k] == Texel(i', j, k)
    {
      for j := 0 to CheckImageWidth
        invariant forall i', j', k | 0 <= i' < i && 0 <= j' < CheckImageWidth && 0 <= k < Channels :: checkImage[i', j', k] == Texel(i', j', k)
        invariant forall j', k | 0 <= j' < j && 0 <= k < Channels :: checkImage[i, j', k] == Texel(i, j', k)
      {
        var c := CheckValue(i, j);
        checkImage[i, j, 0] := c;
        checkImage[i, j, 1] := 0;
        checkImage[i, j, 2] := c;
        checkImage[i, j, 3] := c;
      }
    }
  }
}
