/**
 * The two strings the wallet page derives from a generated wallet for
 * display: the masked private key and the shortened address in the
 * faucet hint.
 */
module WalletDisplay {
  import opened JsString

  /** The character that stands in for every hidden part of the key. */
  const MaskChar: char := '•'
  /** How many mask characters replace the middle of the key. */
  const MaskWidth: nat := 40
  /** How many characters of the key stay visible at each end. */
  const KeyEndWidth: nat := 10

  /** Characters of the address kept at the front and at the back of the hint. */
  const AddressHeadWidth: nat := 6
  const AddressTailWidth: nat := 4
  const Ellipsis: string := "..."

  /**
   * `maskPrivateKey`: the first ten characters of the key, forty mask
   * characters, then the last ten characters of the key. A key shorter
   * than ten characters is shown whole at both ends.
   */
  function MaskPrivateKey(key: string): (r: string)
    ensures |r| == Min(|key|, KeyEndWidth) + MaskWidth + Min(|key|, KeyEndWidth)
    ensures r[..Min(|key|, KeyEndWidth)] == key[..Min(|key|, KeyEndWidth)]
    ensures r[|r| - Min(|key|, KeyEndWidth)..] == key[|key| - Min(|key|, KeyEndWidth)..]
    ensures forall i | Min(|key|, KeyEndWidth) <= i < Min(|key|, KeyEndWidth) + MaskWidth :: r[i] == MaskChar
  {
    SliceHead(key, KeyEndWidth);
    SliceTail(key, KeyEndWidth);
    Slice(key, 0, KeyEndWidth) + Repeat(MaskChar, MaskWidth) + SliceFrom(key, -(KeyEndWidth as int))
  }

  /**
   * The address as the faucet hint shows it: its first six characters,
   * "...", and its last four.
   */
  function AbbreviateAddress(address: string): (r: string)
    ensures |r| == Min(|address|, AddressHeadWidth) + |Ellipsis| + Min(|address|, AddressTailWidth)
    ensures r[..Min(|address|, AddressHeadWidth)] == address[..Min(|address|, AddressHeadWidth)]
    ensures r[|r| - Min(|address|, AddressTailWidth)..] == address[|address| - Min(|address|, AddressTailWidth)..]
    ensures r[Min(|address|, AddressHeadWidth)..|r| - Min(|address|, AddressTailWidth)] == Ellipsis
  {
    SliceHead(address, AddressHeadWidth);
    SliceTail(address, AddressTailWidth);
    Slice(address, 0, AddressHeadWidth) + Ellipsis + SliceFrom(address, -(AddressTailWidth as int))
  }

  /**
   * The mask of a key of ten or more characters depends only on its first
   * ten and its last ten characters.
   */
  lemma MaskDependsOnlyOnEnds(k1: string, k2: string)
    requires |k1| >= KeyEndWidth && |k2| >= KeyEndWidth
    requires k1[..KeyEndWidth] == k2[..KeyEndWidth]
    requires k1[|k1| - KeyEndWidth..] == k2[|k2| - KeyEndWidth..]
    ensures MaskPrivateKey(k1) == MaskPrivateKey(k2)
  {
  }

  /**
   * No character at positions `10 .. |key| - 11` appears in the mask:
   * replacing any one of them leaves the mask as it was.
   */
  lemma MaskHidesMiddle(key: string, i: nat, c: char)
    requires KeyEndWidth <= i < |key| - KeyEndWidth
    ensures MaskPrivateKey(key[i := c]) == MaskPrivateKey(key)
  {
  }

  /**
   * Conversely, a key of at most twenty characters is not hidden at all:
   * each of its characters appears among the visible ends of the mask.
   */
  lemma MaskRevealsShortKey(key: string, j: nat)
    requires |key| <= 2 * KeyEndWidth
    requires j < |key|
    ensures var r := MaskPrivateKey(key);
      (j < KeyEndWidth && r[j] == key[j]) ||
      (|key| - KeyEndWidth <= j && r[|r| - |key| + j] == key[j])
  {
  }

  /** A key shorter than ten characters is shown in full on both sides of the mask. */
  lemma MaskOfShortKey(key: string)
    requires |key| < KeyEndWidth
    ensures MaskPrivateKey(key) == key + Repeat(MaskChar, MaskWidth) + key
  {
  }

  /**
   * A private key as the key library formats it ("0x" and 64 hex digits,
   * 66 characters) masks to 60 characters: its first ten, forty mask
   * characters, and its last ten, so that 46 of its characters are hidden.
   */
  lemma MaskOfStandardKey(key: string)
    requires |key| == 66
    ensures |MaskPrivateKey(key)| == 60
    ensures MaskPrivateKey(key) == key[..10] + Repeat(MaskChar, MaskWidth) + key[56..]
  {
  }

  /** A 42-character address ("0x" and 40 hex digits) abbreviates to 13 characters. */
  lemma AbbreviationOfStandardAddress(address: string)
    requires |address| == 42
    ensures |AbbreviateAddress(address)| == 13
    ensures AbbreviateAddress(address) == address[..6] + "..." + address[38..]
  {
  }
}
