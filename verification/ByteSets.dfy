/** Sets of bytes as the bits of four words, as a [4]uint64 holds them. */
module ByteSets {

  newtype Byte = x: int | 0 <= x < 256

  type Bits = s: seq<bv64> | |s| == 4 witness [0, 0, 0, 0]

  const EMPTY: Bits := [0, 0, 0, 0]

  /** The word of b. */
  function Block(b: Byte): (i: nat)
    ensures i < 4
  {
    (b / 64) as nat
  }

  /** The place of b in its word. */
  function Place(b: Byte): (place: bv7)
    ensures place < 64
  {
    (b % 64) as bv7
  }

  lemma PlaceBack(b: Byte)
    ensures Place(b) as int == (b % 64) as int
  {
  }

  predicate Meets(w: bv64, place: bv7)
    requires place < 64
  {
    w & ((1 as bv64) << place) != 0
  }

  function Joined(w: bv64, place: bv7): bv64
    requires place < 64
  {
    w | ((1 as bv64) << place)
  }

  /** Whether the bit of b is set. */
  predicate Has(bits: Bits, b: Byte) {
    Meets(bits[Block(b)], Place(b))
  }

  /** The bits with the one of b set. */
  function With(bits: Bits, b: Byte): Bits {
    bits[Block(b) := Joined(bits[Block(b)], Place(b))]
  }

  lemma PlacesMeet(w: bv64, s: bv7, t: bv7)
    requires s < 64 && t < 64
    ensures ((w | ((1 as bv64) << s)) & ((1 as bv64) << t) != 0) <==> (w & ((1 as bv64) << t) != 0) || s == t
  {
  }

  lemma MeetsJoined(w: bv64, s: bv7, t: bv7)
    requires s < 64 && t < 64
    ensures Meets(Joined(w, s), t) <==> Meets(w, t) || s == t
  {
    PlacesMeet(w, s, t);
  }

  lemma SameByte(b: Byte, c: Byte)
    requires Block(b) == Block(c) && Place(b) == Place(c)
    ensures b == c
  {
    hide Place;
    PlaceBack(b);
    PlaceBack(c);
  }

  /** Setting the bit of b adds b to the set and nothing else. */
  lemma WithMeans(bits: Bits, b: Byte, c: Byte)
    ensures Has(With(bits, b), c) <==> Has(bits, c) || c == b
  {
    hide Block, Place, Meets, Joined;
    if Block(b) == Block(c) {
      MeetsJoined(bits[Block(b)], Place(b), Place(c));
      if Place(b) == Place(c) {
        SameByte(b, c);
      }
    }
  }

  lemma EmptyHasNone(c: Byte)
    ensures !Has(EMPTY, c)
  {
    hide Place;
  }
}
