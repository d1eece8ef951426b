/** The dense bit set over token ids: 64-bit words, an exclusive id bound, and the packed byte form. */
module BitMasks {
  import Bytes
  import opened Words

  /** The contents of a mask as a value: what a clone or a cached entry owns. */
  datatype MaskValue = MaskValue(words: seq<u64>, len: nat) {
    predicate WellSized() {
      |words| == (len + 63) / 64
    }

    /** The raw bit `id`, padding included. */
    predicate BitAt(id: nat)
      requires id < 64 * |words|
    {
      Has(words[id / 64], id % 64)
    }

    predicate Test(id: nat)
      requires WellSized()
    {
      id < len && BitAt(id)
    }

    /** The token ids the mask holds. */
    ghost function Ids(): (ids: set<nat>)
      requires WellSized()
      ensures forall id :: id in ids <==> Test(id)
    {
      set id | 0 <= id < len && Test(id)
    }

    /** No bit at or beyond `len` is set in the last word. */
    ghost predicate Clean() {
      forall id :: len <= id < 64 * |words| ==> !BitAt(id)
    }
  }

  /** Word-wise overwrite of the overlap of two masks. */
  function Copied(dst: MaskValue, src: MaskValue): (r: MaskValue)
    ensures r.len == dst.len && |r.words| == |dst.words|
  {
    MaskValue(seq(|dst.words|, i requires 0 <= i < |dst.words| =>
      if i < |src.words| then src.words[i] else dst.words[i]), dst.len)
  }

  /** Word-wise meet of the overlap of two masks. */
  function Met(dst: MaskValue, src: MaskValue): (r: MaskValue)
    ensures r.len == dst.len && |r.words| == |dst.words|
  {
    MaskValue(seq(|dst.words|, i requires 0 <= i < |dst.words| =>
      if i < |src.words| then And(dst.words[i], src.words[i]) else dst.words[i]), dst.len)
  }

  /** The meet of masks of any lengths only clears bits, and so, unlike a copy, never sets a padding bit. */
  lemma MetOnlyClears(dst: MaskValue, src: MaskValue)
    requires dst.WellSized() && src.WellSized()
    ensures Met(dst, src).WellSized()
    ensures forall id :: 0 <= id < 64 * |dst.words| ==>
              (Met(dst, src).BitAt(id) <==> dst.BitAt(id) && (id < 64 * |src.words| ==> src.BitAt(id)))
    ensures dst.Clean() ==> Met(dst, src).Clean()
  {
    forall id | 0 <= id < 64 * |dst.words|
      ensures Met(dst, src).BitAt(id) <==> dst.BitAt(id) && (id < 64 * |src.words| ==> src.BitAt(id))
    {
      if id < 64 * |src.words| { HasAnd(dst.words[id / 64], src.words[id / 64], id % 64); }
    }
  }

  lemma MetIds(dst: MaskValue, src: MaskValue)
    requires dst.WellSized() && src.WellSized() && dst.len == src.len
    ensures Met(dst, src).WellSized() && Met(dst, src).Ids() == dst.Ids() * src.Ids()
    ensures dst.Clean() ==> Met(dst, src).Clean()
  {
    MetOnlyClears(dst, src);
  }

  lemma CopiedIds(dst: MaskValue, src: MaskValue)
    requires dst.WellSized() && src.WellSized() && dst.len == src.len
    ensures Copied(dst, src) == src
  {
    assert Copied(dst, src).words == src.words;
  }

  /** Copying from a mask of another length sets a padding bit exactly when the source has a bit
      between the target's length and the end of the copied words. */
  lemma CopyStaysCleanIff(dst: MaskValue, src: MaskValue)
    requires dst.WellSized() && src.WellSized() && dst.Clean()
    ensures Copied(dst, src).Clean()
       <==> forall id :: dst.len <= id < 64 * |dst.words| && id < 64 * |src.words| ==> !src.BitAt(id)
  {
    var r := Copied(dst, src);
    forall id | dst.len <= id < 64 * |dst.words|
      ensures r.BitAt(id) == if id < 64 * |src.words| then src.BitAt(id) else dst.BitAt(id)
    {
    }
    if r.Clean() {
      forall id | dst.len <= id < 64 * |dst.words| && id < 64 * |src.words| ensures !src.BitAt(id) {
        assert !r.BitAt(id);
      }
    }
  }

  /** A one-id mask that copies from a 64-id mask holding id 5 keeps a bit no id of its own names. */
  lemma CopyCanSetPadding()
    ensures var dst := MaskValue([0], 1);
            var src := MaskValue([32], 64);
            dst.WellSized() && src.WellSized() && dst.Clean() && src.Clean() && !Copied(dst, src).Clean()
  {
    var dst, src := MaskValue([0], 1), MaskValue([32], 64);
    forall id | 1 <= id < 64 ensures !dst.BitAt(id) {
      ZeroHasNothing(id);
    }
    assert Pow2(5) == 32;
    HasPow2(5, 5);
    assert src.BitAt(5);
    assert Copied(dst, src).BitAt(5);
  }

  lemma {:induction false} BitsDetermine(width: nat, a: nat, b: nat)
    requires a < Pow2(width) && b < Pow2(width)
    requires forall k :: 0 <= k < width ==> Has(a, k) == Has(b, k)
    ensures a == b
    decreases width
  {
    if width > 0 {
      assert Has(a, 0) == Has(b, 0);
      forall k | 0 <= k < width - 1 ensures Has(a / 2, k) == Has(b / 2, k) {
        assert Has(a, k + 1) == Has(b, k + 1);
      }
      BitsDetermine(width - 1, a / 2, b / 2);
    }
  }

  /** Two clean masks over the same ids with the same members are the same words. */
  lemma IdsDetermine(a: MaskValue, b: MaskValue)
    requires a.WellSized() && b.WellSized() && a.len == b.len && a.Clean() && b.Clean()
    requires a.Ids() == b.Ids()
    ensures a == b
  {
    forall w | 0 <= w < |a.words| ensures a.words[w] == b.words[w] {
      forall k | 0 <= k < 64 ensures Has(a.words[w], k) == Has(b.words[w], k) {
        var id := 64 * w + k;
        assert id / 64 == w && id % 64 == k;
        assert a.BitAt(id) == b.BitAt(id) by {
          if id < a.len { assert a.Test(id) == b.Test(id); }
        }
      }
      Pow2Of64();
      BitsDetermine(64, a.words[w], b.words[w]);
    }
  }

  /** A caller-owned byte buffer that packing refills. */
  class ByteBuffer {
    var bytes: seq<Bytes.byte>

    constructor ()
      ensures bytes == []
    {
      bytes := [];
    }
  }

  class BitMask {
    const len: nat
    var words: seq<u64>

    function Value(): MaskValue
      reads this
    {
      MaskValue(words, len)
    }

    ghost predicate Valid()
      reads this
    {
      Value().WellSized() && Value().Clean()
    }

    ghost function Ids(): set<nat>
      requires Valid()
      reads this
    {
      Value().Ids()
    }

    constructor (len: nat)
      ensures Valid() && this.len == len && Ids() == {}
    {
      this.len := len;
      words := seq((len + 63) / 64, i => 0);
      new;
      forall id | 0 <= id < 64 * |words| ensures !Value().BitAt(id) {
        ZeroHasNothing(id % 64);
      }
    }

    /** Refine one word: the bits of the mask after word `w` is replaced. */
    lemma ReplacedWord(before: seq<u64>, w: nat, word: u64)
      requires w < |before|
      ensures forall id {:trigger MaskValue(before[w := word], len).BitAt(id)} :: 0 <= id < 64 * |before| ==>
                MaskValue(before[w := word], len).BitAt(id)
                == if id / 64 == w then Has(word, id % 64) else MaskValue(before, len).BitAt(id)
    {
    }

    method Set(id: nat)
      requires Valid()
      modifies this
      ensures Valid()
      ensures Ids() == if id < len then old(Ids()) + {id} else old(Ids())
    {
      if id >= len { return; }
      var w, bit := id / 64, id % 64;
      forall j | 0 <= j < 64 ensures Has(WithBit(words[w], bit), j) <==> j == bit || Has(words[w], j) {
        HasWithBit(words[w], bit, j);
      }
      ReplacedWord(words, w, WithBit(words[w], bit));
      words := words[w := WithBit(words[w], bit)];
      assert forall k :: 0 <= k < 64 * |words| ==> Value().BitAt(k) == (k == id || old(Value()).BitAt(k));
    }

    method Clear(id: nat)
      requires Valid()
      modifies this
      ensures Valid()
      ensures Ids() == old(Ids()) - {id}
    {
      if id >= len { return; }
      var w, bit := id / 64, id % 64;
      forall j | 0 <= j < 64 ensures Has(WithoutBit(words[w], bit), j) <==> j != bit && Has(words[w], j) {
        HasWithoutBit(words[w], bit, j);
      }
      ReplacedWord(words, w, WithoutBit(words[w], bit));
      words := words[w := WithoutBit(words[w], bit)];
      assert forall k :: 0 <= k < 64 * |words| ==> Value().BitAt(k) == (k != id && old(Value()).BitAt(k));
    }

    method Test(id: nat) returns (r: bool)
      requires Valid()
      ensures r <==> id in Ids()
    {
      r := id < len && Has(words[id / 64], id % 64);
    }

    method ClearAll()
      requires Valid()
      modifies this
      ensures Valid() && Ids() == {}
    {
      var i := 0;
      while i < |words|
        invariant 0 <= i <= |words| == |old(words)|
        invariant forall j :: 0 <= j < i ==> words[j] == 0
      {
        words := words[i := 0];
        i := i + 1;
      }
      forall id | 0 <= id < 64 * |words| ensures !Value().BitAt(id) {
        ZeroHasNothing(id % 64);
      }
    }

    method Intersect(other: MaskValue)
      modifies this
      ensures Value() == Met(old(Value()), other)
    {
      var i := 0;
      while i < |words| && i < |other.words|
        invariant 0 <= i <= |words| == |old(words)|
        invariant forall j :: 0 <= j < |words| ==>
          words[j] == if j < i && j < |other.words| then And(old(words)[j], other.words[j]) else old(words)[j]
      {
        words := words[i := And(words[i], other.words[i])];
        i := i + 1;
      }
      assert words == Met(old(Value()), other).words;
    }

    method CopyFrom(other: MaskValue)
      modifies this
      ensures Value() == Copied(old(Value()), other)
    {
      var i := 0;
      while i < |words| && i < |other.words|
        invariant 0 <= i <= |words| == |old(words)|
        invariant forall j :: 0 <= j < |words| ==>
          words[j] == if j < i && j < |other.words| then other.words[j] else old(words)[j]
      {
        words := words[i := other.words[i]];
        i := i + 1;
      }
      assert words == Copied(old(Value()), other).words;
    }

    /** Little-endian packing: bit `id % 8` of byte `id / 8` is the bit of `id`. */
    method PackLeBytesInto(buf: ByteBuffer)
      requires Valid()
      modifies buf
      ensures |buf.bytes| == (len + 7) / 8
      ensures forall id :: 0 <= id < 8 * |buf.bytes| ==>
                (Has(buf.bytes[id / 8] as nat, id % 8) <==> id in Ids())
    {
      var byteLen := (len + 7) / 8;
      buf.bytes := seq(byteLen, i => 0);
      var w := 0;
      while w < |words|
        invariant 0 <= w <= |words|
        invariant |buf.bytes| == byteLen
        invariant forall i :: 0 <= i < byteLen && i < 8 * w ==> buf.bytes[i] as nat == LeByte(words[i / 8], i % 8)
      {
        var o := 0;
        while o < 8
          invariant 0 <= o <= 8
          invariant |buf.bytes| == byteLen
          invariant forall i :: 0 <= i < byteLen && i < 8 * w + o ==> buf.bytes[i] as nat == LeByte(words[i / 8], i % 8)
        {
          if 8 * w + o < byteLen {
            assert (8 * w + o) / 8 == w && (8 * w + o) % 8 == o;
            buf.bytes := buf.bytes[8 * w + o := LeByte(words[w], o) as Bytes.byte];
          }
          o := o + 1;
        }
        w := w + 1;
      }
      forall id | 0 <= id < 8 * byteLen
        ensures Has(buf.bytes[id / 8] as nat, id % 8) <==> id in Ids()
      {
        PackedBit(id);
      }
    }

    lemma PackedBit(id: nat)
      requires Valid() && id < 8 * ((len + 7) / 8)
      ensures id / 64 < |words|
      ensures Has(LeByte(words[id / 8 / 8], id / 8 % 8), id % 8) <==> id in Ids()
    {
      assert id / 8 / 8 == id / 64;
      LeByteHas(words[id / 64], id / 8 % 8, id % 8);
      assert 8 * (id / 8 % 8) + id % 8 == id % 64;
      assert id in Ids() <==> Value().BitAt(id) by {
        if id >= len { assert !Value().BitAt(id); }
      }
    }

    /** The ids of the set bits, ascending. */
    method IterOnes() returns (ids: seq<nat>)
      requires Valid()
      ensures forall i, j :: 0 <= i < j < |ids| ==> ids[i] < ids[j]
      ensures (set i | 0 <= i < |ids| :: ids[i]) == Ids()
    {
      ids := [];
      var id := 0;
      while id < 64 * |words|
        invariant 0 <= id <= 64 * |words|
        invariant forall i :: 0 <= i < |ids| ==> ids[i] < id && Value().BitAt(ids[i])
        invariant forall i, j :: 0 <= i < j < |ids| ==> ids[i] < ids[j]
        invariant forall k :: 0 <= k < id && Value().BitAt(k) ==> k in ids
      {
        if Has(words[id / 64], id % 64) {
          ids := ids + [id];
        }
        id := id + 1;
      }
    }
  }
}
