/** The packed_info word of a task context: [stable:2][tier:2][flags:4][reserved:24]. */
module PackedInfo {
  import opened TierConfig

  type Word = bv32

  const NEW: Word := 0x0100_0000
  const LOCK: Word := 0x0200_0000
  const IRQ: Word := 0x0400_0000

  /** What the word records. */
  datatype Info = Info(tier: Tier, stable: Tier, isNew: bool, lockHolder: bool, irqWake: bool)

  function Two(b: Word): Tier {
    if b == 0 then 0 else if b == 1 then 1 else if b == 2 then 2 else 3
  }

  function Bits(t: Tier): (b: Word)
    ensures b <= 3 && Two(b) == t
  {
    if t == 0 then 0 else if t == 1 then 1 else if t == 2 then 2 else 3
  }

  /** EXTRACT_BITS_U32 at SHIFT_TIER and SHIFT_STABLE. */
  function TierBits(w: Word): Word {
    (w >> 28) & 3
  }

  function StableBits(w: Word): Word {
    (w >> 30) & 3
  }

  function Unpack(w: Word): Info {
    Info(Two(TierBits(w)), Two(StableBits(w)), w & NEW != 0, w & LOCK != 0, w & IRQ != 0)
  }

  function Pack(i: Info): Word {
    (Bits(i.stable) << 30) | (Bits(i.tier) << 28)
    | (if i.isNew then NEW else 0) | (if i.lockHolder then LOCK else 0) | (if i.irqWake then IRQ else 0)
  }

  /** The reserved bits and the unused flag are zero. */
  predicate Clean(w: Word) {
    w & 0x08FF_FFFF == 0
  }

  lemma BitsTwo(b: Word)
    requires b <= 3
    ensures Bits(Two(b)) == b
  {
  }

  lemma Fields(s: Word, t: Word, f: Word)
    requires s <= 3 && t <= 3 && f & !(NEW | LOCK | IRQ) == 0
    ensures var w := (s << 30) | (t << 28) | f;
            TierBits(w) == t && StableBits(w) == s && Clean(w)
            && w & NEW == f & NEW && w & LOCK == f & LOCK && w & IRQ == f & IRQ
  {
  }

  /** Unpacking a packed record gives it back, and a packed word is clean. */
  lemma UnpackPack(i: Info)
    ensures Unpack(Pack(i)) == i && Clean(Pack(i))
  {
    var n: Word := if i.isNew then NEW else 0;
    var l: Word := if i.lockHolder then LOCK else 0;
    var q: Word := if i.irqWake then IRQ else 0;
    assert Pack(i) == (Bits(i.stable) << 30) | (Bits(i.tier) << 28) | (n | l | q);
    Fields(Bits(i.stable), Bits(i.tier), n | l | q);
  }

  lemma Reassemble(w: Word)
    requires Clean(w)
    ensures w == (StableBits(w) << 30) | (TierBits(w) << 28) | (w & NEW) | (w & LOCK) | (w & IRQ)
  {
  }

  lemma OneBit(w: Word)
    ensures w & NEW == 0 || w & NEW == NEW
    ensures w & LOCK == 0 || w & LOCK == LOCK
    ensures w & IRQ == 0 || w & IRQ == IRQ
  {
  }

  lemma TwoBits(w: Word)
    ensures TierBits(w) <= 3 && StableBits(w) <= 3
  {
  }

  /** A word is the packing of the record it decodes to exactly when its unused bits are zero. */
  lemma PackUnpack(w: Word)
    ensures Pack(Unpack(w)) == w <==> Clean(w)
  {
    if Clean(w) {
      Reassemble(w);
      OneBit(w);
      TwoBits(w);
      BitsTwo(TierBits(w));
      BitsTwo(StableBits(w));
    } else {
      UnpackPack(Unpack(w));
    }
  }

  // ---- the source's updates ----

  /** The fused tier and stability update of reclassify_task_cold. */
  lemma Retier(w: Word, s: Word, t: Word)
    requires s <= 3 && t <= 3 && Clean(w)
    ensures var v := (w & !(0xF << 28)) | (((s << 2) | t) << 28);
            TierBits(v) == t && StableBits(v) == s && Clean(v)
            && v & NEW == w & NEW && v & LOCK == w & LOCK && v & IRQ == w & IRQ
  {
  }

  /** The stability reset of the early-return path. */
  lemma Unstable(w: Word)
    requires Clean(w)
    ensures var v := w & !(3 << 30);
            TierBits(v) == TierBits(w) && StableBits(v) == 0 && Clean(v)
            && v & NEW == w & NEW && v & LOCK == w & LOCK && v & IRQ == w & IRQ
  {
  }

  lemma Cleared(w: Word, f: Word)
    requires Clean(w) && (f == NEW || f == LOCK || f == IRQ)
    ensures var v := w & !f;
            TierBits(v) == TierBits(w) && StableBits(v) == StableBits(w) && Clean(v)
            && v & NEW == (if f == NEW then 0 else w & NEW)
            && v & LOCK == (if f == LOCK then 0 else w & LOCK)
            && v & IRQ == (if f == IRQ then 0 else w & IRQ)
  {
  }

  lemma Raised(w: Word, f: Word)
    requires Clean(w) && (f == LOCK || f == IRQ)
    ensures var v := w | f;
            TierBits(v) == TierBits(w) && StableBits(v) == StableBits(w) && Clean(v)
            && v & NEW == w & NEW
            && v & LOCK == (if f == LOCK then LOCK else w & LOCK)
            && v & IRQ == (if f == IRQ then IRQ else w & IRQ)
  {
  }

  // ---- and what they do to the record ----

  lemma RetierInfo(w: Word, s: Tier, t: Tier)
    requires Clean(w)
    ensures var v := (w & !(0xF << 28)) | (((Bits(s) << 2) | Bits(t)) << 28);
            Clean(v) && Unpack(v) == Unpack(w).(tier := t, stable := s)
  {
    Retier(w, Bits(s), Bits(t));
  }

  lemma UnstableInfo(w: Word)
    requires Clean(w)
    ensures Clean(w & !(3 << 30)) && Unpack(w & !(3 << 30)) == Unpack(w).(stable := 0)
  {
    Unstable(w);
  }

  lemma ClearedInfo(w: Word)
    requires Clean(w)
    ensures Clean(w & !NEW) && Unpack(w & !NEW) == Unpack(w).(isNew := false)
    ensures Clean(w & !LOCK) && Unpack(w & !LOCK) == Unpack(w).(lockHolder := false)
    ensures Clean(w & !IRQ) && Unpack(w & !IRQ) == Unpack(w).(irqWake := false)
  {
    Cleared(w, NEW);
    Cleared(w, LOCK);
    Cleared(w, IRQ);
  }

  lemma RaisedInfo(w: Word)
    requires Clean(w)
    ensures Clean(w | LOCK) && Unpack(w | LOCK) == Unpack(w).(lockHolder := true)
    ensures Clean(w | IRQ) && Unpack(w | IRQ) == Unpack(w).(irqWake := true)
  {
    Raised(w, LOCK);
    Raised(w, IRQ);
  }
}
