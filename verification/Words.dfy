/** The words that the channel core packs its state into, in two forms.

    `Pos` and `Slot` carry an unbounded position or sequence number; `Raw` and `RawSlot` carry
    the 16-bit words of the implementation. Every operation of the core on such a word is
    defined on both forms, and the lemmas at the end say when the packed form computes the
    same thing as the unbounded one. */
module Words {
  import opened Bits
  import opened Fields

  type u16 = x: int | 0 <= x < 0x1_0000

  /** The allocator word has one bit for each index, so the capacity is the width of a machine word. */
  type WordBits = n: nat | n == 32 || n == 64 witness 64

  const MAX_CAPACITY: WordBits

  const CLOSED: u16 := 1
  const MASK: u16 := MAX_CAPACITY - 1
  const POS_SHIFT: nat := if MAX_CAPACITY == 64 then 6 else 5
  const POS_ONE: u16 := Shl(1)
  const LAP_ONE: u16 := Shl(MASK)

  /** Number of distinct sequence numbers, `2^(16 - POS_SHIFT)`. */
  const SEQ_MOD: nat := if MAX_CAPACITY == 64 then 1024 else 2048

  /** Largest number of commits for which every sequence number stays below SEQ_MOD. */
  const COMMIT_BOUND: nat := SEQ_MOD - MAX_CAPACITY

  function Shr(w: u16): (r: u16)
    ensures r < SEQ_MOD
  {
    if MAX_CAPACITY == 64 then w / 64 else w / 32
  }

  function Shl(x: u16): u16 {
    if MAX_CAPACITY == 64 then x * 64 % 0x1_0000 else x * 32 % 0x1_0000
  }

  function WrappingAdd(a: u16, b: u16): u16 {
    (a + b) % 0x1_0000
  }

  /** `u as i16`. */
  function AsI16(u: u16): int {
    if u < 0x8000 then u else u - 0x1_0000
  }

  /** `i16::wrapping_sub`. */
  function WrappingSubI16(a: int, b: int): int {
    (a - b + 0x8000) % 0x1_0000 - 0x8000
  }

  /** Index in the ring of an unbounded position. */
  function SlotOf(p: nat): (k: nat)
    ensures k < MAX_CAPACITY
  {
    if MAX_CAPACITY == 64 then p % 64 else p % 32
  }

  /** `enqueue_pos` or `dequeue_pos`. */
  datatype Word = Pos(pos: nat, closed: bool) | Raw(w: u16)

  /** An element of `queue`: the sequence number of the slot and the element index it holds. */
  datatype SlotWord = Slot(num: nat, idx: nat) | RawSlot(w: u16)

  predicate IsClosed(w: Word) {
    match w
    case Pos(_, closed) => closed
    case Raw(r) => And(r, CLOSED) == CLOSED
  }

  /** `fetch_or(CLOSED)`. */
  function Close(w: Word): Word {
    match w
    case Pos(p, _) => Pos(p, true)
    case Raw(r) => SetLowBit(r); Raw(Or(r, CLOSED))
  }

  /** `wrapping_add(POS_ONE)`. */
  function Advance(w: Word): Word {
    match w
    case Pos(p, c) => Pos(p + 1, c)
    case Raw(r) => Raw(WrappingAdd(r, POS_ONE))
  }

  /** `(pos & MASK) as usize`, with `pos = w >> POS_SHIFT`. */
  function SlotIndex(w: Word): (k: nat)
    ensures k < MAX_CAPACITY
  {
    match w
    case Pos(p, _) => SlotOf(p)
    case Raw(r) => MaskIsMod(Shr(r)); And(Shr(r), MASK)
  }

  /** How far the slot is ahead of the sender that looks for room at `w`. */
  function TxDif(slot: SlotWord, w: Word): int {
    match (slot, w)
    case (Slot(q, _), Pos(p, _)) => q - p
    case (RawSlot(v), Raw(r)) => WrappingSubI16(AsI16(Shr(v)), AsI16(Shr(r)))
    case _ => 0
  }

  /** How far the slot is ahead of the receiver that looks for a message at `w`. */
  function RxDif(slot: SlotWord, w: Word): int {
    match (slot, w)
    case (Slot(q, _), Pos(p, _)) => q - (p + 1)
    case (RawSlot(v), Raw(r)) => WrappingSubI16(AsI16(Shr(v)), AsI16(WrappingAdd(Shr(r), 1)))
    case _ => 0
  }

  /** What a sender stores in the slot at `w` to publish element `idx`. */
  function Published(w: Word, idx: nat): SlotWord
    requires idx < MAX_CAPACITY
  {
    match w
    case Pos(p, _) => Slot(p + 1, idx)
    case Raw(r) =>
      var stored := Shl(WrappingAdd(Shr(r), 1));
      OrIndex(stored, idx);
      RawSlot(Or(idx, stored))
  }

  /** What the receiver stores in the slot it has emptied: one lap further. */
  function Released(slot: SlotWord): SlotWord {
    match slot
    case Slot(q, i) => Slot(q + MASK, i)
    case RawSlot(v) => RawSlot(WrappingAdd(v, LAP_ONE))
  }

  /** `(val & MASK) as u8`. */
  function IndexOf(slot: SlotWord): nat {
    match slot
    case Slot(_, i) => i
    case RawSlot(v) => And(v, MASK)
  }

  // ---- the core's `state` word ----

  /** `1 << usize::BITS`. */
  const USIZE_MOD: nat := if MAX_CAPACITY == 64 then 0x1_0000_0000_0000_0000 else 0x1_0000_0000

  const RX_CLAIMED: nat := 1
  const ERRORING: nat := 2
  const ERRORED: nat := 4
  const TX_ONE: nat := 8

  /** The `state` word: three flags and, above them, the sender count. */
  datatype StateWord = Flags(claimed: bool, erroring: bool, errored: bool, txs: nat) | RawState(w: nat)

  predicate IsClaimed(s: StateWord) {
    match s
    case Flags(c, _, _, _) => c
    case RawState(w) => And(w, RX_CLAIMED) != 0
  }

  /** `state & CANT_ERROR != 0`. */
  predicate CantError(s: StateWord) {
    match s
    case Flags(_, e, d, _) => e || d
    case RawState(w) => And(w, Or(ERRORING, ERRORED)) != 0
  }

  predicate IsErrored(s: StateWord) {
    match s
    case Flags(_, _, d, _) => d
    case RawState(w) => And(w, ERRORED) != 0
  }

  /** `state >> TX_SHIFT`. */
  function TxCount(s: StateWord): nat {
    match s
    case Flags(_, _, _, n) => n
    case RawState(w) => w / TX_ONE
  }

  /** `fetch_or(RX_CLAIMED)`. */
  function SetClaimed(s: StateWord): StateWord {
    match s
    case Flags(_, _, _, _) => s.(claimed := true)
    case RawState(w) => RawState(Or(w, RX_CLAIMED))
  }

  /** `fetch_or(ERRORING)`. */
  function SetErroring(s: StateWord): StateWord {
    match s
    case Flags(_, _, _, _) => s.(erroring := true)
    case RawState(w) => RawState(Or(w, ERRORING))
  }

  /** `fetch_or(ERRORED)`. */
  function SetErrored(s: StateWord): StateWord {
    match s
    case Flags(_, _, _, _) => s.(errored := true)
    case RawState(w) => RawState(Or(w, ERRORED))
  }

  /** `fetch_add(TX_ONE)`. */
  function AddSender(s: StateWord): StateWord {
    match s
    case Flags(_, _, _, n) => s.(txs := n + 1)
    case RawState(w) => RawState((w + TX_ONE) % USIZE_MOD)
  }

  /** `fetch_sub(TX_ONE)`. */
  function SubSender(s: StateWord): StateWord {
    match s
    case Flags(_, _, _, n) => s.(txs := if n == 0 then 0 else n - 1)
    case RawState(w) => RawState((w - TX_ONE) % USIZE_MOD)
  }

  // ---- packing ----

  function PackWord(w: Word): Word {
    match w
    case Pos(p, c) =>
      if p < SEQ_MOD then Raw((if MAX_CAPACITY == 64 then p * 64 else p * 32) + if c then 1 else 0) else w
    case Raw(_) => w
  }

  function PackSlot(s: SlotWord): SlotWord {
    match s
    case Slot(q, i) =>
      if q < SEQ_MOD && i < MAX_CAPACITY then RawSlot((if MAX_CAPACITY == 64 then q * 64 else q * 32) + i) else s
    case RawSlot(_) => s
  }

  function Bit(b: bool): nat { if b then 1 else 0 }

  function PackState(s: StateWord): StateWord {
    match s
    case Flags(c, e, d, n) => RawState(Bit(c) + 2 * Bit(e) + 4 * Bit(d) + 8 * n)
    case RawState(_) => s
  }

  lemma MaskIsMod(x: u16)
    ensures And(x, MASK) == SlotOf(x)
  {
    AndMask(x, MAX_CAPACITY);
  }

  lemma ClosedIsParity(x: u16)
    ensures And(x, CLOSED) == x % 2
  {
    AndMask(x, 2);
  }

  lemma SetLowBit(x: u16)
    ensures Or(x, CLOSED) == (if x % 2 == 1 then x else x + 1)
    ensures Or(x, CLOSED) < 0x1_0000
  {
    OrZero(x / 2);
  }

  lemma OrIndex(stored: u16, idx: nat)
    requires stored % MAX_CAPACITY == 0 && idx < MAX_CAPACITY
    ensures Or(idx, stored) == stored + idx
    ensures Or(idx, stored) < 0x1_0000
  {
    OrCommutes(idx, stored);
    OrDisjoint(stored, idx, MAX_CAPACITY);
    assert stored + idx < 0x1_0000 by {
      assert if MAX_CAPACITY == 64 then stored <= 0x1_0000 - 64 else stored <= 0x1_0000 - 32;
    }
  }

  lemma {:induction false} OrCommutes(a: nat, b: nat)
    ensures Or(a, b) == Or(b, a)
    decreases a + b
  {
    if a + b > 0 {
      OrCommutes(a / 2, b / 2);
    }
  }

  lemma PackedFields(p: nat, c: bool)
    requires p < SEQ_MOD
    ensures PackWord(Pos(p, c)).Raw?
    ensures PackWord(Pos(p, c)).w % 2 == Bit(c) && Shr(PackWord(Pos(p, c)).w) == p
  {
    PositionFieldsOf(p, Bit(c));
  }

  /** While positions stay below SEQ_MOD, the 16-bit position words compute what unbounded positions do:
      the CLOSED bit, setting it, the index into the ring, and the next position. */
  lemma ClosedAgrees(w: Word)
    requires w.Pos? && w.pos < SEQ_MOD
    ensures IsClosed(PackWord(w)) == w.closed
  {
    PackedFields(w.pos, w.closed);
    ClosedIsParity(PackWord(w).w);
  }

  lemma CloseAgrees(w: Word)
    requires w.Pos? && w.pos < SEQ_MOD
    ensures PackWord(Close(w)) == Close(PackWord(w))
  {
    PackedFields(w.pos, w.closed);
    SetLowBit(PackWord(w).w);
  }

  lemma SlotIndexAgrees(w: Word)
    requires w.Pos? && w.pos < SEQ_MOD
    ensures SlotIndex(PackWord(w)) == SlotIndex(w)
  {
    PackedFields(w.pos, w.closed);
    MaskIsMod(w.pos);
  }

  lemma AdvanceAgrees(w: Word)
    requires w.Pos? && w.pos + 1 < SEQ_MOD
    ensures PackWord(Advance(w)) == Advance(PackWord(w))
  {
  }

  /** Packing loses nothing, so a compare-and-swap on packed words succeeds exactly when it would on positions. */
  lemma PackWordInjective(v: Word, w: Word)
    requires v.Pos? && v.pos < SEQ_MOD && w.Pos? && w.pos < SEQ_MOD
    ensures PackWord(v) == PackWord(w) <==> v == w
  {
  }

  lemma PackedSlotFields(q: nat, i: nat)
    requires q < SEQ_MOD && i < MAX_CAPACITY
    ensures PackSlot(Slot(q, i)).RawSlot?
    ensures Shr(PackSlot(Slot(q, i)).w) == q
  {
    PositionFieldsOf(q, i);
  }

  /** The same for the slots: the signed 16-bit differences are the differences of the positions. */
  lemma DifferencesAgree(slot: SlotWord, w: Word)
    requires slot.Slot? && slot.num < SEQ_MOD && slot.idx < MAX_CAPACITY
    requires w.Pos? && w.pos < SEQ_MOD
    ensures TxDif(PackSlot(slot), PackWord(w)) == TxDif(slot, w)
    ensures RxDif(PackSlot(slot), PackWord(w)) == RxDif(slot, w)
  {
    PackedSlotFields(slot.num, slot.idx);
    PackedFields(w.pos, w.closed);
    SmallDifferences(slot.num, w.pos);
    SmallDifferences(slot.num, w.pos + 1);
  }

  /** The index survives packing, and a slot released one lap further keeps it. */
  lemma SlotWordsAgree(slot: SlotWord)
    requires slot.Slot? && slot.num < SEQ_MOD && slot.idx < MAX_CAPACITY
    ensures IndexOf(PackSlot(slot)) == slot.idx
    ensures slot.num + MASK < SEQ_MOD ==> PackSlot(Released(slot)) == Released(PackSlot(slot))
  {
    var v := PackSlot(slot).w;
    MaskIsMod(v);
    RemainderIs(v, MAX_CAPACITY, slot.num, slot.idx);
    LapAheadWord(slot);
  }

  lemma LapAheadWord(slot: SlotWord)
    requires slot.Slot? && slot.num < SEQ_MOD && slot.idx < MAX_CAPACITY
    ensures slot.num + MASK < SEQ_MOD ==> PackSlot(Released(slot)) == Released(PackSlot(slot))
  {
  }

  // Below SEQ_MOD, the signed 16-bit difference is the difference.
  lemma SmallDifferences(a: nat, b: nat)
    requires a < SEQ_MOD && b <= SEQ_MOD
    ensures WrappingSubI16(AsI16(a), AsI16(b)) == a - b
  {
  }

  lemma PublishedWord(w: Word, idx: nat)
    requires w.Raw? && idx < MAX_CAPACITY
    ensures Published(w, idx) == RawSlot(Shl(Shr(w.w) + 1) + idx)
    ensures Shl(Shr(w.w) + 1) == (if Shr(w.w) + 1 == SEQ_MOD then 0 else (Shr(w.w) + 1) * MAX_CAPACITY)
  {
    var p := Shr(w.w) + 1;
    ShiftedPosition(p);
    OrIndex(Shl(p), idx);
  }

  lemma PublishAgrees(w: Word, idx: nat)
    requires w.Pos? && w.pos + 1 < SEQ_MOD && idx < MAX_CAPACITY
    ensures PackSlot(Published(w, idx)) == Published(PackWord(w), idx)
  {
    PackedFields(w.pos, w.closed);
    PublishedWord(PackWord(w), idx);
  }

  /** At the last position of the 16-bit range, no slot value whatever looks ready to the receiver. */
  lemma NothingIsReadyAtTheEnd(slot: SlotWord, w: Word)
    requires slot.RawSlot? && w.Raw? && Shr(w.w) == SEQ_MOD - 1
    ensures RxDif(slot, w) < 0
  {
    SmallDifferences(Shr(slot.w), SEQ_MOD);
  }

  /** What a sender publishes at a position looks ready to the receiver there, except at the last one. */
  lemma PublishedIsReadyExactly(w: Word, idx: nat)
    requires w.Raw? && idx < MAX_CAPACITY
    ensures RxDif(Published(w, idx), w) == 0 <==> Shr(w.w) != SEQ_MOD - 1
  {
    var p := Shr(w.w) + 1;
    var k := if p < SEQ_MOD then p else 0;
    PublishedWord(w, idx);
    assert Published(w, idx) == PackSlot(Slot(k, idx));
    RawReadiness(k, idx, w);
  }

  lemma RawReadiness(k: nat, idx: nat, w: Word)
    requires k < SEQ_MOD && idx < MAX_CAPACITY && w.Raw?
    ensures RxDif(PackSlot(Slot(k, idx)), w) == k - (Shr(w.w) + 1)
  {
    PackedSlotFields(k, idx);
    SmallDifferences(k, Shr(w.w) + 1);
  }

  // The three flags are bits 0, 1 and 2 of the word.
  lemma FlagBits(w: nat)
    ensures And(w, RX_CLAIMED) == w % 2
    ensures And(w, ERRORING) == 2 * (w / 2 % 2)
    ensures And(w, ERRORED) == 4 * (w / 4 % 2)
    ensures And(w, Or(ERRORING, ERRORED)) == 4 * (w / 4 % 2) + 2 * (w / 2 % 2)
  {
    var h := w / 2;
    var q := h / 2;
    assert q == w / 4;
    AndMask(w, 2); AndMask(h, 2); AndMask(q, 2);
    assert Or(2, 4) == 6;
    assert And(h, 2) == 2 * And(q, 1);
    assert And(h, 3) == 2 * And(q, 1) + h % 2;
    assert And(w, 4) == 2 * And(h, 2);
    assert And(w, 6) == 2 * And(h, 3);
  }

  lemma FlagSets(w: nat)
    ensures Or(w, RX_CLAIMED) == w - w % 2 + 1
    ensures Or(w, ERRORING) == w - 2 * (w / 2 % 2) + 2
    ensures Or(w, ERRORED) == w - 4 * (w / 4 % 2) + 4
  {
    var h := w / 2;
    var q := h / 2;
    assert q == w / 4;
    OrZero(h); OrZero(q); OrZero(q / 2);
    assert Or(q, 1) == q - q % 2 + 1;
    assert Or(h, 1) == h - h % 2 + 1;
    assert Or(h, 2) == 2 * Or(q, 1) + h % 2;
    assert Or(w, 2) == 2 * Or(h, 1) + w % 2;
    assert Or(w, 4) == 2 * Or(h, 2) + w % 2;
  }

  lemma PackedFlags(s: StateWord)
    requires s.Flags?
    ensures var w := PackState(s).w; w % 2 == Bit(s.claimed) && w / 2 % 2 == Bit(s.erroring)
                                     && w / 4 % 2 == Bit(s.errored) && w / TX_ONE == s.txs
  {
    FieldsOf(Bit(s.claimed), Bit(s.erroring), Bit(s.errored), s.txs);
  }

  /** The flags and the sender count share a word without disturbing one another: each flag reads as it
      was set, and setting it changes nothing else. */
  lemma ClaimedAgrees(s: StateWord)
    requires s.Flags?
    ensures IsClaimed(PackState(s)) == s.claimed
    ensures PackState(SetClaimed(s)) == SetClaimed(PackState(s))
  {
    PackedFlags(s);
    FlagBits(PackState(s).w);
    FlagSets(PackState(s).w);
  }

  lemma ErroringAgrees(s: StateWord)
    requires s.Flags?
    ensures CantError(PackState(s)) == (s.erroring || s.errored)
    ensures PackState(SetErroring(s)) == SetErroring(PackState(s))
  {
    PackedFlags(s);
    FlagBits(PackState(s).w);
    FlagSets(PackState(s).w);
  }

  lemma ErroredAgrees(s: StateWord)
    requires s.Flags?
    ensures IsErrored(PackState(s)) == s.errored
    ensures PackState(SetErrored(s)) == SetErrored(PackState(s))
  {
    PackedFlags(s);
    FlagBits(PackState(s).w);
    FlagSets(PackState(s).w);
  }

  lemma SenderCountAgrees(s: StateWord)
    requires s.Flags? && TX_ONE * (s.txs + 2) < USIZE_MOD
    ensures TxCount(PackState(s)) == s.txs
    ensures PackState(AddSender(s)) == AddSender(PackState(s))
    ensures s.txs > 0 ==> PackState(SubSender(s)) == SubSender(PackState(s))
  {
    var w := PackState(s).w;
    PackedFlags(s);
    SmallRemainder(w + TX_ONE, USIZE_MOD);
    if s.txs > 0 {
      SmallRemainder(w - TX_ONE, USIZE_MOD);
    }
  }
}
