/** The 16-bit machine beyond the commit bound. Its words are positions modulo SEQ_MOD, and until it panics
    it does nothing that the unbounded machine could not do: each of its runs has a run of the unbounded
    machine with the same history. */
module PackedWrap {
  import opened Bits
  import opened Fields
  import opened Words

  // ---- words modulo SEQ_MOD ----

  function ModWord(w: Word): Word {
    match w
    case Pos(n, c) => PackWord(Pos(n % SEQ_MOD, c))
    case Raw(_) => w
  }

  function ModSlot(slot: SlotWord): SlotWord {
    match slot
    case Slot(q, i) => PackSlot(Slot(q % SEQ_MOD, i))
    case RawSlot(_) => slot
  }

  lemma ModClosed(n: nat, c: bool)
    ensures IsClosed(ModWord(Pos(n, c))) == c
    ensures Close(ModWord(Pos(n, c))) == ModWord(Pos(n, true))
  {
    ClosedAgrees(Pos(n % SEQ_MOD, c));
    CloseAgrees(Pos(n % SEQ_MOD, c));
  }

  // The ring size divides the modulus.
  lemma ModOfMod(n: nat)
    ensures n % 1024 % 64 == n % 64 && n % 2048 % 32 == n % 32
  {
    var q, r := n / 1024, n % 1024;
    RemainderIs(n, 64, 16 * q + r / 64, r % 64);
    var q', r' := n / 2048, n % 2048;
    RemainderIs(n, 32, 64 * q' + r' / 32, r' % 32);
  }

  lemma ModIndex(n: nat, c: bool)
    ensures SlotIndex(ModWord(Pos(n, c))) == SlotOf(n)
  {
    SlotIndexAgrees(Pos(n % SEQ_MOD, c));
    ModOfMod(n);
  }

  lemma NextMod(n: nat)
    ensures (n + 1) % SEQ_MOD == if n % SEQ_MOD == SEQ_MOD - 1 then 0 else n % SEQ_MOD + 1
  {
    NextRemainder(n, SEQ_MOD);
    if n % SEQ_MOD < SEQ_MOD - 1 {
      SmallRemainder(n % SEQ_MOD + 1, SEQ_MOD);
    }
  }

  lemma ModAdvance(n: nat, c: bool)
    ensures Advance(ModWord(Pos(n, c))) == ModWord(Pos(n + 1, c))
  {
    NextMod(n);
    if n % SEQ_MOD < SEQ_MOD - 1 {
      AdvanceAgrees(Pos(n % SEQ_MOD, c));
    }
  }

  lemma ModPublished(n: nat, c: bool, idx: nat)
    requires idx < MAX_CAPACITY
    ensures Published(ModWord(Pos(n, c)), idx) == ModSlot(Slot(n + 1, idx))
  {
    NextMod(n);
    if n % SEQ_MOD < SEQ_MOD - 1 {
      PublishAgrees(Pos(n % SEQ_MOD, c), idx);
    } else {
      PackedFields(n % SEQ_MOD, c);
      PublishedWord(ModWord(Pos(n, c)), idx);
    }
  }

  lemma ModReleased(q: nat, i: nat)
    requires i < MAX_CAPACITY
    ensures Released(ModSlot(Slot(q, i))) == ModSlot(Slot(q + MASK, i))
    ensures IndexOf(ModSlot(Slot(q, i))) == i
  {
    var r := q % SEQ_MOD;
    SlotWordsAgree(Slot(r, i));
    SumMod(q, MASK);
    if r + MASK >= SEQ_MOD {
      LapWraps(r, i);
    }
  }

  lemma SumMod(q: nat, d: nat)
    requires d < SEQ_MOD
    ensures (q + d) % SEQ_MOD == if q % SEQ_MOD + d < SEQ_MOD then q % SEQ_MOD + d else q % SEQ_MOD + d - SEQ_MOD
  {
    var k, r := q / SEQ_MOD, q % SEQ_MOD;
    if r + d < SEQ_MOD {
      RemainderIs(q + d, SEQ_MOD, k, r + d);
    } else {
      MulNext(SEQ_MOD, k);
      RemainderIs(q + d, SEQ_MOD, k + 1, r + d - SEQ_MOD);
    }
  }

  lemma LapWraps(r: nat, i: nat)
    requires r < SEQ_MOD <= r + MASK && i < MAX_CAPACITY
    ensures Released(PackSlot(Slot(r, i))) == PackSlot(Slot(r + MASK - SEQ_MOD, i))
  {
  }

  /** A slot that is vacant at the head's position or published there looks ready only if it is published. */
  lemma ModReady(h: nat, c: bool, q: nat, i: nat)
    requires h < SEQ_MOD && (q == h || q == h + 1) && i < MAX_CAPACITY
    ensures RxDif(ModSlot(Slot(q, i)), ModWord(Pos(h, c))) == 0 <==> q == h + 1 && h < SEQ_MOD - 1
  {
    SmallRemainder(h, SEQ_MOD);
    NextMod(h);
    PackedFields(h, c);
    RawReadiness(q % SEQ_MOD, i, ModWord(Pos(h, c)));
  }

  /** A slot that is vacant at a position looks as if there were room at it. */
  lemma ModRoom(n: nat, c: bool, i: nat)
    requires i < MAX_CAPACITY
    ensures TxDif(ModSlot(Slot(n, i)), ModWord(Pos(n, c))) == 0
  {
    DifferencesAgree(Slot(n % SEQ_MOD, i), Pos(n % SEQ_MOD, c));
  }
}
