/** The ring of recently seen peers, searched newest first with unsigned index arithmetic. */
module SrcInfo {
  import opened Common
  import opened PacketCodec

  datatype Slot = Empty | Full(addr: Address, ttl: byte, hw: Bytes)

  /** Addresses of an unknown family, None here, equal nothing. */
  predicate SameIp(addr: Option<Address>, slot: Slot) {
    addr.Some? && slot.Full? && slot.addr == addr.value
  }

  /** The i-th slot a search visits, computed in words of `word` values. */
  function Index(cap: nat, word: nat, end: nat, i: nat): (j: nat)
    requires 0 < cap <= word
    ensures j < cap
  {
    (end - i - 1) % word % cap
  }

  /** The first visited slot that matches, unless an empty one comes first. */
  function Found(slots: seq<Slot>, word: nat, end: nat, addr: Option<Address>, i: nat): (r: Option<nat>)
    requires 0 < |slots| <= word && i <= |slots|
    ensures r.Some? ==> r.value < |slots| && SameIp(addr, slots[r.value])
    decreases |slots| - i
  {
    if i == |slots| then None
    else
      var j := Index(|slots|, word, end, i);
      if slots[j].Empty? then None
      else if SameIp(addr, slots[j]) then Some(j)
      else Found(slots, word, end, addr, i + 1)
  }

  // ------------------------------------------------------------------- the ring as a history

  function SlotAt(h: seq<Slot>, lap: nat, cap: nat, end: nat, j: nat): Slot
    requires |h| == lap + end && (lap == 0 || lap >= cap) && end <= cap && j < cap
  {
    if j < end then h[lap + j] else if lap >= cap then h[lap - cap + j] else Empty
  }

  /** The slots hold the latest laps of the history of puts. */
  predicate Represents(slots: seq<Slot>, end: nat, lap: nat, h: seq<Slot>) {
    && end < |slots| && |h| == lap + end && (lap == 0 || lap >= |slots|)
    && (forall m | 0 <= m < |h| :: h[m].Full?)
    && forall j | 0 <= j < |slots| :: slots[j] == SlotAt(h, lap, |slots|, end, j)
  }

  /** The newest matching put with an index in [low, high). */
  function Latest(h: seq<Slot>, addr: Option<Address>, low: nat, high: nat): (m: Option<nat>)
    requires high <= |h|
    ensures m.Some? ==> low <= m.value < high && SameIp(addr, h[m.value])
    ensures forall k | low <= k < high && (m.None? || k > m.value) :: !SameIp(addr, h[k])
  {
    if high <= low then None
    else if SameIp(addr, h[high - 1]) then Some(high - 1)
    else Latest(h, addr, low, high - 1)
  }

  /** Where a put of the last `cap` ones sits. */
  function SlotOf(m: nat, lap: nat, cap: nat): int {
    if m >= lap then m - lap else m - lap + cap
  }

  class Ring {
    const slots: array<Slot>
    const word: nat                  // number of values of size_t
    var end: nat
    ghost var history: seq<Slot>
    ghost var lap: nat

    ghost predicate Valid()
      reads this, slots
    {
      0 < slots.Length <= word && Represents(slots[..], end, lap, history)
    }

    constructor (cap: nat, w: nat)
      requires 0 < cap <= w
      ensures Valid() && fresh(slots) && slots.Length == cap && word == w && history == []
    {
      slots := new Slot[cap](_ => Empty);
      word, end, history, lap := w, 0, [], 0;
    }

    method Put(addr: Option<Address>, ttl: byte, hw: Bytes) returns (ok: bool)
      requires Valid()
      modifies this`end, this`history, this`lap, slots
      ensures Valid() && ok == addr.Some?
      ensures history == if ok then old(history) + [Full(addr.value, ttl, hw)] else old(history)
    {
      if addr.None? { return false; }
      slots[end] := Full(addr.value, ttl, hw);
      history := history + [Full(addr.value, ttl, hw)];
      if end == slots.Length - 1 { lap := lap + slots.Length; }
      end := (end + 1) % slots.Length;
      ok := true;
    }

    method Get(addr: Option<Address>) returns (r: Option<Slot>)
      requires Valid()
      ensures var f := Found(slots[..], word, end, addr, 0);
        r == if f.Some? then Some(slots[f.value]) else None
    {
      var i := 0;
      while i < slots.Length
        invariant 0 <= i <= slots.Length
        invariant Found(slots[..], word, end, addr, 0) == Found(slots[..], word, end, addr, i)
      {
        var info := slots[(end - i - 1) % word % slots.Length];
        if info.Empty? { return None; }
        if SameIp(addr, info) { return Some(info); }
        i := i + 1;
      }
      r := None;
    }
  }

  // ------------------------------------------------------------------- the search order

  /** Unsigned wrap-around turns the ideal index C-1, C-2, ... into one shifted by word mod C. */
  lemma IndexIs(cap: nat, word: nat, end: nat, i: nat)
    requires 0 < cap <= word && end < cap && i < cap
    ensures i < end ==> Index(cap, word, end, i) == end - 1 - i
    ensures i >= end ==> var j, r := i - end, word % cap;
      Index(cap, word, end, i) == if j < r then r - 1 - j else cap + r - 1 - j
  {
    var d := end - i - 1;
    var r, q := word % cap, word / cap;
    assert word == cap * q + r;
    if i < end {
      WrapUp(d, word, cap);
    } else {
      assert d % word == word + d by { WrapDown(d, word); }
      if r + d >= 0 {
        MultipleMod(cap, q, r + d);
      } else {
        assert cap * q == cap * (q - 1) + cap;
        MultipleMod(cap, q - 1, cap + r + d);
      }
    }
  }

  lemma WrapUp(d: nat, word: nat, cap: nat)
    requires d < cap <= word
    ensures d % word % cap == d
  {
    MultipleMod(word, 0, d);
    MultipleMod(cap, 0, d);
  }

  lemma WrapDown(d: int, word: nat)
    requires word > 0 && 0 - word <= d < 0
    ensures d % word == word + d
  {
    var q := d / word;
    assert d == word * q + d % word;
    assert word * (q + 1) == word * q + word;
    MulSign(word, q + 1);
  }

  function Or(a: Option<nat>, b: Option<nat>): Option<nat> {
    if a.Some? then a else b
  }

  /** The largest matching slot in [low, high). */
  function MaxMatch(slots: seq<Slot>, addr: Option<Address>, low: int, high: int): (m: Option<nat>)
    requires 0 <= low && high <= |slots|
    ensures m.Some? ==> low <= m.value < high && SameIp(addr, slots[m.value])
    ensures forall k | low <= k < high && (m.None? || k > m.value) :: !SameIp(addr, slots[k])
    decreases high - low
  {
    if high <= low then None
    else if SameIp(addr, slots[high - 1]) then Some(high - 1)
    else MaxMatch(slots, addr, low, high - 1)
  }

  lemma {:induction false} MaxMatchSplit(slots: seq<Slot>, addr: Option<Address>, low: int, mid: int, high: int)
    requires 0 <= low <= mid <= high <= |slots|
    ensures MaxMatch(slots, addr, low, high) == Or(MaxMatch(slots, addr, mid, high), MaxMatch(slots, addr, low, mid))
    decreases high - mid
  {
    if mid < high && !SameIp(addr, slots[high - 1]) {
      MaxMatchSplit(slots, addr, low, mid, high - 1);
    }
  }

  lemma {:induction false} NoneBelow(slots: seq<Slot>, addr: Option<Address>, low: int, high: int)
    requires 0 <= low && high <= |slots| && forall k | low <= k < high :: !SameIp(addr, slots[k])
    ensures MaxMatch(slots, addr, low, high) == None
  {
    if low < high { NoneBelow(slots, addr, low, high - 1); }
  }

  /** First the slots of the current lap, newest first. */
  lemma {:induction false} ScanCurrent(slots: seq<Slot>, word: nat, end: nat, addr: Option<Address>, i: nat)
    requires 0 < |slots| <= word && i <= end < |slots| && forall j | 0 <= j < end :: slots[j].Full?
    ensures Found(slots, word, end, addr, i) == Or(MaxMatch(slots, addr, 0, end - i), Found(slots, word, end, addr, end))
    decreases end - i
  {
    if i < end {
      IndexIs(|slots|, word, end, i);
      ScanCurrent(slots, word, end, addr, i + 1);
    }
  }

  predicate AllFull(slots: seq<Slot>) {
    forall j | 0 <= j < |slots| :: slots[j].Full?
  }

  /** How far down the wrapped part of the search gets. */
  function Lowest(cap: nat, r: nat, end: nat): int {
    if r + end >= cap then r + end - cap else 0
  }

  /** Then, in a full ring, the slots below word mod C... */
  lemma {:induction false} ScanWrapped(slots: seq<Slot>, word: nat, end: nat, addr: Option<Address>, i: nat)
    requires 0 < |slots| <= word && end < |slots| && AllFull(slots)
    requires end <= i <= |slots| && i - end <= word % |slots|
    ensures var cap, r := |slots|, word % |slots|;
      Found(slots, word, end, addr, i)
      == Or(MaxMatch(slots, addr, Lowest(cap, r, end), r - (i - end)),
            if r + end >= cap then None else Found(slots, word, end, addr, end + r))
    decreases |slots| - i
  {
    if i < |slots| && i - end < word % |slots| {
      IndexIs(|slots|, word, end, i);
      ScanWrapped(slots, word, end, addr, i + 1);
    }
  }

  /** ...and last the top slots down to word mod C + end. */
  lemma {:induction false} ScanTop(slots: seq<Slot>, word: nat, end: nat, addr: Option<Address>, i: nat)
    requires 0 < |slots| <= word && end < |slots| && AllFull(slots)
    requires end + word % |slots| <= i <= |slots|
    ensures var cap, r := |slots|, word % |slots|;
      Found(slots, word, end, addr, i) == MaxMatch(slots, addr, r + end, cap + r + end - i)
    decreases |slots| - i
  {
    if i < |slots| {
      IndexIs(|slots|, word, end, i);
      ScanTop(slots, word, end, addr, i + 1);
    }
  }

  lemma WrappedPart(slots: seq<Slot>, addr: Option<Address>, low: int, end: int, r: int)
    requires 0 <= low <= end <= |slots| && low <= r <= |slots|
    requires forall k | 0 <= k < end :: !SameIp(addr, slots[k])
    ensures MaxMatch(slots, addr, low, r) == MaxMatch(slots, addr, end, r)
  {
    if r <= end {
      NoneBelow(slots, addr, low, r);
    } else {
      MaxMatchSplit(slots, addr, low, end, r);
      NoneBelow(slots, addr, low, end);
    }
  }

  lemma BehindCurrent(slots: seq<Slot>, word: nat, end: nat, addr: Option<Address>)
    requires 0 < |slots| <= word && end < |slots| && AllFull(slots)
    requires forall k | 0 <= k < end :: !SameIp(addr, slots[k])
    ensures var r := word % |slots|;
      Found(slots, word, end, addr, end) == Or(MaxMatch(slots, addr, end, r), MaxMatch(slots, addr, r + end, |slots|))
  {
    var cap, r := |slots|, word % |slots|;
    hide Found, MaxMatch;
    ScanWrapped(slots, word, end, addr, end);
    WrappedPart(slots, addr, Lowest(cap, r, end), end, r);
    if r + end < cap {
      ScanTop(slots, word, end, addr, end + r);
    } else {
      NoneBelow(slots, addr, r + end, cap);
    }
  }

  lemma FullSearch(slots: seq<Slot>, word: nat, end: nat, addr: Option<Address>)
    requires 0 < |slots| <= word && end < |slots| && AllFull(slots)
    ensures var r := word % |slots|;
      Found(slots, word, end, addr, 0)
      == Or(MaxMatch(slots, addr, 0, end), Or(MaxMatch(slots, addr, end, r), MaxMatch(slots, addr, r + end, |slots|)))
  {
    hide Found, MaxMatch;
    ScanCurrent(slots, word, end, addr, 0);
    if MaxMatch(slots, addr, 0, end).None? { BehindCurrent(slots, word, end, addr); }
  }

  /** The slot of the newest match, had the search wrapped around at C. */
  function Ideal(slots: seq<Slot>, end: nat, addr: Option<Address>): (m: Option<nat>)
    requires end <= |slots|
    ensures m.Some? ==> m.value < |slots| && SameIp(addr, slots[m.value])
  {
    Or(MaxMatch(slots, addr, 0, end), MaxMatch(slots, addr, end, |slots|))
  }

  /** The newest match lies where the search comes by, with nothing older met before it. */
  predicate InReach(slots: seq<Slot>, word: nat, end: nat, addr: Option<Address>)
    requires 0 < |slots| <= word && end < |slots|
  {
    var best, r := Ideal(slots, end, addr), word % |slots|;
    best.None? || best.value < end || best.value < r
    || (best.value >= r + end && forall k | end <= k < r :: !SameIp(addr, slots[k]))
  }

  /** In a full ring the search finds the newest match exactly when it is in reach. */
  lemma {:induction false} FindsNewestIffInReach(slots: seq<Slot>, word: nat, end: nat, addr: Option<Address>)
    requires 0 < |slots| <= word && end < |slots| && AllFull(slots)
    ensures Found(slots, word, end, addr, 0) == Ideal(slots, end, addr) <==> InReach(slots, word, end, addr)
  {
    var cap, r := |slots|, word % |slots|;
    FullSearch(slots, word, end, addr);
    hide Found;
    if r > end {
      MaxMatchSplit(slots, addr, end, r, cap);
    }
    if r + end <= cap && r >= end { MaxMatchSplit(slots, addr, r, r + end, cap); }
    if r + end <= cap { MaxMatchSplit(slots, addr, end, r + end, cap); }
  }

  /** In a full ring, the slots the search never visits. */
  lemma {:induction false} VisitedSlots(cap: nat, word: nat, end: nat, j: nat)
    requires 0 < cap <= word && end < cap && j < cap
    ensures (exists i :: 0 <= i < cap && Index(cap, word, end, i) == j)
       <==> !(end <= j && word % cap <= j < word % cap + end)
  {
    var r := word % cap;
    hide Index;
    if !(end <= j && r <= j < r + end) {
      var i := if j < end then end - 1 - j else if j < r then end + r - 1 - j else end + cap + r - 1 - j;
      IndexIs(cap, word, end, i);
    } else {
      forall i | 0 <= i < cap ensures Index(cap, word, end, i) != j { IndexIs(cap, word, end, i); }
    }
  }

  // ------------------------------------------------------------------- against the history

  lemma {:induction false} LatestSplit(h: seq<Slot>, addr: Option<Address>, low: nat, mid: nat, high: nat)
    requires low <= mid <= high <= |h|
    ensures Latest(h, addr, low, high) == Or(Latest(h, addr, mid, high), Latest(h, addr, low, mid))
    decreases high - mid
  {
    if mid < high && !SameIp(addr, h[high - 1]) { LatestSplit(h, addr, low, mid, high - 1); }
  }

  /** A run of puts and the run of slots that holds it have their last matches at the same place. */
  lemma {:induction false} Shifted(h: seq<Slot>, slots: seq<Slot>, addr: Option<Address>, base: int, low: nat, high: nat)
    requires low <= high <= |h| && 0 <= low - base && high - base <= |slots|
    requires forall m | low <= m < high :: h[m] == slots[m - base]
    ensures var l, s := Latest(h, addr, low, high), MaxMatch(slots, addr, low - base, high - base);
      (l.Some? <==> s.Some?) && (l.Some? ==> s.value == l.value - base)
    decreases high
  {
    if low < high { Shifted(h, slots, addr, base, low, high - 1); }
  }

  /** The history index from which puts are still in the ring. */
  function Oldest(h: seq<Slot>, cap: nat): nat {
    if |h| > cap then |h| - cap else 0
  }

  predicate SameSlot(found: Option<nat>, m: Option<nat>, lap: nat, cap: nat) {
    (found.Some? <==> m.Some?) && (m.Some? ==> found.value == SlotOf(m.value, lap, cap))
  }

  lemma CurrentLap(slots: seq<Slot>, end: nat, lap: nat, h: seq<Slot>, addr: Option<Address>)
    requires Represents(slots, end, lap, h)
    ensures SameSlot(MaxMatch(slots, addr, 0, end), Latest(h, addr, lap, |h|), lap, |slots|)
  {
    Shifted(h, slots, addr, lap, lap, |h|);
  }

  lemma PreviousLap(slots: seq<Slot>, end: nat, lap: nat, h: seq<Slot>, addr: Option<Address>)
    requires Represents(slots, end, lap, h)
    ensures SameSlot(MaxMatch(slots, addr, end, |slots|), Latest(h, addr, Oldest(h, |slots|), lap), lap, |slots|)
  {
    if lap > 0 {
      Shifted(h, slots, addr, lap - |slots|, lap - |slots| + end, lap);
    } else {
      NoneBelow(slots, addr, end, |slots|);
    }
  }

  lemma {:induction false} LatestIsIdeal(slots: seq<Slot>, end: nat, lap: nat, h: seq<Slot>, addr: Option<Address>)
    requires Represents(slots, end, lap, h)
    ensures SameSlot(Ideal(slots, end, addr), Latest(h, addr, Oldest(h, |slots|), |h|), lap, |slots|)
  {
    hide Latest, MaxMatch;
    CurrentLap(slots, end, lap, h, addr);
    PreviousLap(slots, end, lap, h, addr);
    LatestSplit(h, addr, Oldest(h, |slots|), lap, |h|);
  }

  /** Before the ring has filled, what lies behind the first lap adds nothing. */
  lemma {:induction false} RestIsNothing(slots: seq<Slot>, word: nat, end: nat, addr: Option<Address>, i: nat)
    requires 0 < |slots| <= word && end <= i <= |slots| && end < |slots|
    requires forall j | 0 <= j < end :: !SameIp(addr, slots[j])
    requires forall j | end <= j < |slots| :: slots[j].Empty?
    ensures Found(slots, word, end, addr, i) == None
    decreases |slots| - i
  {
    if i < |slots| {
      RestIsNothing(slots, word, end, addr, i + 1);
    }
  }

  /** Until the ring first fills, and for ever when C divides the word size, a search returns the
      newest match among the last C puts. */
  lemma {:induction false} FindsNewest(slots: seq<Slot>, word: nat, end: nat, lap: nat, h: seq<Slot>, addr: Option<Address>)
    requires 0 < |slots| <= word && Represents(slots, end, lap, h)
    requires |h| < |slots| || word % |slots| == 0
    ensures SameSlot(Found(slots, word, end, addr, 0), Latest(h, addr, Oldest(h, |slots|), |h|), lap, |slots|)
  {
    LatestIsIdeal(slots, end, lap, h, addr);
    if |h| < |slots| {
      ScanCurrent(slots, word, end, addr, 0);
      NoneBelow(slots, addr, end, |slots|);
      if MaxMatch(slots, addr, 0, end).None? { RestIsNothing(slots, word, end, addr, end); }
    } else {
      FullSearch(slots, word, end, addr);
    }
  }

  /** Whatever the word size, a hit is one of the last C puts, with the address asked for. */
  lemma {:induction false} HitsAreLive(slots: seq<Slot>, word: nat, end: nat, lap: nat, h: seq<Slot>, addr: Option<Address>)
    requires 0 < |slots| <= word && Represents(slots, end, lap, h)
    requires Found(slots, word, end, addr, 0).Some?
    ensures exists m :: Oldest(h, |slots|) <= m < |h| && h[m] == slots[Found(slots, word, end, addr, 0).value] && SameIp(addr, h[m])
  {
    var j := Found(slots, word, end, addr, 0).value;
    var m := if j < end then lap + j else lap - |slots| + j;
    assert h[m] == slots[j];
  }

  const CAPACITY := 500
  const SIZE_T_64 := 0x1_0000_0000_0000_0000
  const SIZE_T_32 := 0x1_0000_0000

  lemma WordRemainders()
    ensures SIZE_T_64 % CAPACITY == 116 && SIZE_T_32 % CAPACITY == 296
  {
  }

  const PEER := Inet([203, 0, 113, 1])
  const STRANGER := Inet([203, 0, 113, 2])

  /** 501 puts, the 117th of which is the only one of its address. */
  function Puts(): (h: seq<Slot>)
    ensures |h| == 501
  {
    seq(501, m => Full(if m == 116 then PEER else STRANGER, 64, []))
  }

  function TableAfterPuts(): (slots: seq<Slot>)
    ensures |slots| == CAPACITY
  {
    seq(CAPACITY, j requires 0 <= j < CAPACITY => SlotAt(Puts(), CAPACITY, CAPACITY, 1, j))
  }

  lemma TableFacts()
    ensures Represents(TableAfterPuts(), 1, CAPACITY, Puts()) && AllFull(TableAfterPuts())
    ensures forall j | 0 <= j < CAPACITY && j != 116 :: !SameIp(Some(PEER), TableAfterPuts()[j])
    ensures SameIp(Some(PEER), Puts()[116])
    ensures forall m | 116 < m < 501 :: !SameIp(Some(PEER), Puts()[m])
  {
  }

  /** With the real sizes a live peer can be missed: 384 puts after its own, with its address in a
      slot of the ring, the search for it fails. */
  lemma {:induction false} MissesLivePeer()
    ensures Represents(TableAfterPuts(), 1, CAPACITY, Puts())
    ensures Latest(Puts(), Some(PEER), Oldest(Puts(), CAPACITY), 501) == Some(116)
    ensures Found(TableAfterPuts(), SIZE_T_64, 1, Some(PEER), 0) == None
  {
    TableFacts();
    WordRemainders();
    hide Found, TableAfterPuts, Puts, SameIp, Represents;
    var slots, addr := TableAfterPuts(), Some(PEER);
    FullSearch(slots, SIZE_T_64, 1, addr);
    NoneBelow(slots, addr, 0, 1);
    NoneBelow(slots, addr, 1, 116);
    NoneBelow(slots, addr, 117, CAPACITY);
  }

  /** With the 64-bit word and a full ring: an address is found in its newest slot exactly when no
      slot holds it, or that slot is before `end`, or before 116, or at least 116 past `end` with no
      older match between `end` and 116. */
  lemma {:induction false} RealPairExactly(slots: seq<Slot>, end: nat, addr: Option<Address>)
    requires |slots| == CAPACITY && end < CAPACITY && AllFull(slots)
    ensures var best := Ideal(slots, end, addr);
      Found(slots, SIZE_T_64, end, addr, 0) == best
      <==> (best.None? || best.value < end || best.value < 116
            || (best.value >= 116 + end && forall k | end <= k < 116 :: !SameIp(addr, slots[k])))
  {
    WordRemainders();
    FindsNewestIffInReach(slots, SIZE_T_64, end, addr);
  }
}
