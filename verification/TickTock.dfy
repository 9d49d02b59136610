/** The packed counters of syncx/ticktock.go: two 32-bit counts in one 64-bit word that
    producers add to atomically, while a single folder loads and subtracts in two
    separate atomic steps. */
module TickTock {
  import opened Words

  // ---- The word ------------------------------------------------------------------

  function Lo(w: u64): u32 {
    w % TWO32
  }

  function Hi(w: u64): u32 {
    w / TWO32
  }

  function Shl32(v: u64): u64 {
    v * TWO32 % TWO64
  }

  /** The word TickTockCounter.Fold adds to take its tocks off both halves. */
  function FoldAddend(tocks: u32): u64 {
    Not64(Sub64(Add64(Shl32(tocks), tocks), 1))
  }

  /** The word TickTockFolder.Draw adds to take the complete count off the upper half. */
  function DrawAddend(complete: u32): u64 {
    Not64(Sub64(Shl32(complete), 1))
  }

  class TickTockCounter {
    var word: u64

    constructor ()
      ensures word == 0
    {
      word := 0;
    }

    method Tick()
      modifies this
      ensures word == Add64(old(word), TWO32)
    {
      word := Add64(word, TWO32);
    }

    method Tock()
      modifies this
      ensures word == Add64(old(word), 1)
    {
      word := Add64(word, 1);
    }

    /** The first atomic step of Fold. */
    method FoldLoad() returns (ticks: u32, tocks: u32)
      ensures ticks == Hi(word) && tocks == Lo(word)
    {
      tocks := word % TWO32;
      ticks := word / TWO32;
    }

    /** The second atomic step of Fold. */
    method FoldSubtract(tocks: u32)
      modifies this
      ensures word == Add64(old(word), FoldAddend(tocks))
    {
      word := Add64(word, Not64(Sub64(Add64(Shl32(tocks), tocks), 1)));
    }

    /** Fold with nobody in between, as the tests call it. */
    method Fold() returns (ticks: u32, tocks: u32)
      requires Lo(word) <= Hi(word)
      modifies this
      ensures ticks == old(Hi(word)) && tocks == old(Lo(word))
      ensures Lo(word) == 0 && Hi(word) == ticks - tocks
    {
      ticks, tocks := FoldLoad();
      FoldSubtracts(word, tocks);
      FoldSubtract(tocks);
      Halves(ticks - tocks, 0);
    }
  }

  class TickTockFolder {
    var word: u64

    constructor ()
      ensures word == 0
    {
      word := 0;
    }

    method Tick()
      modifies this
      ensures word == Add64(old(word), 1)
    {
      word := Add64(word, 1);
    }

    method Tock()
      modifies this
      ensures word == Add64(old(word), TWO32 - 1)
    {
      word := Add64(word, TWO32 - 1);
    }

    /** The first atomic step of Draw. */
    method DrawLoad() returns (complete: u32, pending: u32)
      ensures complete == Hi(word) && pending == Lo(word)
    {
      pending := word % TWO32;
      complete := word / TWO32;
    }

    /** The second atomic step of Draw. */
    method DrawSubtract(complete: u32)
      modifies this
      ensures word == Add64(old(word), DrawAddend(complete))
    {
      word := Add64(word, Not64(Sub64(Shl32(complete), 1)));
    }

    /** Draw with nobody in between: the completed waits are gone and the pending ones stay. */
    method Draw() returns (complete: u32, pending: u32)
      modifies this
      ensures complete == old(Hi(word)) && pending == old(Lo(word))
      ensures Hi(word) == 0 && Lo(word) == pending
    {
      complete, pending := DrawLoad();
      PackedDraw(complete, pending, complete);
      DrawSubtract(complete);
      Halves(0, pending);
    }
  }

  function Packed(hi: int, lo: int): int {
    hi * TWO32 + lo
  }

  lemma Halves(hi: u32, lo: u32)
    ensures 0 <= Packed(hi, lo) < TWO64
    ensures Hi(Packed(hi, lo)) == hi && Lo(Packed(hi, lo)) == lo
  {}

  lemma Negated(x: u64)
    ensures Not64(Sub64(x, 1)) == (0 - x) % TWO64
  {}

  lemma AddNegated(w: u64, x: u64)
    ensures Add64(w, (0 - x) % TWO64) == (w - x) % TWO64
  {}

  lemma ShiftFits(v: u32)
    ensures v * TWO32 + v < TWO64 && Shl32(v) == v * TWO32 && Add64(Shl32(v), v) == v * TWO32 + v
  {}

  lemma FoldSubtracts(w: u64, tocks: u32)
    ensures Add64(w, FoldAddend(tocks)) == (w - tocks * TWO32 - tocks) % TWO64
  {
    ShiftFits(tocks);
    Negated(tocks * TWO32 + tocks);
    AddNegated(w, tocks * TWO32 + tocks);
  }

  lemma DrawSubtracts(w: u64, complete: u32)
    ensures Add64(w, DrawAddend(complete)) == (w - complete * TWO32) % TWO64
  {
    ShiftFits(complete);
    Negated(complete * TWO32);
    AddNegated(w, complete * TWO32);
  }

  lemma PackedPlus(hi: u32, lo: u32, dhi: int, dlo: int)
    requires 0 <= hi + dhi < TWO32 && 0 <= lo + dlo < TWO32 && 0 <= Packed(dhi, dlo) < TWO64
    ensures 0 <= Packed(hi, lo) < TWO64
    ensures Add64(Packed(hi, lo), Packed(dhi, dlo)) == Packed(hi + dhi, lo + dlo)
  {}

  lemma PackedFold(hi: u32, lo: u32, t: u32)
    requires t <= lo && t <= hi
    ensures 0 <= Packed(hi, lo) < TWO64 && Add64(Packed(hi, lo), FoldAddend(t)) == Packed(hi - t, lo - t)
  {
    FoldSubtracts(Packed(hi, lo), t);
  }

  lemma PackedDraw(hi: u32, lo: u32, t: u32)
    requires t <= hi
    ensures 0 <= Packed(hi, lo) < TWO64 && Add64(Packed(hi, lo), DrawAddend(t)) == Packed(hi - t, lo)
  {
    DrawSubtracts(Packed(hi, lo), t);
  }

  // ---- Interleavings ---------------------------------------------------------------

  /** One atomic step; every wait has its own number. */
  datatype Step = Tick(id: nat) | Tock(id: nat) | Load | Subtract

  function Last(tr: seq<Step>): Step
    requires tr != []
  {
    tr[|tr| - 1]
  }

  function Front(tr: seq<Step>): seq<Step>
    requires tr != []
  {
    tr[..|tr| - 1]
  }

  /** Waits that have begun. */
  function Begun(tr: seq<Step>): set<nat> {
    if tr == [] then {}
    else if Last(tr).Tick? then Begun(Front(tr)) + {Last(tr).id}
    else Begun(Front(tr))
  }

  /** Waits that are over. */
  function Over(tr: seq<Step>): set<nat> {
    if tr == [] then {}
    else if Last(tr).Tock? then Over(Front(tr)) + {Last(tr).id}
    else Over(Front(tr))
  }

  /** Waits that were over when the folder last loaded. */
  function OverAtLoad(tr: seq<Step>): set<nat> {
    if tr == [] then {}
    else if Last(tr).Load? then Over(Front(tr))
    else OverAtLoad(Front(tr))
  }

  /** Waits whose tocks have been subtracted. */
  function Gone(tr: seq<Step>): set<nat> {
    if tr == [] then {}
    else if Last(tr).Subtract? then OverAtLoad(Front(tr))
    else Gone(Front(tr))
  }

  /** Between a load and its subtraction. */
  predicate Folding(tr: seq<Step>) {
    tr != [] && if Last(tr).Load? then true else if Last(tr).Subtract? then false else Folding(Front(tr))
  }

  /** Each wait ticks once and tocks once after that; loads and subtractions alternate. */
  predicate Proper(tr: seq<Step>) {
    tr != [] ==>
      && Proper(Front(tr))
      && match Last(tr)
         case Tick(id) => id !in Begun(Front(tr))
         case Tock(id) => id in Begun(Front(tr)) && id !in Over(Front(tr))
         case Load => !Folding(Front(tr))
         case Subtract => Folding(Front(tr))
  }

  /** Both halves of the word stay below 2^32 throughout. */
  predicate Fits(tr: seq<Step>) {
    && |Begun(tr)| - |Gone(tr)| < TWO32
    && (tr != [] ==> Fits(Front(tr)))
  }

  /** What the folder loaded last. */
  function LoadedTocks(tr: seq<Step>): u32 {
    if tr == [] then 0
    else if Last(tr).Load? then Lo(Word(Front(tr)))
    else LoadedTocks(Front(tr))
  }

  function Word(tr: seq<Step>): u64 {
    if tr == [] then 0
    else
      var w := Word(Front(tr));
      match Last(tr)
      case Tick(_) => Add64(w, TWO32)
      case Tock(_) => Add64(w, 1)
      case Load => w
      case Subtract => Add64(w, FoldAddend(LoadedTocks(Front(tr))))
  }

  lemma {:induction false} SetsNest(tr: seq<Step>)
    requires Proper(tr)
    ensures Gone(tr) <= OverAtLoad(tr) <= Over(tr) <= Begun(tr)
    ensures !Folding(tr) ==> Gone(tr) == OverAtLoad(tr)
  {
    if tr != [] {
      SetsNest(Front(tr));
    }
  }

  lemma Sizes(a: set<nat>, b: set<nat>)
    requires a <= b
    ensures |b - a| == |b| - |a| && |a| <= |b|
  {
    assert b == a + (b - a);
  }

  lemma NestedSizes(tr: seq<Step>)
    requires Proper(tr)
    ensures |Gone(tr)| <= |OverAtLoad(tr)| <= |Over(tr)| <= |Begun(tr)|
  {
    SetsNest(tr);
    Sizes(Gone(tr), OverAtLoad(tr));
    Sizes(OverAtLoad(tr), Over(tr));
    Sizes(Over(tr), Begun(tr));
  }

  /** How each step changes the sizes. */
  lemma SizesStep(tr: seq<Step>)
    requires tr != [] && Proper(tr)
    ensures var f := Front(tr);
            match Last(tr)
            case Tick(_) => |Begun(tr)| == |Begun(f)| + 1 && |Over(tr)| == |Over(f)| && |Gone(tr)| == |Gone(f)|
            case Tock(_) => |Begun(tr)| == |Begun(f)| && |Over(tr)| == |Over(f)| + 1 && |Gone(tr)| == |Gone(f)|
            case Load => |Begun(tr)| == |Begun(f)| && |Over(tr)| == |Over(f)| && |Gone(tr)| == |Gone(f)|
            case Subtract => |Begun(tr)| == |Begun(f)| && |Over(tr)| == |Over(f)| && |Gone(tr)| == |OverAtLoad(f)|
  {}

  /** How each step changes the word. */
  lemma WordTicks(tr: seq<Step>, hi: u32, lo: u32)
    requires tr != [] && Word(Front(tr)) == Packed(hi, lo) && Last(tr).Tick? && hi + 1 < TWO32
    ensures Word(tr) == Packed(hi + 1, lo)
  {
    PackedPlus(hi, lo, 1, 0);
  }

  lemma WordTocks(tr: seq<Step>, hi: u32, lo: u32)
    requires tr != [] && Word(Front(tr)) == Packed(hi, lo) && Last(tr).Tock? && lo + 1 < TWO32
    ensures Word(tr) == Packed(hi, lo + 1)
  {
    PackedPlus(hi, lo, 0, 1);
  }

  lemma WordSubtracts(tr: seq<Step>, hi: u32, lo: u32, t: u32)
    requires tr != [] && Word(Front(tr)) == Packed(hi, lo) && Last(tr).Subtract?
    requires t == LoadedTocks(Front(tr)) && t <= lo && t <= hi
    ensures Word(tr) == Packed(hi - t, lo - t)
  {
    PackedFold(hi, lo, t);
  }

  /** The word always holds both counts, less what has been subtracted from both. */
  lemma {:induction false} WordHoldsCounts(tr: seq<Step>)
    requires Proper(tr) && Fits(tr)
    ensures |Gone(tr)| <= |OverAtLoad(tr)| <= |Over(tr)| <= |Begun(tr)|
    ensures Word(tr) == Packed(|Begun(tr)| - |Gone(tr)|, |Over(tr)| - |Gone(tr)|)
    ensures Folding(tr) ==> LoadedTocks(tr) == |OverAtLoad(tr)| - |Gone(tr)|
  {
    NestedSizes(tr);
    if tr != [] {
      var f := Front(tr);
      WordHoldsCounts(f);
      SizesStep(tr);
      var hi, lo := |Begun(f)| - |Gone(f)|, |Over(f)| - |Gone(f)|;
      match Last(tr)
      case Tick(_) => WordTicks(tr, hi, lo);
      case Tock(_) => WordTocks(tr, hi, lo);
      case Load => SetsNest(f); Halves(hi, lo);
      case Subtract => WordSubtracts(tr, hi, lo, LoadedTocks(f));
    }
  }

  /** At each load the folder is given, as ticks, the number of waits that overlap the time
      since its previous load, and, as tocks, the number that ended in that time. */
  lemma WaitOverlap(tr: seq<Step>)
    requires Proper(tr) && Fits(tr) && !Folding(tr)
    ensures Hi(Word(tr)) == |Begun(tr) - OverAtLoad(tr)|
    ensures Lo(Word(tr)) == |Over(tr) - OverAtLoad(tr)|
  {
    WordHoldsCounts(tr);
    SetsNest(tr);
    Halves(|Begun(tr)| - |Gone(tr)|, |Over(tr)| - |Gone(tr)|);
    Sizes(OverAtLoad(tr), Begun(tr));
    Sizes(OverAtLoad(tr), Over(tr));
  }

  /** All the tocks returned so far. */
  function Returned(tr: seq<Step>): nat {
    if tr == [] then 0
    else Returned(Front(tr)) + if Last(tr).Load? then Lo(Word(Front(tr))) else 0
  }

  /** No tock is dropped or counted twice: those returned and not yet subtracted from the
      word, plus those still in its low half, are all the tocks made. */
  lemma {:induction false} TocksConserved(tr: seq<Step>)
    requires Proper(tr) && Fits(tr)
    ensures Returned(tr) == |OverAtLoad(tr)|
    ensures Returned(tr) + Lo(Word(tr)) - (if Folding(tr) then LoadedTocks(tr) else 0) == |Over(tr)|
  {
    LowHalf(tr);
    SetsNest(tr);
    if tr != [] {
      TocksConserved(Front(tr));
      if Last(tr).Load? {
        LowHalf(Front(tr));
        SetsNest(Front(tr));
      }
    }
  }

  lemma LowHalf(tr: seq<Step>)
    requires Proper(tr) && Fits(tr)
    ensures Lo(Word(tr)) == |Over(tr)| - |Gone(tr)|
    ensures Folding(tr) ==> LoadedTocks(tr) == |OverAtLoad(tr)| - |Gone(tr)|
  {
    WordHoldsCounts(tr);
    var hi, lo := |Begun(tr)| - |Gone(tr)|, |Over(tr)| - |Gone(tr)|;
    assert Word(tr) == Packed(hi, lo);
    Halves(hi, lo);
  }

  // ---- The other encoding --------------------------------------------------------

  function LoadedComplete(tr: seq<Step>): u32 {
    if tr == [] then 0
    else if Last(tr).Load? then Hi(FolderWord(Front(tr)))
    else LoadedComplete(Front(tr))
  }

  /** TickTockFolder on the same steps. */
  function FolderWord(tr: seq<Step>): u64 {
    if tr == [] then 0
    else
      var w := FolderWord(Front(tr));
      match Last(tr)
      case Tick(_) => Add64(w, 1)
      case Tock(_) => Add64(w, TWO32 - 1)
      case Load => w
      case Subtract => Add64(w, DrawAddend(LoadedComplete(Front(tr))))
  }

  lemma {:induction false} FolderHoldsCounts(tr: seq<Step>)
    requires Proper(tr) && Fits(tr)
    ensures |Gone(tr)| <= |OverAtLoad(tr)| <= |Over(tr)| <= |Begun(tr)|
    ensures FolderWord(tr) == Packed(|Over(tr)| - |Gone(tr)|, |Begun(tr)| - |Over(tr)|)
    ensures Folding(tr) ==> LoadedComplete(tr) == |OverAtLoad(tr)| - |Gone(tr)|
  {
    NestedSizes(tr);
    if tr != [] {
      var f := Front(tr);
      FolderHoldsCounts(f);
      SizesStep(tr);
      var hi, lo := |Over(f)| - |Gone(f)|, |Begun(f)| - |Over(f)|;
      match Last(tr)
      case Tick(_) => PackedPlus(hi, lo, 0, 1);
      case Tock(_) => PackedPlus(hi, lo, 1, -1);
      case Load => Halves(hi, lo); SetsNest(f);
      case Subtract => PackedDraw(hi, lo, LoadedComplete(f));
    }
  }

  /** On the same steps the two encodings carry the same information: equal completed
      counts, and pending waits that are the counter's ticks less its tocks. */
  lemma EncodingsAgree(tr: seq<Step>)
    requires Proper(tr) && Fits(tr)
    ensures Hi(FolderWord(tr)) == Lo(Word(tr))
    ensures Lo(FolderWord(tr)) == Hi(Word(tr)) - Lo(Word(tr))
    ensures Folding(tr) ==> LoadedComplete(tr) == LoadedTocks(tr)
  {
    WordHoldsCounts(tr);
    FolderHoldsCounts(tr);
    Halves(|Begun(tr)| - |Gone(tr)|, |Over(tr)| - |Gone(tr)|);
    Halves(|Over(tr)| - |Gone(tr)|, |Begun(tr)| - |Over(tr)|);
  }

  // ---- Sustained blockage ----------------------------------------------------------

  /** The ticks returned by each load, in order. */
  function Folds(tr: seq<Step>): seq<u32> {
    if tr == [] then []
    else if Last(tr).Load? then Folds(Front(tr)) + [Hi(Word(Front(tr)))]
    else Folds(Front(tr))
  }

  /** A wait that began before the steps `more` and is not over at their end is seen by
      every load among them. */
  lemma {:induction false} BlockedWaitIsSeen(tr: seq<Step>, more: seq<Step>, id: nat)
    requires Proper(tr + more) && Fits(tr + more)
    requires id in Begun(tr) && id !in Over(tr + more)
    ensures id in Begun(tr + more) && |Folds(tr)| <= |Folds(tr + more)|
    ensures forall k :: |Folds(tr)| <= k < |Folds(tr + more)| ==> Folds(tr + more)[k] > 0
  {
    if more == [] {
      assert tr + more == tr;
    } else {
      var all := tr + more;
      assert Front(all) == tr + more[..|more| - 1];
      BlockedWaitIsSeen(tr, more[..|more| - 1], id);
      if Last(all).Load? {
        WaitOverlap(Front(all));
        SetsNest(Front(all));
        assert id in Begun(Front(all)) - OverAtLoad(Front(all));
      }
    }
  }
}
