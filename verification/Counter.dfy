/** The draining counter of syncx/counter.go: producers add atomically, one consumer loads
    and subtracts in two separate atomic steps. */
module Counter {
  import opened Words

  function DrawAddend(res: u64): u64 {
    Not64(Sub64(res, 1))
  }

  class Cell {
    var value: u64

    constructor ()
      ensures value == 0
    {
      value := 0;
    }

    method Add(v: u64)
      modifies this
      ensures value == Add64(old(value), v)
    {
      value := Add64(value, v);
    }

    /** The first atomic step of Draw. */
    method DrawLoad() returns (res: u64)
      ensures res == value
    {
      res := value;
    }

    /** The second atomic step of Draw. */
    method DrawSubtract(res: u64)
      modifies this
      ensures value == Add64(old(value), DrawAddend(res))
    {
      value := Add64(value, Not64(Sub64(res, 1)));
    }
  }

  datatype Step = Add(v: u64) | Load | Subtract

  function Last(tr: seq<Step>): Step
    requires tr != []
  {
    tr[|tr| - 1]
  }

  function Front(tr: seq<Step>): seq<Step>
    requires tr != []
  {
    tr[..|tr| - 1]
  }

  /** Between a load and its subtraction. */
  predicate Drawing(tr: seq<Step>) {
    tr != [] && if Last(tr).Load? then true else if Last(tr).Subtract? then false else Drawing(Front(tr))
  }

  /** One consumer: loads and subtractions alternate. */
  predicate Proper(tr: seq<Step>) {
    tr != [] ==>
      && Proper(Front(tr))
      && (Last(tr).Load? ==> !Drawing(Front(tr)))
      && (Last(tr).Subtract? ==> Drawing(Front(tr)))
  }

  function Added(tr: seq<Step>): nat {
    if tr == [] then 0 else Added(Front(tr)) + if Last(tr).Add? then Last(tr).v else 0
  }

  function AddedAtLoad(tr: seq<Step>): nat {
    if tr == [] then 0 else if Last(tr).Load? then Added(Front(tr)) else AddedAtLoad(Front(tr))
  }

  function Loaded(tr: seq<Step>): u64 {
    if tr == [] then 0 else if Last(tr).Load? then Value(Front(tr)) else Loaded(Front(tr))
  }

  function Value(tr: seq<Step>): u64 {
    if tr == [] then 0
    else
      match Last(tr)
      case Add(v) => Add64(Value(Front(tr)), v)
      case Load => Value(Front(tr))
      case Subtract => Add64(Value(Front(tr)), DrawAddend(Loaded(Front(tr))))
  }

  /** The sum of everything drawn. */
  function Drawn(tr: seq<Step>): nat {
    if tr == [] then 0 else Drawn(Front(tr)) + if Last(tr).Load? then Value(Front(tr)) else 0
  }

  /** The sum of everything subtracted. */
  function Gone(tr: seq<Step>): nat {
    if tr == [] then 0 else Gone(Front(tr)) + if Last(tr).Subtract? then Loaded(Front(tr)) else 0
  }

  lemma AddWraps(x: int, v: u64)
    ensures Add64(x % TWO64, v) == (x + v) % TWO64
  {}

  lemma SubtractWraps(x: int, v: u64)
    ensures Add64(x % TWO64, DrawAddend(v)) == (x - v) % TWO64
  {
    assert DrawAddend(v) == (0 - v) % TWO64;
  }

  lemma {:induction false} ValueTracks(tr: seq<Step>)
    requires Proper(tr)
    ensures Value(tr) == (Added(tr) - Gone(tr)) % TWO64
    ensures Drawn(tr) == Gone(tr) + if Drawing(tr) then Loaded(tr) else 0
  {
    if tr != [] {
      var f := Front(tr);
      ValueTracks(f);
      match Last(tr)
      case Add(v) => AddWraps(Added(f) - Gone(f), v);
      case Load =>
      case Subtract => SubtractWraps(Added(f) - Gone(f), Loaded(f));
    }
  }

  /** What was drawn is what had been added at the last load. */
  lemma {:induction false} DrawnAtLoad(tr: seq<Step>)
    requires Proper(tr)
    ensures (AddedAtLoad(tr) - Drawn(tr)) % TWO64 == 0
  {
    if tr != [] {
      var f := Front(tr);
      DrawnAtLoad(f);
      ValueTracks(f);
      if Last(tr).Load? {
        LoadedRest(Added(f) - Gone(f), Value(f));
      }
    }
  }

  lemma LoadedRest(x: int, v: u64)
    requires v == x % TWO64
    ensures (x - v) % TWO64 == 0
  {}

  lemma SameRest(a: int, b: int, c: int)
    requires (b - c) % TWO64 == 0
    ensures (a - c) % TWO64 == (a - b) % TWO64
  {}

  /** No add is dropped or drawn twice, however producers interleave with the two steps of
      a draw: outside a draw the value is everything added less everything drawn, which is
      exactly what was added since the previous load, modulo 2^64. */
  lemma AddsConserved(tr: seq<Step>)
    requires Proper(tr) && !Drawing(tr)
    ensures Value(tr) == (Added(tr) - Drawn(tr)) % TWO64
    ensures Value(tr) == (Added(tr) - AddedAtLoad(tr)) % TWO64
  {
    ValueTracks(tr);
    DrawnAtLoad(tr);
    SameRest(Added(tr), AddedAtLoad(tr), Drawn(tr));
  }
}
