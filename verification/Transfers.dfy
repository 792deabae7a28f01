// Batched register transfers: which batches are accepted, and what the accepted
// ones mean for the cells of the device.
module Transfers {
  import opened Types
  import opened Modbus

  const UINT16_MAX: nat := 0xFFFF

  predicate Overflows(r: Range) {
    r.size > UINT16_MAX || r.size + r.addr > UINT16_MAX
  }

  predicate Accepted(regs: seq<Range>) {
    forall i :: 0 <= i < |regs| ==> !Overflows(regs[i])
  }

  // The limit as a number: registers 0 to 65534 can be asked for, in one range or several.
  lemma AcceptedIff(regs: seq<Range>)
    ensures Accepted(regs) <==> forall i :: 0 <= i < |regs| ==> regs[i].addr + regs[i].size <= 65535
    ensures !Accepted([Range(65535, 1)]) && Accepted([Range(65534, 1)])
  {
    assert [Range(65535, 1)][0] == Range(65535, 1);
  }

  predicate Matches(regs: seq<Range>, values: seq<seq<Word>>) {
    |regs| == |values| && forall i :: 0 <= i < |regs| ==> regs[i].size == |values[i]|
  }

  predicate Holds(r: Range, a: nat) {
    r.addr <= a < r.addr + r.size
  }

  function Cut(m: Memory, t: RegType, r: Range): (s: seq<Word>)
    ensures |s| == r.size
  {
    Window(m.At(t), r.addr, r.size)
  }

  function ReadRequest(t: RegType, r: Range): Request {
    Read(t, r.addr, r.size)
  }

  function WriteRequest(t: RegType, r: Range, data: seq<Word>): Request {
    Write(t, r.addr, data)
  }

  function ReadProgram(t: RegType, regs: seq<Range>): (qs: seq<Request>)
    ensures |qs| == |regs|
  {
    seq(|regs|, i requires 0 <= i < |regs| => ReadRequest(t, regs[i]))
  }

  function WriteProgram(t: RegType, regs: seq<Range>, values: seq<seq<Word>>): (qs: seq<Request>)
    requires |regs| == |values|
    ensures |qs| == |regs|
  {
    seq(|regs|, i requires 0 <= i < |regs| => WriteRequest(t, regs[i], values[i]))
  }

  // ----- reads observe, writes overlay -----------------------------------------

  lemma {:induction false} ReadsObserve(m: Memory, t: RegType, regs: seq<Range>, n: nat)
    requires n <= |regs|
    ensures Applied(m, ReadProgram(t, regs), n) == m
    ensures var rs := Replies(m, ReadProgram(t, regs), n);
      |rs| == n && forall i :: 0 <= i < n ==> rs[i] == Cut(m, t, regs[i])
  {
    if n > 0 {
      ReadsObserve(m, t, regs, n - 1);
    }
  }

  // The same, cell by cell.
  lemma ReadsCells(m: Memory, t: RegType, regs: seq<Range>, i: nat, j: nat)
    requires Accepted(regs) && i < |regs| && j < regs[i].size
    ensures var rs := Replies(m, ReadProgram(t, regs), |regs|);
      |rs| == |regs| && |rs[i]| == regs[i].size && rs[i][j] == m.At(t)[regs[i].addr + j]
  {
    ReadsObserve(m, t, regs, |regs|);
  }

  // The last of the first n ranges to hold an address decides its register, or its coil,
  // which is on for any value but zero.
  lemma {:induction false} LastWriterWins(m: Memory, t: RegType, regs: seq<Range>, values: seq<seq<Word>>,
                                          n: nat, a: nat, j: nat)
    requires t.Output() && Accepted(regs) && Matches(regs, values) && n <= |regs|
    requires j < n && Holds(regs[j], a) && forall k :: j < k < n ==> !Holds(regs[k], a)
    ensures var v := values[j][a - regs[j].addr];
      Applied(m, WriteProgram(t, regs, values), n).At(t)[a] == if t == AO then v else if v == 0 then 0 else 1
  {
    hide Overlay, Memory.Put;
    PutAt(Applied(m, WriteProgram(t, regs, values), n - 1), t, regs[n - 1].addr, values[n - 1], a);
    if j < n - 1 { LastWriterWins(m, t, regs, values, n - 1, a, j); }
  }

  // Cells outside every range, and in particular the topmost one, keep their values; so
  // do the three other address spaces.
  lemma {:induction false} WritesElsewhere(m: Memory, t: RegType, regs: seq<Range>, values: seq<seq<Word>>,
                                           n: nat, a: nat)
    requires t.Output() && Accepted(regs) && Matches(regs, values) && n <= |regs| && a < ADDRESSES
    requires a == 65535 || forall k :: 0 <= k < n ==> !Holds(regs[k], a)
    ensures var m' := Applied(m, WriteProgram(t, regs, values), n);
      m'.At(t)[a] == m.At(t)[a] && forall u :: u != t ==> m'.At(u) == m.At(u)
  {
    hide Overlay, Memory.Put;
    if n > 0 {
      PutAt(Applied(m, WriteProgram(t, regs, values), n - 1), t, regs[n - 1].addr, values[n - 1], a);
      WritesElsewhere(m, t, regs, values, n - 1, a);
    }
  }

  // ----- write, then read back --------------------------------------------------

  ghost predicate PairwiseDisjoint(regs: seq<Range>) {
    forall i, j, a {:trigger Holds(regs[i], a), Holds(regs[j], a)} ::
      0 <= i < j < |regs| && Holds(regs[i], a) ==> !Holds(regs[j], a)
  }

  ghost function Written(m: Memory, regs: seq<Range>, values: seq<seq<Word>>): Memory
    requires Accepted(regs) && Matches(regs, values)
  {
    Applied(m, WriteProgram(AO, regs, values), |regs|)
  }

  ghost predicate RoundTrips(m: Memory, regs: seq<Range>, values: seq<seq<Word>>)
    requires Accepted(regs) && Matches(regs, values)
  {
    Replies(Written(m, regs, values), ReadProgram(AO, regs), |regs|) == values
  }

  lemma {:induction false} RangeReadsBack(m: Memory, regs: seq<Range>, values: seq<seq<Word>>, i: nat)
    requires Accepted(regs) && Matches(regs, values) && PairwiseDisjoint(regs) && i < |regs|
    ensures Cut(Written(m, regs, values), AO, regs[i]) == values[i]
  {
    var cells := Written(m, regs, values).ao;
    forall k | 0 <= k < regs[i].size
      ensures cells[regs[i].addr + k] == values[i][k]
    {
      assert Holds(regs[i], regs[i].addr + k);
      LastWriterWins(m, AO, regs, values, |regs|, regs[i].addr + k, i);
    }
  }

  lemma DisjointRoundTrip(m: Memory, regs: seq<Range>, values: seq<seq<Word>>)
    requires Accepted(regs) && Matches(regs, values) && PairwiseDisjoint(regs)
    ensures RoundTrips(m, regs, values)
  {
    var m' := Written(m, regs, values);
    ReadsObserve(m', AO, regs, |regs|);
    forall i | 0 <= i < |regs|
      ensures Cut(m', AO, regs[i]) == values[i]
    {
      RangeReadsBack(m, regs, values, i);
    }
  }

  // Whatever is written, reading the same ranges back returns it: this holds of
  // exactly the lists whose ranges do not overlap.
  lemma RoundTripIffDisjoint(m: Memory, regs: seq<Range>)
    requires Accepted(regs)
    ensures (forall values | Matches(regs, values) :: RoundTrips(m, regs, values)) <==> PairwiseDisjoint(regs)
  {
    if PairwiseDisjoint(regs) {
      forall values | Matches(regs, values) ensures RoundTrips(m, regs, values) {
        DisjointRoundTrip(m, regs, values);
      }
    } else {
      var values := OverlapWitness(m, regs);
    }
  }

  function Filled(size: nat, v: Word): (s: seq<Word>)
    ensures |s| == size && forall k :: 0 <= k < size ==> s[k] == v
  {
    seq(size, _ => v)
  }

  // Zeros for range i, ones for all others.
  function Contrast(regs: seq<Range>, i: nat): (values: seq<seq<Word>>)
    ensures Matches(regs, values)
    ensures forall k :: 0 <= k < |regs| ==> values[k] == Filled(regs[k].size, if k == i then 0 else 1)
  {
    seq(|regs|, k requires 0 <= k < |regs| => Filled(regs[k].size, if k == i then 0 else 1))
  }

  lemma RoundTripShows(m: Memory, regs: seq<Range>, values: seq<seq<Word>>, i: nat, a: nat)
    requires Accepted(regs) && Matches(regs, values) && RoundTrips(m, regs, values)
    requires i < |regs| && Holds(regs[i], a)
    ensures Written(m, regs, values).ao[a] == values[i][a - regs[i].addr]
  {
    var m' := Written(m, regs, values);
    ReadsObserve(m', AO, regs, |regs|);
    assert values[i] == Cut(m', AO, regs[i]);
  }

  lemma OverlapWitness(m: Memory, regs: seq<Range>) returns (values: seq<seq<Word>>)
    requires Accepted(regs) && !PairwiseDisjoint(regs)
    ensures Matches(regs, values) && !RoundTrips(m, regs, values)
  {
    var i: nat, j: nat, a: nat :| i < j < |regs| && Holds(regs[i], a) && Holds(regs[j], a);
    values := Contrast(regs, i);
    var last := LastHolder(regs, a, j);
    LastWriterWins(m, AO, regs, values, |regs|, a, last);
    if RoundTrips(m, regs, values) {
      RoundTripShows(m, regs, values, i, a);
      assert false;
    }
  }

  lemma LastHolder(regs: seq<Range>, a: nat, j: nat) returns (last: nat)
    requires j < |regs| && Holds(regs[j], a)
    ensures j <= last < |regs| && Holds(regs[last], a)
    ensures forall k :: last < k < |regs| ==> !Holds(regs[k], a)
  {
    last := |regs| - 1;
    while !Holds(regs[last], a)
      invariant j <= last < |regs|
      invariant forall k :: last < k < |regs| ==> !Holds(regs[k], a)
      decreases last
    {
      last := last - 1;
    }
  }

  // ----- a batch is the in-order fold of single-cell writes -----------------

  function WriteSingle(t: RegType, addr: Word, v: Word): Request {
    Write(t, addr, [v])
  }

  function SinglesOf(t: RegType, r: Range, data: seq<Word>): (qs: seq<Request>)
    requires !Overflows(r) && |data| <= r.size
    ensures |qs| == |data|
  {
    seq(|data|, k requires 0 <= k < |data| => WriteSingle(t, r.addr + k, data[k]))
  }

  // The single writes of the first n ranges.
  function Singles(t: RegType, regs: seq<Range>, values: seq<seq<Word>>, n: nat): seq<Request>
    requires Accepted(regs) && Matches(regs, values) && n <= |regs|
  {
    if n == 0 then [] else Singles(t, regs, values, n - 1) + SinglesOf(t, regs[n - 1], values[n - 1])
  }

  lemma {:induction false} OneRangeAsSingles(m: Memory, t: RegType, r: Range, data: seq<Word>, n: nat)
    requires t.Output() && !Overflows(r) && n <= |data| <= r.size
    ensures Applied(m, SinglesOf(t, r, data), n) == m.Put(t, r.addr, data[..n])
  {
    if n == 0 {
      assert m.Put(t, r.addr, data[..0]).At(t) == m.At(t);
    } else {
      OneRangeAsSingles(m, t, r, data, n - 1);
      OneMoreSingle(m, t, r.addr, data, n);
    }
  }

  lemma OneMoreSingle(m: Memory, t: RegType, addr: Word, data: seq<Word>, n: nat)
    requires t.Output() && 0 < n <= |data|
    ensures m.Put(t, addr, data[..n - 1]).Put(t, addr + n - 1, [data[n - 1]]) == m.Put(t, addr, data[..n])
  {
    var one, two := m.Put(t, addr, data[..n - 1]).Put(t, addr + n - 1, [data[n - 1]]), m.Put(t, addr, data[..n]);
    assert one.At(t) == two.At(t);
  }

  lemma {:induction false} BatchIsFoldOfSingles(m: Memory, t: RegType, regs: seq<Range>, values: seq<seq<Word>>, n: nat)
    requires t.Output() && Accepted(regs) && Matches(regs, values) && n <= |regs|
    ensures var singles := Singles(t, regs, values, n);
      Applied(m, WriteProgram(t, regs, values), n) == Applied(m, singles, |singles|)
  {
    if n > 0 {
      var before, last := Singles(t, regs, values, n - 1), SinglesOf(t, regs[n - 1], values[n - 1]);
      BatchIsFoldOfSingles(m, t, regs, values, n - 1);
      AppliedAppend(m, before, last, |last|);
      RangeAsSingles(Applied(m, before, |before|), t, regs[n - 1], values[n - 1]);
      hide Effect;
      assert Singles(t, regs, values, n) == before + last && |before + last| == |before| + |last|;
      var qs := WriteProgram(t, regs, values);
      assert Applied(m, qs, n) == Effect(Applied(m, qs, n - 1), qs[n - 1]);
    }
  }

  lemma RangeAsSingles(m: Memory, t: RegType, r: Range, data: seq<Word>)
    requires t.Output() && !Overflows(r) && |data| == r.size
    ensures Applied(m, SinglesOf(t, r, data), |data|) == Effect(m, WriteRequest(t, r, data))
  {
    OneRangeAsSingles(m, t, r, data, |data|);
    assert data[..|data|] == data;
  }
}
