// The combined transfer read_write_ao: two lists of ranges are zipped and the rest
// of the longer one follows. The program starts both leftover loops at the number of
// left-over writes; the documented meaning needs them to start where the zip ended.
module ReadWrite {
  import opened Types
  import opened Modbus
  import opened Transfers

  function Min(a: nat, b: nat): nat {
    if a < b then a else b
  }

  ghost predicate Valid(rd: seq<Range>, wr: seq<Range>, values: seq<seq<Word>>) {
    Accepted(rd) && Accepted(wr) && Matches(wr, values)
  }

  function Zipped(r: Range, w: Range, data: seq<Word>): Request {
    WriteRead(w.addr, data, r.addr, r.size)
  }

  ghost function Zip(rd: seq<Range>, wr: seq<Range>, values: seq<seq<Word>>): (qs: seq<Request>)
    requires |wr| == |values|
    ensures |qs| == Min(|rd|, |wr|)
  {
    seq(Min(|rd|, |wr|), i requires 0 <= i < Min(|rd|, |wr|) => Zipped(rd[i], wr[i], values[i]))
  }

  // Entry at + i of a list; past its end the program would index out of bounds.
  function ReadAtIndex(rd: seq<Range>, at: nat, i: nat): Request {
    if at + i < |rd| then ReadRequest(AO, rd[at + i]) else Stray
  }

  function WriteAtIndex(wr: seq<Range>, values: seq<seq<Word>>, at: nat, i: nat): Request
    requires |wr| == |values|
  {
    if at + i < |wr| then WriteRequest(AO, wr[at + i], values[at + i]) else Stray
  }

  ghost function ReadsFrom(rd: seq<Range>, at: nat, n: nat): (qs: seq<Request>)
    ensures |qs| == n
  {
    seq(n, i requires 0 <= i < n => ReadAtIndex(rd, at, i))
  }

  ghost function WritesFrom(wr: seq<Range>, values: seq<seq<Word>>, at: nat, n: nat): (qs: seq<Request>)
    requires |wr| == |values|
    ensures |qs| == n
  {
    seq(n, i requires 0 <= i < n => WriteAtIndex(wr, values, at, i))
  }

  // The requests issued when both leftover loops start at index `at`.
  ghost function Program(rd: seq<Range>, wr: seq<Range>, values: seq<seq<Word>>, at: nat): seq<Request>
    requires |wr| == |values|
  {
    var n := Min(|rd|, |wr|);
    Zip(rd, wr, values) + ReadsFrom(rd, at, |rd| - n) + WritesFrom(wr, values, at, |wr| - n)
  }

  ghost function AsWritten(rd: seq<Range>, wr: seq<Range>, values: seq<seq<Word>>): seq<Request>
    requires |wr| == |values|
  {
    Program(rd, wr, values, |wr| - Min(|rd|, |wr|))
  }

  ghost function AsDocumented(rd: seq<Range>, wr: seq<Range>, values: seq<seq<Word>>): seq<Request>
    requires |wr| == |values|
  {
    Program(rd, wr, values, Min(|rd|, |wr|))
  }

  // What the header promises, said without any zipping: all writes take effect in
  // order, and read i sees the registers after the writes 0..i (all of them if fewer).
  ghost function Answer(m: Memory, rd: seq<Range>, wr: seq<Range>, values: seq<seq<Word>>, i: nat): seq<Word>
    requires Valid(rd, wr, values) && i < |rd|
  {
    Cut(Applied(m, WriteProgram(AO, wr, values), Min(i + 1, |wr|)), AO, rd[i])
  }

  ghost predicate Answers(rs: seq<seq<Word>>, m: Memory,
                          rd: seq<Range>, wr: seq<Range>, values: seq<seq<Word>>, k: nat)
    requires Valid(rd, wr, values) && k <= |rd|
  {
    |rs| == k && forall i :: 0 <= i < k ==> rs[i] == Answer(m, rd, wr, values, i)
  }

  ghost predicate Meets(m: Memory, qs: seq<Request>,
                        rd: seq<Range>, wr: seq<Range>, values: seq<seq<Word>>)
    requires Valid(rd, wr, values)
  {
    && NoStray(qs)
    && Applied(m, qs, |qs|) == Written(m, wr, values)
    && Answers(Replies(m, qs, |qs|), m, rd, wr, values, |rd|)
  }

  // ----- the documented order meets the promise ---------------------------------

  lemma ZippedStep(m: Memory, r: Range, w: Range, data: seq<Word>)
    ensures var m' := Effect(m, WriteRequest(AO, w, data));
      Effect(m, Zipped(r, w, data)) == m' && Reply(m, Zipped(r, w, data)) == [Cut(m', AO, r)]
  {
  }

  lemma ZipAt(rd: seq<Range>, wr: seq<Range>, values: seq<seq<Word>>, k: nat)
    requires Valid(rd, wr, values) && k < Min(|rd|, |wr|)
    ensures Zip(rd, wr, values)[k] == Zipped(rd[k], wr[k], values[k])
    ensures WriteProgram(AO, wr, values)[k] == WriteRequest(AO, wr[k], values[k])
  {
  }

  lemma {:induction false} ZipMeaning(m: Memory, rd: seq<Range>, wr: seq<Range>, values: seq<seq<Word>>, k: nat)
    requires Valid(rd, wr, values) && k <= Min(|rd|, |wr|)
    ensures Applied(m, Zip(rd, wr, values), k) == Applied(m, WriteProgram(AO, wr, values), k)
    ensures Answers(Replies(m, Zip(rd, wr, values), k), m, rd, wr, values, k)
  {
    hide Effect, Reply, Cut, Zipped, WriteRequest, Zip, WriteProgram;
    if k > 0 {
      ZipMeaning(m, rd, wr, values, k - 1);
      ZipAt(rd, wr, values, k - 1);
      ZippedStep(Applied(m, WriteProgram(AO, wr, values), k - 1), rd[k - 1], wr[k - 1], values[k - 1]);
    }
  }

  lemma {:induction false} WritesDoNotReply(m: Memory, regs: seq<Range>, values: seq<seq<Word>>, n: nat)
    requires |regs| == |values| && n <= |regs|
    ensures Replies(m, WriteProgram(AO, regs, values), n) == []
  {
    if n > 0 { WritesDoNotReply(m, regs, values, n - 1); }
  }

  lemma LeftoverReads(m: Memory, rd: seq<Range>, at: nat, n: nat)
    requires at + n <= |rd|
    ensures Applied(m, ReadsFrom(rd, at, n), n) == m
    ensures var rs := Replies(m, ReadsFrom(rd, at, n), n);
      |rs| == n && forall i :: 0 <= i < n ==> rs[i] == Cut(m, AO, rd[at + i])
  {
    assert ReadsFrom(rd, at, n) == ReadProgram(AO, rd[at..at + n]);
    ReadsObserve(m, AO, rd[at..at + n], n);
  }

  lemma LeftoverIsTail(wr: seq<Range>, values: seq<seq<Word>>, at: nat)
    requires |wr| == |values| && at <= |wr|
    ensures var ws := WriteProgram(AO, wr, values);
      && ws == ws[..at] + WriteProgram(AO, wr[at..], values[at..])
      && WritesFrom(wr, values, at, |wr| - at) == WriteProgram(AO, wr[at..], values[at..])
  {
  }

  lemma LeftoverWrites(m: Memory, wr: seq<Range>, values: seq<seq<Word>>, at: nat)
    requires Matches(wr, values) && at <= |wr|
    ensures var ws, n := WriteProgram(AO, wr, values), |wr| - at;
      var rest := WritesFrom(wr, values, at, n);
      Applied(Applied(m, ws, at), rest, n) == Applied(m, ws, |ws|) && Replies(Applied(m, ws, at), rest, n) == []
  {
    hide Effect, Reply, Applied, Replies, WritesFrom, WriteProgram;
    var ws, rest := WriteProgram(AO, wr, values), WriteProgram(AO, wr[at..], values[at..]);
    LeftoverIsTail(wr, values, at);
    AppliedAppend(m, ws[..at], rest, |rest|);
    AppliedAgree(m, ws[..at], ws, at);
    WritesDoNotReply(Applied(m, ws, at), wr[at..], values[at..], |rest|);
  }

  lemma ProgramParts(m: Memory, zip: seq<Request>, rds: seq<Request>, wrs: seq<Request>)
    ensures var m1 := Applied(m, zip, |zip|);
      var m2 := Applied(m1, rds, |rds|);
      var qs := zip + rds + wrs;
      && Applied(m, qs, |qs|) == Applied(m2, wrs, |wrs|)
      && Replies(m, qs, |qs|) == Replies(m, zip, |zip|) + Replies(m1, rds, |rds|) + Replies(m2, wrs, |wrs|)
  {
    hide Effect, Reply, Applied, Replies;
    AppliedAppend(m, zip, rds, |rds|);
    RepliesAppend(m, zip, rds, |rds|);
    AppliedAppend(m, zip + rds, wrs, |wrs|);
    RepliesAppend(m, zip + rds, wrs, |wrs|);
  }

  lemma DocumentedParts(m: Memory, rd: seq<Range>, wr: seq<Range>, values: seq<seq<Word>>)
    requires Valid(rd, wr, values)
    ensures var n := Min(|rd|, |wr|);
      var m1 := Applied(m, WriteProgram(AO, wr, values), n);
      var qs := AsDocumented(rd, wr, values);
      && Applied(m, qs, |qs|) == Written(m, wr, values)
      && Replies(m, qs, |qs|) == Replies(m, Zip(rd, wr, values), n) + Replies(m1, ReadsFrom(rd, n, |rd| - n), |rd| - n)
  {
    hide Effect, Reply, Applied, Replies, Cut, Answers, Zip, ReadsFrom, WritesFrom, WriteProgram;
    var n := Min(|rd|, |wr|);
    var zip, rds, wrs := Zip(rd, wr, values), ReadsFrom(rd, n, |rd| - n), WritesFrom(wr, values, n, |wr| - n);
    ProgramParts(m, zip, rds, wrs);
    ZipMeaning(m, rd, wr, values, n);
    LeftoverReads(Applied(m, zip, n), rd, n, |rd| - n);
    LeftoverWrites(m, wr, values, n);
  }

  lemma DocumentedNoStray(rd: seq<Range>, wr: seq<Range>, values: seq<seq<Word>>)
    requires Valid(rd, wr, values)
    ensures NoStray(AsDocumented(rd, wr, values))
  {
  }

  lemma DocumentedReplies(m: Memory, rd: seq<Range>, wr: seq<Range>, values: seq<seq<Word>>)
    requires Valid(rd, wr, values)
    ensures var qs := AsDocumented(rd, wr, values);
      Answers(Replies(m, qs, |qs|), m, rd, wr, values, |rd|)
  {
    hide Effect, Reply, Applied, Replies, Answer, Zip, ReadsFrom, WriteProgram, AsDocumented;
    var n := Min(|rd|, |wr|);
    var early := Replies(m, Zip(rd, wr, values), n);
    var late := Replies(Applied(m, WriteProgram(AO, wr, values), n), ReadsFrom(rd, n, |rd| - n), |rd| - n);
    DocumentedParts(m, rd, wr, values);
    ZipMeaning(m, rd, wr, values, n);
    LateAnswers(m, rd, wr, values);
    JoinAnswers(early, late, m, rd, wr, values);
  }

  lemma JoinAnswers(xs: seq<seq<Word>>, ys: seq<seq<Word>>, m: Memory,
                    rd: seq<Range>, wr: seq<Range>, values: seq<seq<Word>>)
    requires Valid(rd, wr, values) && |xs| + |ys| == |rd|
    requires Answers(xs, m, rd, wr, values, |xs|)
    requires forall i :: 0 <= i < |ys| ==> ys[i] == Answer(m, rd, wr, values, |xs| + i)
    ensures Answers(xs + ys, m, rd, wr, values, |rd|)
  {
    hide Answer;
    forall i | |xs| <= i < |rd| ensures (xs + ys)[i] == Answer(m, rd, wr, values, i) {
      assert ys[i - |xs|] == Answer(m, rd, wr, values, |xs| + (i - |xs|));
    }
  }

  lemma LateAnswers(m: Memory, rd: seq<Range>, wr: seq<Range>, values: seq<seq<Word>>)
    requires Valid(rd, wr, values)
    ensures var n := Min(|rd|, |wr|);
      var rs := Replies(Applied(m, WriteProgram(AO, wr, values), n), ReadsFrom(rd, n, |rd| - n), |rd| - n);
      |rs| == |rd| - n && forall i :: 0 <= i < |rs| ==> rs[i] == Answer(m, rd, wr, values, n + i)
  {
    hide Effect, Reply, Applied, Replies, ReadsFrom, WriteProgram, Cut;
    var n := Min(|rd|, |wr|);
    LeftoverReads(Applied(m, WriteProgram(AO, wr, values), n), rd, n, |rd| - n);
    assert n < |rd| ==> n == |wr|;
  }

  // One answer per read range, each as promised, and every write done: for any two lists.
  lemma DocumentedMeets(m: Memory, rd: seq<Range>, wr: seq<Range>, values: seq<seq<Word>>)
    requires Valid(rd, wr, values)
    ensures Meets(m, AsDocumented(rd, wr, values), rd, wr, values)
  {
    DocumentedNoStray(rd, wr, values);
    DocumentedParts(m, rd, wr, values);
    DocumentedReplies(m, rd, wr, values);
  }

  // ----- the program's order meets it for exactly three shapes ---------------------

  // No read lost or repeated, no write lost or repeated: only when the lists have the
  // same length, there is nothing to write, or there are twice as many writes as reads.
  predicate Harmless(r: nat, w: nat) {
    w == 0 || w == r || w == 2 * r
  }

  lemma HarmlessMeets(m: Memory, rd: seq<Range>, wr: seq<Range>, values: seq<seq<Word>>)
    requires Valid(rd, wr, values) && Harmless(|rd|, |wr|)
    ensures Meets(m, AsWritten(rd, wr, values), rd, wr, values)
  {
    var n := Min(|rd|, |wr|);
    if |wr| == |rd| {
      assert ReadsFrom(rd, 0, 0) == ReadsFrom(rd, n, 0) && WritesFrom(wr, values, 0, 0) == WritesFrom(wr, values, n, 0);
    } else if |wr| != 0 {
      assert ReadsFrom(rd, n, 0) == ReadsFrom(rd, |wr| - n, 0);
    }
    DocumentedMeets(m, rd, wr, values);
  }

  // With at least as many reads as writes every write is done and the zipped answers are
  // right, but the first ranges are read again in place of the remaining ones.
  lemma RepeatedAnswer(m: Memory, rd: seq<Range>, wr: seq<Range>, values: seq<seq<Word>>)
    requires Valid(rd, wr, values) && |wr| <= |rd|
    ensures var qs, w := AsWritten(rd, wr, values), |wr|;
      var rs := Replies(m, qs, |qs|);
      && Applied(m, qs, |qs|) == Written(m, wr, values)
      && |rs| == |rd| && Answers(rs[..w], m, rd, wr, values, w)
      && forall i :: 0 <= i < |rd| - w ==> rs[w + i] == Cut(Written(m, wr, values), AO, rd[i])
  {
    hide Effect, Reply, Applied, Replies, Cut, Answer, Zip, ReadsFrom, WritesFrom, WriteProgram;
    var w := |wr|;
    var zip, rds, wrs := Zip(rd, wr, values), ReadsFrom(rd, 0, |rd| - w), WritesFrom(wr, values, 0, 0);
    ProgramParts(m, zip, rds, wrs);
    ZipMeaning(m, rd, wr, values, w);
    LeftoverReads(Written(m, wr, values), rd, 0, |rd| - w);
    NoRequests(Written(m, wr, values));
    assert wrs == [];
  }

  lemma NoRequests(m: Memory)
    ensures Applied(m, [], 0) == m && Replies(m, [], 0) == []
  {
  }

  // The writes i..j-1 of a batch.
  ghost function WrittenPart(m: Memory, wr: seq<Range>, values: seq<seq<Word>>, i: nat, j: nat): Memory
    requires Accepted(wr) && Matches(wr, values) && i <= j <= |wr|
  {
    PartMatches(wr, values, i, j);
    Written(m, wr[i..j], values[i..j])
  }

  lemma PartMatches(wr: seq<Range>, values: seq<seq<Word>>, i: nat, j: nat)
    requires Accepted(wr) && Matches(wr, values) && i <= j <= |wr|
    ensures Accepted(wr[i..j]) && Matches(wr[i..j], values[i..j])
  {
  }

  // With at least as many writes as reads, and at most twice as many, every answer is
  // right and the writes done are those of the zip and then as many again as are left over,
  // starting at that number.
  lemma RepeatedWrites(m: Memory, rd: seq<Range>, wr: seq<Range>, values: seq<seq<Word>>)
    requires Valid(rd, wr, values) && |rd| <= |wr| <= 2 * |rd|
    ensures var qs, r, left := AsWritten(rd, wr, values), |rd|, |wr| - |rd|;
      && NoStray(qs) && Answers(Replies(m, qs, |qs|), m, rd, wr, values, r)
      && Applied(m, qs, |qs|) ==
           WrittenPart(WrittenPart(m, wr, values, 0, r), wr, values, left, 2 * left)
  {
    hide Effect, Reply, Applied, Replies, Cut, Answer, Zip, ReadsFrom, WritesFrom, WriteProgram, NoStray;
    var r, left := |rd|, |wr| - |rd|;
    var zip, rds, wrs := Zip(rd, wr, values), ReadsFrom(rd, left, 0), WritesFrom(wr, values, left, left);
    FarMoreWritesStray(rd, wr, values);
    ProgramParts(m, zip, rds, wrs);
    ZipMeaning(m, rd, wr, values, r);
    FirstWrites(m, wr, values, r);
    SomeWrites(wr, values, left, left);
    WritesDoNotReply(Applied(m, zip, r), wr[left..2 * left], values[left..2 * left], left);
    NoRequests(Applied(m, zip, r));
    assert rds == [];
  }

  lemma FirstWrites(m: Memory, wr: seq<Range>, values: seq<seq<Word>>, n: nat)
    requires Accepted(wr) && Matches(wr, values) && n <= |wr|
    ensures Applied(m, WriteProgram(AO, wr, values), n) == WrittenPart(m, wr, values, 0, n)
  {
    AppliedAgree(m, WriteProgram(AO, wr, values), WriteProgram(AO, wr[0..n], values[0..n]), n);
  }

  lemma SomeWrites(wr: seq<Range>, values: seq<seq<Word>>, at: nat, n: nat)
    requires |wr| == |values| && at + n <= |wr|
    ensures WritesFrom(wr, values, at, n) == WriteProgram(AO, wr[at..at + n], values[at..at + n])
  {
  }

  // Between one and two times as many writes as reads, the last write is none of them: a
  // register that only the last range holds keeps its value.
  lemma SkipsLastWrite(m: Memory, rd: seq<Range>, wr: seq<Range>, values: seq<seq<Word>>, a: nat)
    requires Valid(rd, wr, values) && |rd| < |wr| < 2 * |rd| && a < ADDRESSES
    requires forall k :: 0 <= k < |wr| - 1 ==> !Holds(wr[k], a)
    ensures var qs := AsWritten(rd, wr, values); Applied(m, qs, |qs|).ao[a] == m.ao[a]
  {
    hide Applied, AsWritten, WrittenPart;
    var r, left := |rd|, |wr| - |rd|;
    RepeatedWrites(m, rd, wr, values);
    PartElsewhere(m, wr, values, 0, r, a);
    PartElsewhere(WrittenPart(m, wr, values, 0, r), wr, values, left, 2 * left, a);
  }

  lemma PartElsewhere(m: Memory, wr: seq<Range>, values: seq<seq<Word>>, i: nat, j: nat, a: nat)
    requires Accepted(wr) && Matches(wr, values) && i <= j <= |wr| && a < ADDRESSES
    requires forall k :: i <= k < j ==> !Holds(wr[k], a)
    ensures WrittenPart(m, wr, values, i, j).ao[a] == m.ao[a]
  {
    hide Applied;
    PartMatches(wr, values, i, j);
    WritesElsewhere(m, AO, wr[i..j], values[i..j], j - i, a);
  }

  // Every range of the list holds a register.
  predicate NonEmpty(regs: seq<Range>) {
    forall i :: 0 <= i < |regs| ==> regs[i].size > 0
  }

  function OneEach(n: nat): (rs: seq<Range>)
    ensures |rs| == n && Accepted(rs) && forall i :: 0 <= i < n ==> rs[i] == Range(0, 1)
  {
    seq(n, _ => Range(0, 1))
  }

  function ZeroData(n: nat): (vs: seq<seq<Word>>)
    ensures |vs| == n && forall i :: 0 <= i < n ==> vs[i] == [0]
  {
    seq(n, _ => [0])
  }

  ghost predicate Ordinary(rd: seq<Range>, wr: seq<Range>, values: seq<seq<Word>>, r: nat, w: nat) {
    |rd| == r && |wr| == w && Valid(rd, wr, values) && NonEmpty(rd) && NonEmpty(wr)
  }

  lemma MoreReadsFail(m: Memory, r: nat, w: nat) returns (rd: seq<Range>, wr: seq<Range>, values: seq<seq<Word>>)
    requires 0 < w < r
    ensures Ordinary(rd, wr, values, r, w) && !Meets(m, AsWritten(rd, wr, values), rd, wr, values)
  {
    hide Answers, AsWritten, Replies, Applied, NoStray, Accepted, Matches;
    rd, wr, values := OneEach(r)[w := Range(0, 2)], OneEach(w), ZeroData(w);
    assert Valid(rd, wr, values) by { PlainIsValid(r, w, Range(0, 2)); }
    RepeatedLength(m, rd, wr, values);
    WrongLength(Replies(m, AsWritten(rd, wr, values), |AsWritten(rd, wr, values)|), m, rd, wr, values, w);
  }

  lemma PlainIsValid(r: nat, w: nat, x: Range)
    requires w < r && !Overflows(x)
    ensures Valid(OneEach(r)[w := x], OneEach(w), ZeroData(w))
  {
  }

  lemma RepeatedLength(m: Memory, rd: seq<Range>, wr: seq<Range>, values: seq<seq<Word>>)
    requires Valid(rd, wr, values) && |wr| < |rd|
    ensures var qs := AsWritten(rd, wr, values);
      var rs := Replies(m, qs, |qs|);
      |rs| == |rd| && |rs[|wr|]| == rd[0].size
  {
    hide Answers, AsWritten, Replies;
    RepeatedAnswer(m, rd, wr, values);
    ghost var rs := Replies(m, AsWritten(rd, wr, values), |AsWritten(rd, wr, values)|);
    assert rs[|wr| + 0] == Cut(Written(m, wr, values), AO, rd[0]);
  }

  lemma WrongLength(rs: seq<seq<Word>>, m: Memory, rd: seq<Range>, wr: seq<Range>, values: seq<seq<Word>>, i: nat)
    requires Valid(rd, wr, values) && i < |rd| == |rs| && |rs[i]| != rd[i].size
    ensures !Answers(rs, m, rd, wr, values, |rd|)
  {
  }

  lemma MoreWritesFail(m: Memory, r: nat, w: nat) returns (rd: seq<Range>, wr: seq<Range>, values: seq<seq<Word>>)
    requires r < w < 2 * r
    ensures Ordinary(rd, wr, values, r, w) && !Meets(m, AsWritten(rd, wr, values), rd, wr, values)
  {
    hide Applied, Replies, AsWritten, NoStray, Answers, WriteProgram;
    var v: Word := if m.ao[1] == 0 then 1 else 0;
    rd, wr, values := OneEach(r), OneEach(w)[w - 1 := Range(1, 1)], ZeroData(w)[w - 1 := [v]];
    LastWriterWins(m, AO, wr, values, w, 1, w - 1);
    SkipsLastWrite(m, rd, wr, values, 1);
  }

  // More than twice as many writes as reads: the leftover loop leaves the vector.
  lemma FarMoreWritesStray(rd: seq<Range>, wr: seq<Range>, values: seq<seq<Word>>)
    requires Valid(rd, wr, values)
    ensures !NoStray(AsWritten(rd, wr, values)) <==> |wr| > 2 * |rd|
  {
    var n := Min(|rd|, |wr|);
    var qs := AsWritten(rd, wr, values);
    if |wr| > 2 * |rd| {
      assert qs[|qs| - 1] == WriteAtIndex(wr, values, |wr| - n, |wr| - n - 1) == Stray;
    }
  }

  // The condition is the same whether or not ranges may be empty.
  lemma AsWrittenMeetsIff(m: Memory, r: nat, w: nat)
    ensures (forall rd, wr, values | |rd| == r && |wr| == w && Valid(rd, wr, values) ::
               Meets(m, AsWritten(rd, wr, values), rd, wr, values))
            <==> Harmless(r, w)
    ensures (forall rd, wr, values | Ordinary(rd, wr, values, r, w) ::
               Meets(m, AsWritten(rd, wr, values), rd, wr, values))
            <==> Harmless(r, w)
  {
    hide Meets, AsWritten;
    if Harmless(r, w) {
      forall rd, wr, values | |rd| == r && |wr| == w && Valid(rd, wr, values)
        ensures Meets(m, AsWritten(rd, wr, values), rd, wr, values)
      {
        HarmlessMeets(m, rd, wr, values);
      }
    } else {
      var rd, wr, values := HarmedFails(m, r, w);
    }
  }

  lemma HarmedFails(m: Memory, r: nat, w: nat) returns (rd: seq<Range>, wr: seq<Range>, values: seq<seq<Word>>)
    requires !Harmless(r, w)
    ensures Ordinary(rd, wr, values, r, w) && !Meets(m, AsWritten(rd, wr, values), rd, wr, values)
  {
    hide AsWritten, Applied, Replies;
    if w < r {
      rd, wr, values := MoreReadsFail(m, r, w);
    } else if w < 2 * r {
      rd, wr, values := MoreWritesFail(m, r, w);
    } else {
      rd, wr, values := OneEach(r), OneEach(w), ZeroData(w);
      FarMoreWritesStray(rd, wr, values);
    }
  }
}
