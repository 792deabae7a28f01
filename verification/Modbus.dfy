// The abstract Modbus device and the meaning of a list of requests sent to it.
module Modbus {
  import opened Types

  const ADDRESSES: nat := 0x1_0000

  // A request is carried out and answered, never arrives, or is carried out
  // while its answer is lost. The client sees the last two as the same failure.
  datatype Fate = Served | Lost | ReplyLost

  // What happens to request number k. A script covers every run of its length;
  // past its end the line is dead.
  function FateAt(fates: seq<Fate>, k: nat): Fate {
    if k < |fates| then fates[k] else Lost
  }

  type Cells = s: seq<Word> | |s| == ADDRESSES witness seq(ADDRESSES, _ => 0)

  // The four address spaces.
  datatype Memory = Memory(di: Cells, dout: Cells, ai: Cells, ao: Cells) {
    function At(t: RegType): Cells {
      match t
      case DI => di
      case DO => dout
      case AI => ai
      case AO => ao
    }

    // Only outputs can be written.
    function Put(t: RegType, at: nat, data: seq<Word>): Memory {
      match t
      case DO => this.(dout := Overlay(dout, at, StoredAll(DO, data)))
      case AO => this.(ao := Overlay(ao, at, StoredAll(AO, data)))
      case _ => this
    }

    // Discrete inputs and coils are single bits.
    ghost predicate SingleBits() {
      forall a :: 0 <= a < ADDRESSES ==> di[a] <= 1 && dout[a] <= 1
    }
  }

  function Bit(v: Word): Word {
    if v == 0 then 0 else 1
  }

  function Stored(t: RegType, v: Word): Word {
    if t.Digital() then Bit(v) else v
  }

  function StoredAll(t: RegType, data: seq<Word>): seq<Word> {
    seq(|data|, i requires 0 <= i < |data| => Stored(t, data[i]))
  }

  // A buffer with data laid over it from index `at`; what does not fit is dropped.
  // Every caller has checked that it fits.
  function Overlay(cells: seq<Word>, at: nat, data: seq<Word>): (r: seq<Word>)
    ensures |r| == |cells|
  {
    seq(|cells|, a requires 0 <= a < |cells| => if at <= a < at + |data| then data[a - at] else cells[a])
  }

  // A space has a cell for each 16-bit address, and no other.
  lemma AddressesAreWords(a: int)
    ensures 0 <= a < ADDRESSES <==> 0 <= a <= 65535
  {
  }

  // A write changes its own cells and nothing else.
  lemma PutAt(m: Memory, t: RegType, at: nat, data: seq<Word>, x: nat)
    requires t.Output() && x < ADDRESSES
    ensures m.Put(t, at, data).At(t)[x] == if at <= x < at + |data| then Stored(t, data[x - at]) else m.At(t)[x]
    ensures forall u :: u != t ==> m.Put(t, at, data).At(u) == m.At(u)
  {
  }

  // The n cells from index `at` on, which every caller has checked to exist.
  function Window(cells: seq<Word>, at: nat, n: nat): (r: seq<Word>)
    ensures |r| == n
  {
    seq(n, i requires 0 <= i < n => if at + i < |cells| then cells[at + i] else 0)
  }

  datatype Request =
    | Read(t: RegType, addr: Word, size: nat)
    | Write(t: RegType, addr: Word, data: seq<Word>)
    | WriteRead(waddr: Word, wdata: seq<Word>, raddr: Word, rsize: nat)
    | Stray  // not a request: the client fell off the end of a vector

  function Effect(m: Memory, q: Request): Memory {
    match q
    case Read(_, _, _) => m
    case Write(t, a, d) => m.Put(t, a, d)
    case WriteRead(a, d, _, _) => m.Put(AO, a, d)
    case Stray => m
  }

  // The answers, in order; section 6.17 performs the write before the read.
  function Reply(m: Memory, q: Request): seq<seq<Word>> {
    match q
    case Read(t, a, n) => [Window(m.At(t), a, n)]
    case Write(_, _, _) => []
    case WriteRead(a, d, b, n) => [Window(m.Put(AO, a, d).ao, b, n)]
    case Stray => []
  }

  datatype Status = Going | Failed | Stuck
  datatype Run = Run(mem: Memory, tick: nat, replies: seq<seq<Word>>, status: Status)

  ghost function Step(fates: seq<Fate>, r: Run, q: Request): Run
  {
    if !r.status.Going? then r
    else if q.Stray? then r.(status := Stuck)
    else match FateAt(fates, r.tick)
      case Served => Run(Effect(r.mem, q), r.tick + 1, r.replies + Reply(r.mem, q), Going)
      case Lost => r.(tick := r.tick + 1, status := Failed)
      case ReplyLost => r.(mem := Effect(r.mem, q), tick := r.tick + 1, status := Failed)
  }

  // The first k requests, issued in order; after the first failure nothing more is sent.
  ghost function Exec(fates: seq<Fate>, r: Run, qs: seq<Request>, k: nat): Run
    requires k <= |qs|
  {
    if k == 0 then r else Step(fates, Exec(fates, r, qs, k - 1), qs[k - 1])
  }

  ghost function Start(m: Memory, tick: nat): Run {
    Run(m, tick, [], Going)
  }

  // The first k requests on a device that serves every one of them.
  ghost function Applied(m: Memory, qs: seq<Request>, k: nat): Memory
    requires k <= |qs|
  {
    if k == 0 then m else Effect(Applied(m, qs, k - 1), qs[k - 1])
  }

  ghost function Replies(m: Memory, qs: seq<Request>, k: nat): seq<seq<Word>>
    requires k <= |qs|
  {
    if k == 0 then [] else Replies(m, qs, k - 1) + Reply(Applied(m, qs, k - 1), qs[k - 1])
  }

  ghost predicate AllServed(fates: seq<Fate>, tick: nat, n: nat) {
    forall k :: tick <= k < tick + n ==> FateAt(fates, k) == Served
  }

  predicate NoStray(qs: seq<Request>) {
    forall i :: 0 <= i < |qs| ==> !qs[i].Stray?
  }

  // ----- how a list of requests ends -------------------------------------------

  // Once the list has stopped, the rest of it changes nothing.
  lemma {:induction false} ExecCut(fates: seq<Fate>, r: Run, qs: seq<Request>, k: nat, n: nat)
    requires k <= n <= |qs| && !Exec(fates, r, qs, k).status.Going?
    ensures Exec(fates, r, qs, n) == Exec(fates, r, qs, k)
  {
    if k < n { ExecCut(fates, r, qs, k, n - 1); }
  }

  lemma {:induction false} ExecStopped(fates: seq<Fate>, r: Run, qs: seq<Request>, k: nat)
    requires k <= |qs|
    ensures !r.status.Going? ==> Exec(fates, r, qs, k) == r
  {
    if k > 0 { ExecStopped(fates, r, qs, k - 1); }
  }

  lemma {:induction false} ExecServed(fates: seq<Fate>, r: Run, qs: seq<Request>, k: nat)
    requires NoStray(qs) && r.status.Going? && k <= |qs|
    requires AllServed(fates, r.tick, k)
    ensures Exec(fates, r, qs, k) == Run(Applied(r.mem, qs, k), r.tick + k, r.replies + Replies(r.mem, qs, k), Going)
  {
    hide Effect, Reply;
    if k == 0 {
      assert r.replies + [] == r.replies;
    } else {
      ExecServed(fates, r, qs, k - 1);
    }
  }

  // How many of the n requests from this tick on are served before the first that is not.
  ghost function ServedPrefix(fates: seq<Fate>, tick: nat, n: nat): (k: nat)
    ensures k <= n && AllServed(fates, tick, k)
    ensures k < n ==> FateAt(fates, tick + k) != Served
  {
    if n == 0 then 0
    else
      var k := ServedPrefix(fates, tick, n - 1);
      if k == n - 1 && FateAt(fates, tick + k) == Served then n else k
  }

  // A list of requests completes exactly when every request is served. Otherwise
  // it stops at the first request that is not: everything before it has been
  // applied, nothing after it has, and that request itself only if its answer was lost.
  lemma ExecOutcome(fates: seq<Fate>, r: Run, qs: seq<Request>)
    requires NoStray(qs) && r.status.Going?
    ensures var k := ServedPrefix(fates, r.tick, |qs|);
      var e := Exec(fates, r, qs, |qs|);
      if k == |qs| then
        e == Run(Applied(r.mem, qs, k), r.tick + k, r.replies + Replies(r.mem, qs, k), Going)
      else
        var applied := if FateAt(fates, r.tick + k) == ReplyLost then k + 1 else k;
        e == Run(Applied(r.mem, qs, applied), r.tick + k + 1, r.replies + Replies(r.mem, qs, k), Failed)
  {
    hide ServedPrefix, Replies, Effect, Reply;
    var k := ServedPrefix(fates, r.tick, |qs|);
    ExecServed(fates, r, qs, k);
    if k < |qs| { ExecCut(fates, r, qs, k + 1, |qs|); }
  }

  // The n requests from tick on broke off before tick': all were served but the last.
  ghost predicate BrokeOff(fates: seq<Fate>, tick: nat, tick': nat, n: nat) {
    tick < tick' <= tick + n && AllServed(fates, tick, tick' - 1 - tick) && FateAt(fates, tick' - 1) != Served
  }

  lemma ExecTicks(fates: seq<Fate>, m: Memory, tick: nat, qs: seq<Request>)
    requires NoStray(qs)
    ensures var e := Exec(fates, Start(m, tick), qs, |qs|);
      if e.status.Going? then
        AllServed(fates, tick, |qs|) && e.tick == tick + |qs| && e.mem == Applied(m, qs, |qs|)
      else BrokeOff(fates, tick, e.tick, |qs|)
  {
    hide Exec, Applied, Replies, ServedPrefix;
    ExecOutcome(fates, Start(m, tick), qs);
  }

  // ----- lists in sequence -------------------------------------------------------

  ghost predicate Agree(ps: seq<Request>, qs: seq<Request>, k: nat) {
    k <= |ps| && k <= |qs| && forall i :: 0 <= i < k ==> ps[i] == qs[i]
  }

  lemma {:induction false} ExecAgree(fates: seq<Fate>, r: Run, ps: seq<Request>, qs: seq<Request>, k: nat)
    requires Agree(ps, qs, k)
    ensures Exec(fates, r, ps, k) == Exec(fates, r, qs, k)
  {
    if k > 0 { ExecAgree(fates, r, ps, qs, k - 1); }
  }

  lemma {:induction false} ExecAppend(fates: seq<Fate>, r: Run, ps: seq<Request>, qs: seq<Request>, k: nat)
    requires k <= |qs|
    ensures Exec(fates, r, ps + qs, |ps| + k) == Exec(fates, Exec(fates, r, ps, |ps|), qs, k)
  {
    if k == 0 {
      ExecAgree(fates, r, ps + qs, ps, |ps|);
    } else {
      ExecAppend(fates, r, ps, qs, k - 1);
    }
  }

  // What has been answered before does not influence what happens next.
  lemma {:induction false} ExecForgets(fates: seq<Fate>, r: Run, qs: seq<Request>, k: nat)
    requires k <= |qs|
    ensures Exec(fates, r.(replies := []), qs, k).(replies := []) == Exec(fates, r, qs, k).(replies := [])
  {
    hide Effect, Reply;
    if k > 0 { ExecForgets(fates, r, qs, k - 1); }
  }

  lemma {:induction false} AppliedAgree(m: Memory, ps: seq<Request>, qs: seq<Request>, k: nat)
    requires Agree(ps, qs, k)
    ensures Applied(m, ps, k) == Applied(m, qs, k)
    ensures Replies(m, ps, k) == Replies(m, qs, k)
  {
    if k > 0 { AppliedAgree(m, ps, qs, k - 1); }
  }

  lemma {:induction false} AppliedAppend(m: Memory, ps: seq<Request>, qs: seq<Request>, k: nat)
    requires k <= |qs|
    ensures Applied(m, ps + qs, |ps| + k) == Applied(Applied(m, ps, |ps|), qs, k)
  {
    if k == 0 {
      AppliedAgree(m, ps + qs, ps, |ps|);
    } else {
      AppliedAppend(m, ps, qs, k - 1);
    }
  }

  lemma {:induction false} RepliesAppend(m: Memory, ps: seq<Request>, qs: seq<Request>, k: nat)
    requires k <= |qs|
    ensures Replies(m, ps + qs, |ps| + k) == Replies(m, ps, |ps|) + Replies(Applied(m, ps, |ps|), qs, k)
  {
    hide Effect, Reply;
    if k == 0 {
      AppliedAgree(m, ps + qs, ps, |ps|);
    } else {
      RepliesAppend(m, ps, qs, k - 1);
      AppliedAppend(m, ps, qs, k - 1);
    }
  }

  // The device as the client sees it through the library. Every call is one request.
  class Device {
    var mem: Memory
    var tick: nat
    const fates: seq<Fate>

    constructor (m: Memory, f: seq<Fate>)
      ensures mem == m && tick == 0 && fates == f
    {
      mem, tick, fates := m, 0, f;
    }

    ghost function Now(): Run
      reads this
    {
      Start(mem, tick)
    }

    method Issue(q: Request) returns (ok: bool, reply: seq<seq<Word>>)
      requires !q.Stray?
      modifies this
      ensures var e := Step(fates, old(Now()), q);
        mem == e.mem && tick == e.tick && ok == e.status.Going? && (ok ==> reply == e.replies)
      ensures tick == old(tick) + 1
    {
      var f := FateAt(fates, tick);
      tick := tick + 1;
      ok := f == Served;
      reply := if ok then Reply(mem, q) else [];
      if f != Lost { mem := Effect(mem, q); }
    }

    // Opening the TCP connection can fail too, but touches no cell.
    method Open() returns (ok: bool)
      modifies this`tick
      ensures ok == (FateAt(fates, old(tick)) == Served) && tick == old(tick) + 1
    {
      ok := FateAt(fates, tick) == Served;
      tick := tick + 1;
    }
  }
}
