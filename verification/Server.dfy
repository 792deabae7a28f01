// The Modbus client object: every transfer checks the connection and the ranges,
// then issues its requests in order and stops at the first failure.
module Server {
  import opened Types
  import opened Modbus
  import opened Transfers
  import opened ReadWrite

  // The read check: any range past the 16-bit limit rejects the whole list.
  method CheckReadRegs(regs: seq<Range>) returns (o: Outcome)
    ensures o == if Accepted(regs) then Ok else Threw(OutOfRange)
  {
    for i := 0 to |regs|
      invariant forall j :: 0 <= j < i ==> !Overflows(regs[j])
    {
      if regs[i].size > UINT16_MAX || regs[i].size + regs[i].addr > UINT16_MAX {
        return Threw(OutOfRange);
      }
    }
    o := Ok;
  }

  // The write check: a wrong number of values anywhere in the list outranks a range
  // past the limit anywhere in the list.
  method CheckWriteRegs(regs: seq<Range>, values: seq<seq<Word>>) returns (o: Outcome)
    ensures o == Threw(LogicError) <==> !Matches(regs, values)
    ensures o == Threw(OutOfRange) <==> Matches(regs, values) && !Accepted(regs)
    ensures o == Ok <==> Matches(regs, values) && Accepted(regs)
  {
    var inputSizeOk, writeSizeOk := true, true;
    if |regs| != |values| {
      inputSizeOk := false;
    } else {
      for i := 0 to |regs|
        invariant inputSizeOk <==> forall j :: 0 <= j < i ==> regs[j].size == |values[j]|
        invariant inputSizeOk ==> (writeSizeOk <==> forall j :: 0 <= j < i ==> !Overflows(regs[j]))
      {
        if regs[i].size != |values[i]| {
          inputSizeOk := false;
        } else if regs[i].size > UINT16_MAX || regs[i].size + regs[i].addr > UINT16_MAX {
          writeSizeOk := false;
        }
      }
    }
    if !inputSizeOk { return Threw(LogicError); }
    if !writeSizeOk { return Threw(OutOfRange); }
    o := Ok;
  }

  // The four spaces differ only in the library call, so one method serves each family
  // of four: the space is a parameter.
  class ModbusServer {
    var connected: bool
    const device: Device

    constructor (d: Device)
      ensures !connected && device == d
    {
      connected, device := false, d;
    }

    method Connect() returns (o: Outcome)
      modifies this, device`tick
      ensures old(connected) ==> o == Threw(LogicError) && connected && device.tick == old(device.tick)
      ensures !old(connected) ==>
        && o == (if FateAt(device.fates, old(device.tick)) == Served then Ok else Threw(RuntimeError))
        && connected == o.Ok? && device.tick == old(device.tick) + 1
    {
      if connected { return Threw(LogicError); }
      var ok := device.Open();
      if !ok { return Threw(RuntimeError); }
      connected := true;
      o := Ok;
    }

    method Disconnect() returns (o: Outcome)
      modifies this
      ensures o == (if old(connected) then Ok else Threw(LogicError)) && !connected
    {
      if !connected { return Threw(LogicError); }
      connected := false;
      o := Ok;
    }

    // The device after the requests, in order, up to the first that fails.
    ghost function After(qs: seq<Request>): Run
      reads device
    {
      Exec(device.fates, device.Now(), qs, |qs|)
    }

    twostate predicate Issued(run: Run)
      reads device
    {
      device.mem == run.mem && device.tick == run.tick
    }

    method Read(t: RegType, addr: Word) returns (r: Result<Word>)
      modifies device
      ensures !connected ==> r == Raised(LogicError) && unchanged(device)
      ensures connected ==>
        var served := FateAt(device.fates, old(device.tick)) == Served;
        && device.mem == old(device.mem) && device.tick == old(device.tick) + 1
        && r == if served then Returned(device.mem.At(t)[addr]) else Raised(RuntimeError)
    {
      if !connected { return Raised(LogicError); }
      var ok, reply := device.Issue(Request.Read(t, addr, 1));
      if !ok { return Raised(RuntimeError); }
      r := Returned(reply[0][0]);
    }

    method Write(t: RegType, addr: Word, v: Word) returns (o: Outcome)
      requires t.Output()
      modifies device
      ensures !connected ==> o == Threw(LogicError) && unchanged(device)
      ensures connected ==>
        var f := FateAt(device.fates, old(device.tick));
        && device.mem == (if f == Lost then old(device.mem) else old(device.mem).Put(t, addr, [v]))
        && device.tick == old(device.tick) + 1
        && o == if f == Served then Ok else Threw(RuntimeError)
    {
      if !connected { return Threw(LogicError); }
      var ok, _ := device.Issue(Request.Write(t, addr, [v]));
      o := if ok then Ok else Threw(RuntimeError);
    }

    method ReadBatch(t: RegType, regs: seq<Range>) returns (r: Result<seq<seq<Word>>>)
      modifies device
      ensures !connected ==> r == Raised(LogicError) && unchanged(device)
      ensures connected && !Accepted(regs) ==> r == Raised(OutOfRange) && unchanged(device)
      ensures connected && Accepted(regs) ==>
        var run := old(After(ReadProgram(t, regs)));
        && Issued(run)
        && r == if run.status.Going? then Returned(run.replies) else Raised(RuntimeError)
    {
      if !connected { return Raised(LogicError); }
      var check := CheckReadRegs(regs);
      if check.Threw? { return Raised(check.error); }
      ghost var qs, start := ReadProgram(t, regs), device.Now();
      var result := [];
      for i := 0 to |regs|
        invariant Exec(device.fates, start, qs, i) == Run(device.mem, device.tick, result, Going)
      {
        var ok, reply := device.Issue(ReadRequest(t, regs[i]));
        if !ok {
          ExecCut(device.fates, start, qs, i + 1, |qs|);
          return Raised(RuntimeError);
        }
        result := result + reply;
      }
      r := Returned(result);
    }

    method WriteBatch(t: RegType, regs: seq<Range>, values: seq<seq<Word>>) returns (o: Outcome)
      requires t.Output()
      modifies device
      ensures !connected ==> o == Threw(LogicError) && unchanged(device)
      ensures connected && !Matches(regs, values) ==> o == Threw(LogicError) && unchanged(device)
      ensures connected && Matches(regs, values) && !Accepted(regs) ==> o == Threw(OutOfRange) && unchanged(device)
      ensures connected && Matches(regs, values) && Accepted(regs) ==>
        var run := old(After(WriteProgram(t, regs, values)));
        Issued(run) && o == if run.status.Going? then Ok else Threw(RuntimeError)
    {
      if !connected { return Threw(LogicError); }
      var check := CheckWriteRegs(regs, values);
      if check.Threw? { return check; }
      ghost var qs, start := WriteProgram(t, regs, values), device.Now();
      for i := 0 to |regs|
        invariant var run := Exec(device.fates, start, qs, i);
          run.mem == device.mem && run.tick == device.tick && run.status.Going?
      {
        var ok, _ := device.Issue(WriteRequest(t, regs[i], values[i]));
        if !ok {
          ExecCut(device.fates, start, qs, i + 1, |qs|);
          return Threw(RuntimeError);
        }
      }
      o := Ok;
    }

    // Reads straight into a caller's buffer. When the request fails, what it leaves in
    // its stretch of the buffer is anybody's guess.
    method ReadInto(buf: array<Word>, at: nat, t: RegType, addr: Word, size: nat) returns (o: Outcome)
      requires at + size <= buf.Length
      modifies device, buf
      ensures !connected ==> o == Threw(LogicError) && unchanged(device) && unchanged(buf)
      ensures connected && addr + size > UINT16_MAX ==> o == Threw(OutOfRange) && unchanged(device) && unchanged(buf)
      ensures connected && addr + size <= UINT16_MAX ==>
        && device.mem == old(device.mem) && device.tick == old(device.tick) + 1
        && o == (if FateAt(device.fates, old(device.tick)) == Served then Ok else Threw(RuntimeError))
        && (o.Ok? ==> buf[..] == Overlay(old(buf[..]), at, Window(device.mem.At(t), addr, size)))
      ensures forall i :: 0 <= i < buf.Length && !(at <= i < at + size) ==> buf[i] == old(buf[i])
    {
      if !connected { return Threw(LogicError); }
      if addr + size > UINT16_MAX { return Threw(OutOfRange); }
      var ok, reply := device.Issue(Request.Read(t, addr, size));
      for i := 0 to size
        modifies buf
        invariant forall j :: 0 <= j < buf.Length && !(at <= j < at + size) ==> buf[j] == old(buf[j])
        invariant ok ==> forall j :: 0 <= j < i ==> buf[at + j] == reply[0][j]
      {
        if ok { buf[at + i] := reply[0][i]; } else { buf[at + i] := *; }
      }
      if !ok { return Threw(RuntimeError); }
      o := Ok;
    }

    // Writes from a caller's buffer, given here as its contents from the pointer on.
    method WriteFrom(data: seq<Word>, t: RegType, addr: Word, size: nat) returns (o: Outcome)
      requires t.Output() && size == |data|
      modifies device
      ensures !connected ==> o == Threw(LogicError) && unchanged(device)
      ensures connected && addr + size > UINT16_MAX ==> o == Threw(OutOfRange) && unchanged(device)
      ensures connected && addr + size <= UINT16_MAX ==>
        var e := Step(device.fates, old(device.Now()), Request.Write(t, addr, data));
        && device.mem == e.mem && device.tick == e.tick
        && o == if e.status.Going? then Ok else Threw(RuntimeError)
    {
      if !connected { return Threw(LogicError); }
      if addr + size > UINT16_MAX { return Threw(OutOfRange); }
      var ok, _ := device.Issue(Request.Write(t, addr, data));
      if !ok { return Threw(RuntimeError); }
      o := Ok;
    }

    // The three loops of the combined transfer. Each continues the list of answers it
    // is given and reports how it ended.

    method IssueZip(rd: seq<Range>, wr: seq<Range>, values: seq<seq<Word>>)
      returns (st: Status, result: seq<seq<Word>>)
      requires |wr| == |values|
      modifies device
      ensures Run(device.mem, device.tick, result, st) ==
        Exec(device.fates, old(device.Now()), Zip(rd, wr, values), Min(|rd|, |wr|))
    {
      hide Effect, Reply;
      ghost var qs, start, n := Zip(rd, wr, values), device.Now(), Min(|rd|, |wr|);
      result := [];
      for i := 0 to Min(|rd|, |wr|)
        invariant Exec(device.fates, start, qs, i) == Run(device.mem, device.tick, result, Going)
      {
        var ok, reply := device.Issue(Zipped(rd[i], wr[i], values[i]));
        if !ok {
          ExecCut(device.fates, start, qs, i + 1, n);
          return Failed, result;
        }
        result := result + reply;
      }
      st := Going;
    }

    method IssueReads(rd: seq<Range>, at: nat, n: nat, before: seq<seq<Word>>)
      returns (st: Status, result: seq<seq<Word>>)
      modifies device
      ensures Run(device.mem, device.tick, result, st) ==
        Exec(device.fates, old(device.Now()).(replies := before), ReadsFrom(rd, at, n), n)
    {
      ghost var qs, start := ReadsFrom(rd, at, n), device.Now().(replies := before);
      result := before;
      for i := 0 to n
        invariant Exec(device.fates, start, qs, i) == Run(device.mem, device.tick, result, Going)
      {
        if at + i >= |rd| {
          ExecCut(device.fates, start, qs, i + 1, n);
          return Stuck, result;
        }
        var ok, reply := device.Issue(ReadRequest(AO, rd[at + i]));
        if !ok {
          ExecCut(device.fates, start, qs, i + 1, n);
          return Failed, result;
        }
        result := result + reply;
      }
      st := Going;
    }

    method IssueWrites(wr: seq<Range>, values: seq<seq<Word>>, at: nat, n: nat, before: seq<seq<Word>>)
      returns (st: Status)
      requires |wr| == |values|
      modifies device
      ensures Run(device.mem, device.tick, before, st) ==
        Exec(device.fates, old(device.Now()).(replies := before), WritesFrom(wr, values, at, n), n)
    {
      ghost var qs, start := WritesFrom(wr, values, at, n), device.Now().(replies := before);
      for i := 0 to n
        invariant Exec(device.fates, start, qs, i) == Run(device.mem, device.tick, before, Going)
      {
        if at + i >= |wr| {
          ExecCut(device.fates, start, qs, i + 1, n);
          return Stuck;
        }
        var ok, _ := device.Issue(WriteRequest(AO, wr[at + i], values[at + i]));
        if !ok {
          ExecCut(device.fates, start, qs, i + 1, n);
          return Failed;
        }
      }
      st := Going;
    }

    method ReadWriteAo(rd: seq<Range>, wr: seq<Range>, values: seq<seq<Word>>) returns (r: Result<seq<seq<Word>>>)
      modifies device
      ensures !connected ==> r == Raised(LogicError) && unchanged(device)
      ensures connected && !Accepted(rd) ==> r == Raised(OutOfRange) && unchanged(device)
      ensures connected && Accepted(rd) && !Matches(wr, values) ==> r == Raised(LogicError) && unchanged(device)
      ensures connected && Accepted(rd) && Matches(wr, values) && !Accepted(wr) ==>
        r == Raised(OutOfRange) && unchanged(device)
      ensures connected && Accepted(rd) && Matches(wr, values) && Accepted(wr) ==>
        var run := old(After(AsWritten(rd, wr, values)));
        Issued(run) && r == match run.status
          case Going => Returned(run.replies)
          case Failed => Raised(RuntimeError)
          case Stuck => Undefined
    {
      if !connected { return Raised(LogicError); }
      var check := CheckReadRegs(rd);
      if check.Threw? { return Raised(check.error); }
      check := CheckWriteRegs(wr, values);
      if check.Threw? { return Raised(check.error); }

      var rwSize := Min(|rd|, |wr|);
      var remainRead, remainWrite := |rd| - rwSize, |wr| - rwSize;
      ghost var start := device.Now();
      AsWrittenInThree(device.fates, start, rd, wr, values);
      hide *;

      var st, result := IssueZip(rd, wr, values);
      if st == Going { st, result := IssueReads(rd, remainWrite, remainRead, result); }
      if st == Going { st := IssueWrites(wr, values, remainWrite, remainWrite, result); }
      r := match st
        case Going => Returned(result)
        case Failed => Raised(RuntimeError)
        case Stuck => Undefined;
    }
  }

  // A run of the whole program is a run of its three parts, each stopping the next.
  lemma AsWrittenInThree(fates: seq<Fate>, start: Run, rd: seq<Range>, wr: seq<Range>, values: seq<seq<Word>>)
    requires |wr| == |values|
    ensures var qs, n := AsWritten(rd, wr, values), Min(|rd|, |wr|);
      var one := Exec(fates, start, Zip(rd, wr, values), n);
      var two := Exec(fates, one, ReadsFrom(rd, |wr| - n, |rd| - n), |rd| - n);
      var three := Exec(fates, two, WritesFrom(wr, values, |wr| - n, |wr| - n), |wr| - n);
      && Exec(fates, start, qs, |qs|) == three
      && (!one.status.Going? ==> three == one)
      && (!two.status.Going? ==> three == two)
  {
    var n := Min(|rd|, |wr|);
    ExecThree(fates, start, Zip(rd, wr, values), ReadsFrom(rd, |wr| - n, |rd| - n),
              WritesFrom(wr, values, |wr| - n, |wr| - n));
    hide Exec;
  }

  lemma ExecThree(fates: seq<Fate>, start: Run, xs: seq<Request>, ys: seq<Request>, zs: seq<Request>)
    ensures var one := Exec(fates, start, xs, |xs|);
      var two := Exec(fates, one, ys, |ys|);
      var three := Exec(fates, two, zs, |zs|);
      && Exec(fates, start, xs + ys + zs, |xs + ys + zs|) == three
      && (!one.status.Going? ==> three == one)
      && (!two.status.Going? ==> three == two)
  {
    hide Exec;
    ExecAppend(fates, start, xs, ys, |ys|);
    ExecAppend(fates, start, xs + ys, zs, |zs|);
    var one := Exec(fates, start, xs, |xs|);
    var two := Exec(fates, one, ys, |ys|);
    ExecStopped(fates, one, ys, |ys|);
    ExecStopped(fates, two, zs, |zs|);
  }
}
