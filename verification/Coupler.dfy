// The coupler object: it owns the connection, the module list and the four shared
// images, and moves images to and from the device area by area.
module Coupler {
  import opened Types
  import opened Modbus
  import opened Transfers
  import opened Server
  import opened Endian
  import opened Clamps
  import opened Layout
  import opened Sync
  import opened Lifecycle
  import opened Histories

  // How a list of requests, none of them out of range, ends: with no request nothing is
  // looked at; without a connection nothing is sent.
  ghost predicate Conducted(connected: bool, fates: seq<Fate>, m: Memory, tick: nat, qs: seq<Request>,
                           o: Outcome, m': Memory, tick': nat)
  {
    if qs == [] then o == Ok && m' == m && tick' == tick
    else if !connected then o == Threw(LogicError) && m' == m && tick' == tick
    else
      var run := Exec(fates, Start(m, tick), qs, |qs|);
      m' == run.mem && tick' == run.tick && o == if run.status.Going? then Ok else Threw(RuntimeError)
  }

  lemma NothingMore(connected: bool, fates: seq<Fate>, m: Memory, tick: nat)
    ensures Conducted(connected, fates, m, tick, [], Ok, m, tick)
  {
  }

  // Two lists, the second sent only if the first went through, are one list.
  lemma ConductedAppend(connected: bool, fates: seq<Fate>, m: Memory, tick: nat,
                       xs: seq<Request>, o: Outcome, m': Memory, tick': nat,
                       ys: seq<Request>, p: Outcome, n: Memory, tick'': nat)
    requires Conducted(connected, fates, m, tick, xs, o, m', tick')
    requires if o.Ok? then Conducted(connected, fates, m', tick', ys, p, n, tick'')
             else p == o && n == m' && tick'' == tick'
    ensures Conducted(connected, fates, m, tick, xs + ys, p, n, tick'')
  {
    hide Exec;
    var one := Exec(fates, Start(m, tick), xs, |xs|);
    ExecAppend(fates, Start(m, tick), xs, ys, |ys|);
    ExecStopped(fates, one, ys, |ys|);
    ExecForgets(fates, one, ys, |ys|);
    assert xs == [] ==> xs + ys == ys;
    assert ys == [] ==> xs + ys == xs;
  }

  // The first k areas have been read, at one request each.
  ghost predicate FetchedSoFar(fates: seq<Fate>, m: Memory, tick: nat, t: RegType, list: seq<Area>, k: nat, tick': nat)
    requires k <= |list|
  {
    var run := Exec(fates, Start(m, tick), FetchProgram(t, list), k);
    run.status.Going? && run.mem == m && run.tick == tick' == tick + k
  }

  lemma NothingFetched(fates: seq<Fate>, m: Memory, tick: nat, t: RegType, list: seq<Area>, image: seq<Word>)
    ensures FetchedSoFar(fates, m, tick, t, list, 0, tick)
    ensures Gathered(t, image, list, m.At(t), 0) == image
  {
  }

  lemma FetchGoesOn(fates: seq<Fate>, m: Memory, tick: nat, t: RegType, list: seq<Area>, k: nat, tick': nat,
                    image: seq<Word>)
    requires k < |list| && FetchedSoFar(fates, m, tick, t, list, k, tick')
    ensures FateAt(fates, tick') == Served ==> FetchedSoFar(fates, m, tick, t, list, k + 1, tick' + 1)
    ensures FateAt(fates, tick') != Served ==>
      Conducted(true, fates, m, tick, FetchProgram(t, list), Threw(RuntimeError), m, tick' + 1)
    ensures tick' == tick + k
    ensures Gathered(t, image, list, m.At(t), k + 1) ==
      Overlay(Gathered(t, image, list, m.At(t), k), list[k].offset, Window(m.At(t), list[k].addr, list[k].size))
  {
    hide Overlay, Window, Reply;
    if FateAt(fates, tick') != Served { ExecCut(fates, Start(m, tick), FetchProgram(t, list), k + 1, |list|); }
  }

  // What a fetch has asked for: n requests, or as many as the first that failed; nothing at
  // all without a connection.
  ghost predicate Asked(o: Outcome, connected: bool, tick: nat, tick': nat, n: nat) {
    if o.Ok? then tick' == tick + n && (!connected ==> n == 0)
    else if connected then tick < tick' <= tick + n else tick' == tick
  }

  // How many of them were served.
  ghost function ServedOf(o: Outcome, tick: nat, tick': nat): nat {
    if tick' <= tick then 0 else if o.Ok? then tick' - tick else tick' - tick - 1
  }

  // When j requests of a fetch have been served: the requests for this type have the
  // numbers from s on, so its image is as before; or, its requests all being served, it is
  // fetched; or it is fetched up to an area that failed, whose own stretch may hold anything.
  ghost predicate FetchedUpTo(t: RegType, n: nat, areas: seq<Area>, m: Memory, connected: bool, s: nat, j: nat,
                             before: seq<Word>, after: seq<Word>)
  {
    if n == 0 || j < s || !connected then after == before
    else if j < s + |areas| then FetchedBut(t, areas, m, j - s, before, after)
    else after == Fetched(t, before, areas, m)
  }

  // Area k failed: everything outside its stretch is what the areas before it brought.
  ghost predicate FetchedBut(t: RegType, areas: seq<Area>, m: Memory, k: nat, before: seq<Word>, after: seq<Word>) {
    k < |areas| && |after| == |before| &&
    forall i :: 0 <= i < |before| && !Covers(areas[k], i) ==> after[i] == Gathered(t, before, areas, m.At(t), k)[i]
  }

  // The requests of a type in a fetch.
  ghost function Count(n: nat, areas: seq<Area>): nat {
    if n == 0 then 0 else |areas|
  }

  // A fetch that went through has fetched every type, wherever its requests are.
  lemma AllAsked(t: RegType, n: nat, areas: seq<Area>, m: Memory, before: seq<Word>, after: seq<Word>, s: nat,
                 connected: bool, tick: nat, tick': nat, all: nat)
    requires Asked(Ok, connected, tick, tick', all) && s + Count(n, areas) <= all
    requires FetchedUpTo(t, n, areas, m, connected, s, ServedOf(Ok, tick, tick'), before, after)
    ensures after == if n == 0 then before else Fetched(t, before, areas, m)
  {
    hide FetchedBut;
  }

  // The four ways one type can end.
  lemma BrokeAt(t: RegType, n: nat, areas: seq<Area>, m: Memory, k: nat, tick: nat, before: seq<Word>, after: seq<Word>)
    requires n > 0 && k < |areas| && |after| == |before|
    requires forall i :: 0 <= i < |before| && !(areas[k].offset <= i < areas[k].offset + areas[k].size) ==>
      after[i] == Gathered(t, before, areas, m.At(t), k)[i]
    ensures Asked(Threw(RuntimeError), true, tick, tick + k + 1, |areas|)
    ensures FetchedUpTo(t, n, areas, m, true, 0, ServedOf(Threw(RuntimeError), tick, tick + k + 1), before, after)
  {
  }

  lemma EndedAt(t: RegType, n: nat, areas: seq<Area>, m: Memory, connected: bool, tick: nat, before: seq<Word>)
    requires n > 0 && (connected || areas == [])
    ensures Asked(Ok, connected, tick, tick + |areas|, |areas|)
    ensures var j := ServedOf(Ok, tick, tick + |areas|);
      FetchedUpTo(t, n, areas, m, connected, 0, j, before, Fetched(t, before, areas, m))
    ensures Fetched(t, before, areas, m) == Gathered(t, before, areas, m.At(t), |areas|)
  {
  }

  lemma Refused(t: RegType, n: nat, areas: seq<Area>, m: Memory, tick: nat, before: seq<Word>)
    ensures Asked(Threw(LogicError), false, tick, tick, |areas|)
    ensures FetchedUpTo(t, n, areas, m, false, 0, ServedOf(Threw(LogicError), tick, tick), before, before)
  {
  }

  lemma Skipped(t: RegType, areas: seq<Area>, m: Memory, connected: bool, tick: nat, before: seq<Word>)
    ensures Asked(Ok, connected, tick, tick, 0)
    ensures FetchedUpTo(t, 0, areas, m, connected, 0, ServedOf(Ok, tick, tick), before, before)
  {
  }

  // The inputs first, and then perhaps the outputs.
  lemma FetchedInTwo(n: PerReg<nat>, areas: PerReg<seq<Area>>, m: Memory, before: PerReg<seq<Word>>,
                     after: PerReg<seq<Word>>, outputs: bool, o1: Outcome, o2: Outcome, connected: bool,
                     t0: nat, t1: nat, t2: nat, di: nat, ai: nat, dout: nat, ao: nat)
    requires di == Count(n.di, areas.di) && ai == Count(n.ai, areas.ai)
    requires outputs ==> dout == Count(n.dout, areas.dout) && ao == Count(n.ao, areas.ao)
    requires Asked(o1, connected, t0, t1, di + ai)
    requires if o1.Ok? then Asked(o2, connected, t1, t2, if outputs then dout + ao else 0) else o2 == o1 && t2 == t1
    requires FetchedUpTo(DI, n.di, areas.di, m, connected, 0, ServedOf(o1, t0, t1), before.di, after.di)
    requires FetchedUpTo(AI, n.ai, areas.ai, m, connected, di, ServedOf(o1, t0, t1), before.ai, after.ai)
    requires outputs && o1.Ok? ==>
      && FetchedUpTo(DO, n.dout, areas.dout, m, connected, 0, ServedOf(o2, t1, t2), before.dout, after.dout)
      && FetchedUpTo(AO, n.ao, areas.ao, m, connected, dout, ServedOf(o2, t1, t2), before.ao, after.ao)
    requires o1.Threw? ==> after.dout == before.dout && after.ao == before.ao
    ensures Asked(o2, connected, t0, t2, di + ai + if outputs then dout + ao else 0)
    ensures FetchedUpTo(DI, n.di, areas.di, m, connected, 0, ServedOf(o2, t0, t2), before.di, after.di)
    ensures FetchedUpTo(AI, n.ai, areas.ai, m, connected, di, ServedOf(o2, t0, t2), before.ai, after.ai)
    ensures outputs ==>
      && FetchedUpTo(DO, n.dout, areas.dout, m, connected, di + ai, ServedOf(o2, t0, t2), before.dout, after.dout)
      && FetchedUpTo(AO, n.ao, areas.ao, m, connected, di + ai + dout, ServedOf(o2, t0, t2), before.ao, after.ao)
    ensures o2.Ok? ==>
      && after.di == (if n.di == 0 then before.di else Fetched(DI, before.di, areas.di, m))
      && after.ai == (if n.ai == 0 then before.ai else Fetched(AI, before.ai, areas.ai, m))
      && (outputs ==>
            && after.dout == (if n.dout == 0 then before.dout else Fetched(DO, before.dout, areas.dout, m))
            && after.ao == (if n.ao == 0 then before.ao else Fetched(AO, before.ao, areas.ao, m)))
  {
    hide FetchedUpTo, Fetched, Asked, ServedOf;
    var ins, outs := di + ai, if outputs then dout + ao else 0;
    FirstOfTwo(DI, n.di, areas.di, m, before.di, after.di, 0, o1, o2, connected, t0, t1, t2, ins, outs);
    FirstOfTwo(AI, n.ai, areas.ai, m, before.ai, after.ai, di, o1, o2, connected, t0, t1, t2, ins, outs);
    if outputs {
      SecondOfTwo(DO, n.dout, areas.dout, m, before.dout, after.dout, 0, o1, o2, connected, t0, t1, t2, ins, outs);
      SecondOfTwo(AO, n.ao, areas.ao, m, before.ao, after.ao, dout, o1, o2, connected, t0, t1, t2, ins, outs);
    }
    if o2.Ok? {
      AllAsked(DI, n.di, areas.di, m, before.di, after.di, 0, connected, t0, t2, ins + outs);
      AllAsked(AI, n.ai, areas.ai, m, before.ai, after.ai, di, connected, t0, t2, ins + outs);
      if outputs {
        AllAsked(DO, n.dout, areas.dout, m, before.dout, after.dout, ins, connected, t0, t2, ins + outs);
        AllAsked(AO, n.ao, areas.ao, m, before.ao, after.ao, ins + dout, connected, t0, t2, ins + outs);
      }
    }
  }

  lemma NothingAsked(connected: bool, tick: nat)
    ensures Asked(Ok, connected, tick, tick, 0)
  {
  }

  // Two fetches, the second begun only if the first went through, are one: for a type of
  // the first, with requests from number s on, and for one of the second.
  lemma AskedTwice(o1: Outcome, o2: Outcome, connected: bool, t0: nat, t1: nat, t2: nat, n1: nat, n2: nat)
    requires Asked(o1, connected, t0, t1, n1)
    requires if o1.Ok? then Asked(o2, connected, t1, t2, n2) else o2 == o1 && t2 == t1
    ensures Asked(o2, connected, t0, t2, n1 + n2)
  {
  }

  lemma FirstOfTwo(t: RegType, n: nat, areas: seq<Area>, m: Memory, before: seq<Word>, after: seq<Word>, s: nat,
                   o1: Outcome, o2: Outcome, connected: bool, t0: nat, t1: nat, t2: nat, n1: nat, n2: nat)
    requires Asked(o1, connected, t0, t1, n1) && s + Count(n, areas) <= n1
    requires if o1.Ok? then Asked(o2, connected, t1, t2, n2) else o2 == o1 && t2 == t1
    requires FetchedUpTo(t, n, areas, m, connected, s, ServedOf(o1, t0, t1), before, after)
    ensures Asked(o2, connected, t0, t2, n1 + n2)
    ensures FetchedUpTo(t, n, areas, m, connected, s, ServedOf(o2, t0, t2), before, after)
  {
    hide FetchedBut, Fetched;
  }

  lemma SecondOfTwo(t: RegType, n: nat, areas: seq<Area>, m: Memory, before: seq<Word>, after: seq<Word>, s: nat,
                    o1: Outcome, o2: Outcome, connected: bool, t0: nat, t1: nat, t2: nat, n1: nat, n2: nat)
    requires Asked(o1, connected, t0, t1, n1)
    requires if o1.Ok? then Asked(o2, connected, t1, t2, n2) else o2 == o1 && t2 == t1
    requires if o1.Ok? then FetchedUpTo(t, n, areas, m, connected, s, ServedOf(o2, t1, t2), before, after)
             else after == before
    ensures Asked(o2, connected, t0, t2, n1 + n2)
    ensures FetchedUpTo(t, n, areas, m, connected, n1 + s, ServedOf(o2, t0, t2), before, after)
  {
    hide FetchedBut, Fetched;
  }

  lemma FetchEnds(connected: bool, fates: seq<Fate>, m: Memory, tick: nat, t: RegType, list: seq<Area>, tick': nat)
    requires FetchedSoFar(fates, m, tick, t, list, |list|, tick') && (connected || list == [])
    ensures Conducted(connected, fates, m, tick, FetchProgram(t, list), Ok, m, tick') && tick' == tick + |list|
  {
  }

  lemma NotConnected(fates: seq<Fate>, m: Memory, tick: nat, qs: seq<Request>)
    requires qs != []
    ensures Conducted(false, fates, m, tick, qs, Threw(LogicError), m, tick)
  {
  }

  // The first k areas have been written, at one request each.
  ghost predicate SentSoFar(fates: seq<Fate>, m: Memory, tick: nat, list: seq<Area>, view: seq<Word>, k: nat,
                            m': Memory, tick': nat)
    requires k <= |list|
  {
    var run := Exec(fates, Start(m, tick), SendProgram(DO, list, view), k);
    run.status.Going? && run.mem == m' && run.tick == tick'
  }

  lemma NothingSent(fates: seq<Fate>, m: Memory, tick: nat, list: seq<Area>, view: seq<Word>)
    ensures SentSoFar(fates, m, tick, list, view, 0, m, tick)
  {
  }

  lemma SendGoesOn(fates: seq<Fate>, m: Memory, tick: nat, list: seq<Area>, view: seq<Word>, k: nat,
                   m': Memory, tick': nat)
    requires k < |list| && SentSoFar(fates, m, tick, list, view, k, m', tick')
    ensures var a := list[k];
      var step := Step(fates, Start(m', tick'), Request.Write(DO, a.addr, Window(view, a.offset, a.size)));
      if step.status.Going? then SentSoFar(fates, m, tick, list, view, k + 1, step.mem, step.tick)
      else
        var run := Exec(fates, Start(m, tick), SendProgram(DO, list, view), |list|);
        !run.status.Going? && run.mem == step.mem && run.tick == step.tick
  {
    hide Effect, Window;
    var run := Exec(fates, Start(m, tick), SendProgram(DO, list, view), k + 1);
    if !run.status.Going? { ExecCut(fates, Start(m, tick), SendProgram(DO, list, view), k + 1, |list|); }
  }

  class TcpCouplerShm {
    const host: Host
    const modbus: ModbusServer
    var clamps: seq<Clamp>
    var imageSize: PerReg<nat>
    var areas: PerReg<seq<Area>>
    var image: PerReg<array?<Word>>
    var initialized: bool

    constructor (h: Host, m: ModbusServer)
      requires !m.connected
      ensures host == h && modbus == m && Abs() == FRESH && Valid()
    {
      host, modbus := h, m;
      clamps, imageSize, areas, image, initialized := [], NONE, NO_AREAS, PerReg(null, null, null, null), false;
    }

    // No two images share memory, and every area follows the address map.
    ghost predicate Valid()
      reads this
    {
      && (image.di == null || (image.di != image.dout && image.di != image.ai && image.di != image.ao))
      && (image.dout == null || (image.dout != image.ai && image.dout != image.ao))
      && (image.ai == null || image.ai != image.ao)
      && (forall t: RegType :: AllFollow(t, areas.At(t)))
    }

    ghost function Abs(): Life
      reads this, modbus
    {
      Life(modbus.connected, initialized, clamps, imageSize, areas,
           PerReg(LengthOf(image.di), LengthOf(image.dout), LengthOf(image.ai), LengthOf(image.ao)))
    }

    ghost function Contents(t: RegType): seq<Word>
      reads this, image.At(t)
    {
      if image.At(t) == null then [] else image.At(t)[..]
    }

    // ----- fetching ----------------------------------------------------------------------

    ghost function FetchList(t: RegType): seq<Request>
      reads this
    {
      if imageSize.At(t) == 0 then [] else FetchProgram(t, areas.At(t))
    }

    ghost function AfterFetch(t: RegType, before: seq<Word>): seq<Word>
      reads this, modbus, modbus.device
    {
      if imageSize.At(t) == 0 then before else Fetched(t, before, areas.At(t), modbus.device.mem)
    }

    ghost predicate UpTo(t: RegType, s: nat, j: nat, before: seq<Word>)
      reads this, image.At(t), modbus, modbus.device
    {
      FetchedUpTo(t, imageSize.At(t), areas.At(t), modbus.device.mem, modbus.connected, s, j, before, Contents(t))
    }

    method FetchType(t: RegType) returns (o: Outcome)
      requires Valid() && Safe(Abs(), t)
      modifies modbus.device, image.At(t)
      ensures Conducted(modbus.connected, modbus.device.fates, old(modbus.device.mem), old(modbus.device.tick),
                       FetchList(t), o, modbus.device.mem, modbus.device.tick)
      ensures modbus.device.mem == old(modbus.device.mem)
      ensures Asked(o, modbus.connected, old(modbus.device.tick), modbus.device.tick, |FetchList(t)|)
      ensures o.Ok? ==> Contents(t) == AfterFetch(t, old(Contents(t)))
      ensures UpTo(t, 0, ServedOf(o, old(modbus.device.tick), modbus.device.tick), old(Contents(t)))
      ensures forall u :: u != t ==> Contents(u) == old(Contents(u))
    {
      hide Overlay, Window, Conducted, FetchedSoFar, Gathered, FetchedUpTo, Fetched, Asked, ServedOf,
           FetchProgram, Step, FateAt;
      NothingMore(modbus.connected, modbus.device.fates, modbus.device.mem, modbus.device.tick);
      Skipped(t, areas.At(t), modbus.device.mem, modbus.connected, modbus.device.tick, Contents(t));
      if imageSize.At(t) > 0 {
        var list, img := areas.At(t), image.At(t);
        ghost var fates, m, t0, before := modbus.device.fates, modbus.device.mem, modbus.device.tick, img[..];
        NothingFetched(fates, m, t0, t, list, before);
        for k := 0 to |list|
          invariant FetchedSoFar(fates, m, t0, t, list, k, modbus.device.tick) && modbus.device.mem == m
          invariant k > 0 ==> modbus.connected
          invariant img[..] == Gathered(t, before, list, m.At(t), k)
        {
          FetchGoesOn(fates, m, t0, t, list, k, modbus.device.tick, before);
          if !modbus.connected {
            NotConnected(fates, m, t0, FetchProgram(t, list));
            Refused(t, imageSize.At(t), list, m, t0, before);
          }
          o := modbus.ReadInto(img, list[k].offset, t, list[k].addr, list[k].size);
          if o.Threw? {
            if modbus.connected { BrokeAt(t, imageSize.At(t), list, m, k, t0, before, img[..]); }
            return;
          }
        }
        EndedAt(t, imageSize.At(t), list, m, modbus.connected, t0, before);
        FetchEnds(modbus.connected, fates, m, t0, t, list, modbus.device.tick);
      }
      o := Ok;
    }

    ghost function FetchAllList(outputs: bool): seq<Request>
      reads this
    {
      FetchList(DI) + FetchList(AI) + if outputs then FetchList(DO) + FetchList(AO) else []
    }

    method FetchPair(t: RegType, u: RegType) returns (o: Outcome)
      requires Valid() && Safe(Abs(), t) && Safe(Abs(), u) && t != u
      modifies modbus.device, image.At(t), image.At(u)
      ensures Conducted(modbus.connected, modbus.device.fates, old(modbus.device.mem), old(modbus.device.tick),
                        FetchList(t) + FetchList(u), o, modbus.device.mem, modbus.device.tick)
      ensures modbus.device.mem == old(modbus.device.mem)
      ensures Asked(o, modbus.connected, old(modbus.device.tick), modbus.device.tick, |FetchList(t)| + |FetchList(u)|)
      ensures var j := ServedOf(o, old(modbus.device.tick), modbus.device.tick);
        UpTo(t, 0, j, old(Contents(t))) && UpTo(u, |FetchList(t)|, j, old(Contents(u)))
      ensures forall v :: v != t && v != u ==> Contents(v) == old(Contents(v))
    {
      hide Conducted, FetchedUpTo, FetchProgram, AllFit, AllFollow, Asked, ServedOf, FetchList, Exec, Safe, Abs,
           Gathered;
      ghost var fates, m, t0, open := modbus.device.fates, modbus.device.mem, modbus.device.tick, modbus.connected;
      ghost var x, y, xs, ys := Contents(t), Contents(u), FetchList(t), FetchList(u);
      ghost var a, n, b, k := areas.At(t), imageSize.At(t), areas.At(u), imageSize.At(u);
      ListCounts(t);
      o := FetchType(t);
      ghost var o1, t1 := o, modbus.device.tick;
      if o.Ok? { o := FetchType(u); }
      ghost var t2 := modbus.device.tick;
      FirstOfTwo(t, n, a, m, x, Contents(t), 0, o1, o, open, t0, t1, t2, |xs|, |ys|);
      SecondOfTwo(u, k, b, m, y, Contents(u), 0, o1, o, open, t0, t1, t2, |xs|, |ys|);
      ConductedAppend(open, fates, m, t0, xs, o1, m, t1, ys, o, m, t2);
    }

    lemma ListCounts(t: RegType)
      ensures |FetchList(t)| == Count(imageSize.At(t), areas.At(t))
    {
    }

    // Nothing here looks at the initialized flag: what the transfer needs instead is that
    // the images it touches exist and hold its areas.
    method FetchImage(outputs: bool) returns (o: Outcome)
      requires Valid() && Safe(Abs(), DI) && Safe(Abs(), AI)
      requires outputs ==> Safe(Abs(), DO) && Safe(Abs(), AO)
      modifies modbus.device, image.di, image.ai, image.dout, image.ao
      ensures Conducted(modbus.connected, modbus.device.fates, old(modbus.device.mem), old(modbus.device.tick),
                        FetchAllList(outputs), o, modbus.device.mem, modbus.device.tick)
      ensures modbus.device.mem == old(modbus.device.mem)
      ensures o.Ok? ==>
        Contents(DI) == AfterFetch(DI, old(Contents(DI))) && Contents(AI) == AfterFetch(AI, old(Contents(AI)))
      ensures o.Ok? && outputs ==>
        Contents(DO) == AfterFetch(DO, old(Contents(DO))) && Contents(AO) == AfterFetch(AO, old(Contents(AO)))
      ensures Asked(o, modbus.connected, old(modbus.device.tick), modbus.device.tick, |FetchAllList(outputs)|)
      ensures var j := ServedOf(o, old(modbus.device.tick), modbus.device.tick);
        var ins := |FetchList(DI)| + |FetchList(AI)|;
        && UpTo(DI, 0, j, old(Contents(DI))) && UpTo(AI, |FetchList(DI)|, j, old(Contents(AI)))
        && (outputs ==> UpTo(DO, ins, j, old(Contents(DO))) && UpTo(AO, ins + |FetchList(DO)|, j, old(Contents(AO))))
      ensures !outputs ==> Contents(DO) == old(Contents(DO)) && Contents(AO) == old(Contents(AO))
    {
      hide Conducted, FetchedUpTo, FetchProgram, AllFit, AllFollow, Asked, ServedOf, FetchList, Exec, Safe, Abs,
           Gathered, Fetched, Contents, Valid;
      ghost var fates, m, t0, open := modbus.device.fates, modbus.device.mem, modbus.device.tick, modbus.connected;
      ghost var before := PerReg(Contents(DI), Contents(DO), Contents(AI), Contents(AO));
      ghost var ws, xs, ys, zs := FetchList(DI), FetchList(AI), FetchList(DO), FetchList(AO);
      ghost var ins, outs, a, n := ws + xs, if outputs then ys + zs else [], areas, imageSize;
      ListCounts(DI);
      ListCounts(AI);
      o := FetchPair(DI, AI);
      ghost var o1, t1 := o, modbus.device.tick;
      if o.Ok? {
        if outputs { o := FetchPair(DO, AO); } else { NothingAsked(open, t1); }
      }
      ghost var t2 := modbus.device.tick;
      ghost var after := PerReg(Contents(DI), Contents(DO), Contents(AI), Contents(AO));
      if outputs {
        ListCounts(DO);
        ListCounts(AO);
      }
      FetchedInTwo(n, a, m, before, after, outputs, o1, o, open, t0, t1, t2, |ws|, |xs|, |ys|, |zs|);
      NothingMore(open, fates, m, t1);
      ConductedAppend(open, fates, m, t0, ins, o1, m, t1, outs, o, m, t2);
    }

    // ----- sending -------------------------------------------------------------------------

    ghost function SendList(t: RegType, view: seq<Word>): seq<Request>
      reads this
    {
      if imageSize.At(t) == 0 then [] else SendProgram(DO, areas.At(t), view)
    }

    // Both halves of a send write coils: the second passes the bytes of the analog image.
    ghost function SendAllList(): seq<Request>
      reads this, image.dout, image.ao
    {
      SendList(DO, Contents(DO)) + SendList(AO, ByteView(host, Contents(AO)))
    }

    method SendAreas(t: RegType, view: seq<Word>) returns (o: Outcome)
      requires Valid() && imageSize.At(t) > 0 && AllFit(areas.At(t), |view|)
      modifies modbus.device
      ensures Conducted(modbus.connected, modbus.device.fates, old(modbus.device.mem), old(modbus.device.tick),
                       SendList(t, view), o, modbus.device.mem, modbus.device.tick)
    {
      hide Exec, Step, Window;
      var list := areas.At(t);
      ghost var fates, m, t0 := modbus.device.fates, modbus.device.mem, modbus.device.tick;
      NothingSent(fates, m, t0, list, view);
      for k := 0 to |list|
        invariant SentSoFar(fates, m, t0, list, view, k, modbus.device.mem, modbus.device.tick)
        invariant k > 0 ==> modbus.connected
      {
        var a := list[k];
        if modbus.connected { SendGoesOn(fates, m, t0, list, view, k, modbus.device.mem, modbus.device.tick); }
        o := modbus.WriteFrom(Window(view, a.offset, a.size), DO, a.addr, a.size);
        if o.Threw? { return; }
      }
      o := Ok;
    }

    method SendImage() returns (o: Outcome)
      requires Valid() && Safe(Abs(), DO) && Safe(Abs(), AO)
      modifies modbus.device
      ensures Conducted(modbus.connected, modbus.device.fates, old(modbus.device.mem), old(modbus.device.tick),
                       SendAllList(), o, modbus.device.mem, modbus.device.tick)
    {
      hide Exec;
      ghost var fates, m, t0 := modbus.device.fates, modbus.device.mem, modbus.device.tick;
      o := Ok;
      if imageSize.dout > 0 { o := SendAreas(DO, image.dout[..]); }
      ghost var o1, m1, t1 := o, modbus.device.mem, modbus.device.tick;
      if o.Ok? && imageSize.ao > 0 { o := SendAreas(AO, ByteView(host, image.ao[..])); }
      ConductedAppend(modbus.connected, fates, m, t0, SendList(DO, Contents(DO)), o1, m1, t1,
                     SendList(AO, ByteView(host, Contents(AO))), o, modbus.device.mem, modbus.device.tick);
    }

    // ----- single signals, on the local images ----------------------------------------------

    predicate Holds(t: RegType)
      reads this
    {
      image.At(t) != null && imageSize.At(t) <= image.At(t).Length
    }

    method ReadLocal(t: RegType, index: nat) returns (r: Result<Word>)
      requires initialized && index < imageSize.At(t) ==> Holds(t)
      ensures r == if !initialized then Raised(LogicError)
                   else if index >= imageSize.At(t) then Raised(OutOfRange)
                   else Returned(if t.Digital() then Bit(Contents(t)[index]) else Contents(t)[index])
    {
      if !initialized { return Raised(LogicError); }
      if index >= imageSize.At(t) { return Raised(OutOfRange); }
      r := Returned(if t.Digital() then Bit(image.At(t)[index]) else image.At(t)[index]);
    }

    method WriteDo(index: nat, value: bool) returns (o: Outcome)
      requires initialized && index < imageSize.dout ==> Holds(DO)
      modifies image.dout
      ensures o == if !initialized then Threw(LogicError)
                   else if index >= imageSize.dout then Threw(OutOfRange) else Ok
      ensures Contents(DO) == if o.Ok? then old(Contents(DO))[index := if value then 1 else 0] else old(Contents(DO))
    {
      if !initialized { return Threw(LogicError); }
      if index >= imageSize.dout { return Threw(OutOfRange); }
      image.dout[index] := if value then 1 else 0;
      o := Ok;
    }

    // Stores one byte, at the byte offset that was meant to count words.
    method WriteAo(index: nat, value: Word) returns (o: Outcome)
      requires initialized && index < imageSize.ao ==> Holds(AO)
      modifies image.ao
      ensures o == if !initialized then Threw(LogicError)
                   else if index >= imageSize.ao then Threw(OutOfRange) else Ok
      ensures Contents(AO) ==
        if o.Ok? then ByteStored(host, old(Contents(AO)), index, value) else old(Contents(AO))
    {
      if !initialized { return Threw(LogicError); }
      if index >= imageSize.ao { return Threw(OutOfRange); }
      var w := image.ao[index / 2];
      var low := (index % 2 == 0) == host.LittleHost?;
      image.ao[index / 2] := if low then w / 0x100 * 0x100 + value % 0x100 else value % 0x100 * 0x100 + w % 0x100;
      o := Ok;
    }

    // ----- life ------------------------------------------------------------------------------

    // The register blocks an init asks for.
    ghost function Answer(t: RegType, r: Range, tick: nat): Option<seq<Word>>
      reads modbus.device
    {
      if FateAt(modbus.device.fates, tick) == Served then Some(Cut(modbus.device.mem, t, r)) else None
    }

    ghost function Meets(memories: nat): World
      reads modbus.device
    {
      var tick := modbus.device.tick;
      World(FateAt(modbus.device.fates, tick) == Served,
            Answer(AI, CONSTANTS_BLOCK, tick + 1), Answer(AO, CONFIG_BLOCK, tick + 2), memories)
    }

    method CheckConstants() returns (o: Outcome)
      requires modbus.connected
      modifies modbus.device
      ensures modbus.device.mem == old(modbus.device.mem) && modbus.device.tick == old(modbus.device.tick) + 1
      ensures var answer := old(Answer(AI, CONSTANTS_BLOCK, modbus.device.tick));
        o == if answer.Some? && Genuine(host, answer.value) then Ok else Threw(RuntimeError)
      ensures o.Ok? <==>
        FateAt(modbus.device.fates, old(modbus.device.tick)) == Served &&
        forall i :: 0 <= i < 9 ==> modbus.device.mem.ai[0x2000 + i] == PlainWord(host, i)
    {
      hide Exec, Cut, ConfigWord, PlainWord;
      GenuineCells(host, modbus.device.mem);
      OneRead(modbus.device.fates, modbus.device.mem, modbus.device.tick, AI, CONSTANTS_BLOCK);
      var r := modbus.ReadBatch(AI, [CONSTANTS_BLOCK]);
      if !r.Returned? { return Threw(RuntimeError); }
      var answer := r.value[0];
      for i := 0 to |CONSTANTS|
        invariant forall j :: 0 <= j < i ==> ConfigWord(host, answer[j]) == CONSTANTS[j]
      {
        if ConfigWord(host, answer[i]) != CONSTANTS[i] { return Threw(RuntimeError); }
      }
      o := Ok;
    }

    method ListModules(words: seq<Word>) returns (o: Outcome)
      requires |words| == 0x41
      modifies this`clamps
      ensures var ws := ModuleWords(host, words);
        && clamps == old(clamps) + ClampsOf(ws[..KnownPrefix(ws)])
        && o == if AllKnown(ws) then Ok else Threw(RuntimeError)
    {
      ghost var ws, before := ModuleWords(host, words), clamps;
      var i := 1;
      while i < |words|
        invariant 1 <= i <= |ws| + 1 <= |words|
        invariant AllKnown(ws[..i - 1]) && clamps == before + ClampsOf(ws[..i - 1])
      {
        var w := ConfigWord(host, words[i]);
        if w == 0 { break; }
        assert ws[..i] == ws[..i - 1] + [w];
        var c := Decode(w);
        DecodeMeans(w);
        if !c.Returned? {
          PrefixEnds(ws, i - 1);
          return Threw(RuntimeError);
        }
        clamps := clamps + [c.value];
        i := i + 1;
      }
      PrefixAll(ws);
      assert ws[..|ws|] == ws;
      o := Ok;
    }

    method SumChannels()
      modifies this`imageSize
      ensures imageSize == Sizes(clamps, |clamps|)
    {
      imageSize := NONE;
      for k := 0 to |clamps|
        invariant imageSize == Sizes(clamps, k)
      {
        var c := clamps[k];
        imageSize := imageSize.(di := imageSize.di + c.DiChannels());
        imageSize := imageSize.(dout := imageSize.dout + c.DoChannels());
        imageSize := imageSize.(ai := imageSize.ai + c.AiChannels());
        imageSize := imageSize.(ao := imageSize.ao + c.AoChannels());
      }
    }

    method AppendAreas(t: RegType)
      requires imageSize.At(t) <= MaxSize(t)
      modifies this`areas
      ensures areas == old(areas).With(t, old(areas).At(t) + AreasFor(t, imageSize.At(t)))
    {
      var first, second, n := FIRST.At(t), SECOND.At(t), imageSize.At(t);
      var list := areas.At(t);
      if n > 0 {
        list := list + [Area(first.addr, if first.size < n then first.size else n, 0)];
        if n > first.size {
          list := list + [Area(second.size, n - first.size, first.size)];
        }
      }
      assert list == areas.At(t) + AreasFor(t, n);
      areas := areas.With(t, list);
    }

    method ReadClampConfig() returns (o: Outcome)
      requires modbus.connected && Valid() && Bounded(Abs()) && clamps == []
      modifies modbus.device, this`clamps, this`imageSize, this`areas
      ensures modbus.device.mem == old(modbus.device.mem) && modbus.device.tick == old(modbus.device.tick) + 1
      ensures var config := old(Answer(AO, CONFIG_BLOCK, modbus.device.tick));
        if config.None? then o == Threw(RuntimeError) && Abs() == old(Abs())
        else
          var l := Listed(host, old(Abs()), config.value);
          if ListOk(host, old(Abs()), config.value) then o == Ok && Abs() == WithLayout(l)
          else o == Threw(RuntimeError) && Abs() == l
      ensures var config := old(Answer(AO, CONFIG_BLOCK, modbus.device.tick));
        && (o.Ok? <==> config.Some? && Acceptable(host, config.value))
        && (o.Ok? ==> forall t: RegType :: imageSize.At(t) == AddsInBlock(host, t, config.value, 0x41))
      ensures Valid()
    {
      hide Exec, Cut, ModuleWords, KnownPrefix, ClampsOf, Sizes, AreasFor, AllFollow, Acceptable;
      OneRead(modbus.device.fates, modbus.device.mem, modbus.device.tick, AO, CONFIG_BLOCK);
      ghost var life := Abs();
      var r := modbus.ReadBatch(AO, [CONFIG_BLOCK]);
      if !r.Returned? { return Threw(RuntimeError); }
      ListOkIff(host, life, r.value[0]);
      o := ListModules(r.value[0]);
      if o.Threw? { return; }
      if clamps == [] { return Threw(RuntimeError); }
      LayoutBounded(host, life, r.value[0]);
      forall t: RegType { SizesFromBlock(host, life, r.value[0], t); }
      SumChannels();
      LaidBounded(WithLayout(Listed(host, life, r.value[0])));
      AppendAreas(DI);
      AppendAreas(DO);
      AppendAreas(AI);
      AppendAreas(AO);
    }

    // A shared memory starts out zeroed.
    method MakeMemory(t: RegType)
      requires Valid()
      modifies this`image
      ensures fresh(image.At(t)) && image == old(image).With(t, image.At(t))
      ensures image.At(t) != null && image.At(t)[..] == Zeros(imageSize.At(t))
      ensures Valid()
    {
      var a := new Word[imageSize.At(t)](_ => 0);
      assert a[..] == Zeros(imageSize.At(t));
      assert a != image.di && a != image.dout && a != image.ai && a != image.ao;
      image := image.With(t, a);
    }

    // The operating system may refuse any of the memories.
    method CreateShm(memories: nat) returns (o: Outcome)
      requires Valid()
      modifies this`image
      ensures o == if memories >= 4 then Ok else Threw(SystemError)
      ensures Abs() == old(Abs()).(images := Created(old(Abs()).images, imageSize, memories))
      ensures o.Ok? ==> forall t: RegType :: fresh(image.At(t)) && Contents(t) == Zeros(imageSize.At(t))
      ensures Valid()
    {
      hide AllFollow, Zeros;
      if memories < 1 { return Threw(SystemError); }
      MakeMemory(DO);
      if memories < 2 { return Threw(SystemError); }
      MakeMemory(DI);
      if memories < 3 { return Threw(SystemError); }
      MakeMemory(AO);
      if memories < 4 { return Threw(SystemError); }
      MakeMemory(AI);
      o := Ok;
    }

    method Init(memories: nat) returns (o: Outcome)
      requires Valid() && Sound(Abs())
      modifies this, modbus, modbus.device
      ensures (Abs(), o) == Lifecycle.Init(host, old(Abs()), old(Meets(memories)))
      ensures modbus.device.mem == old(modbus.device.mem)
      ensures o.Ok? ==> modbus.device.tick == old(modbus.device.tick) + 3
      ensures Valid()
      ensures o.Ok? ==> forall t: RegType :: fresh(image.At(t)) && Contents(t) == Zeros(imageSize.At(t))
    {
      hide Cut, Genuine, ListOk, WithLayout, Listed, Created, AllFollow, TypeBounded;
      o := modbus.Connect();
      if o.Threw? { return; }
      o := CheckConstants();
      if o.Threw? { return; }
      o := ReadClampConfig();
      if o.Threw? { return; }
      o := CreateShm(memories);
      if o.Threw? { return; }
      initialized := true;
    }

    // The description of the coupler: what the device says of itself, block by block.
    method CouplerInfo() returns (r: Result<seq<seq<Word>>>)
      modifies modbus.device
      ensures !initialized || !modbus.connected ==> r == Raised(LogicError) && unchanged(modbus.device)
      ensures initialized && modbus.connected ==>
        var n := ServedPrefix(modbus.device.fates, old(modbus.device.tick), |INFO_BLOCKS|);
        && modbus.device.mem == old(modbus.device.mem)
        && r == (if n == |INFO_BLOCKS| then Returned(Cuts(modbus.device.mem, AI, INFO_BLOCKS))
                 else Raised(RuntimeError))
        && modbus.device.tick == old(modbus.device.tick) + if n == |INFO_BLOCKS| then n else n + 1
    {
      hide Exec, Cut;
      if !initialized { return Raised(LogicError); }
      InfoRun(modbus.device.fates, modbus.device.mem, modbus.device.tick);
      r := modbus.ReadBatch(AI, INFO_BLOCKS);
    }

    method Disconnect() returns (o: Outcome)
      requires Valid()
      modifies this, modbus
      ensures (Abs(), o) == Lifecycle.Disconnect(old(Abs()))
      ensures Valid()
    {
      if !initialized { return Threw(LogicError); }
      clamps := [];
      image := PerReg(null, null, null, null);
      o := modbus.Disconnect();
    }

    // The destructor, followed by that of the connection. It aborts the program when the
    // disconnect it attempts throws.
    method Destroy() returns (aborts: bool)
      requires Valid()
      modifies this, modbus
      ensures aborts == DestructionAborts(old(Abs()))
      ensures !aborts ==> !modbus.connected
    {
      if initialized {
        var o := Disconnect();
        if o.Threw? { return true; }
      }
      if modbus.connected { var _ := modbus.Disconnect(); }
      aborts := false;
    }
  }

  const CONSTANTS_BLOCK: Range := Range(0x2000, 9)
  const CONFIG_BLOCK: Range := Range(0x2030, 0x41)

  // Sizes of the process image, MAC address, type of service, firmware and series.
  const INFO_BLOCKS: seq<Range> :=
    [Range(0x1022, 1), Range(0x1023, 1), Range(0x1024, 1), Range(0x1025, 1), Range(0x1031, 3), Range(0x1038, 1),
     Range(0x2010, 1), Range(0x2011, 1), Range(0x2012, 1), Range(0x2013, 1), Range(0x2014, 1), Range(0x2020, 1),
     Range(0x2021, 1), Range(0x2022, 1)]

  // Word i of the constants as they arrive at a host that accepts them.
  function PlainWord(host: Host, i: nat): Word
    requires i < 9
  {
    var plain: seq<Word> := [0x0000, 0xFFFF, 0x1234, 0xAAAA, 0x5555, 0x7FFF, 0x8000, 0x3FFF, 0x4000];
    var swapped: seq<Word> := [0x0000, 0xFFFF, 0x3412, 0xAAAA, 0x5555, 0xFF7F, 0x0080, 0xFF3F, 0x0040];
    if host.LittleHost? then plain[i] else swapped[i]
  }

  lemma GenuineCells(host: Host, m: Memory)
    ensures Genuine(host, Cut(m, AI, CONSTANTS_BLOCK)) <==>
      forall i :: 0 <= i < 9 ==> m.ai[0x2000 + i] == PlainWord(host, i)
  {
    hide Genuine;
    var answer := Cut(m, AI, CONSTANTS_BLOCK);
    GenuineIff(answer);
    var right := seq(9, i requires 0 <= i < 9 => PlainWord(host, i));
    assert Genuine(host, answer) <==> answer == right;
    forall i | 0 <= i < 9 ensures answer[i] == m.ai[0x2000 + i] && right[i] == PlainWord(host, i) {}
  }

  // What an init asks for, in numbers: input registers 0x2000 to 0x2008, then holding
  // registers 0x2030 to 0x2070, after the connection has been opened.
  lemma InitAsks(w: TcpCouplerShm, memories: nat)
    ensures var world, dev := w.Meets(memories), w.modbus.device;
      && (world.connect <==> FateAt(dev.fates, dev.tick) == Served) && world.memories == memories
      && (world.constants.Some? <==> FateAt(dev.fates, dev.tick + 1) == Served)
      && (world.constants.Some? ==>
            |world.constants.value| == 9 &&
            forall i :: 0 <= i < 9 ==> world.constants.value[i] == dev.mem.ai[0x2000 + i])
      && (world.config.Some? <==> FateAt(dev.fates, dev.tick + 2) == Served)
      && (world.config.Some? ==>
            |world.config.value| == 65 &&
            forall i :: 0 <= i < 65 ==> world.config.value[i] == dev.mem.ao[0x2030 + i])
  {
  }

  // And a description: fourteen blocks of input registers.
  lemma InfoAsks(m: Memory)
    ensures var c := m.ai;
      Cuts(m, AI, INFO_BLOCKS) ==
        [[c[0x1022]], [c[0x1023]], [c[0x1024]], [c[0x1025]], [c[0x1031], c[0x1032], c[0x1033]], [c[0x1038]],
         [c[0x2010]], [c[0x2011]], [c[0x2012]], [c[0x2013]], [c[0x2014]], [c[0x2020]], [c[0x2021]], [c[0x2022]]]
  {
    hide Window;
    forall a: Word, n: nat | a + n <= 65535 { WindowCells(m.ai, a, n); }
  }

  lemma WindowCells(cells: Cells, a: Word, n: nat)
    ensures n == 1 ==> Window(cells, a, n) == [cells[a]]
    ensures n == 3 && a < 65533 ==> Window(cells, a, n) == [cells[a], cells[a + 1], cells[a + 2]]
  {
  }

  ghost function Cuts(m: Memory, t: RegType, regs: seq<Range>): (r: seq<seq<Word>>)
    ensures |r| == |regs|
  {
    seq(|regs|, i requires 0 <= i < |regs| => Cut(m, t, regs[i]))
  }

  lemma InfoRun(fates: seq<Fate>, m: Memory, tick: nat)
    ensures var n, qs := ServedPrefix(fates, tick, |INFO_BLOCKS|), ReadProgram(AI, INFO_BLOCKS);
      var run := Exec(fates, Start(m, tick), qs, |qs|);
      && Accepted(INFO_BLOCKS) && run.mem == m && (run.status.Going? <==> n == |INFO_BLOCKS|)
      && (n == |INFO_BLOCKS| ==> run.replies == Cuts(m, AI, INFO_BLOCKS))
      && run.tick == tick + if n == |INFO_BLOCKS| then n else n + 1
  {
    hide Exec, Applied, Replies, ServedPrefix, Cut;
    var qs := ReadProgram(AI, INFO_BLOCKS);
    ExecOutcome(fates, Start(m, tick), qs);
    forall k | 0 <= k <= |INFO_BLOCKS| ensures Applied(m, qs, k) == m { ReadsObserve(m, AI, INFO_BLOCKS, k); }
    ReadsObserve(m, AI, INFO_BLOCKS, |INFO_BLOCKS|);
  }

  lemma LaidBounded(l: Life)
    requires Bounded(l)
    ensures forall t: RegType :: l.sizes.At(t) <= MaxSize(t) && AllFollow(t, l.areas.At(t))
  {
  }

  lemma OneRead(fates: seq<Fate>, m: Memory, tick: nat, t: RegType, r: Range)
    ensures var run := Exec(fates, Start(m, tick), ReadProgram(t, [r]), 1);
      run == if FateAt(fates, tick) == Served then Run(m, tick + 1, [Cut(m, t, r)], Going)
             else Run(m, tick + 1, [], Failed)
  {
    assert ReadProgram(t, [r]) == [ReadRequest(t, r)];
  }

  lemma PrefixEnds(ws: seq<Word>, j: nat)
    requires j < |ws| && AllKnown(ws[..j]) && !Known(ws[j])
    ensures KnownPrefix(ws) == j && !AllKnown(ws)
  {
    hide KnownPrefix;
    var k := KnownPrefix(ws);
    forall i | 0 <= i < j ensures Known(ws[i]) { assert ws[..j][i] == ws[i]; }
    forall i | 0 <= i < k ensures Known(ws[i]) { assert ws[..k][i] == ws[i]; }
  }

  lemma PrefixAll(ws: seq<Word>)
    ensures AllKnown(ws) <==> KnownPrefix(ws) == |ws|
  {
  }

  function Zeros(n: nat): (s: seq<Word>)
    ensures |s| == n
  {
    seq(n, _ => 0)
  }

  function LengthOf(a: array?<Word>): Option<nat> {
    if a == null then None else Some(a.Length)
  }
}
