// The program as it is written. Every run of it is the run of the machine that its
// parameters determine: the device's script of fates, the values of the terminate flag, the
// clock readings, and what other processes and the plant do between its fetches and sends.
module MainLoop {
  import opened Types
  import opened Modbus
  import opened Endian
  import opened Layout
  import opened Sync
  import opened Lifecycle
  import opened Histories
  import opened Coupler
  import opened Machine
  import opened Scripts
  import Clamps
  import Supervisor

  // ----- the program ---------------------------------------------------------------------------

  function Usable(n: nat, areas: seq<Area>): seq<Area> {
    if n == 0 then [] else areas
  }

  ghost function PlanOf(w: TcpCouplerShm, c: Supervisor.Config, start: int): Plan
    reads w
  {
    Plan(w.host, PerReg(Usable(w.imageSize.di, w.areas.di), Usable(w.imageSize.dout, w.areas.dout),
                        Usable(w.imageSize.ai, w.areas.ai), Usable(w.imageSize.ao, w.areas.ao)), c, start)
  }

  ghost function Images(w: TcpCouplerShm): PerReg<seq<Word>>
    reads w, w.image.di, w.image.dout, w.image.ai, w.image.ao
  {
    PerReg(w.Contents(DI), w.Contents(DO), w.Contents(AI), w.Contents(AO))
  }

  // What a first init leaves: images that exist, each served by its areas.
  ghost predicate Ready(l: Life) {
    && Operational(l) && l.sizes.ao == 0
    && forall t: RegType :: l.sizes.At(t) > 0 ==> Serves(t, l.areas.At(t), l.sizes.At(t))
  }

  lemma FirstInitReady(host: Host, world: World)
    requires world.config.Some? ==> |world.config.value| == 0x41
    ensures Lifecycle.Init(host, FRESH, world).1.Ok? ==> Ready(Lifecycle.Init(host, FRESH, world).0)
  {
    hide Serves, Operational, Safe;
    var ops, l := [DoInit(world)], Lifecycle.Init(host, FRESH, world).0;
    if Lifecycle.Init(host, FRESH, world).1.Ok? {
      assert Lived(host, ops, 1) == l && Histories.InUse(host, ops, 1) by { OneInit(host, world); }
      OperationalIff(host, ops, 1);
      NoAnalogOutputs(host, ops, 1);
      forall t: RegType | l.sizes.At(t) > 0 ensures Serves(t, l.areas.At(t), l.sizes.At(t)) {
        OneGeneration(host, world);
        FirstUseIsSafe(host, ops, 1, t);
      }
    }
  }

  // However a first init ends, the destructor can close what it opened.
  lemma FirstInitCloses(host: Host, world: World)
    ensures !DestructionAborts(Lifecycle.Init(host, FRESH, world).0)
  {
    hide Genuine, ListOk, SizesOf, Laid, Clamps.ModuleWords, Clamps.KnownPrefix, Clamps.ClampsOf;
  }

  lemma OneInit(host: Host, world: World)
    requires Lifecycle.Init(host, FRESH, world).1.Ok?
    ensures var ops := [DoInit(world)];
      Lived(host, ops, 1) == Lifecycle.Init(host, FRESH, world).0 && Histories.InUse(host, ops, 1)
  {
    hide Lifecycle.Init;
    var ops := [DoInit(world)];
    assert Lived(host, ops, 0) == FRESH;
    assert Lifecycle.Reported(host, ops, 0).Ok?;
  }

  lemma OneGeneration(host: Host, world: World)
    requires Lifecycle.Init(host, FRESH, world).1.Ok?
    ensures |Generations(host, [DoInit(world)], 1)| == 1
  {
    hide WithLayout, Genuine, Clamps.ModuleWords, Clamps.KnownPrefix, Clamps.ClampsOf;
    var ops := [DoInit(world)];
    assert Lived(host, ops, 0) == FRESH;
    assert LaysOut(host, FRESH, ops[0]);
  }

  // With a connection, a list of requests just runs.
  lemma ConductedRuns(fates: seq<Fate>, m: Memory, tick: nat, qs: seq<Request>, o: Outcome, m': Memory, tick': nat)
    requires Conducted(true, fates, m, tick, qs, o, m', tick') && NoStray(qs)
    ensures var run := Exec(fates, Start(m, tick), qs, |qs|);
      m' == run.mem && tick' == run.tick && (o.Ok? <==> run.status.Going?)
    ensures Requested(fates, tick, tick', |qs|, o.Ok?)
    ensures o.Ok? ==> m' == Applied(m, qs, |qs|)
  {
    hide Applied, AllServed;
    ExecTicks(fates, m, tick, qs);
  }

  // n requests starting with number tick were all served, or broke off before number tick'.
  ghost predicate Requested(fates: seq<Fate>, tick: nat, tick': nat, n: nat, ok: bool) {
    if ok then AllServed(fates, tick, n) && tick' == tick + n else BrokeOff(fates, tick, tick', n)
  }

  lemma RequestedOn(fates: seq<Fate>, t0: nat, t1: nat, t2: nat, n: nat, k: nat, ok: bool)
    requires Requested(fates, t0, t1, n, true) && Requested(fates, t1, t2, k, ok)
    ensures Requested(fates, t0, t2, n + k, ok)
  {
  }

  twostate predicate OutputsKept(w: TcpCouplerShm)
    reads w, w.image.dout, w.image.ao
  {
    w.Contents(DO) == old(w.Contents(DO)) && w.Contents(AO) == old(w.Contents(AO))
  }

  lemma RequestLists(w: TcpCouplerShm, c: Supervisor.Config, start: int)
    requires w.imageSize.ao == 0
    ensures var p := PlanOf(w, c, start);
      && p.areas.ao == []
      && w.FetchAllList(false) == FetchReqs(p) && |FetchReqs(p)| == |FetchJobs(p)| && NoStray(FetchReqs(p))
      && w.SendAllList() == SendReqs(p, Images(w)) && |SendReqs(p, Images(w))| == |SendJobs(p)|
      && NoStray(SendReqs(p, Images(w)))
      && |w.FetchAllList(true)| == PerCycle(p) && NoStray(w.FetchAllList(true))
  {
  }

  lemma FetchedUsable(w: TcpCouplerShm, t: RegType, before: seq<Word>)
    ensures w.AfterFetch(t, before) == Fetched(t, before, Usable(w.imageSize.At(t), w.areas.At(t)), w.modbus.device.mem)
  {
  }

  lemma ReadyIsSafe(l: Life, t: RegType)
    requires Ready(l)
    ensures Safe(l, t)
  {
    ImageMatches(l, t);
  }

  lemma ReadyConnected(l: Life)
    requires Ready(l)
    ensures l.connected && l.initialized && l.sizes.ao == 0
  {
  }

  // What another process does to a shared image, or the plant to an input.
  method Other(w: TcpCouplerShm, e: OutsideEvent, ghost p: Plan, ghost s: State) returns (ghost v: State)
    requires w.Valid() && s.mem == w.modbus.device.mem && s.images == Images(w)
    modifies w.modbus.device`mem, w.image.di, w.image.ai, w.image.dout, w.image.ao
    ensures v == Next(p, s, e) == s.(mem := w.modbus.device.mem, images := Images(w))
  {
    hide FetchStep, SendStep, TimingStep, Planted;
    if e.Poke? {
      var image := w.image.At(e.t);
      if image != null && e.i < image.Length { image[e.i] := e.v; }
    } else {
      w.modbus.device.mem := Planted(w.modbus.device.mem, e.input, e.a, e.v);
    }
    v := Next(p, s, e);
  }

  // Everything that happens outside while the program is between two transfers.
  method Others(w: TcpCouplerShm, es: seq<OutsideEvent>, ghost p: Plan, ghost s: State) returns (ghost v: State)
    requires w.Valid() && s.mem == w.modbus.device.mem && s.images == Images(w)
    modifies w.modbus.device`mem, w.image.di, w.image.ai, w.image.dout, w.image.ao
    ensures Leads(p, s, es, v) && v == s.(mem := w.modbus.device.mem, images := Images(w))
  {
    hide Next, Images;
    v := s;
    for k := 0 to |es|
      invariant v == Reach(p, s, es, k) && v == s.(mem := w.modbus.device.mem, images := Images(w))
    {
      v := Other(w, es[k], p, v);
    }
  }

  method DoFetch(w: TcpCouplerShm, c: Supervisor.Config, start: int, ghost s: State)
    returns (o: Outcome, ghost v: State)
    requires w.Valid() && Ready(w.Abs())
    requires s.phase == Fetching(0) && s.mem == w.modbus.device.mem && s.images == Images(w)
    modifies w.modbus.device, w.image.di, w.image.ai, w.image.dout, w.image.ao
    ensures var p, dev := PlanOf(w, c, start), w.modbus.device;
      && Leads(p, s, FetchEvents(p, dev.fates, old(dev.tick)), v)
      && Requested(dev.fates, old(dev.tick), dev.tick, |FetchJobs(p)|, o.Ok?)
      && (o.Threw? ==> InputsAgree(p, s, FetchEvents(p, dev.fates, old(dev.tick)), v.images, Images(w)))
    ensures v.mem == w.modbus.device.mem && OutputsAgree(w, v)
    ensures o.Ok? ==> v == s.(mem := v.mem, phase := Sending(0), fetches := s.fetches + 1, images := Images(w))
    ensures o.Threw? ==> v.phase == Exited(EX_SOFTWARE) && v.clock == s.clock && v.sends == s.sends
  {
    hide Conducted, Exec, Leads, Serves, Operational, Fetched, FetchReqs, SendReqs, Requested, NoStray, FetchEvents;
    ghost var dev := w.modbus.device;
    ghost var p, tick := PlanOf(w, c, start), dev.tick;
    RequestLists(w, c, start);
    ReadyIsSafe(w.Abs(), DI);
    ReadyIsSafe(w.Abs(), AI);
    assert w.modbus.connected by { ReadyConnected(w.Abs()); }
    o := w.FetchImage(false);
    ConductedRuns(dev.fates, s.mem, tick, w.FetchAllList(false), o, dev.mem, dev.tick);
    FetchedUsable(w, DI, s.images.di);
    FetchedUsable(w, AI, s.images.ai);
    v := FetchPhase(p, s, dev.fates, tick);
    if o.Threw? {
      FetchFailed(p, s, v, dev.fates, tick, dev.tick, w.imageSize, w.areas, Images(w));
    }
  }

  // The images after a fetch that broke off before request number tick': those of the
  // machine, but for what the failed request has spoiled.
  lemma FetchFailed(p: Plan, s: State, v: State, fates: seq<Fate>, tick: nat, tick': nat,
                    n: PerReg<nat>, areas: PerReg<seq<Area>>, images: PerReg<seq<Word>>)
    requires s.phase == Fetching(0) && Leads(p, s, FetchEvents(p, fates, tick), v)
    requires Requested(fates, tick, tick', |FetchJobs(p)|, false)
    requires p.areas.di == Usable(n.di, areas.di) && p.areas.ai == Usable(n.ai, areas.ai)
    requires FetchedUpTo(DI, n.di, areas.di, s.mem, true, 0, tick' - tick - 1, s.images.di, images.di)
    requires FetchedUpTo(AI, n.ai, areas.ai, s.mem, true, |p.areas.di|, tick' - tick - 1, s.images.ai, images.ai)
    ensures InputsAgree(p, s, FetchEvents(p, fates, tick), v.images, images)
  {
    hide FetchEvents, Spoiled, FetchedUpTo, PartFetched, Usable, Brings, FetchJobs;
    var j, es := tick' - tick - 1, FetchEvents(p, fates, tick);
    PartLeft(p, s, DI, n.di, areas.di, j, images.di);
    PartLeft(p, s, AI, n.ai, areas.ai, j, images.ai);
    forall t: RegType, i: nat | (t == DI || t == AI) && i < |s.images.At(t)|
      ensures |v.images.At(t)| == |images.At(t)| == |s.images.At(t)|
      ensures !Spoiled(p, s, es, |es|, t, i) ==> v.images.At(t)[i] == images.At(t)[i]
    {
      FetchBreaks(p, s, fates, tick, j, t, i);
    }
    SizesKept(p, s, es, |es|);
    assert |v.images.At(DI)| == |s.images.At(DI)| && |v.images.At(AI)| == |s.images.At(AI)|;
  }

  lemma PartLeft(p: Plan, s: State, t: RegType, n: nat, areas: seq<Area>, j: nat, after: seq<Word>)
    requires (t == DI || t == AI) && p.areas.At(t) == Usable(n, areas) && j < |FetchJobs(p)|
    requires FetchedUpTo(t, n, areas, s.mem, true, if t == DI then 0 else |p.areas.di|, j, s.images.At(t), after)
    ensures |after| == |s.images.At(t)| == |PartFetched(p, s, j).At(t)|
    ensures forall i: nat :: i < |after| && !Brings(p, j, t, i) ==> after[i] == PartFetched(p, s, j).At(t)[i]
  {
    hide FetchJobs, Covers;
    FetchJobAt(p, j);
  }

  lemma FetchLeads(p: Plan, s: State, early: seq<Event>, s1: State, fetch: seq<Event>, v: State)
    requires s.phase == Gate && Leads(p, s.(phase := Fetching(0)), early, s1) && Leads(p, s1, fetch, v)
    ensures Leads(p, s, [Pass(false)] + early + fetch, v)
  {
    hide Leads;
    LeadsOne(p, s, Pass(false));
    LeadsOn(p, s, [Pass(false)], s.(phase := Fetching(0)), early, s1);
    LeadsOn(p, s, [Pass(false)] + early, s1, fetch, v);
  }

  method DoSend(w: TcpCouplerShm, c: Supervisor.Config, start: int, ghost s: State)
    returns (o: Outcome, ghost v: State)
    requires w.Valid() && Ready(w.Abs())
    requires s.phase == Sending(0) && s.mem == w.modbus.device.mem && s.images == Images(w)
    modifies w.modbus.device
    ensures var p, dev := PlanOf(w, c, start), w.modbus.device;
      && Leads(p, s, SendEvents(p, dev.fates, old(dev.tick)), v)
      && Requested(dev.fates, old(dev.tick), dev.tick, |SendJobs(p)|, o.Ok?)
    ensures v.mem == w.modbus.device.mem && v.images == Images(w)
    ensures o.Ok? ==> v == s.(mem := v.mem, images := Images(w), sends := s.sends + 1,
                              phase := if c.cycleTime == 0 then Gate else Timing)
    ensures o.Threw? ==> v.phase == Exited(EX_SOFTWARE) && v.clock == s.clock && v.sends == s.sends
  {
    hide Conducted, Exec, Leads, Serves, Operational, FetchReqs, SendReqs, Requested, NoStray, SendEvents;
    ghost var dev := w.modbus.device;
    ghost var p, tick := PlanOf(w, c, start), dev.tick;
    RequestLists(w, c, start);
    ReadyIsSafe(w.Abs(), DO);
    ReadyIsSafe(w.Abs(), AO);
    assert w.modbus.connected by { ReadyConnected(w.Abs()); }
    ghost var qs := w.SendAllList();
    o := w.SendImage();
    ConductedRuns(dev.fates, s.mem, tick, qs, o, dev.mem, dev.tick);
    v := SendPhase(p, s, dev.fates, tick);
  }

  // The machine's output images are the object's.
  ghost predicate OutputsAgree(w: TcpCouplerShm, s: State)
    reads w, w.image.dout, w.image.ao
  {
    s.images.dout == w.Contents(DO) && s.images.ao == w.Contents(AO)
  }

  // Fetch, then send, as the body of the loop does first.
  method Exchange(w: TcpCouplerShm, c: Supervisor.Config, start: int, r: Round, ghost s: State)
    returns (o: Outcome, ghost v: State)
    requires w.Valid() && Ready(w.Abs())
    requires s.phase == Gate && s.mem == w.modbus.device.mem && s.images == Images(w)
    modifies w.modbus.device, w.image.di, w.image.ai, w.image.dout, w.image.ao
    ensures var p, dev := PlanOf(w, c, start), w.modbus.device;
      var tick := old(dev.tick);
      && Leads(p, s, ExchangeEvents(p, s, dev.fates, tick, r), v)
      && Requested(dev.fates, tick, dev.tick, PerCycle(p), o.Ok?)
      && (o.Threw? ==> InputsAgree(p, s, ExchangeEvents(p, s, dev.fates, tick, r), v.images, Images(w)))
    ensures v.mem == w.modbus.device.mem && OutputsAgree(w, v)
    ensures o.Ok? ==> v == s.(mem := v.mem, images := Images(w), fetches := s.fetches + 1, sends := s.sends + 1,
                              phase := if c.cycleTime == 0 then Gate else Timing)
    ensures o.Threw? ==> v.phase == Exited(EX_SOFTWARE) && v.clock == s.clock && v.sends == s.sends
  {
    hide Leads, Ready, Usable, Requested, FetchEvents, SendEvents, FetchJobs, SendJobs, Then, Images, OutputsAgree,
         InputsAgree, PlanOf;
    ghost var p, dev := PlanOf(w, c, start), w.modbus.device;
    ghost var t0, more := dev.tick, |SendJobs(p)|;
    ghost var s1 := Others(w, r.early, p, s.(phase := Fetching(0)));
    ghost var u;
    o, u := DoFetch(w, c, start, s1);
    FetchLeads(p, s, r.early, s1, FetchEvents(p, dev.fates, t0), u);
    v := u;
    ghost var t1 := dev.tick;
    if o.Ok? {
      ghost var u1 := Others(w, r.late, p, u);
      o, v := DoSend(w, c, start, u1);
      LeadsOn(p, u, r.late, u1, SendEvents(p, dev.fates, t1), v);
      RequestedAll(dev.fates, t0, t1, |FetchJobs(p)|);
      RequestedOn(dev.fates, t0, t1, dev.tick, |FetchJobs(p)|, more, o.Ok?);
      AgreeSame(p, s, ExchangeEvents(p, s, dev.fates, t0, r), v.images);
      SameOutputs(w, v);
    } else {
      BrokenAgrees(p, s, s1, u, dev.fates, t0, r, Images(w));
      RequestedLess(dev.fates, t0, t1, |FetchJobs(p)|, more);
    }
    LeadsThen(p, s, [Pass(false)] + r.early + FetchEvents(p, dev.fates, t0), u,
              r.late + SendEvents(p, dev.fates, t0 + |FetchJobs(p)|), v);
  }

  lemma SameOutputs(w: TcpCouplerShm, s: State)
    requires s.images == Images(w)
    ensures OutputsAgree(w, s)
  {
  }

  lemma AgreeSame(p: Plan, s: State, es: seq<Event>, images: PerReg<seq<Word>>)
    ensures InputsAgree(p, s, es, images, images)
  {
  }

  // A fetch that breaks off ends the exchange.
  lemma BrokenAgrees(p: Plan, s: State, s1: State, u: State, fates: seq<Fate>, tick: nat, r: Round,
                     images: PerReg<seq<Word>>)
    requires s.phase == Gate && Leads(p, s.(phase := Fetching(0)), r.early, s1)
    requires Leads(p, s1, FetchEvents(p, fates, tick), u) && u.phase.Exited?
    requires InputsAgree(p, s1, FetchEvents(p, fates, tick), u.images, images)
    ensures InputsAgree(p, s, ExchangeEvents(p, s, fates, tick, r), u.images, images)
  {
    hide InputsAgree, FetchEvents, SendEvents, Leads;
    var begun, fetch := s.(phase := Fetching(0)), FetchEvents(p, fates, tick);
    LeadsOne(p, s, Pass(false));
    LeadsOn(p, s, [Pass(false)], begun, r.early, s1);
    LeadsOn(p, s, [Pass(false)] + r.early, s1, fetch, u);
    AgreeOn(p, s, [Pass(false)] + r.early, s1, fetch, u.images, images);
    ThenStops(p, s, [Pass(false)] + r.early + fetch, u, r.late + SendEvents(p, fates, tick + |FetchJobs(p)|));
  }

  lemma ThenStops(p: Plan, s: State, xs: seq<Event>, w: State, ys: seq<Event>)
    requires Leads(p, s, xs, w)
    ensures Then(p, s, xs, ys) == if w.phase.Exited? then xs else xs + ys
  {
  }

  lemma RequestedAll(fates: seq<Fate>, tick: nat, tick': nat, n: nat)
    requires Requested(fates, tick, tick', n, true)
    ensures tick' == tick + n
  {
  }

  lemma RequestedLess(fates: seq<Fate>, tick: nat, tick': nat, n: nat, more: nat)
    requires Requested(fates, tick, tick', n, false)
    ensures Requested(fates, tick, tick', n + more, false)
  {
  }

  // The timing block on the loop's own variables.
  method Time(c: Supervisor.Config, cycleFail: nat, sleepTime: int, now: int, ghost p: Plan, ghost s: State)
    returns (trip: bool, fail: nat, sleep: int)
    requires p.timing == c && s.phase == Timing && s.sup == Supervisor.State(cycleFail, sleepTime)
    ensures var v := Next(p, s, Tick(now));
      && v == s.(clock := s.clock + [now], phase := v.phase, sup := v.sup)
      && v.phase == (if trip then Exited(EX_TEMPFAIL) else Gate)
      && (!trip ==> v.sup == Supervisor.State(fail, sleep))
  {
    trip, fail, sleep := false, cycleFail, sleepTime + c.cycleTime;
    if now > sleep {
      if !c.noFail {
        fail := fail + 10;
        if fail > Supervisor.MAX_FAIL { return true, fail, sleep; }
      }
      sleep := now;
    } else if fail > 0 {
      fail := fail - 1;
    }
  }

  // ----- what a run of the loop comes to --------------------------------------------------------

  // The clock readings of the first n cycles.
  function Readings(c: Supervisor.Config, rounds: seq<Round>, n: nat): seq<int>
    requires n <= |rounds|
  {
    if c.cycleTime == 0 then [] else Clock(rounds)[..n]
  }

  // The supervisor is over its limit after n cycles.
  predicate Tripped(c: Supervisor.Config, start: int, clock: seq<int>, n: nat)
    requires n <= |clock|
  {
    c.cycleTime > 0 && Supervisor.Fail(c, start, clock, n) > 100
  }

  // n cycles completed, the requests before number tick' issued: no stop was seen and no
  // limit crossed on the way. A failed request, the last one issued, means EX_SOFTWARE; a
  // limit crossed in the last cycle means EX_TEMPFAIL; a stop at the next evaluation of
  // the condition means EX_OK; and otherwise the loop is still running.
  ghost predicate Explained(p: Plan, fates: seq<Fate>, tick: nat, tick': nat, rounds: seq<Round>,
                            n: nat, ret: Option<Exit>)
  {
    && n <= |rounds| && tick <= tick'
    && (forall j :: 0 <= j < n ==> !rounds[j].stop && !Tripped(p.timing, p.start, Clock(rounds), j))
    && var served, tripped := AllServed(fates, tick, tick' - tick), Tripped(p.timing, p.start, Clock(rounds), n);
      && ret == (if !served then Some(EX_SOFTWARE) else if tripped then Some(EX_TEMPFAIL)
                 else if n < |rounds| then Some(EX_OK) else None)
      && (if served then tick' == TickOf(p, tick, n) && (tripped || n == |rounds| || rounds[n].stop)
          else n < |rounds| && !rounds[n].stop && !tripped && BrokeOff(fates, tick, tick', tick' - tick) &&
               TickOf(p, tick, n) < tick' <= TickOf(p, tick, n + 1))
  }

  lemma {:induction false} TickGrows(p: Plan, tick: nat, i: nat, j: nat)
    requires i <= j
    ensures tick <= TickOf(p, tick, i) <= TickOf(p, tick, j)
  {
    hide PerCycle;
    if i < j { TickGrows(p, tick, i, j - 1); } else if i > 0 { TickGrows(p, tick, i - 1, i - 1); }
  }

  // The script of fates, the stops and the clock leave one explanation only.
  lemma ExplainedOnce(p: Plan, fates: seq<Fate>, tick: nat, rounds: seq<Round>,
                      t1: nat, n1: nat, ret1: Option<Exit>, t2: nat, n2: nat, ret2: Option<Exit>)
    requires Explained(p, fates, tick, t1, rounds, n1, ret1)
    requires Explained(p, fates, tick, t2, rounds, n2, ret2)
    ensures n1 == n2 && t1 == t2 && ret1 == ret2
  {
    hide Tripped, TickOf;
    NotEarlier(p, fates, tick, rounds, t1, n1, ret1, t2, n2, ret2);
    NotEarlier(p, fates, tick, rounds, t2, n2, ret2, t1, n1, ret1);
    BrokeOffOnce(fates, tick, t1, t2);
  }

  lemma BrokeOffOnce(fates: seq<Fate>, tick: nat, t1: nat, t2: nat)
    requires tick <= t1 && tick <= t2
    ensures BrokeOff(fates, tick, t1, t1 - tick) && BrokeOff(fates, tick, t2, t2 - tick) ==> t1 == t2
  {
  }

  lemma NotEarlier(p: Plan, fates: seq<Fate>, tick: nat, rounds: seq<Round>,
                   t1: nat, n1: nat, ret1: Option<Exit>, t2: nat, n2: nat, ret2: Option<Exit>)
    requires Explained(p, fates, tick, t1, rounds, n1, ret1)
    requires Explained(p, fates, tick, t2, rounds, n2, ret2)
    ensures n1 >= n2
  {
    hide Tripped, TickOf, PerCycle;
    Cause(p, fates, tick, rounds, t1, n1, ret1);
    if n1 < n2 { NoCause(p, fates, tick, rounds, t2, n2, ret2, n1); }
  }

  // Something ends the run at its last cycle, and nothing does before.
  lemma Cause(p: Plan, fates: seq<Fate>, tick: nat, rounds: seq<Round>,
              tick': nat, n: nat, ret: Option<Exit>)
    requires Explained(p, fates, tick, tick', rounds, n, ret)
    ensures TickOf(p, tick, n + 1) >= tick
    ensures n == |rounds| || rounds[n].stop || Tripped(p.timing, p.start, Clock(rounds), n) ||
      !AllServed(fates, tick, TickOf(p, tick, n + 1) - tick)
  {
    hide Tripped, TickOf, PerCycle;
    TickGrows(p, tick, n, n + 1);
  }

  lemma NoCause(p: Plan, fates: seq<Fate>, tick: nat, rounds: seq<Round>,
                tick': nat, n: nat, ret: Option<Exit>, k: nat)
    requires Explained(p, fates, tick, tick', rounds, n, ret) && k < n
    ensures !rounds[k].stop && !Tripped(p.timing, p.start, Clock(rounds), k)
    ensures TickOf(p, tick, k + 1) >= tick && AllServed(fates, tick, TickOf(p, tick, k + 1) - tick)
  {
    hide Tripped, TickOf, PerCycle;
    TickGrows(p, tick, k + 1, n);
  }

  // The loop gives up on its timing exactly when every request was served and its last
  // cycle ends a heavy window; no cycle before it does.
  lemma TempfailExplained(p: Plan, fates: seq<Fate>, tick: nat, rounds: seq<Round>,
                          tick': nat, n: nat, ret: Option<Exit>)
    requires Explained(p, fates, tick, tick', rounds, n, ret)
    ensures ret == Some(EX_TEMPFAIL) <==> AllServed(fates, tick, tick' - tick) && Heavily(p, Clock(rounds), n)
    ensures forall j :: 0 <= j < n ==> !Heavily(p, Clock(rounds), j)
  {
    hide TickOf, Heavily, Tripped;
    forall j | 0 <= j <= n ensures Tripped(p.timing, p.start, Clock(rounds), j) <==> Heavily(p, Clock(rounds), j) {
      TrippedIffHeavily(p, Clock(rounds), j);
    }
  }

  // The supervisor is at work and a heavy window ends after n cycles.
  ghost predicate Heavily(p: Plan, clock: seq<int>, n: nat)
    requires n <= |clock|
  {
    p.timing.cycleTime > 0 && !p.timing.noFail &&
    exists i :: 0 <= i <= n && Supervisor.Heavy(p.timing, p.start, clock, i, n)
  }

  lemma TrippedIffHeavily(p: Plan, clock: seq<int>, n: nat)
    requires n <= |clock|
    ensures Tripped(p.timing, p.start, clock, n) <==> Heavily(p, clock, n)
  {
    hide Supervisor.Heavy, Supervisor.Fail;
    if p.timing.noFail {
      Supervisor.NoFailStaysZero(p.timing, p.start, clock, n);
    } else {
      Supervisor.TripsIffHeavyWindow(p.timing, p.start, clock, n);
    }
  }

  // The machine stands where the loop does, between two cycles.
  ghost predicate AtGate(w: TcpCouplerShm, s: State, cycleFail: nat, sleepTime: int, clock: seq<int>, n: nat)
    reads w, w.modbus, w.modbus.device, w.image.di, w.image.dout, w.image.ai, w.image.ao
  {
    && s.phase == Gate && s.mem == w.modbus.device.mem && s.images == Images(w)
    && s.sup == Supervisor.State(cycleFail, sleepTime)
    && s.clock == clock && s.fetches == s.sends == n
  }

  // n cycles have gone by with nothing to stop the loop.
  ghost predicate Underway(p: Plan, fates: seq<Fate>, tick: nat, tick': nat, rounds: seq<Round>, n: nat)
  {
    && n <= |rounds| && (forall j :: 0 <= j < n ==> !rounds[j].stop)
    && (forall j :: 0 <= j <= n ==> !Tripped(p.timing, p.start, Clock(rounds), j))
    && tick <= tick' == TickOf(p, tick, n) && AllServed(fates, tick, tick' - tick)
  }

  // The machine's counter is the supervisor's over the readings of the loop.
  lemma CountsReadings(p: Plan, images: PerReg<seq<Word>>, m: Memory, es: seq<Event>, s: State,
                       rounds: seq<Round>, n: nat)
    requires Leads(p, Begin(p, images, m), es, s) && n <= |rounds| && s.clock == Readings(p.timing, rounds, n)
    ensures Tripped(p.timing, p.start, Clock(rounds), n) <==> p.timing.cycleTime > 0 && s.phase == Exited(EX_TEMPFAIL)
  {
    hide Reach;
    AlwaysAccounted(p, images, m, es, |es|);
    LimitIsExit(p, s);
    if p.timing.cycleTime > 0 {
      var clock := Clock(rounds);
      Supervisor.AfterPrefix(p.timing, p.start, clock[..n], clock[n..], n);
      assert clock[..n] + clock[n..] == clock;
    }
  }

  // A cycle of the machine, from what its exchange and its timing come to.
  lemma CycleLeads(p: Plan, s: State, v: State, fates: seq<Fate>, tick: nat, r: Round)
    requires !r.stop && Leads(p, s, ExchangeEvents(p, s, fates, tick, r), v)
    ensures Leads(p, s, RoundEvents(p, s, fates, tick, r), if v.phase.Exited? then v else Next(p, v, Tick(r.now)))
    ensures v.phase.Exited? ==> RoundEvents(p, s, fates, tick, r) == ExchangeEvents(p, s, fates, tick, r)
  {
    ThenStops(p, s, ExchangeEvents(p, s, fates, tick, r), v, [Tick(r.now)]);
    hide Leads, Next, ExchangeEvents, Then;
    LeadsOne(p, v, Tick(r.now));
    LeadsThen(p, s, ExchangeEvents(p, s, fates, tick, r), v, [Tick(r.now)],
              if v.phase.Exited? then v else Next(p, v, Tick(r.now)));
  }

  // One pass through the body of the loop.
  method Cycle(w: TcpCouplerShm, c: Supervisor.Config, start: int, cycleFail: nat, sleepTime: int, r: Round,
               ghost log: seq<int>, ghost n: nat, ghost s: State)
    returns (ret: Option<Exit>, fail: nat, sleep: int, ghost v: State)
    requires w.Valid() && Ready(w.Abs()) && AtGate(w, s, cycleFail, sleepTime, log, n) && !r.stop
    modifies w.modbus.device, w.image.di, w.image.ai, w.image.dout, w.image.ao
    ensures var p, dev := PlanOf(w, c, start), w.modbus.device;
      && Leads(p, s, RoundEvents(p, s, dev.fates, old(dev.tick), r), v)
      && Requested(dev.fates, old(dev.tick), dev.tick, PerCycle(p), ret != Some(EX_SOFTWARE))
      && (ret == Some(EX_SOFTWARE) ==>
            InputsAgree(p, s, RoundEvents(p, s, dev.fates, old(dev.tick), r), v.images, Images(w)))
    ensures OutputsAgree(w, v) && v.mem == w.modbus.device.mem
    ensures ret.None? || ret == Some(EX_SOFTWARE) || (ret == Some(EX_TEMPFAIL) && c.cycleTime > 0)
    ensures v.phase == if ret.None? then Gate else Exited(ret.value)
    ensures ret == Some(EX_SOFTWARE) ==> v.sends == n && v.clock == log
    ensures ret != Some(EX_SOFTWARE) ==>
      && v.images == Images(w) && v.sends == v.fetches == n + 1
      && v.clock == if c.cycleTime == 0 then log else log + [r.now]
    ensures ret.None? ==> v.sup == Supervisor.State(fail, sleep)
  {
    hide Leads, Ready, Usable, Requested, ExchangeEvents, RoundEvents, PerCycle, TimingStep, InputsAgree;
    ghost var p, tick := PlanOf(w, c, start), w.modbus.device.tick;
    ret, fail, sleep := None, cycleFail, sleepTime;
    var o;
    o, v := Exchange(w, c, start, r, s);
    CycleLeads(p, s, v, w.modbus.device.fates, tick, r);
    if o.Threw? { return Some(EX_SOFTWARE), fail, sleep, v; }
    if c.cycleTime > 0 {
      var trip;
      trip, fail, sleep := Time(c, cycleFail, sleepTime, r.now, p, v);
      if trip { ret := Some(EX_TEMPFAIL); }
    }
    v := Next(p, v, Tick(r.now));
  }

  // The run of the loop is the one run of the machine that its parameters determine.
  ghost predicate LoopIs(p: Plan, begin: State, fates: seq<Fate>, tick: nat, rounds: seq<Round>,
                         ret: Option<Exit>, images: PerReg<seq<Word>>, m: Memory, tick': nat)
  {
    var s := RunOf(p, begin, fates, tick, rounds);
    && s.mem == m && s.phase == (if ret.None? then Gate else Exited(ret.value))
    && s.images.dout == images.dout && s.images.ao == images.ao
    && (if ret != Some(EX_SOFTWARE) then s.images == images
        else InputsAgree(p, begin, WholeScript(p, begin, fates, tick, rounds), s.images, images))
    && s.sends <= |rounds| && s.clock == Readings(p.timing, rounds, s.sends)
    && Explained(p, fates, tick, tick', rounds, s.sends, ret)
  }

  // The loop over as many evaluations of its condition as there are rounds. The result is
  // None if it is still running then.
  method Loop(w: TcpCouplerShm, c: Supervisor.Config, start: int, rounds: seq<Round>) returns (ret: Option<Exit>)
    requires w.Valid() && Ready(w.Abs())
    modifies w.modbus.device, w.image.di, w.image.ai, w.image.dout, w.image.ao
    ensures var p, dev := PlanOf(w, c, start), w.modbus.device;
      LoopIs(p, Begin(p, old(Images(w)), old(dev.mem)), dev.fates, old(dev.tick), rounds,
             ret, Images(w), dev.mem, dev.tick)
  {
    hide Leads, Ready, Usable, LoopIs, Underway, Requested, RoundEvents, TickOf, Script, PerCycle, Next, Readings,
         InputsAgree, WholeScript;
    ghost var p, fates, tick := PlanOf(w, c, start), w.modbus.device.fates, w.modbus.device.tick;
    ghost var begin := Begin(p, Images(w), w.modbus.device.mem);
    ghost var s := begin;
    var cycleFail, sleepTime := 0, start;
    LoopBegins(p, begin, fates, tick, rounds);
    for n := 0 to |rounds|
      invariant Leads(p, begin, Script(p, begin, fates, tick, rounds, n), s) && w.Valid()
      invariant AtGate(w, s, cycleFail, sleepTime, Readings(c, rounds, n), n)
      invariant Underway(p, fates, tick, w.modbus.device.tick, rounds, n)
    {
      ghost var t1, before := w.modbus.device.tick, s;
      if rounds[n].stop {
        StoppedHere(p, begin, before, fates, tick, t1, rounds, n);
        return Some(EX_OK);
      }
      UnderwayTick(p, fates, tick, t1, rounds, n);
      ret, cycleFail, sleepTime, s :=
        Cycle(w, c, start, cycleFail, sleepTime, rounds[n], Readings(c, rounds, n), n, before);
      ScriptOn(p, begin, before, s, fates, tick, rounds, n);
      if ret == Some(EX_SOFTWARE) {
        LastAgrees(p, begin, before, s, fates, tick, rounds, n, Images(w));
        FailedHere(p, begin, s, fates, tick, t1, w.modbus.device.tick, rounds, n, Images(w));
        return;
      }
      CycleDone(p, begin, s, fates, tick, t1, w.modbus.device.tick, rounds, n, ret);
      if ret.Some? { return; }
    }
    StillRunning(p, begin, s, fates, tick, w.modbus.device.tick, rounds);
    ret := None;
  }

  lemma LoopBegins(p: Plan, begin: State, fates: seq<Fate>, tick: nat, rounds: seq<Round>)
    requires begin.phase == Gate && begin.clock == []
    ensures Leads(p, begin, Script(p, begin, fates, tick, rounds, 0), begin)
    ensures Underway(p, fates, tick, tick, rounds, 0) && Readings(p.timing, rounds, 0) == []
  {
  }

  lemma UnderwayTick(p: Plan, fates: seq<Fate>, tick: nat, tick': nat, rounds: seq<Round>, n: nat)
    requires Underway(p, fates, tick, tick', rounds, n)
    ensures tick' == TickOf(p, tick, n) && n <= |rounds|
  {
  }

  // The ways a run of the loop can end.

  lemma StoppedHere(p: Plan, begin: State, s: State, fates: seq<Fate>, tick: nat, tick': nat,
                    rounds: seq<Round>, n: nat)
    requires n < |rounds| && rounds[n].stop && Underway(p, fates, tick, tick', rounds, n)
    requires Leads(p, begin, Script(p, begin, fates, tick, rounds, n), s)
    requires s.phase == Gate && s.sends == n && s.clock == Readings(p.timing, rounds, n)
    ensures LoopIs(p, begin, fates, tick, rounds, Some(EX_OK), s.images, s.mem, tick')
  {
    hide Leads, TickOf, Script, RunOf, Tripped;
    LeadsOne(p, s, Pass(true));
    ScriptOn(p, begin, s, s.(phase := Exited(EX_OK)), fates, tick, rounds, n);
  }

  lemma StillRunning(p: Plan, begin: State, s: State, fates: seq<Fate>, tick: nat, tick': nat, rounds: seq<Round>)
    requires Underway(p, fates, tick, tick', rounds, |rounds|)
    requires Leads(p, begin, Script(p, begin, fates, tick, rounds, |rounds|), s)
    requires s.phase == Gate && s.sends == |rounds| && s.clock == Readings(p.timing, rounds, |rounds|)
    ensures LoopIs(p, begin, fates, tick, rounds, None, s.images, s.mem, tick')
  {
    hide TickOf, Script, Tripped;
  }

  lemma LastAgrees(p: Plan, begin: State, s: State, v: State, fates: seq<Fate>, tick: nat,
                   rounds: seq<Round>, n: nat, images: PerReg<seq<Word>>)
    requires n < |rounds| && Leads(p, begin, Script(p, begin, fates, tick, rounds, n), s) && !s.phase.Exited?
    requires var es := RoundEvents(p, s, fates, TickOf(p, tick, n), rounds[n]);
      Leads(p, s, es, v) && InputsAgree(p, s, es, v.images, images)
    requires v.phase.Exited?
    ensures InputsAgree(p, begin, WholeScript(p, begin, fates, tick, rounds), v.images, images)
  {
    hide InputsAgree, RoundEvents, TickOf, Leads;
    var xs, ys := Script(p, begin, fates, tick, rounds, n), RoundEvents(p, s, fates, TickOf(p, tick, n), rounds[n]);
    AgreeOn(p, begin, xs, s, ys, v.images, images);
    ThenStops(p, begin, xs, s, ys);
    ScriptOn(p, begin, s, v, fates, tick, rounds, n);
    ScriptNext(p, begin, s, fates, tick, rounds, n);
    ScriptStays(p, begin, fates, tick, rounds, n + 1, |rounds|, v);
  }

  lemma ScriptNext(p: Plan, begin: State, s: State, fates: seq<Fate>, tick: nat, rounds: seq<Round>, n: nat)
    requires n < |rounds| && Leads(p, begin, Script(p, begin, fates, tick, rounds, n), s)
    ensures Script(p, begin, fates, tick, rounds, n + 1) ==
      Then(p, begin, Script(p, begin, fates, tick, rounds, n), RoundEvents(p, s, fates, TickOf(p, tick, n), rounds[n]))
  {
  }

  lemma FailedHere(p: Plan, begin: State, s: State, fates: seq<Fate>, tick: nat, t1: nat, t2: nat,
                   rounds: seq<Round>, n: nat, images: PerReg<seq<Word>>)
    requires n < |rounds| && !rounds[n].stop && Underway(p, fates, tick, t1, rounds, n)
    requires Requested(fates, t1, t2, PerCycle(p), false) && s == RunOf(p, begin, fates, tick, rounds)
    requires s.phase == Exited(EX_SOFTWARE) && s.sends == n && s.clock == Readings(p.timing, rounds, n)
    requires s.images.dout == images.dout && s.images.ao == images.ao
    requires InputsAgree(p, begin, WholeScript(p, begin, fates, tick, rounds), s.images, images)
    ensures LoopIs(p, begin, fates, tick, rounds, Some(EX_SOFTWARE), images, s.mem, t2)
  {
    hide RunOf, Tripped, PerCycle, InputsAgree, WholeScript;
    assert FateAt(fates, t2 - 1) != Served;
  }

  // A cycle that went through leaves the loop running, unless it crossed the limit.
  lemma CycleDone(p: Plan, begin: State, s: State, fates: seq<Fate>, tick: nat, t1: nat, t2: nat,
                  rounds: seq<Round>, n: nat, ret: Option<Exit>)
    requires n < |rounds| && !rounds[n].stop && Underway(p, fates, tick, t1, rounds, n)
    requires Requested(fates, t1, t2, PerCycle(p), true)
    requires begin == Begin(p, begin.images, begin.mem)
    requires Leads(p, begin, Script(p, begin, fates, tick, rounds, n + 1), s)
    requires ret == None || (ret == Some(EX_TEMPFAIL) && p.timing.cycleTime > 0)
    requires s.phase == if ret.None? then Gate else Exited(EX_TEMPFAIL)
    requires ret.Some? ==> s == RunOf(p, begin, fates, tick, rounds)
    requires s.sends == n + 1
    requires var before := Readings(p.timing, rounds, n);
      s.clock == if p.timing.cycleTime == 0 then before else before + [rounds[n].now]
    ensures s.clock == Readings(p.timing, rounds, n + 1)
    ensures ret.None? ==> Underway(p, fates, tick, t2, rounds, n + 1)
    ensures ret.Some? ==> LoopIs(p, begin, fates, tick, rounds, ret, s.images, s.mem, t2)
  {
    hide Leads, Script, RunOf, Tripped, PerCycle;
    CountsReadings(p, begin.images, begin.mem, Script(p, begin, fates, tick, rounds, n + 1), s, rounds, n + 1);
  }

  // ----- from a fresh object to the exit code ----------------------------------------------------

  // Aborted: an exception that nothing catches ends the program.
  datatype Ending = Unavailable | Aborted | StartFailed | Running | Ended(code: Exit) {
    predicate Looped() { Running? || Ended? }

    function Code(): Option<Exit>
      requires Looped()
    {
      if Running? then None else Some(code)
    }
  }

  lemma ReadyPlanned(w: TcpCouplerShm, c: Supervisor.Config, start: int)
    requires Ready(w.Abs())
    ensures Planned(PlanOf(w, c, start), Images(w))
  {
    hide Serves;
    ReadyPlannedType(w, DI);
    ReadyPlannedType(w, DO);
    ReadyPlannedType(w, AI);
    ImageMatches(w.Abs(), AO);
  }

  lemma ReadyPlannedType(w: TcpCouplerShm, t: RegType)
    requires Ready(w.Abs())
    ensures Serves(t, Usable(w.imageSize.At(t), w.areas.At(t)), |w.Contents(t)|)
  {
    ImageMatches(w.Abs(), t);
  }

  lemma StartInStep(p: Plan, n: PerReg<nat>, m: Memory)
    requires Planned(p, StartImages(p, n, m, true)) && m.SingleBits()
    ensures InStep(p, Begin(p, StartImages(p, n, m, true), m))
  {
    hide Serves, Fetched, Address;
    forall i | 0 <= i < n.dout
      ensures Address(DO, i) < ADDRESSES && StartImages(p, n, m, true).dout[i] == m.dout[Address(DO, i)] <= 1
    {
      FetchedAt(DO, Zeros(n.dout), p.areas.dout, m, i);
    }
  }

  function BlankImages(n: PerReg<nat>): PerReg<seq<Word>> {
    PerReg(Zeros(n.di), Zeros(n.dout), Zeros(n.ai), Zeros(n.ao))
  }

  // The images as the loop finds them: zeros, or with a start image the device's cells.
  function StartImages(p: Plan, n: PerReg<nat>, m: Memory, startImage: bool): PerReg<seq<Word>> {
    var blank := BlankImages(n);
    if !startImage then blank
    else PerReg(Fetched(DI, blank.di, p.areas.di, m), Fetched(DO, blank.dout, p.areas.dout, m),
                Fetched(AI, blank.ai, p.areas.ai, m), Fetched(AO, blank.ao, p.areas.ao, m))
  }

  // From event k on nobody writes output i.
  predicate Unwritten(es: seq<Event>, k: nat, i: nat) {
    k <= |es| && forall j :: k <= j < |es| && es[j].Poke? && es[j].t == DO ==> es[j].i != i
  }

  // Then the image keeps the value that output i has there, and its coil holds it once a
  // send has begun and completed after that.
  ghost predicate Delivered(p: Plan, s: State, es: seq<Event>, k: nat, i: nat, image: seq<Word>, m: Memory) {
    k <= |es| &&
    var at := Reach(p, s, es, k);
    && i < |image| && i < |at.images.dout| && image[i] == at.images.dout[i] && Address(DO, i) < ADDRESSES
    && (Reach(p, s, es, |es|).sends > SendsBefore(at) ==> m.dout[Address(DO, i)] == Bit(image[i]))
  }

  ghost predicate AllDelivered(p: Plan, s: State, es: seq<Event>, image: seq<Word>, m: Memory) {
    forall k: nat, i: nat :: i < |s.images.dout| && Unwritten(es, k, i) ==> Delivered(p, s, es, k, i, image, m)
  }

  // From event k on neither another process nor the plant touches input i. Then its image
  // shows its cell once a fetch has begun and completed after that, unless the request that
  // was to bring it has failed.
  predicate Untouched(es: seq<Event>, k: nat, t: RegType, i: nat) {
    k <= |es| && (t == DI || t == AI) && forall j :: k <= j < |es| ==> Spares(es[j], t, i)
  }

  ghost predicate Shown(p: Plan, s: State, es: seq<Event>, k: nat, t: RegType, i: nat,
                        images: PerReg<seq<Word>>, m: Memory)
  {
    k <= |es| && Address(t, i) < ADDRESSES &&
    var at, w := Reach(p, s, es, k), Reach(p, s, es, |es|);
    m.At(t)[Address(t, i)] == at.mem.At(t)[Address(t, i)] &&
    (w.fetches > FetchesBefore(at) && (w.phase != Exited(EX_SOFTWARE) || !Spoiled(p, s, es, |es|, t, i)) ==>
       i < |images.At(t)| && images.At(t)[i] == m.At(t)[Address(t, i)])
  }

  ghost predicate AllShown(p: Plan, s: State, es: seq<Event>, images: PerReg<seq<Word>>, m: Memory) {
    forall k: nat, t: RegType, i: nat :: i < |s.images.At(t)| && Untouched(es, k, t, i) ==>
      Shown(p, s, es, k, t, i, images, m)
  }

  // The inputs are as the plant has left them; holding registers and coils that are no
  // outputs are untouched.
  ghost predicate OthersUntouched(s: State, es: seq<Event>, m: Memory) {
    var only := OnlyPlanted(s.mem, es, |es|);
    && m.di == only.di && m.ai == only.ai && m.ao == s.mem.ao
    && forall x: nat :: x < ADDRESSES && (forall i :: 0 <= i < |s.images.dout| ==> Address(DO, i) != x) ==>
         m.dout[x] == s.mem.dout[x]
  }

  ghost predicate NobodyWritesOutputs(es: seq<Event>) {
    forall j :: 0 <= j < |es| && es[j].Poke? ==> es[j].t != DO
  }

  // An output that nobody ever writes is off.
  ghost predicate UnwrittenAreOff(es: seq<Event>, n: nat, m: Memory) {
    forall i :: 0 <= i < n && Unwritten(es, 0, i) ==> Address(DO, i) < ADDRESSES && m.dout[Address(DO, i)] == 0
  }

  // What the program leaves behind. Each input is shown; the output image is what the other
  // processes wrote into it, and each output is delivered. With a start image, and nobody writing outputs,
  // no coil has changed; without one, the unwritten outputs are off once a cycle has
  // completed.
  ghost predicate RunOutcome(p: Plan, s: State, es: seq<Event>, startImage: bool,
                             images: PerReg<seq<Word>>, m: Memory)
  {
    && OthersUntouched(s, es, m) && AllShown(p, s, es, images, m)
    && images.dout == OnlyPokes(s.images.dout, DO, es, |es|) && AllDelivered(p, s, es, images.dout, m)
    && (startImage && s.mem.SingleBits() && NobodyWritesOutputs(es) ==> m.dout == s.mem.dout)
    && (!startImage && Reach(p, s, es, |es|).sends > 0 ==> UnwrittenAreOff(es, |s.images.dout|, m))
  }

  lemma OneDelivered(p: Plan, s: State, es: seq<Event>, k: nat, i: nat)
    requires Planned(p, s.images) && i < |s.images.dout| && Unwritten(es, k, i)
    ensures var w := Reach(p, s, es, |es|); Delivered(p, s, es, k, i, w.images.dout, w.mem)
  {
    hide Reach, Planned, Address, CellSettled;
    ReachSplit(p, s, es, k);
    PlanKept(p, s, es, k);
    SizesKept(p, s, es, k);
    SizesKept(p, s, es, |es|);
    assert |Reach(p, s, es, k).images.At(DO)| == |s.images.At(DO)| == |Reach(p, s, es, |es|).images.At(DO)|;
    OutputSettles(p, Reach(p, s, es, k), es[k..], |es| - k, i);
  }

  lemma EachDelivered(p: Plan, s: State, es: seq<Event>)
    requires Planned(p, s.images)
    ensures var w := Reach(p, s, es, |es|); AllDelivered(p, s, es, w.images.dout, w.mem)
  {
    hide Planned, Reach, Delivered, Unwritten;
    var w := Reach(p, s, es, |es|);
    forall k: nat, i: nat | i < |s.images.dout| && Unwritten(es, k, i)
      ensures Delivered(p, s, es, k, i, w.images.dout, w.mem)
    {
      OneDelivered(p, s, es, k, i);
    }
  }

  lemma OneShown(p: Plan, s: State, es: seq<Event>, k: nat, t: RegType, i: nat)
    requires Planned(p, s.images) && i < |s.images.At(t)| && Untouched(es, k, t, i)
    ensures var w := Reach(p, s, es, |es|); Shown(p, s, es, k, t, i, w.images, w.mem)
  {
    hide Reach, Planned, Address, CellShown, Spares, Spoiled;
    ReachSplit(p, s, es, k);
    SpoiledLater(p, s, es, k, t, i);
    PlanKept(p, s, es, k);
    SizesKept(p, s, es, k);
    SizesKept(p, s, es, |es|);
    assert |Reach(p, s, es, k).images.At(t)| == |s.images.At(t)| == |Reach(p, s, es, |es|).images.At(t)|;
    InputSettles(p, Reach(p, s, es, k), es[k..], |es| - k, t, i);
  }

  lemma SpoiledLater(p: Plan, s: State, es: seq<Event>, k: nat, t: RegType, i: nat)
    requires k <= |es|
    ensures Spoiled(p, Reach(p, s, es, k), es[k..], |es| - k, t, i) ==> Spoiled(p, s, es, |es|, t, i)
  {
    hide Reach, Spoiled;
    assert es[..k] + es[k..] == es;
    ReachFront(p, s, es[..k], es[k..], k);
    if Spoiled(p, Reach(p, s, es, k), es[k..], |es| - k, t, i) { SpoiledOn(p, s, es[..k], es[k..], t, i); }
  }

  lemma EachShown(p: Plan, s: State, es: seq<Event>)
    requires Planned(p, s.images)
    ensures var w := Reach(p, s, es, |es|); AllShown(p, s, es, w.images, w.mem)
  {
    hide Planned, Reach, Shown, Untouched;
    var w := Reach(p, s, es, |es|);
    forall k: nat, t: RegType, i: nat | i < |s.images.At(t)| && Untouched(es, k, t, i)
      ensures Shown(p, s, es, k, t, i, w.images, w.mem)
    {
      OneShown(p, s, es, k, t, i);
    }
  }

  // After a failed request the images may differ from the machine's where it has spoiled them.
  lemma ShownDespite(p: Plan, s: State, es: seq<Event>, images: PerReg<seq<Word>>)
    requires var w := Reach(p, s, es, |es|);
      && AllShown(p, s, es, w.images, w.mem)
      && if w.phase == Exited(EX_SOFTWARE) then InputsAgree(p, s, es, w.images, images) else images == w.images
    ensures AllShown(p, s, es, images, Reach(p, s, es, |es|).mem)
  {
    hide Reach, Untouched, Address, Spoiled;
    var w := Reach(p, s, es, |es|);
    forall k: nat, t: RegType, i: nat | i < |s.images.At(t)| && Untouched(es, k, t, i)
      ensures Shown(p, s, es, k, t, i, images, w.mem)
    {
      assert Shown(p, s, es, k, t, i, w.images, w.mem);
      TouchesInputs(es, k, t, i);
    }
  }

  lemma TouchesInputs(es: seq<Event>, k: nat, t: RegType, i: nat)
    requires Untouched(es, k, t, i)
    ensures t == DI || t == AI
  {
  }

  lemma FramesKept(p: Plan, s: State, es: seq<Event>)
    requires Planned(p, s.images)
    ensures OthersUntouched(s, es, Reach(p, s, es, |es|).mem)
  {
    hide Reach, Planned, Address, OnlyPlanted;
    assert forall i: nat :: Address(DO, i) != 0 by { NoOutputAtZero(); }
    DeviceFrame(p, s, es, |es|, 0);
    forall x: nat | x < ADDRESSES && forall i :: 0 <= i < |s.images.dout| ==> Address(DO, i) != x
      ensures Reach(p, s, es, |es|).mem.dout[x] == s.mem.dout[x]
    {
      DeviceFrame(p, s, es, |es|, x);
    }
  }

  lemma NoOutputAtZero()
    ensures forall i: nat :: Address(DO, i) != 0
  {
  }

  // However a run of the machine ends, and whenever.
  lemma EveryOutcome(p: Plan, n: PerReg<nat>, startImage: bool, m: Memory, es: seq<Event>)
    requires Planned(p, StartImages(p, n, m, startImage))
    ensures var s := Begin(p, StartImages(p, n, m, startImage), m);
      var w := Reach(p, s, es, |es|);
      RunOutcome(p, s, es, startImage, w.images, w.mem)
  {
    hide Planned, Reach, InStep, Fetched, AllDelivered, AllShown, OthersUntouched, UnwrittenAreOff, OnlyPokes;
    var s := Begin(p, StartImages(p, n, m, startImage), m);
    FramesKept(p, s, es);
    OutputsOnlyPoked(p, s, es, |es|);
    EachDelivered(p, s, es);
    EachShown(p, s, es);
    if startImage && m.SingleBits() && NobodyWritesOutputs(es) {
      StartInStep(p, n, m);
      StartImageHolds(p, s, es, |es|);
    }
    if !startImage && Reach(p, s, es, |es|).sends > 0 { BlankDelivered(p, s, es); }
  }

  lemma BlankDelivered(p: Plan, s: State, es: seq<Event>)
    requires Planned(p, s.images) && SendsBefore(s) == 0 && Reach(p, s, es, |es|).sends > 0
    requires forall i :: 0 <= i < |s.images.dout| ==> s.images.dout[i] == 0
    ensures UnwrittenAreOff(es, |s.images.dout|, Reach(p, s, es, |es|).mem)
  {
    hide Planned, Address, Unwritten, Reach, CellSettled;
    var w := Reach(p, s, es, |es|);
    forall i | 0 <= i < |s.images.dout| && Unwritten(es, 0, i)
      ensures Address(DO, i) < ADDRESSES && w.mem.dout[Address(DO, i)] == 0
    {
      OneDelivered(p, s, es, 0, i);
      assert Reach(p, s, es, 0) == s by { ReachNone(p, s, es); }
    }
  }

  lemma ReachNone(p: Plan, s: State, es: seq<Event>)
    ensures Reach(p, s, es, 0) == s
  {
  }

  // The same of the loop.
  lemma LoopOutcome(p: Plan, n: PerReg<nat>, startImage: bool, m: Memory, fates: seq<Fate>, tick: nat,
                    rounds: seq<Round>, ret: Option<Exit>, images': PerReg<seq<Word>>, m': Memory, tick': nat)
    requires Planned(p, StartImages(p, n, m, startImage))
    requires LoopIs(p, Begin(p, StartImages(p, n, m, startImage), m), fates, tick, rounds, ret, images', m', tick')
    ensures var s := Begin(p, StartImages(p, n, m, startImage), m);
      RunOutcome(p, s, WholeScript(p, s, fates, tick, rounds), startImage, images', m')
  {
    hide Planned, Reach, Explained, Script, AllDelivered, AllShown, OthersUntouched, UnwrittenAreOff, OnlyPokes;
    var s := Begin(p, StartImages(p, n, m, startImage), m);
    var es := WholeScript(p, s, fates, tick, rounds);
    EveryOutcome(p, n, startImage, m, es);
    ShownDespite(p, s, es, images');
  }

  // Take over what the device holds, outputs included.
  method TakeOver(w: TcpCouplerShm, c: Supervisor.Config, start: int) returns (o: Outcome)
    requires w.Valid() && Ready(w.Abs()) && Images(w) == BlankImages(w.imageSize)
    modifies w.modbus.device, w.image.di, w.image.ai, w.image.dout, w.image.ao
    ensures var p, dev := PlanOf(w, c, start), w.modbus.device;
      && dev.mem == old(dev.mem) && Requested(dev.fates, old(dev.tick), dev.tick, PerCycle(p), o.Ok?)
      && (o.Ok? ==> Images(w) == StartImages(p, w.imageSize, dev.mem, true))
  {
    hide Conducted, Exec, Serves, Operational, Fetched, Requested, NoStray, Zeros, FetchReqs, SendReqs;
    ghost var dev := w.modbus.device;
    ghost var p, tick := PlanOf(w, c, start), dev.tick;
    RequestLists(w, c, start) by { ReadyConnected(w.Abs()); }
    ReadyIsSafe(w.Abs(), DI);
    ReadyIsSafe(w.Abs(), DO);
    ReadyIsSafe(w.Abs(), AI);
    ReadyIsSafe(w.Abs(), AO);
    assert w.modbus.connected by { ReadyConnected(w.Abs()); }
    o := w.FetchImage(true);
    ConductedRuns(dev.fates, dev.mem, tick, w.FetchAllList(true), o, dev.mem, dev.tick);
    forall t: RegType { FetchedUsable(w, t, Zeros(w.imageSize.At(t))); }
  }

  // Connect and set up, describe the coupler, optionally take over the device's outputs,
  // then run the loop.
  method Program(w: TcpCouplerShm, memories: nat, quiet: bool, startImage: bool, c: Supervisor.Config, start: int,
                 rounds: seq<Round>)
    returns (e: Ending)
    requires w.Valid() && w.Abs() == FRESH
    modifies w, w.modbus, w.modbus.device
    ensures var dev, p := w.modbus.device, PlanOf(w, c, start);
      var (life, init) := Lifecycle.Init(w.host, FRESH, old(w.Meets(memories)));
      var m, t0 := old(dev.mem), old(dev.tick) + 3;
      var t1 := t0 + if quiet then 0 else |INFO_BLOCKS|;
      var t2 := t1 + if startImage then PerCycle(p) else 0;
      var begin := Begin(p, StartImages(p, w.imageSize, m, startImage), m);
      && w.Abs() == life && !DestructionAborts(life)
      && (e == Unavailable <==> init.Threw?)
      && (e == Aborted <==> init.Ok? && !AllServed(dev.fates, t0, t1 - t0))
      && (e == StartFailed <==> init.Ok? && AllServed(dev.fates, t0, t1 - t0) && !AllServed(dev.fates, t1, t2 - t1))
      && (e.Looped() ==>
            LoopIs(p, begin, dev.fates, t2, rounds, e.Code(), Images(w), dev.mem, dev.tick) &&
            RunOutcome(p, begin, WholeScript(p, begin, dev.fates, t2, rounds), startImage, Images(w), dev.mem))
      && (!e.Looped() ==> dev.mem == m)
  {
    hide Serves, InStep, Planned, Conducted, Operational, Lifecycle.Init, Fetched, Zeros, RunOutcome, Usable,
         LoopIs, WholeScript, ServedPrefix, PerCycle, Ready, Requested, FateAt, PlanOf;
    FreshState();
    assert Sound(FRESH);
    FirstInitReady(w.host, w.Meets(memories));
    FirstInitCloses(w.host, w.Meets(memories));
    ghost var fates, m, t0 := w.modbus.device.fates, w.modbus.device.mem, w.modbus.device.tick + 3;
    var o := w.Init(memories);
    if o.Threw? { return Unavailable; }
    ghost var p := PlanOf(w, c, start);
    ReadyConnected(w.Abs());
    assert fresh(w.image.At(DI)) && fresh(w.image.At(DO)) && fresh(w.image.At(AI)) && fresh(w.image.At(AO));
    if !quiet {
      var info := w.CouplerInfo();
      PrefixIff(fates, t0, |INFO_BLOCKS|);
      if !info.Returned? { return Aborted; }
    }
    if startImage {
      ghost var t1 := w.modbus.device.tick;
      o := TakeOver(w, c, start);
      RequestedIff(fates, t1, w.modbus.device.tick, PerCycle(p), o.Ok?);
      if o.Threw? { return StartFailed; }
    }
    ReadyPlanned(w, c, start);
    ghost var t2 := w.modbus.device.tick;
    var ret := Loop(w, c, start, rounds);
    e := if ret.None? then Running else Ended(ret.value);
    LoopOutcome(p, w.imageSize, startImage, m, fates, t2, rounds, ret,
                Images(w), w.modbus.device.mem, w.modbus.device.tick);
  }

  lemma PrefixIff(fates: seq<Fate>, tick: nat, n: nat)
    ensures ServedPrefix(fates, tick, n) == n <==> AllServed(fates, tick, n)
  {
  }

  lemma RequestedIff(fates: seq<Fate>, tick: nat, tick': nat, n: nat, ok: bool)
    requires Requested(fates, tick, tick', n, ok)
    ensures ok <==> AllServed(fates, tick, n)
    ensures ok ==> tick' == tick + n
  {
  }
}
