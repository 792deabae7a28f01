// The events that the program's loop meets on the machine of module Machine, when other
// processes and the plant act between its fetches and sends, and what each phase comes to.
module Scripts {
  import opened Types
  import opened Modbus
  import opened Layout
  import opened Sync
  import opened Machine

  // An event of another process or of the plant.
  type OutsideEvent = e: Event | e.Poke? || e.Plant? witness Plant(DI, 0, 0)

  // ----- requests of a phase and steps of the machine -----------------------------------------

  function FetchReqs(p: Plan): seq<Request> {
    FetchProgram(DI, p.areas.di) + FetchProgram(AI, p.areas.ai)
  }

  function SendReqs(p: Plan, images: PerReg<seq<Word>>): seq<Request> {
    SendProgram(DO, p.areas.dout, images.dout)
  }

  function FateEvent(fates: seq<Fate>, tick: nat, j: nat): Event {
    Transfer(FateAt(fates, tick + j), [])
  }

  function Attempts(fates: seq<Fate>, tick: nat, n: nat): (es: seq<Event>)
    ensures |es| == n
  {
    seq(n, j requires 0 <= j < n => FateEvent(fates, tick, j))
  }

  function PartFetched(p: Plan, s: State, k: nat): PerReg<seq<Word>> {
    s.images.(
      di := Gathered(DI, s.images.di, p.areas.di, s.mem.di, AreasDone(p, DI, k)),
      ai := Gathered(AI, s.images.ai, p.areas.ai, s.mem.ai, AreasDone(p, AI, k)))
  }

  // The machine has given up on a transfer: only the fetched images may have changed.
  predicate GaveUp(s: State, w: State) {
    w == s.(phase := Exited(EX_SOFTWARE), images := w.images, mem := w.mem) &&
    w.images.dout == s.images.dout && w.images.ao == s.images.ao
  }

  lemma FetchReqAt(p: Plan, k: nat)
    requires k < |FetchJobs(p)|
    ensures |FetchReqs(p)| == |FetchJobs(p)|
    ensures FetchReqs(p)[k] == FetchRequest(FetchJobs(p)[k].t, FetchJobs(p)[k].area)
    ensures FetchJobs(p)[k].t == DI || FetchJobs(p)[k].t == AI
  {
  }

  lemma FetchReqQuiet(p: Plan, m: Memory, k: nat)
    requires k < |FetchReqs(p)|
    ensures Effect(m, FetchReqs(p)[k]) == m && !FetchReqs(p)[k].Stray?
  {
  }

  lemma PartFetchedStep(p: Plan, s: State, k: nat)
    requires k < |FetchJobs(p)|
    ensures var j := FetchJobs(p)[k];
      var before := PartFetched(p, s, k);
      PartFetched(p, s, k + 1) ==
        before.With(j.t, Overlay(before.At(j.t), j.area.offset, Window(s.mem.At(j.t), j.area.addr, j.area.size)))
  {
    hide Overlay, Window, FetchJobs;
    FetchJobAt(p, k);
  }

  lemma FetchedWhole(p: Plan, s: State)
    ensures PartFetched(p, s, |FetchJobs(p)|) == s.images.(
      di := Fetched(DI, s.images.di, p.areas.di, s.mem), ai := Fetched(AI, s.images.ai, p.areas.ai, s.mem))
    ensures PartFetched(p, s, 0) == s.images
  {
  }

  lemma FetchMoves(p: Plan, s: State, k: nat, f: Fate)
    requires s.phase.Fetching? && k < |FetchJobs(p)|
    ensures var w := Next(p, s.(images := PartFetched(p, s, k), phase := Fetching(k)), Transfer(f, []));
      if f == Served then w == s.(images := PartFetched(p, s, k + 1), phase := Fetching(k + 1))
      else w.mem == s.mem && GaveUp(s, w)
  {
    hide PartFetched, FetchJobs, Overlay, Window;
    FetchReqAt(p, k);
    PartFetchedStep(p, s, k);
    PartKeepsOutputs(p, s, k);
  }

  lemma PartKeepsOutputs(p: Plan, s: State, k: nat)
    ensures PartFetched(p, s, k).dout == s.images.dout && PartFetched(p, s, k).ao == s.images.ao
  {
  }

  lemma {:induction false} FetchRun(p: Plan, s: State, fates: seq<Fate>, tick: nat, n: nat, k: nat)
    requires s.phase == Fetching(0) && k <= n == |FetchJobs(p)|
    ensures |FetchReqs(p)| == n
    ensures var w := Reach(p, s, Attempts(fates, tick, n), k);
      var r := Exec(fates, Start(s.mem, tick), FetchReqs(p), k);
      && r.mem == s.mem && w.mem == s.mem && !r.status.Stuck?
      && (r.status.Going? ==> r.tick == tick + k && w == s.(images := PartFetched(p, s, k), phase := Fetching(k)))
      && (!r.status.Going? ==> GaveUp(s, w))
  {
    hide PartFetched, FetchReqs, FetchJobs, Next, Effect, Reply, GaveUp;
    FetchedWhole(p, s);
    SameLength(p);
    if k > 0 {
      FetchRun(p, s, fates, tick, n, k - 1);
      FetchReqQuiet(p, s.mem, k - 1);
      FetchMoves(p, s, k - 1, FateAt(fates, tick + k - 1));
      assert Attempts(fates, tick, n)[k - 1] == Transfer(FateAt(fates, tick + k - 1), []);
      GaveUpStays(p, s, Reach(p, s, Attempts(fates, tick, n), k - 1), Attempts(fates, tick, n)[k - 1]);
    }
  }

  lemma GaveUpStays(p: Plan, s: State, w: State, e: Event)
    requires e.Transfer?
    ensures GaveUp(s, w) ==> Next(p, w, e) == w
  {
  }

  lemma SameLength(p: Plan)
    ensures |FetchReqs(p)| == |FetchJobs(p)|
  {
  }

  lemma SendReqAt(p: Plan, images: PerReg<seq<Word>>, k: nat)
    requires p.areas.ao == [] && k < |SendJobs(p)|
    ensures SendReqs(p, images)[k] == Payload(p, images, SendJobs(p)[k])
  {
    SendJobAt(p, k);
  }

  lemma SendMoves(p: Plan, s: State, m: Memory, k: nat, f: Fate)
    requires s.phase.Sending? && p.areas.ao == [] && k < |SendJobs(p)|
    ensures var q := SendReqs(p, s.images)[k];
      var w := Next(p, s.(mem := m, phase := Sending(k)), Transfer(f, []));
      if f == Served then w == s.(mem := Effect(m, q), phase := Sending(k + 1))
      else w.mem == (if f == Lost then m else Effect(m, q)) && GaveUp(s, w) && w.images == s.images
  {
    hide SendJobs, Effect, SendReqs, Payload;
    SendReqAt(p, s.images, k);
  }

  lemma {:induction false} SendRun(p: Plan, s: State, fates: seq<Fate>, tick: nat, n: nat, k: nat)
    requires s.phase == Sending(0) && p.areas.ao == [] && k <= n == |SendJobs(p)|
    ensures |SendReqs(p, s.images)| == n
    ensures var w := Reach(p, s, Attempts(fates, tick, n), k);
      var r := Exec(fates, Start(s.mem, tick), SendReqs(p, s.images), k);
      && w.mem == r.mem && !r.status.Stuck?
      && (r.status.Going? ==> r.tick == tick + k && w == s.(mem := r.mem, phase := Sending(k)))
      && (!r.status.Going? ==> GaveUp(s, w) && w.images == s.images)
  {
    hide Effect, SendJobs, Next, Reply, GaveUp;
    SendJobAt(p, 0);
    if k > 0 {
      SendRun(p, s, fates, tick, n, k - 1);
      var before := Exec(fates, Start(s.mem, tick), SendReqs(p, s.images), k - 1);
      assert !SendReqs(p, s.images)[k - 1].Stray?;
      SendMoves(p, s, before.mem, k - 1, FateAt(fates, tick + k - 1));
      assert Attempts(fates, tick, n)[k - 1] == Transfer(FateAt(fates, tick + k - 1), []);
      GaveUpStays(p, s, Reach(p, s, Attempts(fates, tick, n), k - 1), Attempts(fates, tick, n)[k - 1]);
    }
  }

  lemma {:induction false} ReachFront(p: Plan, s: State, xs: seq<Event>, ys: seq<Event>, k: nat)
    requires k <= |xs|
    ensures Reach(p, s, xs + ys, k) == Reach(p, s, xs, k)
  {
    hide Next;
    if k > 0 { ReachFront(p, s, xs, ys, k - 1); }
  }

  lemma {:induction false} ReachAppend(p: Plan, s: State, xs: seq<Event>, ys: seq<Event>, k: nat)
    requires k <= |ys|
    ensures Reach(p, s, xs + ys, |xs| + k) == Reach(p, Reach(p, s, xs, |xs|), ys, k)
  {
    hide Next;
    if k == 0 { ReachFront(p, s, xs, ys, |xs|); } else { ReachAppend(p, s, xs, ys, k - 1); }
  }

  lemma ReachSplit(p: Plan, s: State, es: seq<Event>, k: nat)
    requires k <= |es|
    ensures Reach(p, s, es, |es|) == Reach(p, Reach(p, s, es, k), es[k..], |es| - k)
  {
    hide Reach;
    assert es[..k] + es[k..] == es;
    ReachFront(p, s, es[..k], es[k..], k);
    ReachAppend(p, s, es[..k], es[k..], |es| - k);
  }

  // The events turn s into w.
  ghost predicate Leads(p: Plan, s: State, es: seq<Event>, w: State) {
    Reach(p, s, es, |es|) == w
  }

  lemma LeadsOn(p: Plan, s: State, xs: seq<Event>, w: State, ys: seq<Event>, v: State)
    requires Leads(p, s, xs, w) && Leads(p, w, ys, v)
    ensures Leads(p, s, xs + ys, v)
  {
    hide Reach;
    ReachAppend(p, s, xs, ys, |ys|);
  }

  lemma LeadsOne(p: Plan, s: State, e: Event)
    ensures Leads(p, s, [e], Next(p, s, e))
  {
    hide Next;
    assert Reach(p, s, [e], 0) == s;
  }

  // More events, unless the run is over by then.
  function Then(p: Plan, s: State, xs: seq<Event>, ys: seq<Event>): seq<Event> {
    if Reach(p, s, xs, |xs|).phase.Exited? then xs else xs + ys
  }

  lemma LeadsThen(p: Plan, s: State, xs: seq<Event>, w: State, ys: seq<Event>, v: State)
    requires Leads(p, s, xs, w)
    requires if w.phase.Exited? then v == w else Leads(p, w, ys, v)
    ensures Leads(p, s, Then(p, s, xs, ys), v)
  {
    hide Reach;
    if !w.phase.Exited? { LeadsOn(p, s, xs, w, ys, v); }
  }

  // ----- the events of a round ---------------------------------------------------------------

  // One evaluation of the loop condition and the cycle after it: the value the condition
  // sees, what happens outside before the fetch and before the send, the clock reading.
  datatype Round = Round(stop: bool, early: seq<OutsideEvent>, late: seq<OutsideEvent>, now: int)

  function Clock(rounds: seq<Round>): (clock: seq<int>)
    ensures |clock| == |rounds|
  {
    seq(|rounds|, n requires 0 <= n < |rounds| => rounds[n].now)
  }

  // What the device's script makes of a fetch whose first request has number `tick`, and of
  // a send. After a failure the machine has exited and the remaining ones pass it by.
  function FetchEvents(p: Plan, fates: seq<Fate>, tick: nat): seq<Event> {
    Attempts(fates, tick, |FetchJobs(p)|) + [Turn]
  }

  function SendEvents(p: Plan, fates: seq<Fate>, tick: nat): seq<Event> {
    Attempts(fates, tick, |SendJobs(p)|) + [Turn]
  }

  function ExchangeEvents(p: Plan, s: State, fates: seq<Fate>, tick: nat, r: Round): seq<Event> {
    Then(p, s, [Pass(false)] + r.early + FetchEvents(p, fates, tick),
         r.late + SendEvents(p, fates, tick + |FetchJobs(p)|))
  }

  function RoundEvents(p: Plan, s: State, fates: seq<Fate>, tick: nat, r: Round): seq<Event> {
    if r.stop then [Pass(true)] else Then(p, s, ExchangeEvents(p, s, fates, tick, r), [Tick(r.now)])
  }

  function PerCycle(p: Plan): nat {
    |FetchJobs(p)| + |SendJobs(p)|
  }

  // The number of the first request of round n.
  function TickOf(p: Plan, tick: nat, n: nat): nat {
    if n == 0 then tick else TickOf(p, tick, n - 1) + PerCycle(p)
  }

  // Everything the machine meets in n rounds, or until it exits: each part of it is one of
  // the parameters.
  function Script(p: Plan, s: State, fates: seq<Fate>, tick: nat, rounds: seq<Round>, n: nat): seq<Event>
    requires n <= |rounds|
  {
    if n == 0 then []
    else
      var es := Script(p, s, fates, tick, rounds, n - 1);
      Then(p, s, es, RoundEvents(p, Reach(p, s, es, |es|), fates, TickOf(p, tick, n - 1), rounds[n - 1]))
  }

  function WholeScript(p: Plan, s: State, fates: seq<Fate>, tick: nat, rounds: seq<Round>): seq<Event> {
    Script(p, s, fates, tick, rounds, |rounds|)
  }

  // Where the whole script leads.
  function RunOf(p: Plan, s: State, fates: seq<Fate>, tick: nat, rounds: seq<Round>): State {
    var es := WholeScript(p, s, fates, tick, rounds);
    Reach(p, s, es, |es|)
  }

  // One more round of the script.
  lemma ScriptOn(p: Plan, s: State, w: State, v: State, fates: seq<Fate>, tick: nat, rounds: seq<Round>, n: nat)
    requires n < |rounds| && Leads(p, s, Script(p, s, fates, tick, rounds, n), w) && !w.phase.Exited?
    requires Leads(p, w, RoundEvents(p, w, fates, TickOf(p, tick, n), rounds[n]), v)
    ensures Leads(p, s, Script(p, s, fates, tick, rounds, n + 1), v)
    ensures v.phase.Exited? ==> v == RunOf(p, s, fates, tick, rounds)
  {
    hide RoundEvents, TickOf, Then, Reach;
    LeadsThen(p, s, Script(p, s, fates, tick, rounds, n), w,
              RoundEvents(p, w, fates, TickOf(p, tick, n), rounds[n]), v);
    if v.phase.Exited? { ScriptStays(p, s, fates, tick, rounds, n + 1, |rounds|, v); }
  }

  // A run that has exited in some round has met all of its script.
  lemma {:induction false} ScriptStays(p: Plan, s: State, fates: seq<Fate>, tick: nat, rounds: seq<Round>,
                                       n: nat, m: nat, w: State)
    requires n <= m <= |rounds| && w.phase.Exited? && Leads(p, s, Script(p, s, fates, tick, rounds, n), w)
    ensures Script(p, s, fates, tick, rounds, m) == Script(p, s, fates, tick, rounds, n)
    ensures Leads(p, s, Script(p, s, fates, tick, rounds, m), w)
  {
    hide RoundEvents, TickOf, Reach;
    if n < m { ScriptStays(p, s, fates, tick, rounds, n, m - 1, w); }
  }

  // Whatever happens outside in a script is what happens outside in one of its rounds.
  ghost predicate Theirs(e: Event, rounds: seq<Round>) {
    e.Poke? || e.Plant? ==> exists n :: 0 <= n < |rounds| && InRound(e, rounds[n])
  }

  predicate InRound(e: Event, r: Round) {
    e in r.early || e in r.late
  }

  lemma RoundTheirs(p: Plan, s: State, fates: seq<Fate>, tick: nat, r: Round, e: Event)
    requires e in RoundEvents(p, s, fates, tick, r) && (e.Poke? || e.Plant?)
    ensures InRound(e, r)
  {
    hide Reach, FetchJobs, SendJobs;
    assert e !in FetchEvents(p, fates, tick) && e !in SendEvents(p, fates, tick + |FetchJobs(p)|);
  }

  lemma {:induction false} ScriptTheirs(p: Plan, s: State, fates: seq<Fate>, tick: nat, rounds: seq<Round>, n: nat)
    requires n <= |rounds|
    ensures forall e :: e in Script(p, s, fates, tick, rounds, n) ==> Theirs(e, rounds)
  {
    hide RoundEvents, TickOf, Reach, InRound;
    if n > 0 {
      ScriptTheirs(p, s, fates, tick, rounds, n - 1);
      var es := Script(p, s, fates, tick, rounds, n - 1);
      var w, t := Reach(p, s, es, |es|), TickOf(p, tick, n - 1);
      forall e | e in RoundEvents(p, w, fates, t, rounds[n - 1]) ensures Theirs(e, rounds) {
        if e.Poke? || e.Plant? { RoundTheirs(p, w, fates, t, rounds[n - 1], e); }
      }
    }
  }

  // ----- the phases ----------------------------------------------------------------------------

  lemma FetchPhase(p: Plan, s: State, fates: seq<Fate>, tick: nat) returns (w: State)
    requires s.phase == Fetching(0)
    ensures Leads(p, s, FetchEvents(p, fates, tick), w) && w.mem == s.mem
    ensures var r := Exec(fates, Start(s.mem, tick), FetchReqs(p), |FetchReqs(p)|);
      && r.mem == s.mem
      && (r.status.Going? ==> w == s.(phase := Sending(0), fetches := s.fetches + 1,
            images := s.images.(di := Fetched(DI, s.images.di, p.areas.di, s.mem),
                                ai := Fetched(AI, s.images.ai, p.areas.ai, s.mem))))
      && (!r.status.Going? ==> GaveUp(s, w))
  {
    hide Reach, FetchReqs, FetchJobs, PartFetched, Exec, Fetched, Attempts;
    var n := |FetchJobs(p)|;
    FetchRun(p, s, fates, tick, n, n);
    FetchedWhole(p, s);
    var v := Reach(p, s, Attempts(fates, tick, n), n);
    w := Next(p, v, Turn);
    LeadsOne(p, v, Turn);
    LeadsOn(p, s, Attempts(fates, tick, n), v, [Turn], w);
  }

  lemma SendPhase(p: Plan, s: State, fates: seq<Fate>, tick: nat) returns (w: State)
    requires s.phase == Sending(0) && p.areas.ao == []
    ensures Leads(p, s, SendEvents(p, fates, tick), w)
    ensures var r := Exec(fates, Start(s.mem, tick), SendReqs(p, s.images), |SendReqs(p, s.images)|);
      && w.mem == r.mem
      && (r.status.Going? ==> w == s.(mem := r.mem, sends := s.sends + 1,
            phase := if p.timing.cycleTime == 0 then Gate else Timing))
      && (!r.status.Going? ==> GaveUp(s, w) && w.images == s.images)
  {
    hide Reach, SendReqs, SendJobs, Exec, Attempts;
    var n := |SendJobs(p)|;
    SendRun(p, s, fates, tick, n, n);
    var v := Reach(p, s, Attempts(fates, tick, n), n);
    w := Next(p, v, Turn);
    LeadsOne(p, v, Turn);
    LeadsOn(p, s, Attempts(fates, tick, n), v, [Turn], w);
  }

  // ----- what a failed fetch leaves -----------------------------------------------------------

  // The images of both agree, but for what a failed request has spoiled.
  ghost predicate InputsAgree(p: Plan, s: State, es: seq<Event>, a: PerReg<seq<Word>>, b: PerReg<seq<Word>>) {
    forall t: RegType :: t == DI || t == AI ==>
      |a.At(t)| == |b.At(t)| &&
      forall i :: 0 <= i < |a.At(t)| && !Spoiled(p, s, es, |es|, t, i) ==> a.At(t)[i] == b.At(t)[i]
  }

  lemma SpoiledOn(p: Plan, s: State, xs: seq<Event>, ys: seq<Event>, t: RegType, i: nat)
    requires Spoiled(p, Reach(p, s, xs, |xs|), ys, |ys|, t, i)
    ensures Spoiled(p, s, xs + ys, |xs + ys|, t, i)
  {
    hide Spoils, Next;
    var w := Reach(p, s, xs, |xs|);
    var x :| 0 <= x < |ys| && Spoils(p, Reach(p, w, ys, x), ys[x], t, i);
    ReachAppend(p, s, xs, ys, x);
    assert (xs + ys)[|xs| + x] == ys[x];
    assert Spoils(p, Reach(p, s, xs + ys, |xs| + x), (xs + ys)[|xs| + x], t, i);
  }

  lemma AgreeOn(p: Plan, s: State, xs: seq<Event>, w: State, ys: seq<Event>, a: PerReg<seq<Word>>, b: PerReg<seq<Word>>)
    requires Leads(p, s, xs, w) && InputsAgree(p, w, ys, a, b)
    ensures InputsAgree(p, s, xs + ys, a, b)
  {
    hide Spoiled, Reach;
    forall t: RegType, i: nat | (t == DI || t == AI) && Spoiled(p, w, ys, |ys|, t, i)
      ensures Spoiled(p, s, xs + ys, |xs + ys|, t, i)
    {
      SpoiledOn(p, s, xs, ys, t, i);
    }
  }

  // Request j of a fetch is to bring input i.
  predicate Brings(p: Plan, j: nat, t: RegType, i: nat)
    requires j < |FetchJobs(p)|
  {
    FetchJobs(p)[j].t == t && Covers(FetchJobs(p)[j].area, i)
  }

  // The fetch whose request number j is the first that fails shows what the requests before
  // it brought, and spoils at most what that one was to bring.
  lemma FetchBreaks(p: Plan, s: State, fates: seq<Fate>, tick: nat, j: nat, t: RegType, i: nat)
    requires s.phase == Fetching(0) && j < |FetchJobs(p)| && i < |s.images.At(t)|
    requires AllServed(fates, tick, j) && FateAt(fates, tick + j) != Served
    ensures var es := FetchEvents(p, fates, tick);
      var w := Reach(p, s, es, |es|);
      && |w.images.At(t)| == |PartFetched(p, s, j).At(t)| == |s.images.At(t)|
      && (Brings(p, j, t, i) ==> Spoiled(p, s, es, |es|, t, i))
      && (!Brings(p, j, t, i) ==> w.images.At(t)[i] == PartFetched(p, s, j).At(t)[i])
  {
    hide PartFetched, FetchJobs, Next, Reach, Exec, FetchReqs, Attempts, Spoils, Start, Brings;
    var n, es := |FetchJobs(p)|, FetchEvents(p, fates, tick);
    var xs := Attempts(fates, tick, n);
    var at, e := s.(images := PartFetched(p, s, j), phase := Fetching(j)), es[j];
    FetchRun(p, s, fates, tick, n, j);
    FetchReqsPlain(p);
    ServedGoes(fates, s.mem, tick, FetchReqs(p), j);
    AttemptAt(fates, tick, n, j);
    ReachFront(p, s, xs, [Turn], j);
    BreakStep(p, s, at, j, e, t, i);
    ReachStep(p, s, es, j);
    StaysBroken(p, s, es, j + 1, |es|);
    assert Spoils(p, at, e, t, i) ==> Spoils(p, Reach(p, s, es, j), es[j], t, i);
  }

  lemma FetchReqsPlain(p: Plan)
    ensures NoStray(FetchReqs(p))
  {
  }

  lemma PartLength(p: Plan, s: State, k: nat, t: RegType)
    ensures |PartFetched(p, s, k).At(t)| == |s.images.At(t)|
  {
  }

  lemma ServedGoes(fates: seq<Fate>, m: Memory, tick: nat, qs: seq<Request>, k: nat)
    requires NoStray(qs) && k <= |qs| && AllServed(fates, tick, k)
    ensures Exec(fates, Start(m, tick), qs, k).status.Going?
  {
    ExecServed(fates, Start(m, tick), qs, k);
  }

  lemma AttemptAt(fates: seq<Fate>, tick: nat, n: nat, j: nat)
    requires j < n
    ensures Attempts(fates, tick, n)[j] == Transfer(FateAt(fates, tick + j), [])
    ensures forall k :: 0 <= k < n ==> Attempts(fates, tick, n)[k].Transfer?
  {
  }

  lemma ReachStep(p: Plan, s: State, es: seq<Event>, k: nat)
    requires k < |es|
    ensures Reach(p, s, es, k + 1) == Next(p, Reach(p, s, es, k), es[k])
  {
  }

  lemma {:induction false} StaysBroken(p: Plan, s: State, es: seq<Event>, k: nat, n: nat)
    requires k <= n <= |es| && Reach(p, s, es, k).phase.Exited?
    requires forall j :: k <= j < n ==> es[j].Transfer? || es[j].Turn?
    ensures Reach(p, s, es, n) == Reach(p, s, es, k)
  {
    if k < n { StaysBroken(p, s, es, k, n - 1); }
  }

  lemma BreakStep(p: Plan, s: State, at: State, j: nat, e: Event, t: RegType, i: nat)
    requires j < |FetchJobs(p)| && at == s.(images := PartFetched(p, s, j), phase := Fetching(j))
    requires e.Transfer? && e.fate != Served && i < |s.images.At(t)|
    ensures var w := Next(p, at, e);
      && w.phase.Exited? && |w.images.At(t)| == |PartFetched(p, s, j).At(t)| == |s.images.At(t)|
      && (Brings(p, j, t, i) ==> Spoils(p, at, e, t, i))
      && (!Brings(p, j, t, i) ==> w.images.At(t)[i] == PartFetched(p, s, j).At(t)[i])
  {
    hide FetchJobs, Overlay, Window, PartFetched;
    var job := FetchJobs(p)[j];
    PartLength(p, s, j, t);
    if job.t == t && !Covers(job.area, i) {
      NotOverlaid(at.images.At(t), job.area, Window(e.junk, 0, job.area.size), i);
    }
  }
}
