// The cyclic program, one request at a time, with everything that can happen around it:
// other processes write the shared images and the plant changes its inputs between any
// two steps; requests fail; a signal asks the loop to stop.
module Machine {
  import opened Types
  import opened Modbus
  import opened Endian
  import opened Layout
  import opened Sync
  import Supervisor

  datatype Plan = Plan(host: Host, areas: PerReg<seq<Area>>, timing: Supervisor.Config, start: int)

  datatype Exit = EX_OK | EX_SOFTWARE | EX_TEMPFAIL
  datatype Phase = Gate | Fetching(done: nat) | Sending(done: nat) | Timing | Exited(code: Exit)

  datatype Job = Job(t: RegType, area: Area)

  function Jobs(t: RegType, areas: seq<Area>): (js: seq<Job>)
    ensures |js| == |areas|
  {
    seq(|areas|, k requires 0 <= k < |areas| => Job(t, areas[k]))
  }

  function FetchJobs(p: Plan): seq<Job> {
    Jobs(DI, p.areas.di) + Jobs(AI, p.areas.ai)
  }

  function SendJobs(p: Plan): seq<Job> {
    Jobs(DO, p.areas.dout) + Jobs(AO, p.areas.ao)
  }

  // The clock readings and the numbers of completed fetches and sends are kept as a log.
  datatype State = State(
    phase: Phase,
    images: PerReg<seq<Word>>,
    mem: Memory,
    sup: Supervisor.State,
    clock: seq<int>,
    fetches: nat,
    sends: nat)

  datatype Event =
    | Poke(t: RegType, i: nat, v: Word)        // another process writes a shared image
    | Plant(input: RegType, a: nat, v: Word)   // the plant changes an input cell
    | Pass(stop: bool)                         // the loop condition
    | Transfer(fate: Fate, junk: seq<Word>)    // the next request of the fetch or the send
    | Turn                                     // all requests of it are done
    | Tick(now: int)                           // the timing block

  function Poked(image: seq<Word>, i: nat, v: Word): (r: seq<Word>)
    ensures |r| == |image|
  {
    if i < |image| then image[i := v] else image
  }

  function PlantCells(cells: Cells, a: nat, v: Word): Cells {
    if a < ADDRESSES then cells[a := v] else cells
  }

  function Planted(m: Memory, t: RegType, a: nat, v: Word): Memory {
    match t
    case DI => m.(di := PlantCells(m.di, a, Bit(v)))
    case AI => m.(ai := PlantCells(m.ai, a, v))
    case _ => m
  }

  // What a send job puts on the wire: coils in any case, the analog image as its bytes.
  function Payload(p: Plan, images: PerReg<seq<Word>>, j: Job): Request {
    SendRequest(DO, j.area, if j.t.AO? then ByteView(p.host, images.ao) else images.dout)
  }

  function FetchStep(p: Plan, s: State, j: Job, fate: Fate, junk: seq<Word>): State
    requires s.phase.Fetching?
  {
    var image := s.images.At(j.t);
    if fate == Served then
      s.(images := s.images.With(j.t, Overlay(image, j.area.offset, Window(s.mem.At(j.t), j.area.addr, j.area.size))),
         phase := Fetching(s.phase.done + 1))
    else
      s.(images := s.images.With(j.t, Overlay(image, j.area.offset, Window(junk, 0, j.area.size))),
         phase := Exited(EX_SOFTWARE))
  }

  function SendStep(p: Plan, s: State, j: Job, fate: Fate): State
    requires s.phase.Sending?
  {
    var q := Payload(p, s.images, j);
    match fate
    case Served => s.(mem := Effect(s.mem, q), phase := Sending(s.phase.done + 1))
    case Lost => s.(phase := Exited(EX_SOFTWARE))
    case ReplyLost => s.(mem := Effect(s.mem, q), phase := Exited(EX_SOFTWARE))
  }

  function TimingStep(p: Plan, s: State, now: int): State {
    var next := Supervisor.Step(p.timing, s.sup, now);
    var logged := s.(clock := s.clock + [now]);
    if Supervisor.Late(p.timing, s.sup, now) && !p.timing.noFail && next.fail > Supervisor.MAX_FAIL then
      logged.(sup := s.sup.(fail := next.fail), phase := Exited(EX_TEMPFAIL))
    else
      logged.(sup := next, phase := Gate)
  }

  // Events that do not fit the phase change nothing.
  function Next(p: Plan, s: State, e: Event): State {
    match e
    case Poke(t, i, v) => s.(images := s.images.With(t, Poked(s.images.At(t), i, v)))
    case Plant(t, a, v) => s.(mem := Planted(s.mem, t, a, v))
    case Pass(stop) => if s.phase.Gate? then s.(phase := if stop then Exited(EX_OK) else Fetching(0)) else s
    case Transfer(fate, junk) =>
      if s.phase.Fetching? && s.phase.done < |FetchJobs(p)| then FetchStep(p, s, FetchJobs(p)[s.phase.done], fate, junk)
      else if s.phase.Sending? && s.phase.done < |SendJobs(p)| then SendStep(p, s, SendJobs(p)[s.phase.done], fate)
      else s
    case Turn =>
      if s.phase == Fetching(|FetchJobs(p)|) then s.(phase := Sending(0), fetches := s.fetches + 1)
      else if s.phase == Sending(|SendJobs(p)|) then
        s.(phase := if p.timing.cycleTime == 0 then Gate else Timing, sends := s.sends + 1)
      else s
    case Tick(now) => if s.phase.Timing? then TimingStep(p, s, now) else s
  }

  function Reach(p: Plan, s: State, es: seq<Event>, k: nat): State
    requires k <= |es|
  {
    if k == 0 then s else Next(p, Reach(p, s, es, k - 1), es[k - 1])
  }

  // ----- the outputs belong to the other processes ---------------------------------------

  // An image after only the writes of other processes to it.
  function OnlyPokes(image: seq<Word>, t: RegType, es: seq<Event>, k: nat): seq<Word>
    requires k <= |es|
  {
    if k == 0 then image
    else
      var before := OnlyPokes(image, t, es, k - 1);
      if es[k - 1].Poke? && es[k - 1].t == t then Poked(before, es[k - 1].i, es[k - 1].v) else before
  }

  // Whatever happens in whatever order, the program itself never touches the output images.
  lemma {:induction false} OutputsOnlyPoked(p: Plan, s: State, es: seq<Event>, k: nat)
    requires k <= |es|
    ensures Reach(p, s, es, k).images.dout == OnlyPokes(s.images.dout, DO, es, k)
    ensures Reach(p, s, es, k).images.ao == OnlyPokes(s.images.ao, AO, es, k)
  {
    hide FetchJobs, SendJobs, FetchStep, SendStep, TimingStep;
    if k > 0 {
      OutputsOnlyPoked(p, s, es, k - 1);
      StepLeavesOutputs(p, Reach(p, s, es, k - 1), es[k - 1]);
    }
  }

  // That is: each signal has the value last written to it, if any was.
  lemma {:induction false} LastPokeWins(image: seq<Word>, t: RegType, es: seq<Event>, k: nat, i: nat, j: nat)
    requires j < k <= |es| && i < |image| && es[j].Poke? && es[j].t == t && es[j].i == i
    requires forall h :: j < h < k && es[h].Poke? && es[h].t == t ==> es[h].i != i
    ensures |OnlyPokes(image, t, es, k)| == |image| && OnlyPokes(image, t, es, k)[i] == es[j].v
  {
    PokesKeepSize(image, t, es, k - 1);
    if j < k - 1 { LastPokeWins(image, t, es, k - 1, i, j); }
  }

  lemma {:induction false} NeverPoked(image: seq<Word>, t: RegType, es: seq<Event>, k: nat, i: nat)
    requires k <= |es| && i < |image|
    requires forall h :: 0 <= h < k && es[h].Poke? && es[h].t == t ==> es[h].i != i
    ensures |OnlyPokes(image, t, es, k)| == |image| && OnlyPokes(image, t, es, k)[i] == image[i]
  {
    if k > 0 { NeverPoked(image, t, es, k - 1, i); }
  }

  lemma {:induction false} PokesKeepSize(image: seq<Word>, t: RegType, es: seq<Event>, k: nat)
    requires k <= |es|
    ensures |OnlyPokes(image, t, es, k)| == |image|
  {
    if k > 0 { PokesKeepSize(image, t, es, k - 1); }
  }

  lemma StepLeavesOutputs(p: Plan, s: State, e: Event)
    ensures !e.Poke? ==> Next(p, s, e).images.dout == s.images.dout && Next(p, s, e).images.ao == s.images.ao
  {
    if s.phase.Fetching? && s.phase.done < |FetchJobs(p)| {
      var j := FetchJobs(p)[s.phase.done];
      assert j.t == DI || j.t == AI;
    }
  }

  // The plan of a coupler in use: every image is served by its areas, and analog
  // outputs have none.
  ghost predicate Planned(p: Plan, images: PerReg<seq<Word>>) {
    && Serves(DI, p.areas.di, |images.di|) && Serves(DO, p.areas.dout, |images.dout|)
    && Serves(AI, p.areas.ai, |images.ai|)
    && p.areas.ao == [] && images.ao == []
  }

  lemma StepKeepsSizes(p: Plan, s: State, e: Event)
    ensures forall t: RegType :: |Next(p, s, e).images.At(t)| == |s.images.At(t)|
  {
    hide Overlay, Window, Poked, FetchJobs, SendJobs, Payload;
  }

  // ----- what a send delivers ---------------------------------------------------------------

  lemma SendCell(m: Memory, image: seq<Word>, a: Area, i: nat)
    requires Follows(DO, a) && i < |image| <= MaxSize(DO)
    ensures Address(DO, i) < ADDRESSES
    ensures Effect(m, SendRequest(DO, a, image)).dout[Address(DO, i)] ==
      if Covers(a, i) then Bit(image[i]) else m.dout[Address(DO, i)]
  {
    if Covers(a, i) { FollowsAddress(DO, a, i); } else { NotItsAddress(DO, a, i); }
  }

  // While a send runs: output i holds v, and its coil does too once its area is sent.
  ghost predicate CellSent(p: Plan, s: State, i: nat, v: Word) {
    && s.phase.Sending? && s.phase.done <= |p.areas.dout|
    && i < |s.images.dout| && s.images.dout[i] == v
    && Address(DO, i) < ADDRESSES
    && (Covered(p.areas.dout, s.phase.done, i) ==> s.mem.dout[Address(DO, i)] == Bit(v))
  }

  lemma SendJobAt(p: Plan, k: nat)
    requires p.areas.ao == []
    ensures |SendJobs(p)| == |p.areas.dout|
    ensures k < |p.areas.dout| ==> SendJobs(p)[k] == Job(DO, p.areas.dout[k])
  {
  }

  lemma CellSentStep(p: Plan, s: State, e: Event, i: nat, v: Word)
    requires Planned(p, s.images) && CellSent(p, s, i, v)
    requires e.Poke? && e.t == DO ==> e.i != i
    requires Next(p, s, e).phase.Sending?
    ensures CellSent(p, Next(p, s, e), i, v)
  {
    hide Serves, Stored, Effect, FetchStep, TimingStep, SendJobs, FetchJobs;
    var k := s.phase.done;
    SendJobAt(p, k);
    if e.Transfer? && k < |p.areas.dout| {
      AreaFollows(p, s.images, k);
      SendCell(s.mem, s.images.dout, p.areas.dout[k], i);
      CoveredStep(p.areas.dout, k, i);
    }
  }

  lemma AreaFollows(p: Plan, images: PerReg<seq<Word>>, k: nat)
    requires Planned(p, images) && k < |p.areas.dout|
    ensures Follows(DO, p.areas.dout[k]) && |images.dout| <= MaxSize(DO)
  {
  }

  lemma CoveredStep(areas: seq<Area>, k: nat, i: nat)
    requires k < |areas|
    ensures Covered(areas, k + 1, i) <==> Covered(areas, k, i) || Covers(areas[k], i)
  {
  }

  lemma {:induction false} SizesKept(p: Plan, s: State, es: seq<Event>, k: nat)
    requires k <= |es|
    ensures forall t: RegType :: |Reach(p, s, es, k).images.At(t)| == |s.images.At(t)|
  {
    hide Next;
    if k > 0 {
      SizesKept(p, s, es, k - 1);
      StepKeepsSizes(p, Reach(p, s, es, k - 1), es[k - 1]);
    }
  }

  lemma PlanKept(p: Plan, s: State, es: seq<Event>, k: nat)
    requires k <= |es| && Planned(p, s.images)
    ensures Planned(p, Reach(p, s, es, k).images)
  {
    hide Serves, Reach;
    SizesKept(p, s, es, k);
    var a, b := s.images, Reach(p, s, es, k).images;
    assert |a.At(DI)| == |b.At(DI)| && |a.At(DO)| == |b.At(DO)| && |a.At(AI)| == |b.At(AI)| && |a.At(AO)| == |b.At(AO)|;
  }

  // A send that runs from its first request to its last, interleaved with anything,
  // leaves at the address of every output nobody wrote meanwhile the value of that output.
  lemma {:induction false} SendDelivers(p: Plan, s: State, es: seq<Event>, k: nat, i: nat)
    requires Planned(p, s.images) && s.phase == Sending(0) && k <= |es| && i < |s.images.dout|
    requires forall j :: 0 <= j <= k ==> Reach(p, s, es, j).phase.Sending?
    requires forall j :: 0 <= j < k && es[j].Poke? && es[j].t == DO ==> es[j].i != i
    ensures CellSent(p, Reach(p, s, es, k), i, s.images.dout[i])
    ensures var w := Reach(p, s, es, k); w.phase == Sending(|SendJobs(p)|) ==>
      w.images.dout[i] == s.images.dout[i] && w.mem.dout[Address(DO, i)] == Bit(s.images.dout[i])
  {
    hide Next, Bit, SendJobs;
    SendJobAt(p, 0);
    MappedAddress(p, s.images, i);
    if k > 0 {
      SendDelivers(p, s, es, k - 1, i);
      PlanKept(p, s, es, k - 1);
      assert Reach(p, s, es, k).phase.Sending?;
      CellSentStep(p, Reach(p, s, es, k - 1), es[k - 1], i, s.images.dout[i]);
    }
  }

  lemma MappedAddress(p: Plan, images: PerReg<seq<Word>>, i: nat)
    requires Planned(p, images) && i < |images.dout|
    ensures Address(DO, i) < ADDRESSES
    ensures Covered(p.areas.dout, |p.areas.dout|, i) && !Covered(p.areas.dout, 0, i)
  {
    assert Covered(p.areas.dout, |p.areas.dout|, i);
    var k :| 0 <= k < |p.areas.dout| && Covers(p.areas.dout[k], i);
    FollowsAddress(DO, p.areas.dout[k], i);
  }

  // Once `base` sends are past, the coil of an output that nobody writes holds its value.
  ghost predicate CellSettled(p: Plan, s: State, base: nat, i: nat, v: Word) {
    && i < |s.images.dout| && s.images.dout[i] == v && Address(DO, i) < ADDRESSES
    && (s.sends > base ==> s.mem.dout[Address(DO, i)] == Bit(v))
    && (s.phase.Sending? && s.sends >= base ==> CellSent(p, s, i, v))
  }

  lemma CellSettledStep(p: Plan, s: State, e: Event, base: nat, i: nat, v: Word)
    requires Planned(p, s.images) && CellSettled(p, s, base, i, v)
    requires e.Poke? && e.t == DO ==> e.i != i
    ensures CellSettled(p, Next(p, s, e), base, i, v)
  {
    hide Serves, Stored, Effect, FetchStep, TimingStep, SendJobs, FetchJobs, Address, Bit;
    StepLeavesOutputs(p, s, e);
    MappedAddress(p, s.images, i);
    SendJobAt(p, 0);
    if s.phase.Sending? && s.phase.done < |p.areas.dout| && e.Transfer? {
      SendJobAt(p, s.phase.done);
      AreaFollows(p, s.images, s.phase.done);
      SendCell(s.mem, s.images.dout, p.areas.dout[s.phase.done], i);
    }
    if s.phase.Sending? && s.sends >= base && Next(p, s, e).phase.Sending? { CellSentStep(p, s, e, i, v); }
    if s.phase.Fetching? && s.phase.done < |FetchJobs(p)| && e.Transfer? {
      FetchKeepsMemory(p, s, FetchJobs(p)[s.phase.done], e.fate, e.junk);
    }
    if s.phase.Timing? && e.Tick? { TimingKeepsMemory(p, s, e.now); }
  }

  lemma TimingKeepsMemory(p: Plan, s: State, now: int)
    ensures var w := TimingStep(p, s, now);
      w.mem == s.mem && w.images == s.images && w.sends == s.sends && !w.phase.Sending?
  {
  }

  // The sends that do not count: those completed, and one of which a part is done already.
  function SendsBefore(s: State): nat {
    s.sends + if s.phase.Sending? && s.phase.done > 0 then 1 else 0
  }

  // An output that nobody writes from some moment on, whatever was written before, keeps
  // its value, and from the first send begun and completed since then its coil holds it at
  // every moment.
  lemma {:induction false} OutputSettles(p: Plan, s: State, es: seq<Event>, k: nat, i: nat)
    requires Planned(p, s.images) && k <= |es| && i < |s.images.dout|
    requires forall j :: 0 <= j < k && es[j].Poke? && es[j].t == DO ==> es[j].i != i
    ensures var w := Reach(p, s, es, k);
      && CellSettled(p, w, SendsBefore(s), i, s.images.dout[i])
      && w.images.dout[i] == s.images.dout[i] && Address(DO, i) < ADDRESSES
      && (w.sends > SendsBefore(s) ==> w.mem.dout[Address(DO, i)] == Bit(s.images.dout[i]))
  {
    hide Next, Planned, CellSent, Address, Bit;
    MappedAddress(p, s.images, i);
    if k > 0 {
      OutputSettles(p, s, es, k - 1, i);
      PlanKept(p, s, es, k - 1);
      CellSettledStep(p, Reach(p, s, es, k - 1), es[k - 1], SendsBefore(s), i, s.images.dout[i]);
    } else {
      if s.phase == Sending(0) { NothingSent(p, s, i); }
    }
  }

  lemma NothingSent(p: Plan, s: State, i: nat)
    requires Planned(p, s.images) && i < |s.images.dout| && s.phase == Sending(0)
    ensures CellSent(p, s, i, s.images.dout[i])
  {
    MappedAddress(p, s.images, i);
  }

  // ----- what a fetch delivers ------------------------------------------------------------------

  // How many areas of a type a fetch that has done `done` requests has finished.
  function AreasDone(p: Plan, t: RegType, done: nat): nat {
    if t == DI then (if done < |p.areas.di| then done else |p.areas.di|)
    else if done < |p.areas.di| then 0
    else if done - |p.areas.di| < |p.areas.ai| then done - |p.areas.di| else |p.areas.ai|
  }

  // While a fetch runs: input i's cell holds v, and its image does too once fetched.
  ghost predicate CellFetched(p: Plan, s: State, t: RegType, i: nat, v: Word) {
    && s.phase.Fetching? && s.phase.done <= |FetchJobs(p)| && (t == DI || t == AI)
    && i < |s.images.At(t)| && Address(t, i) < ADDRESSES && s.mem.At(t)[Address(t, i)] == v
    && AreasDone(p, t, s.phase.done) <= |p.areas.At(t)|
    && (Covered(p.areas.At(t), AreasDone(p, t, s.phase.done), i) ==> s.images.At(t)[i] == v)
  }

  lemma FetchCell(t: RegType, image: seq<Word>, a: Area, cells: Cells, i: nat)
    requires Follows(t, a) && i < |image| && Address(t, i) < ADDRESSES
    ensures Overlay(image, a.offset, Window(cells, a.addr, a.size))[i] ==
      if Covers(a, i) then cells[Address(t, i)] else image[i]
  {
    if Covers(a, i) { FollowsAddress(t, a, i); }
  }

  lemma FetchJobAt(p: Plan, k: nat)
    ensures |FetchJobs(p)| == |p.areas.di| + |p.areas.ai|
    ensures k < |p.areas.di| ==> FetchJobs(p)[k] == Job(DI, p.areas.di[k])
    ensures |p.areas.di| <= k < |FetchJobs(p)| ==> FetchJobs(p)[k] == Job(AI, p.areas.ai[k - |p.areas.di|])
  {
  }

  // The event disturbs neither the image of input i nor its cell on the device.
  predicate Spares(e: Event, t: RegType, i: nat) {
    && (e.Poke? && e.t == t ==> e.i != i)
    && (e.Plant? && e.input == t ==> e.a != Address(t, i))
  }

  lemma CellFetchedStep(p: Plan, s: State, e: Event, t: RegType, i: nat, v: Word)
    requires Planned(p, s.images) && CellFetched(p, s, t, i, v) && Spares(e, t, i)
    requires Next(p, s, e).phase.Fetching?
    ensures CellFetched(p, Next(p, s, e), t, i, v)
  {
    hide Serves, Effect, SendStep, TimingStep, SendJobs, FetchJobs, Overlay, Window, Address, Follows, Covered;
    var k := s.phase.done;
    FetchJobAt(p, k);
    if e.Transfer? && k < |FetchJobs(p)| {
      var j := FetchJobs(p)[k];
      if j.t == t {
        InputAreaFollows(p, s.images, t, AreasDone(p, t, k));
        FetchCell(t, s.images.At(t), j.area, s.mem.At(t), i);
        CoveredStep(p.areas.At(t), AreasDone(p, t, k), i);
      }
    }
  }

  lemma InputAreaFollows(p: Plan, images: PerReg<seq<Word>>, t: RegType, k: nat)
    requires Planned(p, images) && (t == DI || t == AI) && k < |p.areas.At(t)|
    ensures Follows(t, p.areas.At(t)[k])
  {
  }

  lemma MappedInput(p: Plan, images: PerReg<seq<Word>>, t: RegType, i: nat)
    requires Planned(p, images) && (t == DI || t == AI) && i < |images.At(t)|
    ensures Address(t, i) < ADDRESSES
    ensures Covered(p.areas.At(t), |p.areas.At(t)|, i) && !Covered(p.areas.At(t), 0, i)
  {
    var areas := p.areas.At(t);
    assert Covered(areas, |areas|, i);
    var k :| 0 <= k < |areas| && Covers(areas[k], i);
    FollowsAddress(t, areas[k], i);
  }

  // A fetch that runs from its first request to its last shows, for every input that
  // neither another process nor the plant touched meanwhile, the cell at its address.
  lemma {:induction false} FetchDelivers(p: Plan, s: State, es: seq<Event>, k: nat, t: RegType, i: nat)
    requires Planned(p, s.images) && s.phase == Fetching(0) && k <= |es|
    requires (t == DI || t == AI) && i < |s.images.At(t)|
    requires forall j :: 0 <= j <= k ==> Reach(p, s, es, j).phase.Fetching?
    requires forall j :: 0 <= j < k ==> Spares(es[j], t, i)
    ensures Address(t, i) < ADDRESSES
    ensures CellFetched(p, Reach(p, s, es, k), t, i, s.mem.At(t)[Address(t, i)])
    ensures var w := Reach(p, s, es, k); w.phase == Fetching(|FetchJobs(p)|) ==>
      w.images.At(t)[i] == s.mem.At(t)[Address(t, i)] == w.mem.At(t)[Address(t, i)]
  {
    hide Next, FetchJobs, Spares, Planned, Address;
    FetchJobAt(p, 0);
    MappedInput(p, s.images, t, i);
    if k > 0 {
      FetchDelivers(p, s, es, k - 1, t, i);
      PlanKept(p, s, es, k - 1);
      assert Reach(p, s, es, k).phase.Fetching?;
      CellFetchedStep(p, Reach(p, s, es, k - 1), es[k - 1], t, i, s.mem.At(t)[Address(t, i)]);
    }
  }

  // Once `base` fetches are past, the image of an input shows its cell.
  ghost predicate CellShown(p: Plan, s: State, base: nat, t: RegType, i: nat, v: Word) {
    && (t == DI || t == AI) && i < |s.images.At(t)| && Address(t, i) < ADDRESSES && s.mem.At(t)[Address(t, i)] == v
    && (s.fetches > base ==> s.images.At(t)[i] == v)
    && (s.phase.Fetching? && s.fetches >= base ==> CellFetched(p, s, t, i, v))
  }

  // A request of a fetch fails that was to bring input i: its image may now hold anything.
  predicate Spoils(p: Plan, s: State, e: Event, t: RegType, i: nat) {
    && e.Transfer? && e.fate != Served && s.phase.Fetching? && s.phase.done < |FetchJobs(p)|
    && FetchJobs(p)[s.phase.done].t == t && Covers(FetchJobs(p)[s.phase.done].area, i)
  }

  ghost predicate Spoiled(p: Plan, s: State, es: seq<Event>, k: nat, t: RegType, i: nat)
    requires k <= |es|
  {
    exists x :: 0 <= x < k && Spoils(p, Reach(p, s, es, x), es[x], t, i)
  }

  lemma CellShownStep(p: Plan, s: State, e: Event, base: nat, t: RegType, i: nat, v: Word)
    requires Planned(p, s.images) && CellShown(p, s, base, t, i, v) && Spares(e, t, i) && !Spoils(p, s, e, t, i)
    ensures CellShown(p, Next(p, s, e), base, t, i, v)
  {
    hide Serves, Effect, FetchStep, TimingStep, FetchJobs, SendJobs, Overlay, Window, Address, Follows, Covered, Spoils;
    var w := Next(p, s, e);
    InputKept(p, s, e, t, i);
    FetchJobAt(p, 0);
    MappedInput(p, s.images, t, i);
    if s.phase.Fetching? && s.fetches >= base && w.phase.Fetching? { CellFetchedStep(p, s, e, t, i, v); }
    if s.phase.Fetching? && e.Transfer? && s.fetches > base { ShownAgain(p, s, e, t, i, v); }
  }

  // Fetching an area leaves an image cell as it is or shows the device's cell.
  lemma ShownAgain(p: Plan, s: State, e: Event, t: RegType, i: nat, v: Word)
    requires Planned(p, s.images) && (t == DI || t == AI) && i < |s.images.At(t)|
    requires Address(t, i) < ADDRESSES && s.mem.At(t)[Address(t, i)] == v == s.images.At(t)[i]
    requires s.phase.Fetching? && e.Transfer? && !Spoils(p, s, e, t, i)
    ensures Next(p, s, e).images.At(t)[i] == v
  {
    hide Serves, Effect, FetchJobs, Overlay, Window, Address, Follows, Covered;
    var k := s.phase.done;
    FetchJobAt(p, k);
    if k < |FetchJobs(p)| && FetchJobs(p)[k].t == t {
      InputAreaFollows(p, s.images, t, AreasDone(p, t, k));
      FetchCell(t, s.images.At(t), FetchJobs(p)[k].area, s.mem.At(t), i);
      if e.fate != Served {
        NotOverlaid(s.images.At(t), FetchJobs(p)[k].area, Window(e.junk, 0, FetchJobs(p)[k].area.size), i);
      }
    }
  }

  lemma NotOverlaid(image: seq<Word>, a: Area, data: seq<Word>, i: nat)
    requires i < |image| && |data| == a.size && !Covers(a, i)
    ensures Overlay(image, a.offset, data)[i] == image[i]
  {
  }

  // Only a fetch under way touches an input image that nobody writes.
  lemma InputKept(p: Plan, s: State, e: Event, t: RegType, i: nat)
    requires (t == DI || t == AI) && i < |s.images.At(t)| && Address(t, i) < ADDRESSES && Spares(e, t, i)
    ensures var w := Next(p, s, e);
      && |w.images.At(t)| == |s.images.At(t)| && w.mem.At(t)[Address(t, i)] == s.mem.At(t)[Address(t, i)]
      && (!(s.phase.Fetching? && e.Transfer?) ==> w.images.At(t)[i] == s.images.At(t)[i])
      && (s.phase == Exited(EX_SOFTWARE) ==> w.phase == s.phase)
      && (w.fetches != s.fetches ==> s.phase == Fetching(|FetchJobs(p)|) && w.fetches == s.fetches + 1)
      && (s.phase.Fetching? && e.Transfer? ==> w.phase.Fetching? || w.phase == Exited(EX_SOFTWARE))
      && (!s.phase.Fetching? && w.phase.Fetching? ==> w.phase == Fetching(0))
  {
    hide FetchJobs, SendJobs, Overlay, Window, Address, StoredAll, Payload, Supervisor.Step, Supervisor.Late;
  }

  function FetchesBefore(s: State): nat {
    s.fetches + if s.phase.Fetching? && s.phase.done > 0 then 1 else 0
  }

  // A run that has not failed has spoiled nothing.
  lemma {:induction false} SpoiledFails(p: Plan, s: State, es: seq<Event>, k: nat, t: RegType, i: nat)
    requires k <= |es| && Spoiled(p, s, es, k, t, i)
    ensures Reach(p, s, es, k).phase == Exited(EX_SOFTWARE)
  {
    hide Next, Spoils;
    var before, e := Reach(p, s, es, k - 1), es[k - 1];
    FailStays(p, before, e, t, i);
    if !Spoils(p, before, e, t, i) { SpoiledFails(p, s, es, k - 1, t, i); }
  }

  lemma FailStays(p: Plan, s: State, e: Event, t: RegType, i: nat)
    ensures Spoils(p, s, e, t, i) || s.phase == Exited(EX_SOFTWARE) ==> Next(p, s, e).phase == Exited(EX_SOFTWARE)
  {
  }

  // An input that neither another process nor the plant touches from some moment on is
  // shown by its image at every moment from the first fetch begun and completed since
  // then, unless the very request that was to bring it has failed.
  lemma {:induction false} InputSettles(p: Plan, s: State, es: seq<Event>, k: nat, t: RegType, i: nat)
    requires Planned(p, s.images) && k <= |es| && (t == DI || t == AI) && i < |s.images.At(t)|
    requires forall j :: 0 <= j < k ==> Spares(es[j], t, i)
    ensures Address(t, i) < ADDRESSES
    ensures var w, v := Reach(p, s, es, k), s.mem.At(t)[Address(t, i)];
      && (!Spoiled(p, s, es, k, t, i) ==> CellShown(p, w, FetchesBefore(s), t, i, v))
      && i < |w.images.At(t)| && w.mem.At(t)[Address(t, i)] == v
      && (w.fetches > FetchesBefore(s) && !Spoiled(p, s, es, k, t, i) ==> w.images.At(t)[i] == v)
      && (w.phase != Exited(EX_SOFTWARE) ==> !Spoiled(p, s, es, k, t, i))
  {
    hide Next, Planned, CellFetched, Address, Spares, Spoils;
    MappedInput(p, s.images, t, i);
    if Spoiled(p, s, es, k, t, i) { SpoiledFails(p, s, es, k, t, i); }
    if k > 0 {
      var before := Reach(p, s, es, k - 1);
      InputSettles(p, s, es, k - 1, t, i);
      PlanKept(p, s, es, k - 1);
      InputKept(p, before, es[k - 1], t, i);
      if !Spoiled(p, s, es, k, t, i) {
        assert !Spoils(p, before, es[k - 1], t, i);
        CellShownStep(p, before, es[k - 1], FetchesBefore(s), t, i, s.mem.At(t)[Address(t, i)]);
      }
    } else if s.phase == Fetching(0) {
      NothingFetched(p, s, t, i);
    }
  }

  lemma NothingFetched(p: Plan, s: State, t: RegType, i: nat)
    requires Planned(p, s.images) && (t == DI || t == AI) && i < |s.images.At(t)| && s.phase == Fetching(0)
    ensures Address(t, i) < ADDRESSES && CellFetched(p, s, t, i, s.mem.At(t)[Address(t, i)])
  {
    MappedInput(p, s.images, t, i);
    FetchJobAt(p, 0);
  }

  // ----- what the program leaves alone ------------------------------------------------------------

  // The input spaces after only the plant's changes.
  function OnlyPlanted(m: Memory, es: seq<Event>, k: nat): Memory
    requires k <= |es|
  {
    if k == 0 then m
    else
      var before := OnlyPlanted(m, es, k - 1);
      if es[k - 1].Plant? then Planted(before, es[k - 1].input, es[k - 1].a, es[k - 1].v) else before
  }

  // That is: each input cell holds what the plant last put there, digital ones as a bit.
  lemma {:induction false} LastPlantWins(m: Memory, es: seq<Event>, k: nat, t: RegType, a: nat, j: nat)
    requires j < k <= |es| && (t == DI || t == AI) && a < ADDRESSES
    requires es[j].Plant? && es[j].input == t && es[j].a == a
    requires forall h :: j < h < k && es[h].Plant? && es[h].input == t ==> es[h].a != a
    ensures OnlyPlanted(m, es, k).At(t)[a] == if t == AI then es[j].v else if es[j].v == 0 then 0 else 1
  {
    if j < k - 1 { LastPlantWins(m, es, k - 1, t, a, j); }
  }

  // The program never changes inputs or holding registers, and no coil but those of
  // its outputs.
  lemma {:induction false} DeviceFrame(p: Plan, s: State, es: seq<Event>, k: nat, x: nat)
    requires Planned(p, s.images) && k <= |es| && x < ADDRESSES
    requires forall i :: 0 <= i < |s.images.dout| ==> Address(DO, i) != x
    ensures var w, only := Reach(p, s, es, k), OnlyPlanted(s.mem, es, k);
      w.mem.di == only.di && w.mem.ai == only.ai && w.mem.ao == s.mem.ao && w.mem.dout[x] == s.mem.dout[x]
  {
    hide Next, Planned, Address;
    if k > 0 {
      DeviceFrame(p, s, es, k - 1, x);
      PlanKept(p, s, es, k - 1);
      SizesKept(p, s, es, k - 1);
      var w := Reach(p, s, es, k - 1);
      assert |w.images.At(DO)| == |s.images.At(DO)|;
      FrameStep(p, w, es[k - 1], x);
    }
  }

  lemma FrameStep(p: Plan, s: State, e: Event, x: nat)
    requires Planned(p, s.images) && x < ADDRESSES
    requires forall i :: 0 <= i < |s.images.dout| ==> Address(DO, i) != x
    ensures var m := if e.Plant? then Planted(s.mem, e.input, e.a, e.v) else s.mem;
      var w := Next(p, s, e);
      w.mem.di == m.di && w.mem.ai == m.ai && w.mem.ao == s.mem.ao && w.mem.dout[x] == s.mem.dout[x]
  {
    hide SendJobs, FetchJobs, Overlay, Window, StoredAll, Address, Serves;
    if s.phase.Sending? && s.phase.done < |SendJobs(p)| {
      SendJobAt(p, s.phase.done);
      SendMisses(p, s, s.phase.done, x);
    }
  }

  lemma SendMisses(p: Plan, s: State, k: nat, x: nat)
    requires Planned(p, s.images) && k < |p.areas.dout| && x < ADDRESSES
    requires forall i :: 0 <= i < |s.images.dout| ==> Address(DO, i) != x
    ensures Effect(s.mem, SendRequest(DO, p.areas.dout[k], s.images.dout)).dout[x] == s.mem.dout[x]
  {
    hide Address;
    var a := p.areas.dout[k];
    AreaFollows(p, s.images, k);
    if a.addr <= x < a.addr + a.size {
      FollowsAddress(DO, a, a.offset + (x - a.addr));
    }
  }

  // ----- starting from the device's own outputs -------------------------------------------------------

  // Every output image cell equals its coil, as a fetch that includes the outputs leaves it.
  ghost predicate InStep(p: Plan, s: State) {
    forall i :: 0 <= i < |s.images.dout| ==>
      Address(DO, i) < ADDRESSES && s.images.dout[i] == s.mem.dout[Address(DO, i)] <= 1
  }

  lemma SendChangesNothing(p: Plan, s: State, k: nat)
    requires Planned(p, s.images) && InStep(p, s) && k < |p.areas.dout|
    ensures Effect(s.mem, SendRequest(DO, p.areas.dout[k], s.images.dout)) == s.mem
  {
    hide Address;
    var a := p.areas.dout[k];
    var m := Effect(s.mem, SendRequest(DO, a, s.images.dout));
    AreaFollows(p, s.images, k);
    forall x | 0 <= x < ADDRESSES ensures m.dout[x] == s.mem.dout[x] {
      if a.addr <= x < a.addr + a.size {
        var i := a.offset + (x - a.addr);
        FollowsAddress(DO, a, i);
        assert s.images.dout[i] == s.mem.dout[Address(DO, i)];
      }
    }
    assert m.dout == s.mem.dout;
  }

  // After a start image, and as long as no other process writes an output, whole runs
  // leave every coil as it was found.
  lemma {:induction false} StartImageHolds(p: Plan, s: State, es: seq<Event>, k: nat)
    requires Planned(p, s.images) && InStep(p, s) && k <= |es|
    requires forall j :: 0 <= j < k && es[j].Poke? ==> es[j].t != DO
    ensures Reach(p, s, es, k).mem.dout == s.mem.dout && Reach(p, s, es, k).images.dout == s.images.dout
  {
    hide Next, Planned, Address;
    if k > 0 {
      StartImageHolds(p, s, es, k - 1);
      PlanKept(p, s, es, k - 1);
      QuietStep(p, Reach(p, s, es, k - 1), es[k - 1]);
    }
  }

  lemma QuietStep(p: Plan, s: State, e: Event)
    requires Planned(p, s.images) && InStep(p, s) && (e.Poke? ==> e.t != DO)
    ensures Next(p, s, e).mem.dout == s.mem.dout && Next(p, s, e).images.dout == s.images.dout
  {
    hide SendJobs, FetchJobs, Overlay, Window, StoredAll, Address, Serves, Effect, FetchStep, InStep;
    StepLeavesOutputs(p, s, e);
    if s.phase.Sending? && s.phase.done < |SendJobs(p)| {
      SendJobAt(p, s.phase.done);
      SendChangesNothing(p, s, s.phase.done);
    }
    if s.phase.Fetching? && s.phase.done < |FetchJobs(p)| && e.Transfer? {
      FetchKeepsMemory(p, s, FetchJobs(p)[s.phase.done], e.fate, e.junk);
    }
  }

  lemma FetchKeepsMemory(p: Plan, s: State, j: Job, fate: Fate, junk: seq<Word>)
    requires s.phase.Fetching?
    ensures var w := FetchStep(p, s, j, fate, junk); w.mem == s.mem && w.sends == s.sends && !w.phase.Sending?
  {
  }

  // ----- how runs end --------------------------------------------------------------------------------------

  function Begin(p: Plan, images: PerReg<seq<Word>>, m: Memory): State {
    State(Gate, images, m, Supervisor.State(0, p.start), [], 0, 0)
  }

  // A request of the fetch or the send that is due, and fails.
  predicate Fails(p: Plan, s: State, e: Event) {
    && e.Transfer? && e.fate != Served
    && ((s.phase.Fetching? && s.phase.done < |FetchJobs(p)|) || (s.phase.Sending? && s.phase.done < |SendJobs(p)|))
  }

  predicate Stops(s: State, e: Event) {
    s.phase.Gate? && e == Pass(true)
  }

  // The bookkeeping of every reachable state: the counter is the supervisor's over the
  // readings so far, and a send only ever follows a completed fetch.
  predicate Accounted(p: Plan, s: State) {
    && s.sup.fail == Supervisor.Fail(p.timing, p.start, s.clock, |s.clock|)
    && (s.phase.Exited? || s.sup == Supervisor.After(p.timing, p.start, s.clock, |s.clock|))
    && (s.sup.fail > Supervisor.MAX_FAIL <==> s.phase == Exited(EX_TEMPFAIL))
    && (match s.phase
        case Gate => s.fetches == s.sends
        case Fetching(_) => s.fetches == s.sends
        case Sending(_) => s.fetches == s.sends + 1
        case Timing => s.fetches == s.sends
        case Exited(_) => s.sends <= s.fetches <= s.sends + 1)
  }

  lemma AccountedStep(p: Plan, s: State, e: Event)
    requires Accounted(p, s)
    ensures Accounted(p, Next(p, s, e))
  {
    hide SendJobs, FetchJobs, Overlay, Window, Effect, Payload, Poked, Planted;
    if e.Tick? && s.phase.Timing? {
      TickLogged(p, s, e.now);
    }
  }

  lemma TickLogged(p: Plan, s: State, now: int)
    requires s.sup == Supervisor.After(p.timing, p.start, s.clock, |s.clock|)
    ensures Supervisor.After(p.timing, p.start, s.clock + [now], |s.clock| + 1) == Supervisor.Step(p.timing, s.sup, now)
  {
    Supervisor.AfterPrefix(p.timing, p.start, s.clock, [now], |s.clock|);
  }

  lemma {:induction false} AlwaysAccounted(p: Plan, images: PerReg<seq<Word>>, m: Memory, es: seq<Event>, k: nat)
    requires k <= |es|
    ensures Accounted(p, Reach(p, Begin(p, images, m), es, k))
  {
    hide Next, Accounted;
    if k > 0 {
      AlwaysAccounted(p, images, m, es, k - 1);
      AccountedStep(p, Reach(p, Begin(p, images, m), es, k - 1), es[k - 1]);
    } else {
      BeginAccounted(p, images, m);
    }
  }

  lemma BeginAccounted(p: Plan, images: PerReg<seq<Word>>, m: Memory)
    ensures Accounted(p, Begin(p, images, m))
  {
  }

  // The three exit codes, each exactly when it should: a failed transfer, a stop seen at
  // the loop condition, a supervisor over its limit; and then a heavy window of cycles.
  lemma {:induction false} ExitCodes(p: Plan, images: PerReg<seq<Word>>, m: Memory, es: seq<Event>, k: nat)
    requires k <= |es|
    ensures var s := Begin(p, images, m);
      var w := Reach(p, s, es, k);
      && (w.phase == Exited(EX_SOFTWARE) <==> exists j :: 0 <= j < k && Fails(p, Reach(p, s, es, j), es[j]))
      && (w.phase == Exited(EX_OK) <==> exists j :: 0 <= j < k && Stops(Reach(p, s, es, j), es[j]))
      && (w.phase == Exited(EX_TEMPFAIL) <==>
            Supervisor.Fail(p.timing, p.start, w.clock, |w.clock|) > 100)
  {
    hide Next, Accounted, Fails, Stops, Supervisor.Fail;
    AlwaysAccounted(p, images, m, es, k);
    LimitIsExit(p, Reach(p, Begin(p, images, m), es, k));
    if k > 0 {
      ExitCodes(p, images, m, es, k - 1);
      ExitStep(p, Reach(p, Begin(p, images, m), es, k - 1), es[k - 1]);
    }
  }

  lemma LimitIsExit(p: Plan, s: State)
    requires Accounted(p, s)
    ensures Supervisor.Fail(p.timing, p.start, s.clock, |s.clock|) > 100 <==>
      s.phase == Exited(EX_TEMPFAIL)
  {
  }

  lemma ExitStep(p: Plan, s: State, e: Event)
    ensures var w := Next(p, s, e);
      && (w.phase == Exited(EX_SOFTWARE) <==> s.phase == Exited(EX_SOFTWARE) || Fails(p, s, e))
      && (w.phase == Exited(EX_OK) <==> s.phase == Exited(EX_OK) || Stops(s, e))
  {
    hide SendJobs, FetchJobs, Overlay, Window, Effect, Payload, Poked, Planted, Supervisor.Step, Supervisor.Late;
  }

  // The limit was never crossed before the last reading of a run.
  lemma {:induction false} NeverCrossedEarlier(p: Plan, images: PerReg<seq<Word>>, m: Memory, es: seq<Event>,
                                              k: nat, j: nat)
    requires k <= |es| && j < |Reach(p, Begin(p, images, m), es, k).clock|
    ensures Supervisor.Fail(p.timing, p.start, Reach(p, Begin(p, images, m), es, k).clock, j) <= 100
  {
    hide Next, Accounted;
    if k > 0 {
      var s := Reach(p, Begin(p, images, m), es, k - 1);
      ClockStep(p, s, es[k - 1]);
      var now := Next(p, s, es[k - 1]).clock;
      if j < |s.clock| {
        NeverCrossedEarlier(p, images, m, es, k - 1, j);
      } else {
        AlwaysAccounted(p, images, m, es, k - 1);
        LimitIsExit(p, s);
      }
      Supervisor.AfterPrefix(p.timing, p.start, s.clock, now[|s.clock|..], j);
      assert s.clock + now[|s.clock|..] == now;
    }
  }

  lemma ClockStep(p: Plan, s: State, e: Event)
    ensures var w := Next(p, s, e);
      s.clock <= w.clock && |w.clock| <= |s.clock| + 1 && (w.clock != s.clock ==> s.phase.Timing?)
  {
    hide SendJobs, FetchJobs, Overlay, Window, Effect, Payload, Poked, Planted;
  }

  // So a run ends with EX_TEMPFAIL exactly at the first cycle that ends a heavy window,
  // and with the supervisor switched off it never does.
  lemma TempfailIffHeavyWindow(p: Plan, images: PerReg<seq<Word>>, m: Memory, es: seq<Event>, k: nat)
    requires k <= |es|
    ensures var w := Reach(p, Begin(p, images, m), es, k);
      var n := |w.clock|;
      && (w.phase == Exited(EX_TEMPFAIL) <==>
            !p.timing.noFail && exists i :: 0 <= i <= n && Supervisor.Heavy(p.timing, p.start, w.clock, i, n))
      && (!p.timing.noFail ==> forall j, i :: 0 <= i <= j < n ==> !Supervisor.Heavy(p.timing, p.start, w.clock, i, j))
  {
    hide Reach, Supervisor.Heavy, Supervisor.Fail;
    var w := Reach(p, Begin(p, images, m), es, k);
    ExitCodes(p, images, m, es, k);
    if p.timing.noFail {
      Supervisor.NoFailStaysZero(p.timing, p.start, w.clock, |w.clock|);
    } else {
      Supervisor.TripsIffHeavyWindow(p.timing, p.start, w.clock, |w.clock|);
      forall j, i | 0 <= i <= j < |w.clock| ensures !Supervisor.Heavy(p.timing, p.start, w.clock, i, j) {
        NeverCrossedEarlier(p, images, m, es, k, j);
        Supervisor.TripsIffHeavyWindow(p.timing, p.start, w.clock, j);
      }
    }
  }
}
