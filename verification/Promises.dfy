// What the header of the coupler promises of fetch_image and send_image, for an object with
// any history of calls behind it.
module Promises {
  import opened Types
  import opened Modbus
  import opened Layout
  import opened Sync
  import opened Lifecycle
  import opened Histories
  import opened Lives
  import opened Coupler

  // The object has been through the first k of these calls.
  ghost predicate Through(w: TcpCouplerShm, ops: seq<Op>, k: nat)
    reads w, w.modbus
  {
    AllSane(ops) && k <= |ops| && w.Abs() == Lived(w.host, ops, k)
  }

  ghost predicate FetchDefined(w: TcpCouplerShm, outputs: bool)
    reads w, w.modbus
  {
    Safe(w.Abs(), DI) && Safe(w.Abs(), AI) && (outputs ==> Safe(w.Abs(), DO) && Safe(w.Abs(), AO))
  }

  ghost predicate SendDefined(w: TcpCouplerShm)
    reads w, w.modbus
  {
    Safe(w.Abs(), DO) && Safe(w.Abs(), AO)
  }

  // ----- the error that never comes ---------------------------------------------------------

  // Nothing to transfer, or a connection to transfer it over.
  lemma IdleOrConnected(w: TcpCouplerShm, ops: seq<Op>, k: nat, t: RegType)
    requires Through(w, ops, k) && (!w.initialized || Safe(w.Abs(), t))
    ensures w.modbus.connected || w.imageSize.At(t) == 0
  {
    hide Lived;
    if !w.modbus.connected {
      SafeWhenClosedIff(w.host, ops, k, t);
      if !w.initialized { UninitializedIsIdleOrConnected(w.host, ops, k); }
    }
  }

  // Not initialized, or in any state in which its meaning is defined at all: a fetch never
  // ends in the promised "not initialized" error, nor does a send.
  lemma FetchNeverRefuses(w: TcpCouplerShm, ops: seq<Op>, k: nat, outputs: bool,
                          fates: seq<Fate>, m: Memory, tick: nat, o: Outcome, m': Memory, tick': nat)
    requires Through(w, ops, k) && (!w.initialized || FetchDefined(w, outputs))
    requires Conducted(w.modbus.connected, fates, m, tick, w.FetchAllList(outputs), o, m', tick')
    ensures o != Threw(LogicError)
  {
    hide Exec, Safe, Through;
    IdleOrConnected(w, ops, k, DI);
    IdleOrConnected(w, ops, k, AI);
    if outputs {
      IdleOrConnected(w, ops, k, DO);
      IdleOrConnected(w, ops, k, AO);
    }
  }

  lemma SendNeverRefuses(w: TcpCouplerShm, ops: seq<Op>, k: nat,
                         fates: seq<Fate>, m: Memory, tick: nat, o: Outcome, m': Memory, tick': nat)
    requires Through(w, ops, k) && (!w.initialized || SendDefined(w))
    requires Conducted(w.modbus.connected, fates, m, tick, w.SendAllList(), o, m', tick')
    ensures o != Threw(LogicError)
  {
    hide Exec, Safe, Through;
    IdleOrConnected(w, ops, k, DO);
    IdleOrConnected(w, ops, k, AO);
  }

  // On an object nobody has initialized a fetch and a send succeed at once.
  lemma FreshTransfersSucceed(w: TcpCouplerShm, outputs: bool,
                              fates: seq<Fate>, m: Memory, tick: nat, o: Outcome, m': Memory, tick': nat)
    requires w.Abs() == FRESH
    requires Conducted(false, fates, m, tick, w.FetchAllList(outputs), o, m', tick') ||
             Conducted(false, fates, m, tick, w.SendAllList(), o, m', tick')
    ensures FetchDefined(w, outputs) && SendDefined(w) && o == Ok && m' == m && tick' == tick
  {
  }

  // After an init that failed for lack of a third memory a fetch reads the inputs.
  lemma FailedInitStillFetches(w: TcpCouplerShm,
                               fates: seq<Fate>, m: Memory, tick: nat, o: Outcome, m': Memory, tick': nat)
    requires w.host.LittleHost? && Through(w, [DoInit(Bus([0x8401], 2))], 1)
    requires Conducted(w.modbus.connected, fates, m, tick, w.FetchAllList(false), o, m', tick')
    ensures !w.initialized && FetchDefined(w, false)
    ensures o == if FateAt(fates, tick) == Served then Ok else Threw(RuntimeError)
  {
    hide Through, FetchDefined, Exec;
    InputsListed(w);
    var qs := w.FetchAllList(false);
    OneRequest(fates, m, tick, qs);
  }

  lemma OneRequest(fates: seq<Fate>, m: Memory, tick: nat, qs: seq<Request>)
    requires |qs| == 1
    ensures Exec(fates, Start(m, tick), qs, 1) == Step(fates, Start(m, tick), qs[0])
  {
    assert Exec(fates, Start(m, tick), qs, 0) == Start(m, tick);
  }

  lemma InputsListed(w: TcpCouplerShm)
    requires w.host.LittleHost? && Through(w, [DoInit(Bus([0x8401], 2))], 1)
    ensures !w.initialized && w.modbus.connected && FetchDefined(w, false)
    ensures w.FetchAllList(false) == [Request.Read(DI, 0, 4)]
  {
    hide Lived, Bus, Safe;
    OneModuleTwoMemories();
    assert FetchProgram(DI, [Area(0, 4, 0)]) == [Request.Read(DI, 0, 4)];
  }

  // ----- what a transfer means, after any history -----------------------------------------------

  lemma ServedWhenSafe(w: TcpCouplerShm, ops: seq<Op>, k: nat, t: RegType)
    requires Through(w, ops, k) && Safe(w.Abs(), t)
    ensures w.imageSize.At(t) > 0 ==> Serves(t, w.areas.At(t), |w.Contents(t)|)
    ensures w.imageSize.At(t) == 0 ==> w.Contents(t) == []
  {
    hide Lived, Serves, AllFit;
    if w.imageSize.At(t) > 0 { SafeServes(w.host, ops, k, t); }
    AlwaysSized(w.host, ops, k);
  }

  // All that a completed send does to the device is to send the digital outputs.
  lemma SendMeans(w: TcpCouplerShm, ops: seq<Op>, k: nat,
                  fates: seq<Fate>, m: Memory, tick: nat, m': Memory, tick': nat)
    requires Through(w, ops, k) && SendDefined(w)
    requires Conducted(w.modbus.connected, fates, m, tick, w.SendAllList(), Ok, m', tick')
    ensures m' == if w.imageSize.dout == 0 then m else Sent(m, DO, w.areas.dout, w.Contents(DO))
  {
    hide Exec, Safe, Lived, Serves, Applied;
    NoAnalogOutputs(w.host, ops, k);
    var qs := w.SendAllList();
    assert w.SendList(DO, w.Contents(DO)) + [] == w.SendList(DO, w.Contents(DO));
    if qs != [] { ExecTicks(fates, m, tick, qs); }
    assert w.imageSize.dout > 0 && w.areas.dout == [] ==> Applied(m, [], 0) == m by { NothingApplied(m); }
  }

  lemma NothingApplied(m: Memory)
    ensures Applied(m, [], 0) == m
  {
  }

  // ----- every signal, on the object ------------------------------------------------------------

  // A completed fetch shows at each index of each image it covers the cell at its address.
  method FetchSignals(w: TcpCouplerShm, outputs: bool, ghost ops: seq<Op>, ghost k: nat) returns (o: Outcome)
    requires w.Valid() && Through(w, ops, k) && FetchDefined(w, outputs)
    modifies w.modbus.device, w.image.di, w.image.ai, w.image.dout, w.image.ao
    ensures o.Ok? ==> forall t: RegType, i: nat :: (t.Output() ==> outputs) && i < |w.Contents(t)| ==>
      Address(t, i) < ADDRESSES && w.Contents(t)[i] == w.modbus.device.mem.At(t)[Address(t, i)]
    ensures o.Ok? ==>
      forall i :: 0 <= i < |w.Contents(DI)| && i < 512 ==> w.Contents(DI)[i] == w.modbus.device.mem.di[i]
    ensures o.Ok? ==>
      forall i :: 0 <= i < |w.Contents(AI)| && i < 256 ==> w.Contents(AI)[i] == w.modbus.device.mem.ai[i]
    ensures o.Ok? && outputs ==>
      forall i :: 0 <= i < |w.Contents(DO)| && i < 512 ==> w.Contents(DO)[i] == w.modbus.device.mem.dout[0x200 + i]
  {
    hide Conducted, Safe, Fetched, Lived, Address;
    forall t: RegType, i: nat { AddressInNumbers(t, i); }
    o := w.FetchImage(outputs);
    if o.Ok? {
      forall t: RegType, i: nat | (t.Output() ==> outputs) && i < |w.Contents(t)|
        ensures Address(t, i) < ADDRESSES && w.Contents(t)[i] == w.modbus.device.mem.At(t)[Address(t, i)]
      {
        FetchShows(w, ops, k, t, old(w.Contents(t)), i);
      }
    }
  }

  lemma FetchShows(w: TcpCouplerShm, ops: seq<Op>, k: nat, t: RegType, before: seq<Word>, i: nat)
    requires Through(w, ops, k) && Safe(w.Abs(), t) && i < |before| == |w.Contents(t)|
    ensures Address(t, i) < ADDRESSES && w.AfterFetch(t, before)[i] == w.modbus.device.mem.At(t)[Address(t, i)]
  {
    hide Through, Safe, Fetched, Serves, Address;
    ServedWhenSafe(w, ops, k, t);
    FetchedAt(t, before, w.areas.At(t), w.modbus.device.mem, i);
  }

  // A completed send leaves at the address of each digital output its value, and there is
  // no analog output to send.
  method SendSignals(w: TcpCouplerShm, ghost ops: seq<Op>, ghost k: nat) returns (o: Outcome)
    requires w.Valid() && Through(w, ops, k) && SendDefined(w)
    modifies w.modbus.device
    ensures o.Ok? ==> w.Contents(AO) == [] && forall i :: 0 <= i < |w.Contents(DO)| ==>
      Address(DO, i) < ADDRESSES && w.modbus.device.mem.dout[Address(DO, i)] == Bit(w.Contents(DO)[i])
    ensures o.Ok? ==> forall i :: 0 <= i < |w.Contents(DO)| && i < 512 ==>
      w.modbus.device.mem.dout[0x200 + i] == if w.Contents(DO)[i] == 0 then 0 else 1
  {
    hide Conducted, Safe, Sent, Serves, Lived, Address;
    forall t: RegType, i: nat { AddressInNumbers(t, i); }
    ghost var m, tick := w.modbus.device.mem, w.modbus.device.tick;
    NoAnalogOutputs(w.host, ops, k);
    ServedWhenSafe(w, ops, k, DO);
    ServedWhenSafe(w, ops, k, AO);
    o := w.SendImage();
    if o.Ok? {
      SendMeans(w, ops, k, w.modbus.device.fates, m, tick, w.modbus.device.mem, w.modbus.device.tick);
      forall i | 0 <= i < |w.Contents(DO)|
        ensures Address(DO, i) < ADDRESSES && w.modbus.device.mem.dout[Address(DO, i)] == Bit(w.Contents(DO)[i])
      {
        SentAt(m, DO, w.areas.dout, w.Contents(DO), i);
      }
    }
  }

  // ----- the round trips, on the object ---------------------------------------------------------

  // Send, then fetch with the outputs: the output image comes back as the device stores it.
  method SendThenFetch(w: TcpCouplerShm, ghost ops: seq<Op>, ghost k: nat) returns (sent: Outcome, fetched: Outcome)
    requires w.Valid() && Through(w, ops, k) && FetchDefined(w, true)
    modifies w.modbus.device, w.image.di, w.image.ai, w.image.dout, w.image.ao
    ensures sent.Ok? && fetched.Ok? ==> w.Contents(DO) == StoredAll(DO, old(w.Contents(DO)))
  {
    hide Conducted, Safe, Fetched, Sent, Serves, Lived, StoredAll, Exec;
    ghost var m, before := w.modbus.device.mem, w.Contents(DO);
    ServedWhenSafe(w, ops, k, DO);
    assert StoredAll(DO, []) == [] by { NothingStored(); }
    ghost var tick := w.modbus.device.tick;
    sent := w.SendImage();
    fetched := sent;
    if sent.Ok? {
      SendMeans(w, ops, k, w.modbus.device.fates, m, tick, w.modbus.device.mem, w.modbus.device.tick);
      if w.imageSize.dout > 0 { Sync.SendThenFetch(m, DO, w.areas.dout, before); }
      fetched := w.FetchImage(true);
    }
  }

  lemma NothingStored()
    ensures StoredAll(DO, []) == []
  {
  }

  // Fetch with the outputs, then send: no cell of the device changes.
  method FetchThenSend(w: TcpCouplerShm, ghost ops: seq<Op>, ghost k: nat) returns (fetched: Outcome, sent: Outcome)
    requires w.Valid() && Through(w, ops, k) && FetchDefined(w, true) && w.modbus.device.mem.SingleBits()
    modifies w.modbus.device, w.image.di, w.image.ai, w.image.dout, w.image.ao
    ensures sent.Ok? && fetched.Ok? ==> w.modbus.device.mem == old(w.modbus.device.mem)
  {
    hide Conducted, Safe, Fetched, Sent, Serves, Lived, Exec;
    ghost var m, before := w.modbus.device.mem, w.Contents(DO);
    ServedWhenSafe(w, ops, k, DO);
    fetched := w.FetchImage(true);
    sent := fetched;
    if fetched.Ok? {
      ghost var tick := w.modbus.device.tick;
      sent := w.SendImage();
      if sent.Ok? {
        SendMeans(w, ops, k, w.modbus.device.fates, m, tick, w.modbus.device.mem, w.modbus.device.tick);
        if w.imageSize.dout > 0 { Sync.FetchThenSend(m, DO, w.areas.dout, before); }
      }
    }
  }
}
