// What can be said of a coupler object from the list of calls made on it.
module Histories {
  import opened Types
  import opened Endian
  import opened Clamps
  import opened Layout
  import opened Sync
  import opened Lifecycle

  // ----- a first init that fails after connecting is final --------------------------------

  lemma {:induction false} StuckForever(host: Host, ops: seq<Op>, j: nat, k: nat)
    requires j <= k <= |ops|
    requires Lived(host, ops, j).connected && !Lived(host, ops, j).initialized
    ensures Lived(host, ops, k) == Lived(host, ops, j)
    ensures forall i :: j <= i < k ==> Reported(host, ops, i) == Threw(LogicError)
  {
    if j < k { StuckForever(host, ops, j, k - 1); }
  }

  lemma FailedInitIsFinal(host: Host, ops: seq<Op>, j: nat, k: nat)
    requires j < k <= |ops| && ops[j].DoInit? && ops[j].world.connect && Reported(host, ops, j).Threw?
    requires !Lived(host, ops, j).initialized
    ensures Lived(host, ops, k) == Lived(host, ops, j + 1)
    ensures forall i :: j < i < k ==> Reported(host, ops, i) == Threw(LogicError)
  {
    assert Lived(host, ops, j + 1) == Apply(host, Lived(host, ops, j), ops[j]).0;
    StuckForever(host, ops, j + 1, k);
  }

  // ----- when destruction ends the program -------------------------------------------------

  predicate Opens(op: Op) {
    op.DoInit? && op.world.connect
  }

  predicate Closes(host: Host, ops: seq<Op>, d: nat)
    requires d < |ops|
  {
    ops[d].DoDisconnect? && Reported(host, ops, d).Ok?
  }

  // A disconnect that succeeded, and no connection opened since.
  ghost predicate LeftClosed(host: Host, ops: seq<Op>, k: nat)
    requires k <= |ops|
  {
    exists d :: 0 <= d < k && Closes(host, ops, d) && forall i :: d < i < k ==> !Opens(ops[i])
  }

  lemma {:induction false} DestructionAbortsIff(host: Host, ops: seq<Op>, k: nat)
    requires k <= |ops|
    ensures DestructionAborts(Lived(host, ops, k)) <==> LeftClosed(host, ops, k)
  {
    hide Apply, DestructionAborts;
    if k > 0 {
      DestructionAbortsIff(host, ops, k - 1);
      var before, op := Lived(host, ops, k - 1), ops[k - 1];
      AbortStep(host, before, op);
      if LeftClosed(host, ops, k - 1) && !Opens(op) {
        var d :| 0 <= d < k - 1 && Closes(host, ops, d) && forall i :: d < i < k - 1 ==> !Opens(ops[i]);
        assert forall i :: d < i < k ==> !Opens(ops[i]);
      }
      if Closes(host, ops, k - 1) { assert LeftClosed(host, ops, k); }
    } else {
      FreshState();
    }
  }

  lemma AbortStep(host: Host, l: Life, op: Op)
    ensures DestructionAborts(Apply(host, l, op).0) <==>
      (op.DoDisconnect? && Apply(host, l, op).1.Ok?) || (DestructionAborts(l) && !Opens(op))
  {
    hide Genuine, ListOk, SizesOf, ModuleWords, KnownPrefix, ClampsOf, Laid;
  }

  // ----- when an object is what init promises ------------------------------------------------

  function Somes(n: PerReg<nat>): PerReg<Option<nat>> {
    PerReg(Some(n.di), Some(n.dout), Some(n.ai), Some(n.ao))
  }

  // Connected, with modules, and four images of exactly the recorded sizes.
  predicate Operational(l: Life) {
    l.initialized && l.connected && l.clamps != [] && l.images == Somes(l.sizes)
  }

  // An init that succeeded, and no disconnect attempted since.
  ghost predicate InUse(host: Host, ops: seq<Op>, k: nat)
    requires k <= |ops|
  {
    exists j :: 0 <= j < k && ops[j].DoInit? && Reported(host, ops, j).Ok? && forall i :: j < i < k ==> ops[i].DoInit?
  }

  lemma {:induction false} OperationalIff(host: Host, ops: seq<Op>, k: nat)
    requires AllSane(ops) && k <= |ops|
    ensures Operational(Lived(host, ops, k)) <==> InUse(host, ops, k)
  {
    hide Apply, Operational, Sound;
    if k > 0 {
      OperationalIff(host, ops, k - 1);
      AlwaysSound(host, ops, k - 1);
      OperationalStep(host, Lived(host, ops, k - 1), ops[k - 1]);
      if InUse(host, ops, k - 1) && ops[k - 1].DoInit? {
        var j :| 0 <= j < k - 1 && ops[j].DoInit? && Reported(host, ops, j).Ok? &&
          forall i :: j < i < k - 1 ==> ops[i].DoInit?;
        assert forall i :: j < i < k ==> ops[i].DoInit?;
      }
    } else {
      assert !Operational(FRESH) by { NotYetOperational(); }
    }
  }

  lemma NotYetOperational()
    ensures !Operational(FRESH)
  {
  }

  lemma OperationalStep(host: Host, l: Life, op: Op)
    requires Sound(l)
    ensures Operational(Apply(host, l, op).0) <==>
      op.DoInit? && (Apply(host, l, op).1.Ok? || Operational(l))
  {
    hide Bounded, Genuine, SizesOf, ModuleWords, KnownPrefix, ClampsOf;
  }

  // ----- repeated inits stack their layouts -----------------------------------------------------

  // Call i got as far as computing a layout.
  predicate LaysOut(host: Host, l: Life, op: Op) {
    && op.DoInit? && !l.connected && op.world.connect
    && op.world.constants.Some? && Genuine(host, op.world.constants.value)
    && op.world.config.Some? && ListOk(host, l, op.world.config.value)
  }

  // The sizes computed by each of the first k calls that did.
  function Generations(host: Host, ops: seq<Op>, k: nat): seq<PerReg<nat>>
    requires k <= |ops|
  {
    if k == 0 then []
    else
      Generations(host, ops, k - 1) +
      if LaysOut(host, Lived(host, ops, k - 1), ops[k - 1]) then [Lived(host, ops, k).sizes] else []
  }

  function Stacked(t: RegType, gs: seq<PerReg<nat>>, n: nat): seq<Area>
    requires n <= |gs|
  {
    if n == 0 then [] else Stacked(t, gs, n - 1) + AreasFor(t, gs[n - 1].At(t))
  }

  lemma LayStep(host: Host, l: Life, op: Op)
    ensures var l' := Apply(host, l, op).0;
      if LaysOut(host, l, op) then forall t: RegType :: l'.areas.At(t) == l.areas.At(t) + AreasFor(t, l'.sizes.At(t))
      else l'.areas == l.areas && l'.sizes == l.sizes
  {
    hide Genuine, ModuleWords, KnownPrefix, ClampsOf, SizesOf, AreasFor;
  }

  lemma {:induction false} StackedFront(t: RegType, gs: seq<PerReg<nat>>, hs: seq<PerReg<nat>>, n: nat)
    requires n <= |gs|
    ensures Stacked(t, gs + hs, n) == Stacked(t, gs, n)
  {
    if n > 0 { StackedFront(t, gs, hs, n - 1); }
  }

  lemma {:induction false} AreasAreStacked(host: Host, ops: seq<Op>, k: nat, t: RegType)
    requires k <= |ops|
    ensures var l, gs := Lived(host, ops, k), Generations(host, ops, k);
      && l.areas.At(t) == Stacked(t, gs, |gs|)
      && l.sizes == if gs == [] then NONE else gs[|gs| - 1]
  {
    hide LaysOut, Apply, AreasFor;
    if k > 0 {
      AreasAreStacked(host, ops, k - 1, t);
      var before, l, gs := Lived(host, ops, k - 1), Lived(host, ops, k), Generations(host, ops, k - 1);
      LayStep(host, before, ops[k - 1]);
      if LaysOut(host, before, ops[k - 1]) {
        StackedFront(t, gs, [l.sizes], |gs|);
        assert Generations(host, ops, k) == gs + [l.sizes];
        assert Stacked(t, gs + [l.sizes], |gs| + 1) == Stacked(t, gs, |gs|) + AreasFor(t, l.sizes.At(t));
      } else {
        assert Generations(host, ops, k) == gs;
      }
    }
  }

  function SumOf(t: RegType, gs: seq<PerReg<nat>>, n: nat): nat
    requires n <= |gs|
  {
    if n == 0 then 0 else SumOf(t, gs, n - 1) + gs[n - 1].At(t)
  }

  lemma {:induction false} SumSizesAppend(xs: seq<Area>, ys: seq<Area>, k: nat)
    requires k <= |ys|
    ensures SumSizes(xs + ys, |xs| + k) == SumSizes(xs, |xs|) + SumSizes(ys, k)
  {
    if k == 0 {
      SumSizesFront(xs, ys, |xs|);
    } else {
      SumSizesAppend(xs, ys, k - 1);
    }
  }

  lemma {:induction false} SumSizesFront(xs: seq<Area>, ys: seq<Area>, k: nat)
    requires k <= |xs|
    ensures SumSizes(xs + ys, k) == SumSizes(xs, k)
  {
    if k > 0 { SumSizesFront(xs, ys, k - 1); }
  }

  lemma OneLayout(t: RegType, n: nat)
    ensures var areas := AreasFor(t, n);
      Tiles(areas, n) && (areas == [] <==> n == 0)
  {
    AreasTile(t, n);
  }

  lemma {:induction false} StackedSum(t: RegType, gs: seq<PerReg<nat>>, n: nat)
    requires n <= |gs|
    ensures SumSizes(Stacked(t, gs, n), |Stacked(t, gs, n)|) == SumOf(t, gs, n)
  {
    hide AreasFor;
    if n > 0 {
      StackedSum(t, gs, n - 1);
      var xs, ys := Stacked(t, gs, n - 1), AreasFor(t, gs[n - 1].At(t));
      assert SumSizes(ys, |ys|) == gs[n - 1].At(t) by { OneLayout(t, gs[n - 1].At(t)); }
      SumSizesAppend(xs, ys, |ys|);
      assert |xs + ys| == |xs| + |ys| && Stacked(t, gs, n) == xs + ys;
    }
  }

  lemma {:induction false} SumZeroIff(t: RegType, gs: seq<PerReg<nat>>, n: nat)
    requires n <= |gs|
    ensures SumOf(t, gs, n) == 0 <==> forall i :: 0 <= i < n ==> gs[i].At(t) == 0
    ensures SumOf(t, gs, n) == 0 ==> Stacked(t, gs, n) == []
  {
    hide AreasFor;
    if n > 0 {
      SumZeroIff(t, gs, n - 1);
      OneLayout(t, gs[n - 1].At(t));
    }
  }

  // The list tiles the image exactly when no earlier layout had signals of the type: a
  // second init leaves every earlier area in place.
  lemma StackTilesIff(t: RegType, gs: seq<PerReg<nat>>)
    requires gs != []
    ensures Tiles(Stacked(t, gs, |gs|), gs[|gs| - 1].At(t)) <==>
      forall i :: 0 <= i < |gs| - 1 ==> gs[i].At(t) == 0
  {
    hide AreasFor, SumSizes;
    var n, last := |gs|, gs[|gs| - 1].At(t);
    StackedSum(t, gs, n);
    SumZeroIff(t, gs, n - 1);
    OneLayout(t, last);
    assert SumOf(t, gs, n) == SumOf(t, gs, n - 1) + last;
    if SumOf(t, gs, n - 1) == 0 {
      assert Stacked(t, gs, n) == [] + AreasFor(t, last) == AreasFor(t, last);
    }
  }

  ghost predicate AllFit(areas: seq<Area>, n: nat) {
    forall k :: 0 <= k < |areas| ==> areas[k].offset + areas[k].size <= n
  }

  lemma AreasFitIff(t: RegType, n: nat, m: nat)
    ensures AllFit(AreasFor(t, n), m) <==> n <= m
  {
    var areas := AreasFor(t, n);
    if n > m { assert areas[|areas| - 1].offset + areas[|areas| - 1].size == n; }
  }

  lemma {:induction false} StackFitsIff(t: RegType, gs: seq<PerReg<nat>>, n: nat, m: nat)
    requires n <= |gs|
    ensures AllFit(Stacked(t, gs, n), m) <==> forall i :: 0 <= i < n ==> gs[i].At(t) <= m
  {
    hide AllFit, AreasFor;
    if n == 0 {
      assert AllFit([], m) by { NothingFits(m); }
    } else {
      StackFitsIff(t, gs, n - 1, m);
      AreasFitIff(t, gs[n - 1].At(t), m);
      FitAppend(Stacked(t, gs, n - 1), AreasFor(t, gs[n - 1].At(t)), m);
    }
  }

  lemma NothingFits(m: nat)
    ensures AllFit([], m)
  {
  }

  lemma FitAppend(xs: seq<Area>, ys: seq<Area>, m: nat)
    ensures AllFit(xs + ys, m) <==> AllFit(xs, m) && AllFit(ys, m)
  {
    if AllFit(xs + ys, m) {
      forall k | 0 <= k < |xs| ensures xs[k].offset + xs[k].size <= m { assert (xs + ys)[k] == xs[k]; }
      forall k | 0 <= k < |ys| ensures ys[k].offset + ys[k].size <= m { assert (xs + ys)[|xs| + k] == ys[k]; }
    }
  }

  // ----- when fetching and sending are defined ------------------------------------------------------

  // Transferring an image touches it only when it has signals; then it must exist and
  // every area must lie inside it.
  ghost predicate Safe(l: Life, t: RegType) {
    l.sizes.At(t) > 0 ==> l.images.At(t).Some? && AllFit(l.areas.At(t), l.images.At(t).value)
  }

  lemma StackCovers(t: RegType, gs: seq<PerReg<nat>>, i: nat)
    requires gs != [] && i < gs[|gs| - 1].At(t)
    ensures Covered(Stacked(t, gs, |gs|), |Stacked(t, gs, |gs|)|, i)
  {
    hide AreasFor, Covers;
    var n := gs[|gs| - 1].At(t);
    var front, last := Stacked(t, gs, |gs| - 1), AreasFor(t, n);
    OneLayout(t, n);
    TilesCoverAll(last, n, i);
    LaterStillCovered(front, last, i);
  }

  lemma LaterStillCovered(xs: seq<Area>, ys: seq<Area>, i: nat)
    requires Covered(ys, |ys|, i)
    ensures Covered(xs + ys, |xs + ys|, i)
  {
    var k :| 0 <= k < |ys| && Covers(ys[k], i);
    assert (xs + ys)[|xs| + k] == ys[k];
  }

  lemma ImageMatches(l: Life, t: RegType)
    requires Operational(l)
    ensures l.images.At(t) == Some(l.sizes.At(t))
  {
  }

  // An image that exists has the size recorded for it.
  predicate ImagesSized(l: Life) {
    forall t: RegType :: l.images.At(t).Some? ==> l.images.At(t).value == l.sizes.At(t)
  }

  lemma SizedStep(host: Host, l: Life, op: Op)
    requires Sound(l) && ImagesSized(l)
    ensures ImagesSized(Apply(host, l, op).0)
  {
    hide Genuine, ListOk, SizesOf, ModuleWords, KnownPrefix, ClampsOf, Laid, Bounded;
  }

  lemma FreshSized()
    ensures ImagesSized(FRESH)
  {
  }

  lemma {:induction false} AlwaysSized(host: Host, ops: seq<Op>, k: nat)
    requires AllSane(ops) && k <= |ops|
    ensures ImagesSized(Lived(host, ops, k))
  {
    hide Sound, Apply, ImagesSized;
    if k > 0 {
      AlwaysSized(host, ops, k - 1);
      AlwaysSound(host, ops, k - 1);
      SizedStep(host, Lived(host, ops, k - 1), ops[k - 1]);
    } else {
      FreshSized();
    }
  }

  // After any calls whatever, a type is safe exactly when it has no signals, or its image
  // exists and none of the layouts so far was larger.
  lemma SafeIff(host: Host, ops: seq<Op>, k: nat, t: RegType)
    requires AllSane(ops) && k <= |ops|
    ensures var l, gs := Lived(host, ops, k), Generations(host, ops, k);
      Safe(l, t) <==>
        (l.sizes.At(t) > 0 ==> l.images.At(t).Some? && forall i :: 0 <= i < |gs| ==> gs[i].At(t) <= l.sizes.At(t))
  {
    hide Lived, Generations, Stacked, AllFit;
    AlwaysSized(host, ops, k);
    AreasAreStacked(host, ops, k, t);
    StackFitsIff(t, Generations(host, ops, k), |Generations(host, ops, k)|, Lived(host, ops, k).sizes.At(t));
  }

  // How many memories an init has to create until the one of this type is among them.
  function Turn(t: RegType): nat {
    match t
    case DO => 1
    case DI => 2
    case AO => 3
    case AI => 4
  }

  // Call j created an image for the type.
  predicate Makes(host: Host, ops: seq<Op>, j: nat, t: RegType)
    requires j < |ops|
  {
    LaysOut(host, Lived(host, ops, j), ops[j]) && ops[j].world.memories >= Turn(t)
  }

  ghost predicate Imaged(host: Host, ops: seq<Op>, k: nat, t: RegType)
    requires k <= |ops|
  {
    exists j :: 0 <= j < k && Makes(host, ops, j, t) && forall i :: j < i < k ==> !Closes(host, ops, i)
  }

  lemma ImageStep(host: Host, ops: seq<Op>, k: nat, t: RegType)
    requires AllSane(ops) && k < |ops|
    ensures Lived(host, ops, k + 1).images.At(t).Some? <==>
      Makes(host, ops, k, t) || (Lived(host, ops, k).images.At(t).Some? && !Closes(host, ops, k))
  {
    hide Genuine, SizesOf, ModuleWords, KnownPrefix, ClampsOf, Laid, Bounded;
    AlwaysSound(host, ops, k);
    assert Lived(host, ops, k + 1) == Apply(host, Lived(host, ops, k), ops[k]).0;
  }

  // An image exists exactly after an init that created it with no successful disconnect
  // since, whether or not that init went through.
  lemma {:induction false} ImageExistsIff(host: Host, ops: seq<Op>, k: nat, t: RegType)
    requires AllSane(ops) && k <= |ops|
    ensures Lived(host, ops, k).images.At(t).Some? <==> Imaged(host, ops, k, t)
  {
    hide Lived, Makes, Closes;
    if k > 0 {
      ImageExistsIff(host, ops, k - 1, t);
      ImageStep(host, ops, k - 1, t);
      if Imaged(host, ops, k - 1, t) && !Closes(host, ops, k - 1) {
        var j :| 0 <= j < k - 1 && Makes(host, ops, j, t) && forall i :: j < i < k - 1 ==> !Closes(host, ops, i);
        assert forall i :: j < i < k ==> !Closes(host, ops, i);
      }
    } else {
      NoImagesYet(host, ops, t);
    }
  }

  lemma NoImagesYet(host: Host, ops: seq<Op>, t: RegType)
    ensures Lived(host, ops, 0).images.At(t).None?
  {
  }

  // While the object is in use, a type is safe exactly when it has no signals or its
  // image never was larger.
  lemma SafeInUseIff(host: Host, ops: seq<Op>, k: nat, t: RegType)
    requires AllSane(ops) && k <= |ops| && InUse(host, ops, k)
    ensures var l, gs := Lived(host, ops, k), Generations(host, ops, k);
      Safe(l, t) <==> l.sizes.At(t) == 0 || forall i :: 0 <= i < |gs| ==> gs[i].At(t) <= l.sizes.At(t)
  {
    hide Lived, Generations, Safe, InUse, Operational;
    OperationalIff(host, ops, k);
    ImageMatches(Lived(host, ops, k), t);
    SafeIff(host, ops, k, t);
  }

  // In particular everything is safe, tiles and serves its signals after a single init.
  lemma FirstUseIsSafe(host: Host, ops: seq<Op>, k: nat, t: RegType)
    requires AllSane(ops) && k <= |ops| && InUse(host, ops, k) && |Generations(host, ops, k)| == 1
    ensures var l := Lived(host, ops, k);
      Safe(l, t) && Tiles(l.areas.At(t), l.sizes.At(t)) && Serves(t, l.areas.At(t), l.sizes.At(t))
  {
    hide Lived, Generations, InUse, AllFit, Operational, Serves, AreasFor, Tiles;
    var l, gs := Lived(host, ops, k), Generations(host, ops, k);
    AreasAreStacked(host, ops, k, t);
    assert Stacked(t, gs, 1) == [] + AreasFor(t, l.sizes.At(t)) == AreasFor(t, l.sizes.At(t));
    SafeInUseIff(host, ops, k, t);
    AlwaysSound(host, ops, k);
    BoundedAt(l, t);
    AreasServe(t, l.sizes.At(t));
    AreasTile(t, l.sizes.At(t));
  }

  // Where a type is safe its areas, however often repeated, serve every signal.
  lemma SafeServes(host: Host, ops: seq<Op>, k: nat, t: RegType)
    requires AllSane(ops) && k <= |ops|
    requires Safe(Lived(host, ops, k), t) && Lived(host, ops, k).sizes.At(t) > 0
    ensures Serves(t, Lived(host, ops, k).areas.At(t), Lived(host, ops, k).sizes.At(t))
  {
    hide Lived, Generations, Stacked, Covered, AllFollow;
    var l, gs := Lived(host, ops, k), Generations(host, ops, k);
    AlwaysSized(host, ops, k);
    AreasAreStacked(host, ops, k, t);
    AlwaysSound(host, ops, k);
    BoundedAt(l, t);
    forall i | 0 <= i < l.sizes.At(t)
      ensures Covered(l.areas.At(t), |l.areas.At(t)|, i)
    {
      StackCovers(t, gs, i);
    }
  }

  lemma BoundedAt(l: Life, t: RegType)
    requires Bounded(l)
    ensures l.sizes.At(t) <= MaxSize(t) && AllFollow(t, l.areas.At(t))
  {
  }

  // Without a connection there are no images, so a type is safe only if it has no
  // signals; the header promises an exception instead.
  lemma SafeWhenClosedIff(host: Host, ops: seq<Op>, k: nat, t: RegType)
    requires AllSane(ops) && k <= |ops| && !Lived(host, ops, k).connected
    ensures Safe(Lived(host, ops, k), t) <==> Lived(host, ops, k).sizes.At(t) == 0
  {
    AlwaysSound(host, ops, k);
  }

  // An object that was never initialized has nothing to transfer, or is connected.
  lemma UninitializedIsIdleOrConnected(host: Host, ops: seq<Op>, k: nat)
    requires AllSane(ops) && k <= |ops| && !Lived(host, ops, k).initialized
    ensures Lived(host, ops, k).connected || Lived(host, ops, k).sizes == NONE
  {
    AlwaysSound(host, ops, k);
  }

  // No history ever gives analog outputs an image or an area.
  lemma NoAnalogOutputs(host: Host, ops: seq<Op>, k: nat)
    requires AllSane(ops) && k <= |ops|
    ensures Lived(host, ops, k).sizes.ao == 0 && Lived(host, ops, k).areas.ao == []
  {
    AlwaysSound(host, ops, k);
  }
}
