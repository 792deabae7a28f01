// Lives of a coupler object that show what goes wrong: every list of known modules can be
// met, and so can every digital image size up to the bound.
module Lives {
  import opened Types
  import opened Modbus
  import opened Endian
  import opened Clamps
  import opened Layout
  import opened Sync
  import opened Lifecycle
  import opened Histories

  predicate Listable(ws: seq<Word>) {
    1 <= |ws| <= 64 && AllKnown(ws)
  }

  function WordAt(ws: seq<Word>, k: nat): Word {
    if 1 <= k <= |ws| then ws[k - 1] else 0
  }

  function Block(ws: seq<Word>): (words: seq<Word>)
    ensures |words| == 0x41
  {
    seq(0x41, k requires 0 <= k < 0x41 => WordAt(ws, k))
  }

  // A coupler with these modules that answers every request, as a little-endian host sees
  // it, and a system that creates this many memories.
  function Bus(ws: seq<Word>, memories: nat): World {
    World(true, Some(CONSTANTS), Some(Block(ws)), memories)
  }

  lemma BlockLists(ws: seq<Word>)
    requires Listable(ws)
    ensures ModuleWords(LittleHost, Block(ws)) == ws
  {
    var words := Block(ws);
    var e := EndOfModules(LittleHost, words, 1);
    if |ws| < 64 { assert words[|ws| + 1] == 0; }
    forall k | 1 <= k <= |ws| ensures words[k] != 0 { assert Known(ws[k - 1]); }
    assert e == |ws| + 1;
  }

  lemma BlockLaid(l: Life, ws: seq<Word>)
    requires Listable(ws) && l.clamps == []
    ensures ListOk(LittleHost, l, Block(ws))
    ensures WithLayout(Listed(LittleHost, l, Block(ws))) ==
      l.(clamps := ClampsOf(ws), sizes := SizesOfWords(ws), areas := Laid(l.areas, SizesOfWords(ws)))
  {
    hide ModuleWords, Block, Laid, KnownPrefix, SizesOfWords, SizesOf;
    BlockLists(ws);
    ListedAll(LittleHost, l, Block(ws));
  }

  // An init on it, with all memories created or with only some of them.
  lemma BusStarts(l: Life, ws: seq<Word>, memories: nat)
    requires Listable(ws) && !l.connected && l.clamps == []
    ensures var n := SizesOfWords(ws);
      Lifecycle.Init(LittleHost, l, Bus(ws, memories)) ==
        (Life(true, l.initialized || memories >= 4, ClampsOf(ws), n, Laid(l.areas, n), Created(l.images, n, memories)),
         if memories >= 4 then Ok else Threw(SystemError))
    ensures LaysOut(LittleHost, l, DoInit(Bus(ws, memories)))
  {
    hide Block, Genuine, ListOk, WithLayout, Listed, Laid, SizesOfWords, ClampsOf;
    ConstantsPassIff(LittleHost);
    BlockLaid(l, ws);
    BlockLaid(l.(connected := true), ws);
  }

  lemma BusSane(ws: seq<Word>, memories: nat)
    ensures Sane(DoInit(Bus(ws, memories)))
  {
  }

  // ----- every digital size occurs ---------------------------------------------------------

  // A digital module of a type with up to 127 channels.
  function Digital(t: RegType, channels: nat): Word
    requires t.Digital() && channels <= 127
  {
    0x8000 + channels * 0x100 + if t == DI then 1 else 2
  }

  function Filling(t: RegType, n: nat): (ws: seq<Word>)
    requires t.Digital()
    ensures |ws| >= 1 && (|ws| == 1 || 127 * (|ws| - 1) < n)
  {
    if n <= 127 then [Digital(t, n)] else Filling(t, n - 127) + [Digital(t, 127)]
  }

  lemma {:induction false} SizesFront(cs: seq<Clamp>, ds: seq<Clamp>, n: nat)
    requires n <= |cs|
    ensures Sizes(cs + ds, n) == Sizes(cs, n)
  {
    if n > 0 { SizesFront(cs, ds, n - 1); }
  }

  lemma DigitalDecodes(t: RegType, channels: nat)
    requires t.Digital() && channels <= 127
    ensures var w := Digital(t, channels);
      Known(w) && Decoded(w).Counts() == NONE.With(t, channels)
  {
    DecodeMeans(Digital(t, channels));
  }

  lemma OneMore(ws: seq<Word>, w: Word)
    requires AllKnown(ws) && Known(w)
    ensures AllKnown(ws + [w]) && SizesOfWords(ws + [w]) == Plus(SizesOfWords(ws), Decoded(w).Counts())
  {
    hide Known, Decoded;
    assert ClampsOf(ws + [w]) == ClampsOf(ws) + [Decoded(w)];
    SizesFront(ClampsOf(ws), [Decoded(w)], |ws|);
  }

  lemma {:induction false} FillingSizes(t: RegType, n: nat)
    requires t.Digital()
    ensures AllKnown(Filling(t, n)) && SizesOfWords(Filling(t, n)) == NONE.With(t, n)
  {
    hide Digital, Known, Decoded, Sizes, ClampsOf;
    var last := if n <= 127 then n else 127;
    DigitalDecodes(t, last);
    if n > 127 {
      FillingSizes(t, n - 127);
      OneMore(Filling(t, n - 127), Digital(t, 127));
    } else {
      NoWords();
      OneMore([], Digital(t, n));
      assert [] + [Digital(t, n)] == Filling(t, n);
    }
  }

  lemma NoWords()
    ensures SizesOfWords([]) == NONE
  {
  }

  // Every number of digital inputs, or outputs, up to the bound on accepted configurations
  // is the size of an accepted one: the bound is met, and so is everything past the first
  // window.
  lemma EverySizeOccurs(t: RegType, n: nat)
    requires t.Digital() && n <= MAX_DIGITAL
    ensures Listable(Filling(t, n))
    ensures var (l, o) := Lifecycle.Init(LittleHost, FRESH, Bus(Filling(t, n), 4));
      && o == Ok && l.sizes == NONE.With(t, n) && l.areas.At(t) == AreasFor(t, n) && Safe(l, t)
      && Serves(t, l.areas.At(t), n)
  {
    hide Filling, Bus, ClampsOf, SizesOfWords, Serves, AreasFor, Lifecycle.Init;
    FillingSizes(t, n);
    BusStarts(FRESH, Filling(t, n), 4);
    AreasFitIff(t, n, n);
    AreasServe(t, n);
  }

  // There, a signal past the first window is read from, and written to, a cell that the
  // documentation gives to no signal of the type.
  lemma SecondWindowMissed(t: RegType, n: nat, i: nat, image: seq<Word>, m: Memory)
    requires t.Digital() && FIRST.At(t).size <= i < n <= MAX_DIGITAL && |image| == n
    ensures var areas := Lifecycle.Init(LittleHost, FRESH, Bus(Filling(t, n), 4)).0.areas.At(t);
      var x := 1527 + (i - 512);
      && Fetched(t, image, areas, m)[i] == m.At(t)[x]
      && (t == DO ==> Sent(m, t, areas, image).At(t)[x] == Bit(image[i]))
      && DocumentedAddress(t, i) == (if t == DI then 0x8000 else 0x9000) + (i - 512) && !InWindows(t, x)
  {
    hide Lifecycle.Init, Bus, Filling, Fetched, Sent, Serves;
    EverySizeOccurs(t, n);
    var areas := Lifecycle.Init(LittleHost, FRESH, Bus(Filling(t, n), 4)).0.areas.At(t);
    FetchedAt(t, image, areas, m, i);
    if t == DO { SentAt(m, t, areas, image, i); }
  }

  // ----- an init that fails after connecting ----------------------------------------------------

  // The number of memories decides which images there are: those of the list stay usable.
  lemma FailedInit(ws: seq<Word>, memories: nat)
    requires Listable(ws) && memories < 4
    ensures var ops := [DoInit(Bus(ws, memories))];
      var l := Lived(LittleHost, ops, 1);
      && AllSane(ops) && Reported(LittleHost, ops, 0) == Threw(SystemError) && l.connected && !l.initialized
      && l.sizes == SizesOfWords(ws)
      && forall t: RegType :: l.areas.At(t) == AreasFor(t, l.sizes.At(t)) &&
           (Safe(l, t) <==> l.sizes.At(t) == 0 || memories >= Turn(t))
  {
    hide Bus, Lifecycle.Init, ClampsOf, SizesOfWords, AreasFor;
    var ops := [DoInit(Bus(ws, memories))];
    assert Lived(LittleHost, ops, 0) == FRESH;
    assert Lived(LittleHost, ops, 1) == Lifecycle.Init(LittleHost, FRESH, ops[0].world).0;
    assert Sane(ops[0]) by { BusSane(ws, memories); }
    BusStarts(FRESH, ws, memories);
    forall t: RegType ensures AllFit(AreasFor(t, SizesOfWords(ws).At(t)), SizesOfWords(ws).At(t)) {
      AreasFitIff(t, SizesOfWords(ws).At(t), SizesOfWords(ws).At(t));
    }
  }

  // One module with four inputs, and two memories.
  lemma OneModuleTwoMemories()
    ensures var l := Lived(LittleHost, [DoInit(Bus([0x8401], 2))], 1);
      && l.connected && !l.initialized && l.sizes == PerReg(4, 0, 0, 0) && l.areas.di == [Area(0, 4, 0)]
      && Safe(l, DI) && Safe(l, AI)
  {
    hide Lived, Bus, Safe, SizesOfWords;
    OneAndTwo();
    FailedInit([0x8401], 2);
    assert Lived(LittleHost, [DoInit(Bus([0x8401], 2))], 1).areas.At(DI) == AreasFor(DI, 4);
  }

  // ----- a second life ------------------------------------------------------------------------------

  function TwoLives(xs: seq<Word>, ys: seq<Word>): (ops: seq<Op>)
    ensures |ops| == 3
  {
    [DoInit(Bus(xs, 4)), DoDisconnect, DoInit(Bus(ys, 4))]
  }

  lemma LivesTwice(xs: seq<Word>, ys: seq<Word>)
    requires Listable(xs) && Listable(ys)
    ensures var ops, n, m := TwoLives(xs, ys), SizesOfWords(xs), SizesOfWords(ys);
      var two, three := Lived(LittleHost, ops, 2), Lived(LittleHost, ops, 3);
      && AllSane(ops) && InUse(LittleHost, ops, 3) && Generations(LittleHost, ops, 3) == [n, m]
      && two == Life(false, true, [], n, Laid(NO_AREAS, n), NO_IMAGES)
      && three.sizes == m && three.areas == Laid(Laid(NO_AREAS, n), m) && three.images == Somes(m)
  {
    hide Bus, Lifecycle.Init, ClampsOf, SizesOfWords, Laid, LaysOut;
    var ops := TwoLives(xs, ys);
    BusSane(xs, 4);
    BusSane(ys, 4);
    assert Lived(LittleHost, ops, 0) == FRESH;
    BusStarts(FRESH, xs, 4);
    var one := Lived(LittleHost, ops, 1);
    assert one == Lifecycle.Init(LittleHost, FRESH, Bus(xs, 4)).0;
    var two := Lived(LittleHost, ops, 2);
    assert two == Disconnect(one).0;
    BusStarts(two, ys, 4);
    assert Lived(LittleHost, ops, 3) == Lifecycle.Init(LittleHost, two, Bus(ys, 4)).0;
    assert Reported(LittleHost, ops, 2).Ok?;
    assert Generations(LittleHost, ops, 1) == [SizesOfWords(xs)];
    ClosingLaysNothing(one);
    assert Generations(LittleHost, ops, 2) == [SizesOfWords(xs)];
  }

  lemma ClosingLaysNothing(l: Life)
    ensures !LaysOut(LittleHost, l, DoDisconnect)
  {
  }

  // Between the two lives destruction aborts, and a type with signals cannot be
  // transferred. In the second, the areas of a type tile its image exactly when the first
  // had no signals of it; and a transfer leaves the image exactly when it had more.
  lemma SecondLife(xs: seq<Word>, ys: seq<Word>, t: RegType)
    requires Listable(xs) && Listable(ys)
    ensures var ops, n, m := TwoLives(xs, ys), SizesOfWords(xs).At(t), SizesOfWords(ys).At(t);
      var two, three := Lived(LittleHost, ops, 2), Lived(LittleHost, ops, 3);
      && DestructionAborts(two) && (Safe(two, t) <==> n == 0)
      && Operational(three) && (Tiles(three.areas.At(t), m) <==> n == 0) && (Safe(three, t) <==> m == 0 || n <= m)
  {
    hide Lived, Generations, InUse, SizesOfWords, Tiles, AllFit, TwoLives, Stacked, AllSane;
    var ops := TwoLives(xs, ys);
    LivesTwice(xs, ys);
    OperationalIff(LittleHost, ops, 3);
    SafeInUseIff(LittleHost, ops, 3, t);
    AreasAreStacked(LittleHost, ops, 3, t);
    var gs := Generations(LittleHost, ops, 3);
    StackTilesIff(t, gs);
    assert gs[0].At(t) == SizesOfWords(xs).At(t) && gs[1].At(t) == SizesOfWords(ys).At(t);
  }

  // Two input modules, then one of them: the next fetch writes eight cells into an image of
  // four.
  lemma FewerModules()
    ensures var ops := TwoLives([0x8401, 0x8401], [0x8401]);
      var l := Lived(LittleHost, ops, 3);
      && AllSane(ops) && InUse(LittleHost, ops, 3) && !Safe(l, DI)
      && l.areas.di == [Area(0, 8, 0), Area(0, 4, 0)] && l.images.di == Some(4)
  {
    hide Lived, Generations, InUse, TwoLives, AllSane, Safe, SizesOfWords, InUse;
    OneAndTwo();
    LivesTwice([0x8401, 0x8401], [0x8401]);
    SecondLife([0x8401, 0x8401], [0x8401], DI);
  }

  lemma OneAndTwo()
    ensures Listable([0x8401]) && Listable([0x8401, 0x8401])
    ensures SizesOfWords([0x8401]) == PerReg(4, 0, 0, 0) && SizesOfWords([0x8401, 0x8401]) == PerReg(8, 0, 0, 0)
  {
    var c, one: seq<Word>, two: seq<Word> := ClampDI(4, 0x8401), [0x8401], [0x8401, 0x8401];
    assert ClampsOf(one) == [c] && ClampsOf(two) == [c, c];
    assert Sizes([c], 1) == Plus(Sizes([c], 0), c.Counts());
    assert Sizes([c, c], 1) == Plus(Sizes([c, c], 0), c.Counts());
    assert Sizes([c, c], 2) == Plus(Sizes([c, c], 1), c.Counts());
  }
}
