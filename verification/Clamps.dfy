// The modules on the bus: how a configuration word becomes a module, which of the four
// counts a module adds to, and the image sizes that follow.
module Clamps {
  import opened Types
  import opened Endian
  import opened Layout

  // The four module classes. An analog output module reports its channels as inputs.
  datatype Clamp =
    | ClampDI(channels: nat, config: Word)
    | ClampDO(channels: nat, config: Word)
    | ClampAI(channels: nat, config: Word)
    | ClampAO(channels: nat, config: Word)
  {
    function DiChannels(): nat { if ClampDI? then channels else 0 }
    function DoChannels(): nat { if ClampDO? then channels else 0 }
    function AiChannels(): nat { if ClampAI? || ClampAO? then channels else 0 }
    function AoChannels(): nat { 0 }

    function Counts(): PerReg<nat> {
      PerReg(DiChannels(), DoChannels(), AiChannels(), AoChannels())
    }
  }

  // The type a module's signals belong to, by its class name.
  function TypeOf(c: Clamp): RegType {
    match c
    case ClampDI(_, _) => DI
    case ClampDO(_, _) => DO
    case ClampAI(_, _) => AI
    case ClampAO(_, _) => AO
  }

  function AllocAnalog(w: Word): Result<Clamp> {
    if w == 453 then Returned(ClampAI(4, w))
    else if w == 553 then Returned(ClampAO(4, w))
    else Raised(RuntimeError)
  }

  // Bit 15 marks a digital module, bits 8 to 14 hold its channels, bits 0 and 1 its kind.
  function Decode(w: Word): Result<Clamp> {
    if w / 0x8000 == 1 then
      var channels := w / 0x100 % 0x80;
      if w % 4 == 1 then Returned(ClampDI(channels, w))
      else if w % 4 == 2 then Returned(ClampDO(channels, w))
      else Raised(RuntimeError)
    else AllocAnalog(w)
  }

  predicate Known(w: Word) {
    if w >= 0x8000 then w % 4 == 1 || w % 4 == 2 else w == 453 || w == 553
  }

  // Channels by the word alone.
  function Channels(w: Word): nat {
    if w >= 0x8000 then (w - 0x8000) / 0x100 else 4
  }

  lemma DecodeMeans(w: Word)
    ensures Decode(w).Returned? <==> Known(w)
    ensures Known(w) <==> (w >= 0x8000 && (w % 4 == 1 || w % 4 == 2)) || w == 453 || w == 553
    ensures !Known(w) ==> Decode(w) == Raised(RuntimeError)
    ensures Known(w) ==>
      var c := Decode(w).value;
      && c.config == w && c.channels == Channels(w)
      && TypeOf(c) == if w >= 0x8000 then (if w % 4 == 1 then DI else DO) else if w == 453 then AI else AO
  {
  }

  // ----- the list of modules ------------------------------------------------------------

  // Entry 0 is the coupler itself; the first zero word ends the list.
  function EndOfModules(host: Host, words: seq<Word>, i: nat): (e: nat)
    requires i <= |words|
    ensures i <= e <= |words|
    ensures forall k :: i <= k < e ==> ConfigWord(host, words[k]) != 0
    ensures e < |words| ==> ConfigWord(host, words[e]) == 0
    decreases |words| - i
  {
    if i == |words| || ConfigWord(host, words[i]) == 0 then i else EndOfModules(host, words, i + 1)
  }

  function ModuleWords(host: Host, words: seq<Word>): seq<Word> {
    if words == [] then []
    else
      var e := EndOfModules(host, words, 1);
      seq(e - 1, k requires 0 <= k < e - 1 => ConfigWord(host, words[k + 1]))
  }

  predicate AllKnown(ws: seq<Word>) {
    forall k :: 0 <= k < |ws| ==> Known(ws[k])
  }

  // How many words are decoded before the first unknown one.
  function KnownPrefix(ws: seq<Word>): (k: nat)
    ensures k <= |ws| && AllKnown(ws[..k])
    ensures k < |ws| ==> !Known(ws[k])
    ensures k == |ws| <==> AllKnown(ws)
  {
    if ws == [] || !Known(ws[0]) then 0 else 1 + KnownPrefix(ws[1..])
  }

  function Decoded(w: Word): Clamp
    requires Known(w)
  {
    DecodeMeans(w);
    Decode(w).value
  }

  function ClampsOf(ws: seq<Word>): (cs: seq<Clamp>)
    requires AllKnown(ws)
    ensures |cs| == |ws|
  {
    seq(|ws|, k requires 0 <= k < |ws| => Decoded(ws[k]))
  }

  // ----- image sizes ------------------------------------------------------------------------

  function Plus(a: PerReg<nat>, b: PerReg<nat>): PerReg<nat> {
    PerReg(a.di + b.di, a.dout + b.dout, a.ai + b.ai, a.ao + b.ao)
  }

  const NONE: PerReg<nat> := PerReg(0, 0, 0, 0)

  function Sizes(cs: seq<Clamp>, n: nat): PerReg<nat>
    requires n <= |cs|
  {
    if n == 0 then NONE else Plus(Sizes(cs, n - 1), cs[n - 1].Counts())
  }

  function TotalChannels(ws: seq<Word>, n: nat): nat
    requires n <= |ws|
  {
    if n == 0 then 0 else TotalChannels(ws, n - 1) + Channels(ws[n - 1])
  }

  // The channels of the modules of one class.
  function ChannelsOfType(t: RegType, cs: seq<Clamp>, n: nat): nat
    requires n <= |cs|
  {
    if n == 0 then 0
    else ChannelsOfType(t, cs, n - 1) + if TypeOf(cs[n - 1]) == t then cs[n - 1].channels else 0
  }

  function SizesOfWords(ws: seq<Word>): PerReg<nat>
    requires AllKnown(ws)
  {
    Sizes(ClampsOf(ws), |ws|)
  }

  // No channel is lost or counted twice.
  lemma {:induction false} ChannelsConserved(ws: seq<Word>, n: nat)
    requires AllKnown(ws) && n <= |ws|
    ensures var s := Sizes(ClampsOf(ws), n); s.di + s.dout + s.ai + s.ao == TotalChannels(ws, n)
  {
    if n > 0 {
      ChannelsConserved(ws, n - 1);
      DecodeMeans(ws[n - 1]);
    }
  }

  // The digital images count what their modules have. Analog outputs are counted as
  // inputs, so the analog images are right exactly when no such module is present.
  lemma {:induction false} SizesByType(cs: seq<Clamp>, n: nat)
    requires n <= |cs|
    ensures var s := Sizes(cs, n);
      && s.di == ChannelsOfType(DI, cs, n) && s.dout == ChannelsOfType(DO, cs, n)
      && s.ai == ChannelsOfType(AI, cs, n) + ChannelsOfType(AO, cs, n)
      && s.ao == 0
  {
    if n > 0 { SizesByType(cs, n - 1); }
  }

  // What a module adds to the image of a type, by its word alone: analog modules of either
  // kind add four inputs, and nothing ever adds an analog output.
  function Adds(t: RegType, w: Word): nat {
    match t
    case DI => if w >= 0x8000 && w % 4 == 1 then (w - 0x8000) / 0x100 else 0
    case DO => if w >= 0x8000 && w % 4 == 2 then (w - 0x8000) / 0x100 else 0
    case AI => if w == 453 || w == 553 then 4 else 0
    case AO => 0
  }

  function AddsUpTo(t: RegType, ws: seq<Word>, n: nat): nat
    requires n <= |ws|
  {
    if n == 0 then 0 else AddsUpTo(t, ws, n - 1) + Adds(t, ws[n - 1])
  }

  // So the sizes are sums over the words.
  lemma {:induction false} SizesFromWords(ws: seq<Word>, n: nat, t: RegType)
    requires AllKnown(ws) && n <= |ws|
    ensures Sizes(ClampsOf(ws), n).At(t) == AddsUpTo(t, ws, n)
  {
    if n > 0 {
      SizesFromWords(ws, n - 1, t);
      DecodeMeans(ws[n - 1]);
    }
  }

  // The modules of the list, one by one.
  lemma ClampsMean(ws: seq<Word>, k: nat)
    requires AllKnown(ws) && k < |ws|
    ensures var c, w := ClampsOf(ws)[k], ws[k];
      && c.config == w && c.channels == (if w >= 0x8000 then (w - 0x8000) / 0x100 else 4)
      && TypeOf(c) == if w >= 0x8000 then (if w % 4 == 1 then DI else DO) else if w == 453 then AI else AO
  {
    DecodeMeans(ws[k]);
  }

  lemma {:induction false} NoAoModules(ws: seq<Word>, n: nat)
    requires AllKnown(ws) && n <= |ws|
    ensures ChannelsOfType(AO, ClampsOf(ws), n) == 0 <==> forall k :: 0 <= k < n ==> ws[k] != 553
  {
    if n > 0 {
      NoAoModules(ws, n - 1);
      DecodeMeans(ws[n - 1]);
    }
  }

  lemma AnalogSizesRightIff(ws: seq<Word>)
    requires AllKnown(ws)
    ensures var cs, s := ClampsOf(ws), SizesOfWords(ws);
      s.ai == ChannelsOfType(AI, cs, |cs|) && s.ao == ChannelsOfType(AO, cs, |cs|) <==> 553 !in ws
  {
    SizesByType(ClampsOf(ws), |ws|);
    NoAoModules(ws, |ws|);
  }

  lemma {:induction false} SizeBounds(ws: seq<Word>, n: nat)
    requires AllKnown(ws) && n <= |ws|
    ensures var s := Sizes(ClampsOf(ws), n); s.di + s.dout <= 127 * n && s.ai + s.ao <= 4 * n
  {
    if n > 0 {
      SizeBounds(ws, n - 1);
      DecodeMeans(ws[n - 1]);
    }
  }

  // Every accepted configuration: at most 64 modules, and images within the bounds on
  // which the area lists rely. Analog images never need a second area.
  lemma AcceptedBounds(host: Host, words: seq<Word>)
    requires |words| == 0x41 && AllKnown(ModuleWords(host, words))
    ensures var ws := ModuleWords(host, words);
      var s := SizesOfWords(ws);
      && |ws| <= 64 && s.di + s.dout <= MAX_DIGITAL && s.ai + s.ao <= MAX_ANALOG && s.ao == 0
      && forall t: RegType :: s.At(t) <= MaxSize(t)
  {
    var ws := ModuleWords(host, words);
    SizeBounds(ws, |ws|);
    SizesByType(ClampsOf(ws), |ws|);
  }
}
