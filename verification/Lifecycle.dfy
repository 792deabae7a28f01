// The life of a coupler object as a state machine: every sequence of init, failed init,
// disconnect and destruction.
module Lifecycle {
  import opened Types
  import opened Endian
  import opened Clamps
  import opened Layout

  // The fields of the object. images holds the length of each shared memory that exists.
  datatype Life = Life(
    connected: bool,
    initialized: bool,
    clamps: seq<Clamp>,
    sizes: PerReg<nat>,
    areas: PerReg<seq<Area>>,
    images: PerReg<Option<nat>>)

  const NO_IMAGES: PerReg<Option<nat>> := PerReg(None, None, None, None)
  const NO_AREAS: PerReg<seq<Area>> := PerReg([], [], [], [])
  const FRESH: Life := Life(false, false, [], NONE, NO_AREAS, NO_IMAGES)

  const CONSTANTS: seq<Word> :=
    [0x0000, 0xFFFF, 0x1234, 0xAAAA, 0x5555, 0x7FFF, 0x8000, 0x3FFF, 0x4000]

  // What an init meets outside the object: whether the connection opens, what the two
  // register blocks answer, how many of the four shared memories can be created.
  datatype World = World(connect: bool, constants: Option<seq<Word>>, config: Option<seq<Word>>, memories: nat)

  predicate Genuine(host: Host, answer: seq<Word>) {
    |answer| == |CONSTANTS| && forall i :: 0 <= i < |CONSTANTS| ==> ConfigWord(host, answer[i]) == CONSTANTS[i]
  }

  // The constants of a coupler, which arrive as plain host numbers, pass exactly on
  // little-endian hosts; a big-endian host accepts only their byte-swapped counterparts.
  lemma ConstantsPassIff(host: Host)
    ensures Genuine(host, CONSTANTS) <==> host.LittleHost?
    ensures Genuine(host, seq(|CONSTANTS|, i requires 0 <= i < |CONSTANTS| => ConfigWord(host, CONSTANTS[i])))
  {
    assert ConfigWord(BigHost, CONSTANTS[2]) == 0x3412;
    forall w: Word ensures ConfigWord(host, ConfigWord(host, w)) == w { ConfigWordIsLittleToHost(host, w); }
  }

  // A little-endian host accepts these nine words and nothing else, a big-endian host these
  // with their bytes swapped.
  lemma GenuineIff(answer: seq<Word>)
    ensures Genuine(LittleHost, answer) <==>
      answer == [0x0000, 0xFFFF, 0x1234, 0xAAAA, 0x5555, 0x7FFF, 0x8000, 0x3FFF, 0x4000]
    ensures Genuine(BigHost, answer) <==>
      answer == [0x0000, 0xFFFF, 0x3412, 0xAAAA, 0x5555, 0xFF7F, 0x0080, 0xFF3F, 0x0040]
  {
    forall w: Word ensures ConfigWord(BigHost, ConfigWord(BigHost, w)) == w { ConfigWordIsLittleToHost(BigHost, w); }
    var swapped: seq<Word> := [0x0000, 0xFFFF, 0x3412, 0xAAAA, 0x5555, 0xFF7F, 0x0080, 0xFF3F, 0x0040];
    assert forall i :: 0 <= i < 9 ==> ConfigWord(BigHost, swapped[i]) == CONSTANTS[i];
    if Genuine(BigHost, answer) {
      forall i | 0 <= i < 9 ensures answer[i] == swapped[i] {
        assert ConfigWord(BigHost, ConfigWord(BigHost, answer[i])) == answer[i];
        assert ConfigWord(BigHost, ConfigWord(BigHost, swapped[i])) == swapped[i];
      }
    }
  }

  function Laid(areas: PerReg<seq<Area>>, n: PerReg<nat>): PerReg<seq<Area>> {
    PerReg(areas.di + AreasFor(DI, n.di), areas.dout + AreasFor(DO, n.dout),
           areas.ai + AreasFor(AI, n.ai), areas.ao + AreasFor(AO, n.ao))
  }

  // The memories are created in the order DO, DI, AO, AI.
  function Created(images: PerReg<Option<nat>>, n: PerReg<nat>, memories: nat): PerReg<Option<nat>> {
    PerReg(if memories > 1 then Some(n.di) else images.di,
           if memories > 0 then Some(n.dout) else images.dout,
           if memories > 3 then Some(n.ai) else images.ai,
           if memories > 2 then Some(n.ao) else images.ao)
  }

  // Reading the module list: the decoded modules are kept even when a later word is unknown.
  function Listed(host: Host, l: Life, config: seq<Word>): Life {
    var ws := ModuleWords(host, config);
    l.(clamps := l.clamps + ClampsOf(ws[..KnownPrefix(ws)]))
  }

  function SizesOf(l: Life): PerReg<nat> {
    Sizes(l.clamps, |l.clamps|)
  }

  function WithLayout(l: Life): Life {
    l.(sizes := SizesOf(l), areas := Laid(l.areas, SizesOf(l)))
  }

  predicate ListOk(host: Host, l: Life, config: seq<Word>) {
    AllKnown(ModuleWords(host, config)) && Listed(host, l, config).clamps != []
  }

  function Init(host: Host, l: Life, w: World): (Life, Outcome) {
    if l.connected then (l, Threw(LogicError))
    else if !w.connect then (l, Threw(RuntimeError))
    else InitConnected(host, l.(connected := true), w)
  }

  function InitConnected(host: Host, l: Life, w: World): (Life, Outcome) {
    if w.constants.None? || !Genuine(host, w.constants.value) || w.config.None? then (l, Threw(RuntimeError))
    else if !ListOk(host, l, w.config.value) then (Listed(host, l, w.config.value), Threw(RuntimeError))
    else
      var laid := WithLayout(Listed(host, l, w.config.value));
      var made := laid.(images := Created(laid.images, laid.sizes, w.memories));
      if w.memories < 4 then (made, Threw(SystemError)) else (made.(initialized := true), Ok)
  }

  // Closing empties the module list and drops the images, before it can find that there
  // is no connection to close; it keeps the initialized flag, the sizes and the areas.
  function Disconnect(l: Life): (Life, Outcome) {
    if !l.initialized then (l, Threw(LogicError))
    else
      var emptied := l.(clamps := [], images := NO_IMAGES);
      if !l.connected then (emptied, Threw(LogicError)) else (emptied.(connected := false), Ok)
  }

  // The destructor disconnects an initialized object; an exception that leaves it ends
  // the program.
  predicate DestructionAborts(l: Life) {
    l.initialized && Disconnect(l).1.Threw?
  }

  datatype Op = DoInit(world: World) | DoDisconnect

  function Apply(host: Host, l: Life, op: Op): (Life, Outcome) {
    match op
    case DoInit(w) => Init(host, l, w)
    case DoDisconnect => Disconnect(l)
  }

  function Lived(host: Host, ops: seq<Op>, k: nat): Life
    requires k <= |ops|
  {
    if k == 0 then FRESH else Apply(host, Lived(host, ops, k - 1), ops[k - 1]).0
  }

  function Reported(host: Host, ops: seq<Op>, j: nat): Outcome
    requires j < |ops|
  {
    Apply(host, Lived(host, ops, j), ops[j]).1
  }

  // The configuration block always has 65 words.
  predicate Sane(op: Op) {
    op.DoInit? && op.world.config.Some? ==> |op.world.config.value| == 0x41
  }

  predicate AllSane(ops: seq<Op>) {
    forall k :: 0 <= k < |ops| ==> Sane(ops[k])
  }

  // ----- what every history keeps ---------------------------------------------------------

  predicate TypeBounded(t: RegType, n: nat, areas: seq<Area>) {
    n <= MaxSize(t) && AllFollow(t, areas)
  }

  predicate Bounded(l: Life) {
    && TypeBounded(DI, l.sizes.di, l.areas.di) && TypeBounded(DO, l.sizes.dout, l.areas.dout)
    && TypeBounded(AI, l.sizes.ai, l.areas.ai) && l.sizes.ao == 0 && l.areas.ao == []
  }

  predicate Sound(l: Life) {
    && Bounded(l)
    && (!l.connected ==> l.clamps == [] && l.images == NO_IMAGES)
    && (!l.initialized && !l.connected ==> l == FRESH)
  }

  lemma AppendBounded(t: RegType, n: nat, areas: seq<Area>, n': nat)
    requires TypeBounded(t, n, areas) && n' <= MaxSize(t)
    ensures TypeBounded(t, n', areas + AreasFor(t, n'))
  {
    AreasFollow(t, n');
  }

  lemma ListedAll(host: Host, l: Life, config: seq<Word>)
    requires l.clamps == [] && AllKnown(ModuleWords(host, config))
    ensures Listed(host, l, config).clamps == ClampsOf(ModuleWords(host, config))
    ensures SizesOf(Listed(host, l, config)) == SizesOfWords(ModuleWords(host, config))
  {
    var ws := ModuleWords(host, config);
    assert ws[..KnownPrefix(ws)] == ws;
  }

  // No word up to number k, the coupler's own aside, is zero.
  predicate InList(host: Host, words: seq<Word>, k: nat) {
    1 <= k < |words| && forall j :: 1 <= j <= k ==> ConfigWord(host, words[j]) != 0
  }

  // The raw block: a first module, and only known words before the first zero.
  ghost predicate Acceptable(host: Host, words: seq<Word>) {
    InList(host, words, 1) && forall k: nat :: InList(host, words, k) ==> Known(ConfigWord(host, words[k]))
  }

  lemma ListedWords(host: Host, words: seq<Word>, k: nat)
    ensures InList(host, words, k) <==> 1 <= k <= |ModuleWords(host, words)|
    ensures InList(host, words, k) ==> ModuleWords(host, words)[k - 1] == ConfigWord(host, words[k])
  {
    var ws := ModuleWords(host, words);
    if words != [] && 1 <= k < |words| && |ws| < k { assert ConfigWord(host, words[|ws| + 1]) == 0; }
  }

  // Reading the list succeeds exactly on such blocks.
  lemma ListOkIff(host: Host, l: Life, config: seq<Word>)
    requires l.clamps == []
    ensures ListOk(host, l, config) <==> Acceptable(host, config)
  {
    hide KnownPrefix, ClampsOf;
    var ws := ModuleWords(host, config);
    if AllKnown(ws) { ListedAll(host, l, config); }
    forall k: nat { ListedWords(host, config, k); }
    if Acceptable(host, config) {
      forall k | 0 <= k < |ws| ensures Known(ws[k]) { assert InList(host, config, k + 1); }
    }
  }

  // The channels for a type of the words of the raw block before number n, up to its first zero.
  function AddsInBlock(host: Host, t: RegType, words: seq<Word>, n: nat): nat
    requires n <= |words|
  {
    if n == 0 then 0
    else
      AddsInBlock(host, t, words, n - 1) +
      if InList(host, words, n - 1) then Adds(t, ConfigWord(host, words[n - 1])) else 0
  }

  lemma {:induction false} AddsAgree(host: Host, t: RegType, words: seq<Word>, n: nat)
    requires n <= |words|
    ensures var ws := ModuleWords(host, words);
      AddsInBlock(host, t, words, n) ==
        AddsUpTo(t, ws, if n == 0 then 0 else if n - 1 <= |ws| then n - 1 else |ws|)
  {
    hide ModuleWords, InList, Adds;
    if n > 0 {
      AddsAgree(host, t, words, n - 1);
      ListedWords(host, words, n - 1);
    }
  }

  // The modules known to the object are those of the words before the first zero, up to the
  // first that is unknown.
  lemma ListedModules(host: Host, l: Life, words: seq<Word>, k: nat)
    requires l.clamps == []
    ensures var cs := Listed(host, l, words).clamps;
      && (k < |cs| ==> InList(host, words, k + 1) && cs[k].config == ConfigWord(host, words[k + 1]))
      && (k == |cs| && InList(host, words, k + 1) ==> !Known(ConfigWord(host, words[k + 1])))
  {
    hide InList, ModuleWords, KnownPrefix, ConfigWord, Known, ClampsOf;
    var ws := ModuleWords(host, words);
    var n := KnownPrefix(ws);
    assert l.clamps + ClampsOf(ws[..n]) == ClampsOf(ws[..n]);
    ListedWords(host, words, k + 1);
    if k < n { ClampsMean(ws[..n], k); }
  }

  // The image sizes are the channels of the raw block.
  lemma SizesFromBlock(host: Host, l: Life, config: seq<Word>, t: RegType)
    requires l.clamps == [] && ListOk(host, l, config)
    ensures SizesOf(Listed(host, l, config)).At(t) == AddsInBlock(host, t, config, |config|)
  {
    hide ModuleWords, KnownPrefix, ClampsOf, Adds;
    var ws := ModuleWords(host, config);
    ListedAll(host, l, config);
    SizesFromWords(ws, |ws|, t);
    AddsAgree(host, t, config, |config|);
    ListedLength(host, config);
  }

  lemma ListedLength(host: Host, words: seq<Word>)
    ensures words != [] ==> |ModuleWords(host, words)| <= |words| - 1
    ensures words == [] ==> ModuleWords(host, words) == []
  {
  }

  // How an init ends: which error, and when none.
  lemma InitEnds(host: Host, l: Life, w: World)
    requires l.clamps == [] || l.connected
    ensures var (l', o) := Init(host, l, w);
      && o == (if l.connected then Threw(LogicError)
               else if !w.connect || w.constants.None? || !Genuine(host, w.constants.value) then Threw(RuntimeError)
               else if w.config.None? || !Acceptable(host, w.config.value) then Threw(RuntimeError)
               else if w.memories < 4 then Threw(SystemError) else Ok)
      && l'.connected == (l.connected || w.connect) && l'.initialized == (l.initialized || o.Ok?)
      && (l.connected || !w.connect ==> l' == l)
      && (o.Ok? || o == Threw(SystemError) ==>
            forall t: RegType :: l'.sizes.At(t) == AddsInBlock(host, t, w.config.value, |w.config.value|))
  {
    hide Genuine, ListOk, Listed, SizesOf, Laid, Acceptable, Created;
    if !l.connected && w.connect && w.config.Some? {
      var config, begun := w.config.value, l.(connected := true);
      ListOkIff(host, begun, config);
      if ListOk(host, begun, config) {
        forall t: RegType ensures SizesOf(Listed(host, begun, config)).At(t) == AddsInBlock(host, t, config, |config|) {
          SizesFromBlock(host, begun, config, t);
        }
      }
      ListedAdds(host, begun, config);
    }
  }

  lemma ListedAdds(host: Host, l: Life, config: seq<Word>)
    ensures Listed(host, l, config) == l.(clamps := Listed(host, l, config).clamps)
  {
  }

  lemma LayoutBounded(host: Host, l: Life, config: seq<Word>)
    requires Bounded(l) && l.clamps == [] && |config| == 0x41 && AllKnown(ModuleWords(host, config))
    ensures Bounded(WithLayout(Listed(host, l, config)))
  {
    hide SizesOf, SizesOfWords, ModuleWords, TypeBounded;
    ListedAll(host, l, config);
    AcceptedBounds(host, config);
    var n := SizesOfWords(ModuleWords(host, config));
    AppendBounded(DI, l.sizes.di, l.areas.di, n.At(DI));
    AppendBounded(DO, l.sizes.dout, l.areas.dout, n.At(DO));
    AppendBounded(AI, l.sizes.ai, l.areas.ai, n.At(AI));
  }

  lemma InitSound(host: Host, l: Life, w: World)
    requires Sound(l) && !l.connected && w.connect && Sane(DoInit(w))
    ensures Sound(InitConnected(host, l.(connected := true), w).0)
  {
    hide SizesOf, ModuleWords, KnownPrefix, ClampsOf, Genuine, TypeBounded;
    if w.config.Some? && AllKnown(ModuleWords(host, w.config.value)) {
      LayoutBounded(host, l.(connected := true), w.config.value);
    }
  }

  lemma StepSound(host: Host, l: Life, op: Op)
    requires Sound(l) && Sane(op)
    ensures Sound(Apply(host, l, op).0)
  {
    hide TypeBounded, InitConnected;
    if op.DoInit? && !l.connected && op.world.connect { InitSound(host, l, op.world); }
  }

  lemma FreshState()
    ensures Sound(FRESH) && !DestructionAborts(FRESH)
  {
  }

  lemma {:induction false} AlwaysSound(host: Host, ops: seq<Op>, k: nat)
    requires AllSane(ops) && k <= |ops|
    ensures Sound(Lived(host, ops, k))
  {
    hide Sound, Apply;
    if k > 0 {
      AlwaysSound(host, ops, k - 1);
      StepSound(host, Lived(host, ops, k - 1), ops[k - 1]);
    } else {
      FreshState();
    }
  }
}
