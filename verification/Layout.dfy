// The map from image index to Modbus address, and the list of areas that is its fast form.
module Layout {
  import opened Types
  import opened Modbus

  // The address windows of the process data (address, number of signals).
  const FIRST: PerReg<Range> :=
    PerReg(Range(0x0000, 512), Range(0x0200, 512), Range(0x0000, 256), Range(0x0200, 256))
  const SECOND: PerReg<Range> :=
    PerReg(Range(0x8000, 1527), Range(0x9000, 1527), Range(0x6000, 764), Range(0x7000, 764))

  // Bounds on the image sizes of any accepted configuration (proved in Clamps).
  const MAX_DIGITAL: nat := 8128
  const MAX_ANALOG: nat := 256

  function MaxSize(t: RegType): nat {
    if t.Digital() then MAX_DIGITAL else MAX_ANALOG
  }

  // A Modbus address, a number of signals, an offset in the image.
  datatype Area = Area(addr: Word, size: nat, offset: nat)

  // The areas of an image of n signals. The second address is taken from the size of
  // the second window where its address was meant.
  function AreasFor(t: RegType, n: nat): seq<Area> {
    var first, second := FIRST.At(t), SECOND.At(t);
    if n == 0 then []
    else if n <= first.size then [Area(first.addr, n, 0)]
    else [Area(first.addr, first.size, 0), Area(second.size, n - first.size, first.size)]
  }

  // The address of signal i that the areas lead to, and the one the windows document.
  function Address(t: RegType, i: nat): nat {
    var first, second := FIRST.At(t), SECOND.At(t);
    if i < first.size then first.addr + i else second.size + (i - first.size)
  }

  function DocumentedAddress(t: RegType, i: nat): nat {
    var first, second := FIRST.At(t), SECOND.At(t);
    if i < first.size then first.addr + i else second.addr + (i - first.size)
  }

  predicate InWindows(t: RegType, a: nat) {
    var first, second := FIRST.At(t), SECOND.At(t);
    first.addr <= a < first.addr + first.size || second.addr <= a < second.addr + second.size
  }

  // In numbers: the first signals of a type are at its first cells, inputs from 0 on and
  // outputs from 512 on; the others follow from 1527 on, or from 764 on for analog ones.
  lemma AddressInNumbers(t: RegType, i: nat)
    ensures Address(t, i) == match t
      case DI => if i < 512 then i else 1527 + (i - 512)
      case DO => if i < 512 then 0x200 + i else 1527 + (i - 512)
      case AI => if i < 256 then i else 764 + (i - 256)
      case AO => if i < 256 then 0x200 + i else 764 + (i - 256)
    ensures DocumentedAddress(t, i) == match t
      case DI => if i < 512 then i else 0x8000 + (i - 512)
      case DO => if i < 512 then 0x200 + i else 0x9000 + (i - 512)
      case AI => if i < 256 then i else 0x6000 + (i - 256)
      case AO => if i < 256 then 0x200 + i else 0x7000 + (i - 256)
  {
  }

  // ----- the list tiles the image ---------------------------------------------------

  predicate Covers(a: Area, i: nat) {
    a.offset <= i < a.offset + a.size
  }

  ghost predicate Covered(areas: seq<Area>, k: nat, i: nat)
    requires k <= |areas|
  {
    exists j :: 0 <= j < k && Covers(areas[j], i)
  }

  function SumSizes(areas: seq<Area>, k: nat): nat
    requires k <= |areas|
  {
    if k == 0 then 0 else SumSizes(areas, k - 1) + areas[k - 1].size
  }

  // No area is empty and each begins where the previous ones end.
  ghost predicate Tiles(areas: seq<Area>, n: nat) {
    && (forall k :: 0 <= k < |areas| ==> areas[k].size > 0 && areas[k].offset == SumSizes(areas, k))
    && SumSizes(areas, |areas|) == n
  }

  lemma AreasTile(t: RegType, n: nat)
    ensures Tiles(AreasFor(t, n), n)
  {
    var areas := AreasFor(t, n);
    assert SumSizes(areas, 0) == 0;
    if |areas| > 0 { assert SumSizes(areas, 1) == areas[0].size; }
    if |areas| > 1 { assert SumSizes(areas, 2) == n; }
  }

  lemma {:induction false} SumsGrow(areas: seq<Area>, j: nat, k: nat)
    requires j <= k <= |areas|
    ensures SumSizes(areas, j) <= SumSizes(areas, k)
  {
    if j < k { SumsGrow(areas, j, k - 1); }
  }

  // Any list that tiles covers every index of the image exactly once, and no other.
  lemma TilesCoverOnce(areas: seq<Area>, i: nat, j: nat, k: nat)
    requires forall h :: 0 <= h < |areas| ==> areas[h].offset == SumSizes(areas, h)
    requires j < k < |areas| && Covers(areas[j], i)
    ensures !Covers(areas[k], i)
  {
    SumsGrow(areas, j + 1, k);
  }

  lemma TilesCoverAll(areas: seq<Area>, n: nat, i: nat)
    requires Tiles(areas, n)
    ensures i < n <==> Covered(areas, |areas|, i)
  {
    if i < n {
      var k := FirstBeyond(areas, i);
    } else if Covered(areas, |areas|, i) {
      var k :| 0 <= k < |areas| && Covers(areas[k], i);
      SumsGrow(areas, k + 1, |areas|);
    }
  }

  lemma FirstBeyond(areas: seq<Area>, i: nat) returns (k: nat)
    requires i < SumSizes(areas, |areas|)
    requires forall h :: 0 <= h < |areas| ==> areas[h].offset == SumSizes(areas, h)
    ensures k < |areas| && Covers(areas[k], i)
  {
    k := |areas| - 1;
    while i < SumSizes(areas, k)
      invariant k < |areas| && i < SumSizes(areas, k + 1)
      decreases k
    {
      k := k - 1;
    }
  }

  // ----- the list follows the address map --------------------------------------------

  // Every index an area covers sits at its mapped address, below the limit that the
  // transfers check.
  predicate Follows(t: RegType, a: Area) {
    && a.addr + a.size <= 0xFFFF && a.offset + a.size <= MaxSize(t)
    && (a.offset + a.size <= FIRST.At(t).size || FIRST.At(t).size <= a.offset)
    && a.addr == Address(t, a.offset)
  }

  predicate AllFollow(t: RegType, areas: seq<Area>) {
    forall k :: 0 <= k < |areas| ==> Follows(t, areas[k])
  }

  lemma AreasFollow(t: RegType, n: nat)
    requires n <= MaxSize(t)
    ensures AllFollow(t, AreasFor(t, n))
    ensures forall k :: 0 <= k < |AreasFor(t, n)| ==> AreasFor(t, n)[k].offset + AreasFor(t, n)[k].size <= n
    ensures !t.Digital() ==> |AreasFor(t, n)| <= 1
  {
    match t
    case DI => case DO => case AI => case AO =>
  }

  lemma FollowsAddress(t: RegType, a: Area, i: nat)
    requires Follows(t, a) && Covers(a, i)
    ensures Address(t, i) == a.addr + (i - a.offset) < 0xFFFF
  {
  }

  // Every signal of an image of size n has an address of its own, except that analog
  // outputs from number 256 on share addresses with the first window.
  lemma AddressInjectiveIff(t: RegType, n: nat)
    ensures (forall i, j :: 0 <= i < j < n ==> Address(t, i) != Address(t, j)) <==> t != AO || n <= 256
    ensures n <= MaxSize(t) ==> t != AO || n <= 256
  {
    assert Address(AO, 252) == Address(AO, 256);
    match t
    case DI => case DO => case AI => case AO =>
  }

  lemma DocumentedInjective(t: RegType, i: nat, j: nat)
    requires i < j < FIRST.At(t).size + SECOND.At(t).size
    ensures DocumentedAddress(t, i) != DocumentedAddress(t, j)
    ensures InWindows(t, DocumentedAddress(t, i)) && InWindows(t, DocumentedAddress(t, j))
  {
  }

  // The documented addresses stay inside the two windows exactly for images that fit
  // both; an accepted digital configuration can be larger than that.
  lemma DocumentedFitsIff(t: RegType, n: nat)
    ensures (forall i :: 0 <= i < n ==> InWindows(t, DocumentedAddress(t, i)))
            <==> n <= FIRST.At(t).size + SECOND.At(t).size
  {
    var cap := FIRST.At(t).size + SECOND.At(t).size;
    if n > cap {
      assert !InWindows(t, DocumentedAddress(t, cap));
    }
  }

  // The program uses the documented addresses exactly while the first window suffices.
  // Past it, no signal of an accepted configuration reaches any documented address.
  lemma AddressesAgreeIff(t: RegType, n: nat)
    ensures (forall i :: 0 <= i < n ==> Address(t, i) == DocumentedAddress(t, i)) <==> n <= FIRST.At(t).size
    ensures forall i :: FIRST.At(t).size <= i < MaxSize(t) ==> !InWindows(t, Address(t, i))
  {
    if n > FIRST.At(t).size {
      assert Address(t, FIRST.At(t).size) != DocumentedAddress(t, FIRST.At(t).size);
    }
  }

  // ----- fetching: the area loop refines a copy, cell by cell ---------------------------

  // The image after fetching the first k areas of a device that answers.
  function Gathered(t: RegType, image: seq<Word>, areas: seq<Area>, cells: seq<Word>, k: nat): (r: seq<Word>)
    requires k <= |areas|
    ensures |r| == |image|
  {
    if k == 0 then image
    else
      var a := areas[k - 1];
      Overlay(Gathered(t, image, areas, cells, k - 1), a.offset, Window(cells, a.addr, a.size))
  }

  lemma {:induction false} GatherIsCopy(t: RegType, image: seq<Word>, areas: seq<Area>, cells: Cells, k: nat, i: nat)
    requires k <= |areas| && AllFollow(t, areas) && i < |image|
    ensures Covered(areas, k, i) ==> Address(t, i) < ADDRESSES
    ensures Gathered(t, image, areas, cells, k)[i] == if Covered(areas, k, i) then cells[Address(t, i)] else image[i]
  {
    if k > 0 {
      GatherIsCopy(t, image, areas, cells, k - 1, i);
      if Covers(areas[k - 1], i) { FollowsAddress(t, areas[k - 1], i); }
    }
  }

  // ----- sending -----------------------------------------------------------------------

  function SendRequest(t: RegType, a: Area, image: seq<Word>): Request {
    Write(t, a.addr, Window(image, a.offset, a.size))
  }

  function SendProgram(t: RegType, areas: seq<Area>, image: seq<Word>): (qs: seq<Request>)
    ensures |qs| == |areas|
  {
    seq(|areas|, k requires 0 <= k < |areas| => SendRequest(t, areas[k], image))
  }

  function FetchRequest(t: RegType, a: Area): Request {
    Read(t, a.addr, a.size)
  }

  function FetchProgram(t: RegType, areas: seq<Area>): (qs: seq<Request>)
    ensures |qs| == |areas|
  {
    seq(|areas|, k requires 0 <= k < |areas| => FetchRequest(t, areas[k]))
  }

  lemma {:induction false} SendReaches(m: Memory, t: RegType, areas: seq<Area>, image: seq<Word>, k: nat, i: nat)
    requires t.Output() && k <= |areas| && AllFollow(t, areas) && i < |image| <= MaxSize(t) && Covered(areas, k, i)
    ensures Address(t, i) < ADDRESSES
    ensures Applied(m, SendProgram(t, areas, image), k).At(t)[Address(t, i)] == Stored(t, image[i])
  {
    hide Overlay, Memory.Put, Address, Window;
    var a := areas[k - 1];
    assert Address(t, i) < ADDRESSES by { AddressInRange(t, i); }
    PutAt(Applied(m, SendProgram(t, areas, image), k - 1), t, a.addr, Window(image, a.offset, a.size), Address(t, i));
    if Covers(a, i) {
      FollowsAddress(t, a, i);
      WindowAt(image, a.offset, a.size, i - a.offset);
    } else {
      SendReaches(m, t, areas, image, k - 1, i);
      NotItsAddress(t, a, i);
    }
  }

  lemma AddressInRange(t: RegType, i: nat)
    requires i < MaxSize(t)
    ensures Address(t, i) < ADDRESSES
  {
  }

  lemma WindowAt(cells: seq<Word>, at: nat, n: nat, i: nat)
    requires i < n && at + i < |cells|
    ensures Window(cells, at, n)[i] == cells[at + i]
  {
  }

  lemma NotItsAddress(t: RegType, a: Area, i: nat)
    requires Follows(t, a) && !Covers(a, i) && i < MaxSize(t)
    ensures !(a.addr <= Address(t, i) < a.addr + a.size)
  {
  }

  // Cells that are no signal's address, and the other three spaces, keep their values.
  lemma {:induction false} SendElsewhere(m: Memory, t: RegType, areas: seq<Area>, image: seq<Word>, k: nat, x: nat)
    requires t.Output() && k <= |areas| && AllFollow(t, areas) && x < ADDRESSES
    requires forall j, i: nat :: 0 <= j < k && Covers(areas[j], i) ==> Address(t, i) != x
    ensures var m' := Applied(m, SendProgram(t, areas, image), k);
      m'.At(t)[x] == m.At(t)[x] && forall u :: u != t ==> m'.At(u) == m.At(u)
  {
    hide Overlay, Memory.Put, Address, Window;
    if k > 0 {
      var a := areas[k - 1];
      SendElsewhere(m, t, areas, image, k - 1, x);
      PutAt(Applied(m, SendProgram(t, areas, image), k - 1), t, a.addr, Window(image, a.offset, a.size), x);
      if a.addr <= x < a.addr + a.size {
        FollowsAddress(t, a, a.offset + (x - a.addr));
      }
    }
  }
}
