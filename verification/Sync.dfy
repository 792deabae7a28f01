// What fetching and sending an image through its areas mean for image and device:
// round trips, and when the documented addresses are the ones reached.
module Sync {
  import opened Types
  import opened Modbus
  import opened Layout
  import opened Endian

  // The area list of an image, possibly with repetitions, as long as it follows the
  // address map, stays inside the image and leaves no signal out.
  ghost predicate Serves(t: RegType, areas: seq<Area>, n: nat) {
    && n <= MaxSize(t) && AllFollow(t, areas)
    && (forall k :: 0 <= k < |areas| ==> areas[k].offset + areas[k].size <= n)
    && (forall i :: 0 <= i < n ==> Covered(areas, |areas|, i))
  }

  lemma AreasServe(t: RegType, n: nat)
    requires n <= MaxSize(t)
    ensures Serves(t, AreasFor(t, n), n)
  {
    AreasFollow(t, n);
    AreasTile(t, n);
    forall i | 0 <= i < n ensures Covered(AreasFor(t, n), |AreasFor(t, n)|, i) {
      TilesCoverAll(AreasFor(t, n), n, i);
    }
  }

  function Fetched(t: RegType, image: seq<Word>, areas: seq<Area>, m: Memory): (r: seq<Word>)
    ensures |r| == |image|
  {
    Gathered(t, image, areas, m.At(t), |areas|)
  }

  ghost function Sent(m: Memory, t: RegType, areas: seq<Area>, image: seq<Word>): Memory {
    Applied(m, SendProgram(t, areas, image), |areas|)
  }

  lemma FetchedAt(t: RegType, image: seq<Word>, areas: seq<Area>, m: Memory, i: nat)
    requires Serves(t, areas, |image|) && i < |image|
    ensures Address(t, i) < ADDRESSES && Fetched(t, image, areas, m)[i] == m.At(t)[Address(t, i)]
  {
    GatherIsCopy(t, image, areas, m.At(t), |areas|, i);
  }

  lemma SentAt(m: Memory, t: RegType, areas: seq<Area>, image: seq<Word>, i: nat)
    requires t.Output() && Serves(t, areas, |image|) && i < |image|
    ensures Address(t, i) < ADDRESSES && Sent(m, t, areas, image).At(t)[Address(t, i)] == Stored(t, image[i])
  {
    SendReaches(m, t, areas, image, |areas|, i);
  }

  lemma SentElsewhere(m: Memory, t: RegType, areas: seq<Area>, image: seq<Word>, x: nat)
    requires t.Output() && Serves(t, areas, |image|) && x < ADDRESSES
    requires forall i :: 0 <= i < |image| ==> Address(t, i) != x
    ensures Sent(m, t, areas, image).At(t)[x] == m.At(t)[x]
    ensures forall u :: u != t ==> Sent(m, t, areas, image).At(u) == m.At(u)
  {
    SendElsewhere(m, t, areas, image, |areas|, x);
  }

  // Send, then fetch the outputs: each signal comes back as the device stores it, so
  // the image is unchanged exactly when it held storable values.
  lemma SendThenFetch(m: Memory, t: RegType, areas: seq<Area>, image: seq<Word>)
    requires t.Output() && Serves(t, areas, |image|)
    ensures Fetched(t, image, areas, Sent(m, t, areas, image)) == StoredAll(t, image)
    ensures Fetched(t, image, areas, Sent(m, t, areas, image)) == image <==>
      forall i :: 0 <= i < |image| ==> (t == DO ==> image[i] <= 1)
  {
    hide Fetched, Sent;
    var back := Fetched(t, image, areas, Sent(m, t, areas, image));
    forall i | 0 <= i < |image| ensures back[i] == Stored(t, image[i]) {
      SentAt(m, t, areas, image, i);
      FetchedAt(t, image, areas, Sent(m, t, areas, image), i);
    }
  }

  lemma FetchThenSendAt(m: Memory, t: RegType, areas: seq<Area>, image: seq<Word>, x: nat)
    requires t.Output() && Serves(t, areas, |image|) && m.SingleBits() && x < ADDRESSES
    ensures Sent(m, t, areas, Fetched(t, image, areas, m)).At(t)[x] == m.At(t)[x]
  {
    if i: nat :| i < |image| && Address(t, i) == x {
      FetchedAt(t, image, areas, m, i);
      SentAt(m, t, areas, Fetched(t, image, areas, m), i);
    } else {
      SentElsewhere(m, t, areas, Fetched(t, image, areas, m), x);
    }
  }

  // Fetch the outputs, then send them: no cell of the device changes.
  lemma FetchThenSend(m: Memory, t: RegType, areas: seq<Area>, image: seq<Word>)
    requires t.Output() && Serves(t, areas, |image|) && m.SingleBits()
    ensures Sent(m, t, areas, Fetched(t, image, areas, m)) == m
  {
    var image' := Fetched(t, image, areas, m);
    var m' := Sent(m, t, areas, image');
    forall x | 0 <= x < ADDRESSES ensures m'.At(t)[x] == m.At(t)[x] {
      FetchThenSendAt(m, t, areas, image, x);
    }
    assert m'.At(t) == m.At(t);
    forall u | u != t ensures m'.At(u) == m.At(u) {
      OtherSpaces(m, t, areas, image', |areas|, u);
    }
    assert m'.At(DI) == m.At(DI) && m'.At(DO) == m.At(DO) && m'.At(AI) == m.At(AI) && m'.At(AO) == m.At(AO);
  }

  lemma {:induction false} OtherSpaces(m: Memory, t: RegType, areas: seq<Area>, image: seq<Word>, k: nat, u: RegType)
    requires k <= |areas| && u != t
    ensures Applied(m, SendProgram(t, areas, image), k).At(u) == m.At(u)
  {
    if k > 0 { OtherSpaces(m, t, areas, image, k - 1, u); }
  }

  // ----- the documented addresses -------------------------------------------------------

  ghost predicate FetchesDocumented(t: RegType, image: seq<Word>, areas: seq<Area>, m: Memory)
    requires |image| <= MaxSize(t)
  {
    forall i :: 0 <= i < |image| ==> Fetched(t, image, areas, m)[i] == m.At(t)[DocumentedAddress(t, i)]
  }

  ghost predicate SendsDocumented(m: Memory, t: RegType, areas: seq<Area>, image: seq<Word>)
    requires |image| <= MaxSize(t)
  {
    forall i :: 0 <= i < |image| ==>
      Sent(m, t, areas, image).At(t)[DocumentedAddress(t, i)] == Stored(t, image[i])
  }

  // A fetched image shows the documented cells of every device, and a sent image
  // arrives at the documented cells of every device, exactly while it fits the first
  // window. (For analog signals it always does.)
  lemma FetchDocumentedIff(t: RegType, image: seq<Word>, areas: seq<Area>)
    requires Serves(t, areas, |image|)
    ensures (forall m: Memory :: FetchesDocumented(t, image, areas, m)) <==> |image| <= FIRST.At(t).size
  {
    AddressesAgreeIff(t, |image|);
    if |image| <= FIRST.At(t).size {
      forall m: Memory ensures FetchesDocumented(t, image, areas, m) {
        forall i | 0 <= i < |image|
          ensures Fetched(t, image, areas, m)[i] == m.At(t)[DocumentedAddress(t, i)]
        {
          FetchedAt(t, image, areas, m, i);
        }
      }
    } else {
      var i := FIRST.At(t).size;
      var m := Marked(DocumentedAddress(t, i));
      FetchedAt(t, image, areas, m, i);
      assert !FetchesDocumented(t, image, areas, m);
    }
  }

  // All cells of all spaces zero but those at one address.
  function MarkedCells(x: nat): Cells {
    seq(ADDRESSES, a => if a == x then 1 else 0)
  }

  function Marked(x: nat): Memory {
    Memory(MarkedCells(x), MarkedCells(x), MarkedCells(x), MarkedCells(x))
  }

  lemma SendDocumentedIff(m: Memory, t: RegType, areas: seq<Area>, n: nat)
    requires t.Output() && Serves(t, areas, n)
    ensures (forall image: seq<Word> | |image| == n :: SendsDocumented(m, t, areas, image)) <==> n <= FIRST.At(t).size
  {
    AddressesAgreeIff(t, n);
    if n <= FIRST.At(t).size {
      forall image: seq<Word> | |image| == n ensures SendsDocumented(m, t, areas, image) {
        forall i | 0 <= i < n
          ensures Sent(m, t, areas, image).At(t)[DocumentedAddress(t, i)] == Stored(t, image[i])
        {
          SentAt(m, t, areas, image, i);
        }
      }
    } else {
      var i := FIRST.At(t).size;
      var x := DocumentedAddress(t, i);
      var v: Word := if m.At(t)[x] == 0 then 1 else 0;
      var image: seq<Word> := seq(n, _ => v);
      NeverReached(t, n);
      SentElsewhere(m, t, areas, image, x);
      assert !SendsDocumented(m, t, areas, image);
    }
  }

  // The first cell of the second window belongs to no signal of the program's map.
  lemma NeverReached(t: RegType, n: nat)
    requires FIRST.At(t).size < n <= MaxSize(t)
    ensures var x := DocumentedAddress(t, FIRST.At(t).size);
      x < ADDRESSES && forall i :: 0 <= i < n ==> Address(t, i) != x
  {
  }

  // ----- the analog half of a send ----------------------------------------------------------

  // After the analog image has been sent the way the program sends it, as bytes to coils,
  // its registers hold its values.
  ghost predicate AnalogDelivered(host: Host, m: Memory, areas: seq<Area>, image: seq<Word>)
    requires |image| <= MaxSize(AO)
  {
    var m' := Applied(m, SendProgram(DO, areas, ByteView(host, image)), |areas|);
    forall i :: 0 <= i < |image| ==> m'.ao[Address(AO, i)] == image[i]
  }

  // On any device this works for every image of a size exactly when the size is zero.
  lemma AnalogDeliveredIff(host: Host, m: Memory, areas: seq<Area>, n: nat)
    requires n <= MaxSize(AO)
    ensures (forall image: seq<Word> | |image| == n :: AnalogDelivered(host, m, areas, image)) <==> n == 0
  {
    if n > 0 {
      var v: Word := if m.ao[Address(AO, 0)] == 0 then 1 else 0;
      var image: seq<Word> := seq(n, _ => v);
      OtherSpaces(m, DO, areas, ByteView(host, image), |areas|, AO);
      assert m.At(AO) == m.ao;
      assert image[0] == v;
      assert !AnalogDelivered(host, m, areas, image);
    }
  }
}
