// Byte order: the swap loop and the conversions built on it, for values of any width.
module Endian {
  import opened Types

  datatype Host = LittleHost | BigHost

  // The number that bytes stored in ascending addresses denote, in either order.
  function LittleValue(b: seq<Byte>): nat {
    if b == [] then 0 else b[0] + 0x100 * LittleValue(b[1..])
  }

  function BigValue(b: seq<Byte>): nat {
    if b == [] then 0 else 0x100 * BigValue(b[..|b| - 1]) + b[|b| - 1]
  }

  function ValueOn(host: Host, b: seq<Byte>): nat {
    if host.LittleHost? then LittleValue(b) else BigValue(b)
  }

  function Swapped(b: seq<Byte>): (r: seq<Byte>)
    ensures |r| == |b| && forall k :: 0 <= k < |b| ==> r[k] == b[|b| - 1 - k]
  {
    seq(|b|, k requires 0 <= k < |b| => b[|b| - 1 - k])
  }

  // The loop: one pointer runs up through the result, the other down from past the end
  // of the source.
  method Swap(src: array<Byte>) returns (ret: array<Byte>)
    ensures fresh(ret) && ret[..] == Swapped(src[..])
  {
    ret := new Byte[src.Length];
    var d, s := 0, src.Length;
    while d < src.Length
      invariant 0 <= d <= src.Length && s == src.Length - d
      invariant forall k :: 0 <= k < d ==> ret[k] == src[src.Length - 1 - k]
    {
      s := s - 1;
      ret[d] := src[s];
      d := d + 1;
    }
  }

  lemma {:induction false} SwapTradesOrders(b: seq<Byte>)
    ensures LittleValue(Swapped(b)) == BigValue(b)
    ensures BigValue(Swapped(b)) == LittleValue(b)
  {
    if b != [] {
      SwapTradesOrders(b[..|b| - 1]);
      assert Swapped(b)[1..] == Swapped(b[..|b| - 1]);
      SwapTradesOrders(b[1..]);
      assert Swapped(b)[..|b| - 1] == Swapped(b[1..]);
    }
  }

  lemma SwapTwice(b: seq<Byte>)
    ensures Swapped(Swapped(b)) == b
  {
  }

  // ----- the conversions ---------------------------------------------------------------

  function HostToBig(host: Host, b: seq<Byte>): seq<Byte> {
    if host.LittleHost? then Swapped(b) else b
  }

  function HostToLittle(host: Host, b: seq<Byte>): seq<Byte> {
    if host.BigHost? then Swapped(b) else b
  }

  function BigToHost(host: Host, b: seq<Byte>): seq<Byte> {
    if host.LittleHost? then Swapped(b) else b
  }

  function LittleToHost(host: Host, b: seq<Byte>): seq<Byte> {
    if host.BigHost? then Swapped(b) else b
  }

  // On either kind of host, the conversions keep the number: what the host reads after
  // X_to_host is what the bytes denoted in order X, and back.
  lemma ConversionsKeepTheNumber(host: Host, b: seq<Byte>)
    ensures ValueOn(host, BigToHost(host, b)) == BigValue(b)
    ensures ValueOn(host, LittleToHost(host, b)) == LittleValue(b)
    ensures BigValue(HostToBig(host, b)) == ValueOn(host, b)
    ensures LittleValue(HostToLittle(host, b)) == ValueOn(host, b)
  {
    SwapTradesOrders(b);
  }

  lemma ConversionsUndoEachOther(host: Host, b: seq<Byte>)
    ensures BigToHost(host, HostToBig(host, b)) == b == HostToBig(host, BigToHost(host, b))
    ensures LittleToHost(host, HostToLittle(host, b)) == b == HostToLittle(host, LittleToHost(host, b))
  {
    SwapTwice(b);
  }

  // ----- sixteen bits --------------------------------------------------------------------

  // The bytes of a word in the memory of a host.
  function BytesOn(host: Host, w: Word): seq<Byte> {
    if host.LittleHost? then [w % 0x100, w / 0x100] else [w / 0x100, w % 0x100]
  }

  // What the program makes of a word that arrived from the library.
  function ConfigWord(host: Host, w: Word): Word {
    if host.LittleHost? then w else w % 0x100 * 0x100 + w / 0x100
  }

  lemma TwoBytes(x: Byte, y: Byte)
    ensures LittleValue([x, y]) == x + 0x100 * y && BigValue([x, y]) == 0x100 * x + y
    ensures Swapped([x, y]) == [y, x]
  {
    var b, c, d: seq<Byte> := [x, y], [x], [y];
    assert b[1..] == d && d[1..] == [] && LittleValue(d) == y;
    assert b[..1] == c && c[..0] == [] && BigValue(c) == x;
  }

  lemma ConfigWordIsLittleToHost(host: Host, w: Word)
    ensures ValueOn(host, BytesOn(host, w)) == w
    ensures ValueOn(host, LittleToHost(host, BytesOn(host, w))) == ConfigWord(host, w)
    ensures ConfigWord(host, ConfigWord(host, w)) == w
  {
    hide LittleValue, BigValue, Swapped;
    TwoBytes(w % 0x100, w / 0x100);
    TwoBytes(w / 0x100, w % 0x100);
  }

  // The bytes of an analog image as the host stores them.
  function ByteView(host: Host, image: seq<Word>): seq<Word> {
    seq(2 * |image|, k requires 0 <= k < 2 * |image| => BytesOn(host, image[k / 2])[k % 2])
  }

  // The analog image after one byte of it has been stored through that view.
  function ByteStored(host: Host, image: seq<Word>, index: nat, v: Word): (r: seq<Word>)
    requires index < 2 * |image|
    ensures |r| == |image|
  {
    var w := image[index / 2];
    var low := (index % 2 == 0) == host.LittleHost?;
    image[index / 2 := if low then w / 0x100 * 0x100 + v % 0x100 else v % 0x100 * 0x100 + w % 0x100]
  }

  // In numbers: on a little-endian host the even bytes are the low ones.
  lemma ByteViewInNumbers(image: seq<Word>, i: nat)
    requires i < |image|
    ensures var little, big := ByteView(LittleHost, image), ByteView(BigHost, image);
      && little[2 * i] == big[2 * i + 1] == image[i] % 256
      && little[2 * i + 1] == big[2 * i] == image[i] / 256
  {
  }

  lemma ByteReplaced(host: Host, w: Word, parity: nat, v: Word)
    requires parity < 2
    ensures var low := (parity == 0) == host.LittleHost?;
      var w' := if low then w / 0x100 * 0x100 + v % 0x100 else v % 0x100 * 0x100 + w % 0x100;
      |BytesOn(host, w)| == 2 && BytesOn(host, w') == BytesOn(host, w)[parity := v % 0x100]
  {
  }

  lemma ByteStoredAt(host: Host, image: seq<Word>, index: nat, v: Word)
    requires index < 2 * |image|
    ensures ByteView(host, ByteStored(host, image, index, v)) == ByteView(host, image)[index := v % 0x100]
  {
    hide BytesOn;
    var after := ByteView(host, ByteStored(host, image, index, v));
    ByteReplaced(host, image[index / 2], index % 2, v);
    forall k | 0 <= k < 2 * |image|
      ensures after[k] == if k == index then v % 0x100 else ByteView(host, image)[k]
    {
    }
  }

  // Storing a byte where a word was meant sets the word exactly if it is word 0 and the
  // byte and what is next to it make up the value, or nothing had to change at all.
  lemma ByteStoreRightIff(host: Host, image: seq<Word>, index: nat, v: Word)
    requires index < |image|
    ensures ByteStored(host, image, index, v) == image[index := v] <==>
      if index > 0 then image[index] == v && ByteView(host, image)[index] == v % 0x100
      else if host.LittleHost? then image[0] / 0x100 == v / 0x100
      else v / 0x100 == v % 0x100 == image[0] % 0x100
  {
    var stored := ByteStored(host, image, index, v);
    if index > 0 {
      ByteStoredAt(host, image, index, v);
      assert stored[index] == image[index];
      assert image[index := v][index / 2] == image[index / 2];
    } else {
      assert stored[0] == v <==> stored == image[0 := v];
    }
  }
}
