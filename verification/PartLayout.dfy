/** The layout of a multipart object: which bytes of the file each part number covers. */
module PartLayout {

  datatype Range = Outside | Range(offset: int, size: nat)

  /** The range of a part within an object of `total` bytes cut into `partSize` chunks. */
  function PartRange(part: int, total: int, partSize: int): (r: Range)
    requires partSize > 0
  {
    var offset := (part - 1) * partSize;
    var size := if total - offset < partSize then total - offset else partSize;
    if size <= 0 || offset >= total then Outside else Range(offset, size)
  }

  function TotalParts(total: nat, partSize: int): (n: nat)
    requires partSize > 0
  {
    (total + partSize - 1) / partSize
  }

  /** Where part `k` ends, cut off at the end of the object. */
  function EndOf(k: nat, total: nat, partSize: int): nat
    requires partSize > 0
  {
    var full := k * partSize;
    if full < total then full else total
  }

  lemma LastPartReachesTheEnd(total: nat, partSize: int)
    requires partSize > 0
    ensures total <= TotalParts(total, partSize) * partSize < total + partSize
  {
    var n := TotalParts(total, partSize);
    assert n * partSize + (total + partSize - 1) % partSize == total + partSize - 1;
  }

  lemma Monotone(a: int, b: int, partSize: int)
    requires partSize > 0 && a <= b
    ensures a * partSize <= b * partSize
  {
  }

  /** Part `k` picks up exactly where part `k - 1` ends. */
  lemma PartIsNext(k: nat, total: nat, partSize: int)
    requires partSize > 0 && 1 <= k <= TotalParts(total, partSize)
    ensures PartRange(k, total, partSize) ==
              Range(EndOf(k - 1, total, partSize), EndOf(k, total, partSize) - EndOf(k - 1, total, partSize))
    ensures EndOf(k - 1, total, partSize) == (k - 1) * partSize < EndOf(k, total, partSize)
  {
    LastPartReachesTheEnd(total, partSize);
    Monotone(k - 1, TotalParts(total, partSize) - 1, partSize);
    assert k * partSize == (k - 1) * partSize + partSize;
    assert 0 <= (k - 1) * partSize;
  }

  /** A part past the last one lies outside the object. */
  lemma InsideIsPlanned(k: int, total: nat, partSize: int)
    requires partSize > 0 && PartRange(k, total, partSize).Range?
    ensures k <= TotalParts(total, partSize)
  {
    LastPartReachesTheEnd(total, partSize);
    if k > TotalParts(total, partSize) { Monotone(TotalParts(total, partSize), k - 1, partSize); }
  }

  ghost predicate Covers(k: int, total: nat, partSize: int, byte: nat)
    requires partSize > 0
  {
    var r := PartRange(k, total, partSize);
    r.Range? && r.offset <= byte < r.offset + r.size
  }

  lemma PartOfByte(total: nat, partSize: int, byte: nat, k: int)
    requires partSize > 0 && byte < total
    ensures Covers(k, total, partSize, byte) <==> k == byte / partSize + 1
    ensures 1 <= byte / partSize + 1 <= TotalParts(total, partSize)
  {
    var home := byte / partSize + 1;
    HomeOfByte(partSize, byte);
    Tight(home, partSize);
    if k < home { Monotone(k, home - 1, partSize); Tight(k, partSize); }
    if home < k { Monotone(home, k - 1, partSize); }
    assert PartRange(home, total, partSize).Range?;
    InsideIsPlanned(home, total, partSize);
  }

  lemma HomeOfByte(partSize: int, byte: nat)
    requires partSize > 0
    ensures 0 <= byte / partSize && (byte / partSize) * partSize <= byte < (byte / partSize) * partSize + partSize
  {
  }

  lemma Tight(i: int, partSize: int)
    ensures i * partSize == (i - 1) * partSize + partSize
  {
  }

  /** The ranges of parts 1 to the last partition the object: every byte is in exactly one part. */
  lemma PartsPartition(total: nat, partSize: int, byte: nat)
    requires partSize > 0 && byte < total
    ensures exists k :: 1 <= k <= TotalParts(total, partSize) && Covers(k, total, partSize, byte)
    ensures forall j, k :: Covers(j, total, partSize, byte) && Covers(k, total, partSize, byte) ==> j == k
  {
    PartOfByte(total, partSize, byte, byte / partSize + 1);
    forall j ensures Covers(j, total, partSize, byte) <==> j == byte / partSize + 1 {
      PartOfByte(total, partSize, byte, j);
    }
  }

  /** The layout check turns away exactly the numbers past the last part. It lets zero and negative
      numbers through, which no store lists. */
  lemma OutsideIff(k: int, total: nat, partSize: int)
    requires partSize > 0
    ensures PartRange(k, total, partSize).Outside? <==> k > TotalParts(total, partSize)
  {
    LastPartReachesTheEnd(total, partSize);
    var n := TotalParts(total, partSize);
    if 1 <= k <= n { PartIsNext(k, total, partSize); }
    else if k < 1 { Monotone(k - 1, -1, partSize); }
    else { Monotone(n, k - 1, partSize); }
  }
}
