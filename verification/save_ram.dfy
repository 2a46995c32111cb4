/** Save-memory autodetection (`scan_area`, `adjust_save_ram`) and the
    memory-size query the frontend uses to size the save file. */
module SaveRam {
  import opened Common

  /** `sizeof(libretro_save_buf)`: the largest geometry plus 0x2000 bytes of slack. */
  const SaveBufSize: nat := 0x20000 + 0x2000

  /** The value erased EEPROM and flash cells read as. */
  const ErasedByte: byte := 0xFF

  /** The save geometries tried, in the order `adjust_save_ram` tries them. */
  const Geometries: seq<nat> := [512, 0x2000, 0x10000, 0x20000]

  /** Which emulated save chip gets pointed at the shared save buffer. */
  datatype Slot = EepromSlot | FlashSlot | NoSlot

  /** The regions `retro_get_memory_size` knows; any other id is `OtherMemory`. */
  datatype MemoryId = SaveRamId | SystemRamId | VideoRamId | OtherMemory

  /** Some byte of `buf[lo..hi)` differs from the erased value. */
  predicate Written(buf: seq<byte>, lo: nat, hi: nat)
    requires lo <= hi <= |buf|
  {
    exists i :: lo <= i < hi && buf[i] != ErasedByte
  }

  /** Hypothesis "the save has `size` bytes": something written below `size`, nothing above. */
  predicate Fits(buf: seq<byte>, size: nat)
    requires size <= |buf|
  {
    Written(buf, 0, size) && !Written(buf, size, |buf|)
  }

  /** The save size after detection: the first geometry whose hypothesis holds, else `prev`.
      Because the hypotheses are nested, the first one that holds is the smallest geometry
      above which the buffer is erased, provided anything was written at all. */
  function DetectSize(buf: seq<byte>, prev: nat): (size: nat)
    requires |buf| == SaveBufSize
    ensures Written(buf, 0, |buf|) && (exists j :: 0 <= j < |Geometries| && !Written(buf, Geometries[j], |buf|)) ==>
              && size in Geometries
              && !Written(buf, size, |buf|)
              && forall j :: 0 <= j < |Geometries| && Geometries[j] < size ==> Written(buf, Geometries[j], |buf|)
    ensures !(Written(buf, 0, |buf|) && exists j :: 0 <= j < |Geometries| && !Written(buf, Geometries[j], |buf|)) ==>
              size == prev
  {
    WrittenSplit(buf, 512);
    WrittenSplit(buf, 0x2000);
    WrittenSplit(buf, 0x10000);
    WrittenSplit(buf, 0x20000);
    WrittenMonotone(buf, 512, 0x2000);
    WrittenMonotone(buf, 0x2000, 0x10000);
    WrittenMonotone(buf, 0x10000, 0x20000);
    if Fits(buf, 512) then 512
    else if Fits(buf, 0x2000) then 0x2000
    else if Fits(buf, 0x10000) then 0x10000
    else if Fits(buf, 0x20000) then 0x20000
    else prev
  }

  /** A written byte of the whole buffer lies below `k` or at/above it. */
  lemma WrittenSplit(buf: seq<byte>, k: nat)
    requires k <= |buf|
    ensures Written(buf, 0, |buf|) <==> Written(buf, 0, k) || Written(buf, k, |buf|)
  {
    if Written(buf, 0, |buf|) {
      var i :| 0 <= i < |buf| && buf[i] != ErasedByte;
      if i < k { assert Written(buf, 0, k); } else { assert Written(buf, k, |buf|); }
    }
  }

  /** An erased tail from `k` is also erased from any later `m`. */
  lemma WrittenMonotone(buf: seq<byte>, k: nat, m: nat)
    requires k <= m <= |buf|
    ensures Written(buf, m, |buf|) ==> Written(buf, k, |buf|)
  {
  }

  /** The save slot `adjust_save_ram` points at the buffer for a given size. */
  function SlotFor(size: nat): Slot {
    if size == 512 || size == 0x2000 then EepromSlot
    else if size == 0x10000 || size == 0x20000 then FlashSlot
    else NoSlot
  }

  /** `scan_area(data + offset, size)`: true iff a non-erased byte is in the window. */
  method ScanArea(data: array<byte>, offset: nat, size: nat) returns (found: bool)
    requires offset + size <= data.Length
    ensures found <==> Written(data[..], offset, offset + size)
  {
    var i: nat := 0;
    while i < size
      invariant i <= size
      invariant forall j :: offset <= j < offset + i ==> data[..][j] == ErasedByte
    {
      if data[offset + i] != ErasedByte {
        assert data[..][offset + i] != ErasedByte;
        return true;
      }
      i := i + 1;
    }
    return false;
  }

  /** `adjust_save_ram`: the four hypotheses in order, then the slot assignment.
      `buf` has no `modifies` clause, so the detection never writes the save buffer. */
  method AdjustSaveRam(buf: array<byte>, prevSize: nat) returns (size: nat, slot: Slot)
    requires buf.Length == SaveBufSize
    ensures size == DetectSize(buf[..], prevSize)
    ensures slot == SlotFor(size)
  {
    size := prevSize;
    var low := ScanArea(buf, 0, 512);
    var high := ScanArea(buf, 512, SaveBufSize - 512);
    if low && !high {
      size := 512;
    } else {
      low := ScanArea(buf, 0, 0x2000);
      high := ScanArea(buf, 0x2000, SaveBufSize - 0x2000);
      if low && !high {
        size := 0x2000;
      } else {
        low := ScanArea(buf, 0, 0x10000);
        high := ScanArea(buf, 0x10000, SaveBufSize - 0x10000);
        if low && !high {
          size := 0x10000;
        } else {
          low := ScanArea(buf, 0, 0x20000);
          high := ScanArea(buf, 0x20000, SaveBufSize - 0x20000);
          if low && !high {
            size := 0x20000;
          }
        }
      }
    }
    slot := SlotFor(size);
  }

  /** Which slot detection binds, stated in terms of where the buffer has been written. */
  lemma SlotFollowsContents(buf: seq<byte>, prev: nat)
    requires |buf| == SaveBufSize
    ensures Written(buf, 0, |buf|) && !Written(buf, 0x2000, |buf|) ==> SlotFor(DetectSize(buf, prev)) == EepromSlot
    ensures Written(buf, 0x2000, |buf|) && !Written(buf, 0x20000, |buf|) ==> SlotFor(DetectSize(buf, prev)) == FlashSlot
    ensures !Written(buf, 0, |buf|) || Written(buf, 0x20000, |buf|) ==> SlotFor(DetectSize(buf, prev)) == SlotFor(prev)
  {
    var size := DetectSize(buf, prev);
    WrittenMonotone(buf, 512, 0x2000);
    WrittenMonotone(buf, 0x2000, 0x10000);
    WrittenMonotone(buf, 0x10000, 0x20000);
    WrittenSplit(buf, 0x2000);
    if Written(buf, 0, |buf|) && !Written(buf, 0x2000, |buf|) {
      assert !Written(buf, Geometries[1], |buf|);
    } else if Written(buf, 0x2000, |buf|) && !Written(buf, 0x20000, |buf|) {
      assert !Written(buf, Geometries[3], |buf|);
      assert Written(buf, Geometries[1], |buf|);
      assert Written(buf, Geometries[0], |buf|);
    } else if !Written(buf, 0, |buf|) || Written(buf, 0x20000, |buf|) {
      if Written(buf, 0x20000, |buf|) {
        assert forall j :: 0 <= j < |Geometries| ==> Written(buf, Geometries[j], |buf|);
      }
    }
  }

  /** The erased pattern `retro_init` writes with `memset` before detecting. */
  function ErasedBuffer(): (buf: seq<byte>)
    ensures |buf| == SaveBufSize
    ensures !Written(buf, 0, |buf|)
  {
    seq(SaveBufSize, _ => ErasedByte)
  }

  /** `retro_init` detects on a freshly erased buffer, so the size stays at the static
      initial value (the whole buffer) and no save chip is bound to it. */
  lemma RetroInitKeepsWholeBuffer()
    ensures DetectSize(ErasedBuffer(), SaveBufSize) == SaveBufSize
    ensures SlotFor(DetectSize(ErasedBuffer(), SaveBufSize)) == NoSlot
  {
  }

  /** First match, not best fit: bytes written at offsets 0 and 600 give the 8 KiB EEPROM. */
  lemma WrittenAtZeroAndSixHundred(buf: seq<byte>, prev: nat)
    requires |buf| == SaveBufSize
    requires buf[0] != ErasedByte && buf[600] != ErasedByte
    requires forall i :: 0 < i < |buf| && i != 600 ==> buf[i] == ErasedByte
    ensures DetectSize(buf, prev) == 0x2000
    ensures SlotFor(DetectSize(buf, prev)) == EepromSlot
  {
    assert Written(buf, 0, |buf|);
    assert Written(buf, Geometries[0], |buf|) by { assert buf[600] != ErasedByte; }
    assert !Written(buf, Geometries[1], |buf|);
  }

  /** `retro_get_memory_size`. */
  function MemorySize(id: MemoryId, saveSize: nat): nat {
    match id
    case SaveRamId => saveSize
    case SystemRamId => 0x40000
    case VideoRamId => 0x20000
    case OtherMemory => 0
  }

  /** `retro_get_memory_size(RETRO_MEMORY_SAVE_RAM)` after detection reports exactly the
      detected size: the first geometry with an erased tail, to which a save chip is bound,
      or the previous size when no hypothesis holds. */
  lemma ReportedSaveSize(buf: seq<byte>, prev: nat)
    requires |buf| == SaveBufSize
    ensures MemorySize(SaveRamId, DetectSize(buf, prev)) == DetectSize(buf, prev)
    ensures var n := MemorySize(SaveRamId, DetectSize(buf, prev));
            Written(buf, 0, |buf|) && (exists j :: 0 <= j < |Geometries| && !Written(buf, Geometries[j], |buf|)) ==>
              && n in Geometries && !Written(buf, n, |buf|) && SlotFor(n) != NoSlot
              && forall j :: 0 <= j < |Geometries| && Geometries[j] < n ==> Written(buf, Geometries[j], |buf|)
    ensures !(Written(buf, 0, |buf|) && exists j :: 0 <= j < |Geometries| && !Written(buf, Geometries[j], |buf|)) ==>
              MemorySize(SaveRamId, DetectSize(buf, prev)) == prev
  {
  }
}
