/** The growing buffer of WDL/heapbuf.h and the first-in first-out queue of WDL/queue.h on it. */
module HeapBufs {
  /** What is allocated after Resize(newsize, resizedown). */
  function Allocation(alloc: nat, size: nat, granul: nat, newsize: nat, resizedown: bool): (r: nat)
  {
    if newsize == size && !(resizedown && newsize < alloc / 2) then alloc
    else if newsize > alloc || newsize < ShrinkUnder(alloc, size, granul, newsize, resizedown) then NewAlloc(granul, newsize)
    else alloc
  }

  /** A smaller size reallocates only below this. */
  function ShrinkUnder(alloc: nat, size: nat, granul: nat, newsize: nat, resizedown: bool): int {
    if resizedown && newsize < size then
      var under := if alloc - granul * 4 > alloc / 2 then alloc / 2 else alloc - granul * 4;
      if under < 1 then 1 else under
    else 0
  }

  function NewAlloc(granul: nat, newsize: nat): nat {
    var g := if newsize / 2 < granul then granul else newsize / 2;
    if newsize < 1 then 0
    else if granul < 4096 then newsize + g
    else
      var pages := g - g % 4096;
      var step := if pages < 4096 then 4096 else if pages > 4 * 1024 * 1024 then 4 * 1024 * 1024 else pages;
      PagesHold(newsize + step + 96);
      newsize + step + 96 - (newsize + step + 96) % 4096 - 96
  }

  lemma PagesHold(x: nat)
    requires x >= 4192
    ensures x - x % 4096 >= 96
  {
  }

  /** The allocation always holds the size asked for. */
  lemma AllocationHolds(alloc: nat, size: nat, granul: nat, newsize: nat, resizedown: bool)
    requires size <= alloc
    ensures newsize <= Allocation(alloc, size, granul, newsize, resizedown)
  {
  }

  /** A buffer that must grow takes half as much again, or a granule if that is more; with large
      granules whole pages of 4096 bytes less 96, never less than asked for and no more than 4 MB over. */
  lemma GrowsByHalf(alloc: nat, size: nat, granul: nat, newsize: nat, resizedown: bool)
    requires newsize > alloc && newsize != size
    ensures var r := Allocation(alloc, size, granul, newsize, resizedown);
            if granul < 4096 then r == newsize + if 2 * granul > newsize then granul else newsize / 2
            else
              && (r + 96) % 4096 == 0 && newsize < r <= newsize + 4 * 1024 * 1024 + 96
              && (newsize <= 8 * 1024 * 1024 ==> 2 * (r - newsize) > newsize - 16384)
  {
  }

  /** One that holds what is asked for keeps its allocation, unless it may shrink and less than half of
      it, and four granules less, would do; with nothing to hold it gives it all back. */
  lemma ShrinksOnlyWhenAsked(alloc: nat, size: nat, granul: nat, newsize: nat, resizedown: bool)
    requires newsize <= alloc && size <= alloc
    ensures var r := Allocation(alloc, size, granul, newsize, resizedown);
            && (r != alloc ==> resizedown && newsize < size && (newsize == 0 || (2 * newsize < alloc && newsize + 4 * granul < alloc)))
            && (resizedown && newsize == 0 && size > 0 ==> r == 0)
  {
  }

  class HeapBuf<T(0)> {
    var buf: array<T> // its length is the allocation
    var size: nat
    const granul: nat

    ghost predicate Valid()
      reads this
    {
      size <= buf.Length
    }

    ghost function Contents(): (s: seq<T>)
      requires Valid()
      reads this, buf
    {
      buf[..size]
    }

    constructor (granul: nat)
      ensures Valid() && Contents() == [] && fresh(buf) && this.granul == granul
    {
      buf, size, this.granul := new T[0], 0, granul;
    }

    /** The first cells keep their contents; cells gained have any value. */
    method Resize(newsize: int, resizedown: bool)
      requires Valid()
      modifies this
      ensures Valid() && size == (if newsize < 0 then 0 else newsize)
      ensures buf == old(buf) || fresh(buf)
      ensures buf.Length == Allocation(old(buf.Length), old(size), granul, size, resizedown)
      ensures forall i :: 0 <= i < size && i < old(size) ==> buf[i] == old(buf[i])
    {
      hide NewAlloc;
      var wanted := if newsize < 0 then 0 else newsize;
      AllocationHolds(buf.Length, size, granul, wanted, resizedown);
      if wanted != size || (resizedown && wanted < buf.Length / 2) {
        var under := 0;
        if resizedown && wanted < size {
          under := buf.Length - granul * 4;
          if under > buf.Length / 2 {
            under := buf.Length / 2;
          }
          if under < 1 {
            under := 1;
          }
        }
        if wanted > buf.Length || wanted < under {
          var alloc := NewAlloc(granul, wanted);
          if alloc != buf.Length {
            var nbuf := new T[alloc];
            forall i | 0 <= i < alloc && i < buf.Length {
              nbuf[i] := buf[i];
            }
            buf := nbuf;
          }
        }
        size := wanted;
      }
    }
  }

  class Queue<T(0)> {
    const hb: HeapBuf<T>
    var pos: nat

    ghost predicate Valid()
      reads this, hb
    {
      hb.Valid() && pos <= hb.size
    }

    ghost function Contents(): (s: seq<T>)
      requires Valid()
      reads this, hb, hb.buf
    {
      hb.buf[pos..hb.size]
    }

    constructor (granul: nat)
      ensures Valid() && Contents() == [] && fresh(hb) && fresh(hb.buf)
    {
      hb := new HeapBuf<T>(granul);
      pos := 0;
    }

    method Add(items: seq<T>)
      requires Valid()
      modifies this, hb, hb.buf
      ensures Valid() && Contents() == old(Contents()) + items
      ensures hb.buf == old(hb.buf) || fresh(hb.buf)
    {
      var olen := hb.size;
      if pos >= olen {
        pos, olen := 0, 0;
      }
      hb.Resize(olen + |items|, false);
      var buf := hb.buf;
      forall i | 0 <= i < |items| {
        buf[olen + i] := items[i];
      }
      assert forall i :: pos <= i < olen ==> hb.buf[i] == old(hb.buf[i]);
    }

    /** The oldest item, if there is one. */
    method First() returns (has: bool, item: T)
      requires Valid()
      ensures has == (Contents() != []) && (has ==> item == Contents()[0])
    {
      item := *;
      has := pos < hb.size;
      if has {
        item := hb.buf[pos];
      }
    }

    function Available(): (n: nat)
      requires Valid()
      reads this, hb, hb.buf
      ensures n == |Contents()|
    {
      hb.size - pos
    }

    method Advance(count: int)
      requires Valid()
      modifies this
      ensures Valid()
      ensures 0 <= count <= |old(Contents())| ==> Contents() == old(Contents())[count..]
      ensures count > |old(Contents())| ==> Contents() == []
      ensures pos == (if old(pos) + count < 0 then 0 else if old(pos) + count > hb.size then hb.size else old(pos) + count)
    {
      if pos + count < 0 {
        pos := 0;
      } else if pos + count > hb.size {
        pos := hb.size;
      } else {
        pos := pos + count;
      }
    }

    /** Moves what is queued to the front once more than half of the buffer is used up. */
    method Compact(allocdown: bool, force: bool)
      requires Valid()
      modifies this, hb, hb.buf
      ensures Valid() && Contents() == old(Contents())
      ensures hb.buf == old(hb.buf) || fresh(hb.buf)
    {
      var olen := hb.size;
      if pos > (if force then 0 else olen / 2) {
        olen := olen - pos;
        ghost var was := Contents();
        var buf := hb.buf;
        forall i | 0 <= i < olen {
          buf[i] := buf[pos + i];
        }
        assert buf[..olen] == was;
        hb.Resize(olen, allocdown);
        assert forall i :: 0 <= i < olen ==> hb.buf[i] == was[i];
        pos := 0;
      }
    }
  }
}
