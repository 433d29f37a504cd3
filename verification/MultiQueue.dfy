/** The multi-queue: one cell for each input of a task, a bitmask of the filled
    ones, and the critical sections of push and pop. */
module MultiQueue {

  // ------------------------------------------------------------------- bits

  function Pow2(n: nat): (p: nat)
    ensures p > 0
  {
    if n == 0 then 1 else 2 * Pow2(n - 1)
  }

  /** m & (1 << i) != 0 */
  predicate Bit(m: nat, i: nat) {
    if i == 0 then m % 2 == 1 else Bit(m / 2, i - 1)
  }

  /** m | (1 << i) */
  function SetBit(m: nat, i: nat): nat {
    if i == 0 then m / 2 * 2 + 1 else SetBit(m / 2, i - 1) * 2 + m % 2
  }

  /** The number whose bit i says whether cell i is filled. */
  function MaskOf(cells: seq<bool>): nat {
    if cells == [] then 0 else MaskOf(cells[1..]) * 2 + (if cells[0] then 1 else 0)
  }

  /** The lowest bit is the first cell, the others are the rest. */
  lemma MaskHalves(cells: seq<bool>)
    requires cells != []
    ensures MaskOf(cells) / 2 == MaskOf(cells[1..]) && (MaskOf(cells) % 2 == 1 <==> cells[0])
  {
  }

  lemma {:induction false} MaskBit(cells: seq<bool>, i: nat)
    requires i < |cells|
    ensures Bit(MaskOf(cells), i) == cells[i]
  {
    MaskHalves(cells);
    if i > 0 {
      MaskBit(cells[1..], i - 1);
      assert cells[1..][i - 1] == cells[i];
    }
  }

  lemma {:induction false} MaskSet(cells: seq<bool>, i: nat)
    requires i < |cells|
    ensures MaskOf(cells[i := true]) == SetBit(MaskOf(cells), i)
  {
    MaskHalves(cells);
    MaskHalves(cells[i := true]);
    if i == 0 {
      assert cells[0 := true][1..] == cells[1..];
    } else {
      MaskSet(cells[1..], i - 1);
      assert cells[i := true][1..] == cells[1..][i - 1 := true];
    }
  }

  /** The mask fits n bits, and all of them are set exactly when every cell is
      filled. */
  lemma {:induction false} MaskFull(cells: seq<bool>)
    ensures MaskOf(cells) < Pow2(|cells|)
    ensures MaskOf(cells) == Pow2(|cells|) - 1 <==> forall i | 0 <= i < |cells| :: cells[i]
  {
    if cells != [] {
      MaskFull(cells[1..]);
      if MaskOf(cells) == Pow2(|cells|) - 1 {
        forall i | 0 <= i < |cells| ensures cells[i] {
          if i > 0 { assert cells[i] == cells[1..][i - 1]; }
        }
      }
    }
  }

  lemma {:induction false} MaskNone(cells: seq<bool>)
    requires forall i | 0 <= i < |cells| :: !cells[i]
    ensures MaskOf(cells) == 0
  {
    if cells != [] {
      MaskNone(cells[1..]);
    }
  }

  /** With at most 30 inputs every value of the mask, and 1 << n itself, is an int. */
  lemma {:induction false} FitsInt(n: nat)
    requires n <= 30
    ensures Pow2(n) <= 0x4000_0000
  {
    PowGrows(n, 30);
    assert Pow2(10) == 1024 && Pow2(20) == 0x10_0000 && Pow2(30) == 0x4000_0000;
  }

  lemma {:induction false} PowGrows(a: nat, b: nat)
    requires a <= b
    ensures Pow2(a) <= Pow2(b)
  {
    if a < b {
      PowGrows(a, b - 1);
    }
  }

  // ------------------------------------------------------------------ cells

  /** An element is an address. */
  type Elem = nat

  datatype Queue = Queue(mask: nat, elems: seq<Elem>, waiting: seq<int>) {
    predicate Sized() {
      |elems| == |waiting| > 0
    }

    predicate Full() {
      mask == Pow2(|elems|) - 1
    }

    function Wait(i: nat, change: int): Queue
      requires i < |waiting|
    {
      this.(waiting := waiting[i := waiting[i] + change])
    }

    function Stored(i: nat, x: Elem): Queue
      requires i < |elems|
    {
      this.(elems := elems[i := x], mask := SetBit(mask, i))
    }

    function Emptied(): Queue {
      this.(mask := 0)
    }
  }

  class MultiQueue {
    const elems: array<Elem>
    const waiting: array<int>
    var busyMask: nat

    ghost predicate Valid() {
      elems.Length == waiting.Length > 0
    }

    ghost function View(): Queue
      reads this, elems, waiting
    {
      Queue(busyMask, elems[..], waiting[..])
    }

    constructor (n: nat)
      requires n > 0
      ensures Valid() && elems.Length == n && fresh(elems) && fresh(waiting)
      ensures View().mask == 0 && forall i | 0 <= i < n :: View().waiting[i] == 0
    {
      elems := new Elem[n];
      waiting := new int[n];
      busyMask := 0;
      new;
      for i := 0 to n
        invariant busyMask == 0 && forall k | 0 <= k < i :: waiting[k] == 0
        modifies waiting
      {
        waiting[i] := 0;
      }
    }

    /** Push, from taking the mutex to releasing it or going to sleep. `woken`
        says that the thread comes from its sleep. */
    method PushPass(i: nat, x: Elem, woken: bool) returns (stored: bool, last: bool)
      requires Valid() && i < elems.Length
      modifies this, elems, waiting
      ensures var q := old(if woken then View().Wait(i, -1) else View());
              && stored == !Bit(q.mask, i)
              && View() == (if stored then q.Stored(i, x) else q.Wait(i, 1))
              && last == (stored && View().Full())
    {
      stored, last := false, false;
      if woken {
        waiting[i] := waiting[i] - 1;
      }
      if Bit(busyMask, i) {
        waiting[i] := waiting[i] + 1;
      } else {
        elems[i] := x;
        busyMask := SetBit(busyMask, i);
        stored, last := true, busyMask == Pow2(elems.Length) - 1;
      }
    }

    /** Pop, likewise; `row` is what the cells held and `rung` the inputs whose
        producers are signalled. */
    method PopPass() returns (taken: bool, row: seq<Elem>, rung: seq<bool>)
      requires Valid()
      modifies this
      ensures taken == old(View().Full())
      ensures View() == old(if taken then View().Emptied() else View())
      ensures taken ==> row == elems[..] && |rung| == elems.Length
      ensures taken ==> forall i | 0 <= i < |rung| :: rung[i] <==> waiting[i] > 0
    {
      taken, row, rung := busyMask == Pow2(elems.Length) - 1, [], [];
      if taken {
        row := elems[..];
        busyMask := 0;
        for i := 0 to elems.Length
          invariant |rung| == i && busyMask == 0
          invariant forall k | 0 <= k < i :: rung[k] <==> waiting[k] > 0
        {
          rung := rung + [waiting[i] > 0];
        }
      }
    }
  }
}
