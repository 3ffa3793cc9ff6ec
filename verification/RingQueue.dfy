/** The ring buffer that carries messages and events between two threads.  Each method locks
    the mutex, but pushing and popping lock it twice: once to check, once to update. */
module RingQueue {
  /** `k` modulo the ring's size, for a `k` that has gone round at most once. */
  function Wrap(k: nat, size: nat): nat
    requires k < 2 * size
  {
    if k < size then k else k - size
  }

  lemma WrapIsMod(k: nat, size: nat)
    requires k < 2 * size
    ensures k % size == Wrap(k, size) < size
  {
    if k >= size {
      assert k == 1 * size + (k - size);
      OneRound(k - size, size);
    }
  }

  lemma OneRound(k: nat, size: nat)
    requires k < size
    ensures (k + size) % size == k
  {
    assert (k + size) / size == 1 by {
      var q := (k + size) / size;
      assert k + size == q * size + (k + size) % size;
      if q >= 2 { Twice(q, size); }
    }
  }

  lemma Twice(q: nat, size: nat)
    requires q >= 2
    ensures q * size >= 2 * size
  {
  }

  /** How many items lie between the two positions. */
  function Count(readPos: nat, writePos: nat, size: nat): nat
    requires readPos < size && writePos < size
  {
    if readPos <= writePos then writePos - readPos else size - readPos + writePos
  }

  /** The items in the ring, oldest first. */
  function Contents<T>(items: seq<T>, readPos: nat, writePos: nat): (c: seq<T>)
    requires readPos < |items| && writePos < |items|
    ensures |c| == Count(readPos, writePos, |items|)
  {
    seq(Count(readPos, writePos, |items|), i requires 0 <= i < Count(readPos, writePos, |items|) =>
      items[Wrap(readPos + i, |items|)])
  }

  lemma ItemAt<T>(items: seq<T>, readPos: nat, writePos: nat, i: nat)
    requires readPos < |items| && writePos < |items| && i < Count(readPos, writePos, |items|)
    ensures readPos + i < 2 * |items| && Wrap(readPos + i, |items|) < |items|
    ensures Contents(items, readPos, writePos)[i] == items[Wrap(readPos + i, |items|)]
  {
  }

  predicate Full(readPos: nat, writePos: nat, size: nat)
    requires size > 0
  {
    (writePos + 1) % size == readPos
  }

  /** A ring is full when one more item would make it look empty. */
  lemma FullIs(readPos: nat, writePos: nat, size: nat)
    requires readPos < size && writePos < size
    ensures Full(readPos, writePos, size) <==> Count(readPos, writePos, size) == size - 1
    ensures Count(readPos, writePos, size) <= size - 1
    ensures readPos == writePos <==> Count(readPos, writePos, size) == 0
  {
    WrapIsMod(writePos + 1, size);
  }

  lemma Pushed<T>(items: seq<T>, readPos: nat, writePos: nat, item: T)
    requires readPos < |items| && writePos < |items| && !Full(readPos, writePos, |items|)
    ensures (writePos + 1) % |items| < |items|
    ensures Contents(items[writePos := item], readPos, (writePos + 1) % |items|)
      == Contents(items, readPos, writePos) + [item]
  {
    FullIs(readPos, writePos, |items|);
    WrapIsMod(writePos + 1, |items|);
    var w := (writePos + 1) % |items|;
    FullIs(readPos, w, |items|);
    var c, c1 := Contents(items, readPos, writePos), Contents(items[writePos := item], readPos, w);
    assert |c1| == |c| + 1;
    forall i | 0 <= i <= |c| ensures c1[i] == if i < |c| then c[i] else item {
      ItemAt(items[writePos := item], readPos, w, i);
      if i < |c| { ItemAt(items, readPos, writePos, i); }
    }
  }

  lemma Popped<T>(items: seq<T>, readPos: nat, writePos: nat)
    requires readPos < |items| && writePos < |items| && readPos != writePos
    ensures (readPos + 1) % |items| < |items|
    ensures Contents(items, readPos, writePos) == [items[readPos]] + Contents(items, (readPos + 1) % |items|, writePos)
  {
    WrapIsMod(readPos + 1, |items|);
    var r := (readPos + 1) % |items|;
    var c, c1 := Contents(items, readPos, writePos), Contents(items, r, writePos);
    assert |c| == |c1| + 1;
    ItemAt(items, readPos, writePos, 0);
    forall i | 0 <= i < |c1| ensures c[i + 1] == c1[i] {
      ItemAt(items, readPos, writePos, i + 1);
      ItemAt(items, r, writePos, i);
    }
  }

  // ----- the class -----

  class GDNetQueue<T(0)> {
    const items: array<T>
    var readPos: nat
    var writePos: nat

    ghost predicate Valid()
      reads this, items
    {
      readPos < items.Length && writePos < items.Length
    }

    ghost function Queued(): seq<T>
      requires Valid()
      reads this, items
    {
      Contents(items[..], readPos, writePos)
    }

    constructor (size: nat)
      requires size > 0
      ensures Valid() && Queued() == [] && items.Length == size && fresh(items)
    {
      items := new T[size];
      readPos, writePos := 0, 0;
    }

    method IsEmpty() returns (empty: bool)
      requires Valid()
      ensures empty == (Queued() == [])
    {
      FullIs(readPos, writePos, items.Length);
      empty := readPos == writePos;
    }

    method IsFull() returns (full: bool)
      requires Valid()
      ensures full == (|Queued()| == items.Length - 1)
    {
      FullIs(readPos, writePos, items.Length);
      full := (writePos + 1) % items.Length == readPos;
    }

    method Size() returns (count: nat)
      requires Valid()
      ensures count == |Queued()|
    {
      if writePos > readPos {
        count := writePos - readPos;
      } else if writePos < readPos {
        count := items.Length - readPos + writePos;
      } else {
        count := 0;
      }
    }

    /** The second locked section of a push. */
    method Store(item: T)
      requires Valid() && !Full(readPos, writePos, items.Length)
      modifies items, this`writePos
      ensures Valid() && Queued() == old(Queued()) + [item]
    {
      Pushed(items[..], readPos, writePos, item);
      ghost var s := items[..];
      items[writePos] := item;
      assert items[..] == s[writePos := item];
      writePos := (writePos + 1) % items.Length;
    }

    /** The second locked section of a pop. */
    method Take() returns (item: T)
      requires Valid() && readPos != writePos
      modifies this`readPos
      ensures Valid() && old(Queued()) == [item] + Queued()
    {
      Popped(items[..], readPos, writePos);
      item := items[readPos];
      readPos := (readPos + 1) % items.Length;
    }

    /** Adds an item, unless the ring is full. */
    method Push(item: T) returns (ok: bool)
      requires Valid()
      modifies items, this`writePos
      ensures Valid() && ok == (|old(Queued())| < items.Length - 1)
      ensures Queued() == if ok then old(Queued()) + [item] else old(Queued())
    {
      FullIs(readPos, writePos, items.Length);
      var full := IsFull();
      if full {
        return false;
      }
      Store(item);
      return true;
    }

    /** Takes the oldest item, if there is one. */
    method Pop() returns (ok: bool, item: T)
      requires Valid()
      modifies this`readPos
      ensures Valid() && ok == (old(Queued()) != [])
      ensures if ok then old(Queued()) == [item] + Queued() else Queued() == old(Queued())
    {
      FullIs(readPos, writePos, items.Length);
      var empty := IsEmpty();
      item := items[readPos];
      if empty {
        return false, item;
      }
      item := Take();
      return true, item;
    }

    method Clear()
      requires Valid()
      modifies this`readPos
      ensures Valid() && Queued() == []
    {
      var empty := IsEmpty();
      while !empty
        invariant Valid() && empty == (Queued() == [])
        decreases |Queued()|
      {
        var ok, item := Pop();
        empty := IsEmpty();
      }
    }
  }

  // ----- two threads -----

  /** Where a thread is between its two locked sections. */
  datatype Producer<T> = Outside | Checked(item: T, full: bool)
  datatype Consumer = Away | Looked(empty: bool)

  /** The ring, the two threads, and what was accepted and popped so far. */
  datatype Threads<T> = Threads(
    items: seq<T>, readPos: nat, writePos: nat, producer: Producer<T>, consumer: Consumer, accepted: seq<T>,
    popped: seq<T>)

  datatype Step<T> = CheckFull(item: T) | StoreItem | CheckEmpty | TakeItem

  predicate InRing<T>(s: Threads<T>) { s.readPos < |s.items| && s.writePos < |s.items| }

  predicate Enabled<T>(s: Threads<T>, step: Step<T>) {
    match step
    case CheckFull(_) => s.producer.Outside?
    case StoreItem => s.producer.Checked?
    case CheckEmpty => s.consumer.Away?
    case TakeItem => s.consumer.Looked?
  }

  /** One locked section; a failed check ends the call without an update. */
  function Next<T>(s: Threads<T>, step: Step<T>): (s1: Threads<T>)
    requires InRing(s) && Enabled(s, step)
    ensures InRing(s1)
  {
    match step
    case CheckFull(item) => s.(producer := Checked(item, Full(s.readPos, s.writePos, |s.items|)))
    case StoreItem =>
      if s.producer.full then s.(producer := Outside)
      else (WrapIsMod(s.writePos + 1, |s.items|);
            s.(producer := Outside, items := s.items[s.writePos := s.producer.item],
               writePos := (s.writePos + 1) % |s.items|,
               accepted := s.accepted + [s.producer.item]))
    case CheckEmpty => s.(consumer := Looked(s.readPos == s.writePos))
    case TakeItem =>
      if s.consumer.empty then s.(consumer := Away)
      else (WrapIsMod(s.readPos + 1, |s.items|);
            s.(consumer := Away, readPos := (s.readPos + 1) % |s.items|, popped := s.popped + [s.items[s.readPos]]))
  }

  /** Between check and update the other thread can only help: a producer that saw room still
      has it, a consumer that saw an item still finds it. */
  ghost predicate Inv<T>(s: Threads<T>) {
    && InRing(s)
    && s.popped + Contents(s.items, s.readPos, s.writePos) == s.accepted
    && (s.producer.Checked? && !s.producer.full ==> !Full(s.readPos, s.writePos, |s.items|))
    && (s.consumer.Looked? && !s.consumer.empty ==> s.readPos != s.writePos)
  }

  lemma StepKeeps<T>(s: Threads<T>, step: Step<T>)
    requires Inv(s) && Enabled(s, step)
    ensures Inv(Next(s, step))
  {
    hide Contents, Full;
    FullIs(s.readPos, s.writePos, |s.items|);
    match step
    case CheckFull(_) =>
    case CheckEmpty =>
    case StoreItem =>
      if !s.producer.full {
        Pushed(s.items, s.readPos, s.writePos, s.producer.item);
        assert s.popped + (Contents(s.items, s.readPos, s.writePos) + [s.producer.item])
            == (s.popped + Contents(s.items, s.readPos, s.writePos)) + [s.producer.item];
        FullIs(s.readPos, Next(s, step).writePos, |s.items|);
      }
    case TakeItem =>
      if !s.consumer.empty {
        Popped(s.items, s.readPos, s.writePos);
        var s1 := Next(s, step);
        assert s.popped + ([s.items[s.readPos]] + Contents(s.items, s1.readPos, s.writePos))
            == s1.popped + Contents(s.items, s1.readPos, s.writePos);
        FullIs(s1.readPos, s.writePos, |s.items|);
      }
  }

  ghost predicate IsRun<T>(run: seq<Threads<T>>, steps: seq<Step<T>>) {
    && |run| == |steps| + 1
    && |run[0].items| > 0 && run[0].readPos == run[0].writePos == 0 && run[0].producer.Outside? && run[0].consumer.Away?
    && run[0].accepted == run[0].popped == []
    && forall i {:trigger steps[i]} :: 0 <= i < |steps| ==>
         InRing(run[i]) && Enabled(run[i], steps[i]) && run[i + 1] == Next(run[i], steps[i])
  }

  /** Under every interleaving of one producer and one consumer, what was popped followed by
      what is in the ring is what was accepted. */
  lemma {:induction false} NothingLost<T>(run: seq<Threads<T>>, steps: seq<Step<T>>, i: nat)
    requires IsRun(run, steps) && i < |run|
    ensures Inv(run[i])
    decreases i
  {
    if i > 0 {
      NothingLost(run, steps, i - 1);
      hide Inv, Next;
      assert run[i - 1 + 1] == Next(run[i - 1], steps[i - 1]);
      StepKeeps(run[i - 1], steps[i - 1]);
    }
  }

  /** One producer only: two that both saw the last free place empty the ring when both store. */
  lemma SecondProducerEmpties<T>(items: seq<T>, readPos: nat, writePos: nat, a: T, b: T)
    requires readPos < |items| && writePos < |items| && |items| >= 2
    requires Count(readPos, writePos, |items|) == |items| - 2
    ensures !Full(readPos, writePos, |items|)
    ensures var w1 := (writePos + 1) % |items|;
      w1 < |items| && Full(readPos, w1, |items|)
      && Contents(items[writePos := a][w1 := b], readPos, (w1 + 1) % |items|) == []
  {
    FullIs(readPos, writePos, |items|);
    WrapIsMod(writePos + 1, |items|);
    var w1 := (writePos + 1) % |items|;
    WrapIsMod(w1 + 1, |items|);
  }
}
