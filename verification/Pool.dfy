/**
  The fixed-capacity object pool (exchange-core/object_pool.h).  A free slot's first word links it
  to the next free slot; an allocated slot's words are its owner's to overwrite.
 */
module Pool {
  import opened Types

  /** The null link. */
  const NIL := -1

  ghost predicate Distinct(s: seq<nat>) { forall i, j :: 0 <= i < j < |s| ==> s[i] != s[j] }

  /** Following the links from `head` visits exactly `free`. */
  ghost predicate Threads(words: seq<int>, head: int, free: seq<nat>) {
    && (forall i :: 0 <= i < |free| ==> free[i] < |words|)
    && head == (if free == [] then NIL else free[0])
    && (free != [] ==> words[free[|free| - 1]] == NIL)
    && forall i, j :: 0 <= i < |free| && j == i + 1 && j < |free| ==> words[free[i]] == free[j]
  }

  class ObjectPool {
    const words: array<int>
    var freeHead: int
    var inUse: int
    ghost var free: seq<nat>

    ghost predicate Valid()
      reads this, words
    {
      && words.Length > 0 && Distinct(free) && Threads(words[..], freeHead, free)
      && inUse == words.Length - |free|
    }

    /** The slots handed out and not yet given back. */
    ghost function Live(): set<nat>
      reads this
    {
      set p: nat | 0 <= p < words.Length && p !in free
    }

    constructor (capacity: nat)
      requires capacity > 0
      ensures Valid() && fresh(words) && words.Length == capacity && |free| == capacity && Live() == {}
    {
      words := new int[capacity];
      inUse := 0;
      new;
      BuildFreeList();
    }

    /** build_free_list: every slot, in order. */
    method BuildFreeList()
      requires words.Length > 0
      modifies words, this`freeHead, this`free
      ensures Distinct(free) && Threads(words[..], freeHead, free) && |free| == words.Length && Live() == {}
    {
      for i := 0 to words.Length - 1
        invariant forall k :: 0 <= k < i ==> words[k] == k + 1
      {
        words[i] := i + 1;
      }
      words[words.Length - 1] := NIL;
      freeHead := 0;
      free := seq(words.Length, i => i);
      forall p: nat | p < words.Length ensures p in free { assert free[p] == p; }
    }

    /** A slot nobody has, or none exactly when all are handed out. */
    method Allocate() returns (p: Option<nat>)
      requires Valid()
      modifies this
      ensures Valid() && p.None? == (old(inUse) == words.Length)
      ensures p.None? ==> free == old(free)
      ensures p.Some? ==> p.value < words.Length && p.value !in old(Live()) && old(free) == [p.value] + free
      ensures Live() == if p.None? then old(Live()) else old(Live()) + {p.value}
    {
      AllFree(free, words.Length);
      if freeHead == NIL { return None; }
      var slot := freeHead;
      assert |free| > 1 ==> words[free[0]] == free[1];
      freeHead := words[slot];
      inUse := inUse + 1;
      free := free[1..];
      assert old(free) == [slot] + free;
      return Some(slot);
    }

    /** Give a slot back: it is the next to be handed out. */
    method Deallocate(p: nat)
      requires Valid() && p in Live()
      modifies this, words
      ensures Valid() && free == [p] + old(free) && Live() == old(Live()) - {p}
      ensures forall q: nat :: q in Live() ==> words[q] == old(words[q])
    {
      words[p] := freeHead;
      freeHead := p;
      inUse := inUse - 1;
      free := [p] + free;
      assert forall i :: 0 <= i < |old(free)| ==> old(free)[i] != p;
    }

    /** Owners may write what they like into slots they hold. */
    method Write(p: nat, word: int)
      requires Valid() && p in Live()
      modifies words
      ensures Valid() && words[p] == word
    {
      words[p] := word;
    }

    method Reset()
      requires words.Length > 0
      modifies this, words
      ensures Valid() && inUse == 0 && Live() == {}
    {
      inUse := 0;
      BuildFreeList();
    }

    method Available() returns (n: int)
      requires Valid()
      ensures n == |free| && |Live()| == words.Length - n
    {
      n := words.Length - inUse;
      LiveCount(free, words.Length);
    }
  }

  // ---------------------------------------------------------------- counting

  ghost function Others(free: seq<nat>, n: nat): set<nat> { set p: nat | 0 <= p < n && p !in free }

  /** Distinct slots below n and the rest make n. */
  lemma {:induction false} LiveCount(free: seq<nat>, n: nat)
    requires Distinct(free) && forall i :: 0 <= i < |free| ==> free[i] < n
    ensures |Others(free, n)| == n - |free|
  {
    if free == [] {
      Below(n);
    } else {
      var rest := free[1..];
      LiveCount(rest, n);
      assert free[0] !in rest;
      assert Others(free, n) == Others(rest, n) - {free[0]};
    }
  }

  lemma {:induction false} Below(n: nat)
    ensures |Others([], n)| == n
  {
    if n > 0 {
      Below(n - 1);
      assert Others([], n) == Others([], n - 1) + {n - 1};
    }
  }

  /** With no slot free, every slot is in use; and with one free, not. */
  lemma AllFree(free: seq<nat>, n: nat)
    requires Distinct(free) && forall i :: 0 <= i < |free| ==> free[i] < n
    ensures |free| <= n
  {
    LiveCount(free, n);
  }
}
