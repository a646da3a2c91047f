/** The ring as an object: an array of slots and the packed index word. Each method is one call
    that nobody interrupts; it goes through the steps of module Ring, whose invariant `ring` keeps. */
module Dequeue {
  import opened Options
  import opened Words
  import Ring

  class BufDequeue<V(==)> {
    const vals: array<Option<V>>
    var headTail: u64
    ghost var ring: Ring.State<V>

    ghost predicate Valid()
      reads this, vals
    {
      && Ring.Inv(ring) && ring.word == headTail && ring.vals == vals[..]
      && ring.prods == [Ring.Idle] && ring.cons == Ring.Resting
    }

    /** What has been pushed and not popped, oldest first. */
    ghost function Contents(): seq<V>
      requires Valid()
      reads this, vals
    {
      ring.claimed[|ring.popped|..]
    }

    constructor (size: nat)
      requires Ring.ValidSize(size)
      ensures Valid() && fresh(vals) && vals.Length == size && Contents() == []
    {
      vals := new Option<V>[size](_ => None);
      headTail := 0;
      ring := Ring.Fresh(size, 1);
      new;
      Ring.FreshInv<V>(size, 1);
      assert ring.vals == vals[..];
    }

    /** Stores a value, or refuses it when every slot is taken. */
    method PushHead(val: V) returns (ok: bool)
      requires Valid()
      modifies this, vals
      ensures Valid()
      ensures ok <==> |old(Contents())| < vals.Length
      ensures Contents() == if ok then old(Contents()) + [val] else old(Contents())
    {
      hide Ring.Inv, PairHead, PairTail, PackPair;
      var n := vals.Length;
      ghost var s := ring;
      Ring.InvRefusals(s);
      Room(s);
      var head, tail := PairHead(headTail), PairTail(headTail);
      ghost var s1 := Next(s, Ring.Begin(0, val));
      ghost var s2 := Next(s1, Ring.Load(0));
      if (tail + n) % TWO32 == head {
        ring := s2;
        return false;
      }
      ghost var s3 := Next(s2, Ring.Claim(0));
      headTail := PackPair((head + 1) % TWO32, tail);
      vals[Ring.SlotOf(head, n)] := Some(val);
      ring := Next(s3, Ring.Publish(0));
      return true;
    }

    /** Takes the oldest value, if there is one. */
    method PopTail() returns (val: Option<V>)
      requires Valid()
      modifies this, vals
      ensures Valid()
      ensures val == if old(Contents()) == [] then None else Some(old(Contents())[0])
      ensures Contents() == if old(Contents()) == [] then [] else old(Contents())[1..]
    {
      hide Ring.Inv, PairHead, PairTail, PackPair, AdvanceTail;
      var n := vals.Length;
      ghost var s := ring;
      Ring.InvRefusals(s);
      Room(s);
      var head, tail := PairHead(headTail), PairTail(headTail);
      ghost var s1 := Next(s, Ring.StartPop);
      ghost var s2 := Next(s1, Ring.Poll);
      if tail == head {
        ring := s2;
        return None;
      }
      var slot := Ring.SlotOf(tail, n);
      Oldest(s2);
      ghost var s3 := Next(s2, Ring.Look);
      val := vals[slot];
      ghost var s4 := Next(s3, Ring.Take);
      vals[slot] := None;
      headTail := AdvanceTail(headTail, tail);
      ring := Next(s4, Ring.Advance);
    }
  }

  /** An enabled step, which keeps the invariant. */
  ghost function Next<V>(s: Ring.State<V>, a: Ring.Action<V>): (s': Ring.State<V>)
    requires Ring.Inv(s) && Ring.Step(s, a).Some?
    ensures Ring.Step(s, a) == Some(s') && Ring.Inv(s')
  {
    Ring.StepKeeps(s, a, Ring.Step(s, a).value);
    Ring.Step(s, a).value
  }

  lemma Room<V>(s: Ring.State<V>)
    requires Ring.Inv(s) && s.cons.Resting?
    ensures 0 < |s.vals| && |s.popped| <= |s.claimed| <= |s.popped| + |s.vals| && Ring.Advanced(s) == |s.popped|
    ensures s.popped == s.claimed[..|s.popped|]
  {
  }

  /** With no push under way the slot at the tail holds the oldest value. */
  lemma Oldest<V>(s: Ring.State<V>)
    requires Ring.Inv(s) && s.cons.Peeked? && s.prods == [Ring.Idle] && 0 < |s.vals|
    ensures |s.popped| < |s.claimed|
    ensures s.vals[Ring.SlotOf(s.cons.at, |s.vals|)] == Some(s.claimed[|s.popped|])
  {
    assert Ring.TicketOk(s, |s.popped|);
    Ring.WrappedSlot(|s.popped|, |s.vals|);
  }
}
