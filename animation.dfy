/** The cyclic sprite-frame counter of the bird. */
module Animation {

  /** One tick of the animation timer: when the timer has finished, the frame
      index moves to the next frame, wrapping from last back to first. */
  function NextFrame(index: nat, first: nat, last: nat, finished: bool): (r: nat)
    ensures first <= index <= last ==> first <= r <= last
  {
    if !finished then index
    else if index == last then first
    else index + 1
  }

  /** A tick of an unfinished timer leaves the frame alone; a finished one
      advances it by one, or wraps at the last frame. */
  lemma NextFrameCases(index: nat, first: nat, last: nat)
    ensures NextFrame(index, first, last, false) == index
    ensures index == last ==> NextFrame(index, first, last, true) == first
    ensures index != last ==> NextFrame(index, first, last, true) == index + 1
  {
  }

  /** The frame index after k finished ticks. */
  function Advanced(index: nat, first: nat, last: nat, k: nat): nat
    decreases k
  {
    if k == 0 then index else NextFrame(Advanced(index, first, last, k - 1), first, last, true)
  }

  /** Ticks compose: k1 + k2 ticks are k1 ticks followed by k2 ticks. */
  lemma {:induction false} AdvancedAdds(index: nat, first: nat, last: nat, k1: nat, k2: nat)
    ensures Advanced(index, first, last, k1 + k2) == Advanced(Advanced(index, first, last, k1), first, last, k2)
    decreases k2
  {
    if k2 > 0 {
      AdvancedAdds(index, first, last, k1, k2 - 1);
    }
  }

  /** Before reaching the last frame the index simply counts up. */
  lemma {:induction false} AdvancedCountsUp(index: nat, first: nat, last: nat, k: nat)
    requires index + k <= last
    ensures Advanced(index, first, last, k) == index + k
    decreases k
  {
    if k > 0 {
      AdvancedCountsUp(index, first, last, k - 1);
    }
  }

  /** One tick past the last frame lands on the first frame. */
  lemma WrapsToFirst(index: nat, first: nat, last: nat)
    requires index <= last
    ensures Advanced(index, first, last, last - index + 1) == first
  {
    AdvancedCountsUp(index, first, last, last - index);
  }

  /** After a full cycle of last - first + 1 finished ticks the index is back
      where it started, so the sequence of frames is periodic. */
  lemma CycleReturns(index: nat, first: nat, last: nat, k: nat)
    requires first <= index <= last
    ensures Advanced(index, first, last, last - first + 1) == index
    ensures Advanced(index, first, last, k + (last - first + 1)) == Advanced(index, first, last, k)
  {
    AdvancedAdds(index, first, last, last - index + 1, index - first);
    WrapsToFirst(index, first, last);
    AdvancedCountsUp(first, first, last, index - first);
    AdvancedAdds(index, first, last, last - first + 1, k);
    assert k + (last - first + 1) == (last - first + 1) + k;
  }
}
