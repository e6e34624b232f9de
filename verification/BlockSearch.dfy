/**
 * The deterministic `inputs_block` search of `components/vault-nav/src/blocks.rs`:
 * a doubling walk-back that brackets the trigger time, then a bisection of the
 * bracket. `Reference` is the specification, a linear scan down from the head.
 */
module BlockSearch {
  import opened Wrappers
  import opened Words
  import opened Arith

  datatype SearchError =
    | LookupFailed(block: u64)
    | HeadNotPast
    | GenesisTooLate
    | ShallowerThanLag

  // The caller's timestamp lookup: a block's header time, or a failed read.
  type Lookup = u64 -> Result<u64, SearchError>

  predicate AtOrBefore(timestampOf: Lookup, block: u64, target: u64) {
    timestampOf(block).Success? && timestampOf(block).value <= target
  }

  predicate After(timestampOf: Lookup, block: u64, target: u64) {
    timestampOf(block).Success? && timestampOf(block).value > target
  }

  // Every block up to `head` answers, with timestamps that never go back.
  ghost predicate Chain(timestampOf: Lookup, head: u64) {
    && (forall n: u64 | n <= head :: timestampOf(n).Success?)
    && (forall m: u64, n: u64 | m <= n <= head :: timestampOf(m).value <= timestampOf(n).value)
  }

  // The last block at or before `target` among the blocks up to `n`, found one block at a time.
  ghost function Scan(timestampOf: Lookup, n: u64, target: u64): Option<u64>
    decreases n
  {
    if AtOrBefore(timestampOf, n, target) then Some(n)
    else if n == 0 then None
    else Scan(timestampOf, n - 1, target)
  }

  ghost function Reference(timestampOf: Lookup, head: u64, target: u64): Result<u64, SearchError> {
    if AtOrBefore(timestampOf, head, target) then Failure(HeadNotPast)
    else match Scan(timestampOf, head, target) {
      case None => Failure(GenesisTooLate)
      case Some(block) => Success(block)
    }
  }

  lemma EarlierToo(timestampOf: Lookup, head: u64, target: u64)
    requires Chain(timestampOf, head)
    ensures forall m: u64, n: u64 | m <= n <= head && AtOrBefore(timestampOf, n, target) ::
              AtOrBefore(timestampOf, m, target)
  {
  }

  // A boundary block is what the scan finds.
  lemma {:induction false} ScanAtBoundary(timestampOf: Lookup, n: u64, target: u64, best: u64)
    requires Chain(timestampOf, n)
    requires best <= n && AtOrBefore(timestampOf, best, target)
    requires best < n ==> After(timestampOf, best + 1, target)
    ensures Scan(timestampOf, n, target) == Some(best)
    decreases n
  {
    if best < n {
      assert timestampOf(best + 1).value <= timestampOf(n).value;
      ScanAtBoundary(timestampOf, n - 1, target, best);
    }
  }

  lemma {:induction false} ScanFindsNothing(timestampOf: Lookup, n: u64, target: u64)
    requires Chain(timestampOf, n)
    requires After(timestampOf, 0, target)
    ensures Scan(timestampOf, n, target) == None
    decreases n
  {
    assert timestampOf(0).value <= timestampOf(n).value;
    if n > 0 {
      ScanFindsNothing(timestampOf, n - 1, target);
    }
  }

  lemma {:induction false} ScanIsLast(timestampOf: Lookup, n: u64, target: u64)
    requires Chain(timestampOf, n)
    ensures Scan(timestampOf, n, target).None? <==> After(timestampOf, 0, target)
    ensures Scan(timestampOf, n, target).Some? ==>
              var best := Scan(timestampOf, n, target).value;
              && best <= n
              && AtOrBefore(timestampOf, best, target)
              && forall m: u64 | best < m <= n :: After(timestampOf, m, target)
    decreases n
  {
    if !AtOrBefore(timestampOf, n, target) && n > 0 {
      ScanIsLast(timestampOf, n - 1, target);
    }
  }

  // The reference errs exactly when the head has not passed the target or
  // genesis already has; otherwise it is the last block at or before the target.
  lemma ReferenceMeaning(timestampOf: Lookup, head: u64, target: u64)
    requires Chain(timestampOf, head)
    ensures var r := Reference(timestampOf, head, target);
            && (r.Failure? <==>
                timestampOf(head).value <= target || timestampOf(0).value > target)
            && (r.Success? ==>
                && r.value < head
                && timestampOf(r.value).value <= target
                && forall m: u64 | r.value < m <= head :: timestampOf(m).value > target)
  {
    ScanIsLast(timestampOf, head, target);
    var r := Reference(timestampOf, head, target);
    if r.Success? {
      forall m: u64 | r.value < m <= head ensures timestampOf(m).value > target {
        assert After(timestampOf, m, target);
      }
    }
  }

  lemma AnswerNotLater(tsA: Lookup, headA: u64, tsB: Lookup, headB: u64, target: u64)
    requires Chain(tsA, headA) && Chain(tsB, headB)
    requires forall n: u64 | n <= headA && n <= headB :: tsA(n) == tsB(n)
    requires tsA(headA).value > target
    requires Scan(tsB, headB, target).Some?
    ensures Scan(tsA, headA, target).Some?
    ensures Scan(tsB, headB, target).value <= Scan(tsA, headA, target).value
  {
    ScanIsLast(tsA, headA, target);
    ScanIsLast(tsB, headB, target);
    assert tsA(0) == tsB(0);
    var a, b := Scan(tsA, headA, target).value, Scan(tsB, headB, target).value;
    EarlierToo(tsB, headB, target);
    assert tsA(b) == tsB(b);
    assert AtOrBefore(tsA, b, target);
  }

  // Two nodes that agree on the blocks both have, each past the target,
  // resolve the same block however far their heads are apart.
  lemma HeadIndependent(tsA: Lookup, headA: u64, tsB: Lookup, headB: u64, target: u64)
    requires Chain(tsA, headA) && Chain(tsB, headB)
    requires forall n: u64 | n <= headA && n <= headB :: tsA(n) == tsB(n)
    requires tsA(headA).value > target && tsB(headB).value > target
    ensures Reference(tsA, headA, target) == Reference(tsB, headB, target)
  {
    if Scan(tsA, headA, target).Some? {
      AnswerNotLater(tsB, headB, tsA, headA, target);
    }
    if Scan(tsB, headB, target).Some? {
      AnswerNotLater(tsA, headA, tsB, headB, target);
    }
  }

  function SaturatingDouble(x: u64): u64 {
    if 2 * x < U64_LIMIT then 2 * x else U64_LIMIT - 1
  }

  function SaturatingSub(x: u64, y: u64): u64 {
    if y <= x then x - y else 0
  }

  // After `j` strides the walk-back stands 2^j - 1 blocks behind the head, or at genesis.
  ghost predicate Strode(head: u64, j: nat, lo: u64, stride: u64) {
    && stride >= 1
    && (lo > 0 ==> stride == Pow2(j) && lo == head - (Pow2(j) - 1))
    && (lo == 0 ==> head <= Pow2(j) - 1)
  }

  lemma Stride(head: u64, j: nat, lo: u64, stride: u64)
    requires Strode(head, j, lo, stride) && lo > 0
    ensures Strode(head, j + 1, SaturatingSub(lo, stride), SaturatingDouble(stride))
    ensures SaturatingSub(lo, stride) < lo
  {
    assert Pow2(j + 1) == 2 * Pow2(j);
  }

  // Probing the middle leaves at most half the bracket on either side.
  lemma Halves(a: nat, b: nat, spare: nat)
    requires a <= b && b - a + 1 <= Pow2(spare) - 1
    ensures spare > 0
    ensures var mid := a + (b - a) / 2;
            mid - a <= Pow2(spare - 1) - 1 && b - mid <= Pow2(spare - 1) - 1
  {
    assert Pow2(spare) == if spare == 0 then 1 else 2 * Pow2(spare - 1);
  }

  // A cost that is logarithmic in a distance: `perStride` for each doubling it takes to cover it.
  ghost predicate CostsAtMost(lookups: nat, distance: nat, perStride: nat) {
    forall k: nat :: distance <= Pow2(k) - 1 ==> lookups <= 1 + perStride * k
  }

  // The walk-back does not take more strides than the distance needs.
  lemma CostOfStrides(j: nat, distance: nat, lookups: nat, perStride: nat)
    requires j > 0 ==> distance > Pow2(j - 1) - 1
    requires lookups <= 1 + perStride * j
    ensures CostsAtMost(lookups, distance, perStride)
  {
    forall k: nat | distance <= Pow2(k) - 1 ensures lookups <= 1 + perStride * k {
      if k < j {
        Pow2Monotone(k, j - 1);
      }
      assert j <= k;
      MulBothSides(perStride, j, perStride, k);
    }
  }

  ghost predicate Boundary(timestampOf: Lookup, head: u64, target: u64, best: u64) {
    best < head && AtOrBefore(timestampOf, best, target) && After(timestampOf, best + 1, target)
  }

  // The reference answer and the cost, from where the bisection ends.
  lemma BisectionEnds(timestampOf: Lookup, head: u64, target: u64, best: u64, j: nat, late: u64, lookups: nat)
    requires Boundary(timestampOf, head, target, best)
    requires late <= head && After(timestampOf, late, target)
    requires j > 0 && late == head - (Pow2(j - 1) - 1)
    requires lookups <= 1 + 2 * j
    ensures Chain(timestampOf, head) ==>
              && Reference(timestampOf, head, target) == Success(best)
              && CostsAtMost(lookups, head - best, 2)
  {
    if Chain(timestampOf, head) {
      ScanAtBoundary(timestampOf, head, target, best);
      EarlierToo(timestampOf, head, target);
      CostOfStrides(j, head - best, lookups, 2);
    }
  }

  lemma WalkBackFails(timestampOf: Lookup, head: u64, target: u64, j: nat)
    requires After(timestampOf, head, target) && After(timestampOf, 0, target)
    requires j > 0 ==> head > Pow2(j - 1) - 1
    ensures Chain(timestampOf, head) ==> Reference(timestampOf, head, target) == Failure(GenesisTooLate)
    ensures CostsAtMost(1 + j, head, 1)
  {
    if Chain(timestampOf, head) {
      ScanFindsNothing(timestampOf, head, target);
    }
    CostOfStrides(j, head, 1 + j, 1);
  }

  // Between `a` and `b` nothing is known yet; `a - 1` answers and `b + 1` is past the target.
  ghost predicate Bracket(timestampOf: Lookup, head: u64, target: u64, a: u64, b: u64) {
    && 0 < a <= b + 1 && b < head
    && AtOrBefore(timestampOf, a - 1, target)
    && After(timestampOf, b + 1, target)
  }

  // Where the walk-back stops: a block at or before the target, j strides from the head,
  // whose stop before (`late`) was past it.
  ghost predicate Stopped(timestampOf: Lookup, head: u64, target: u64, lo: u64, j: nat, late: u64) {
    && j > 0 && lo < head && late <= head
    && AtOrBefore(timestampOf, lo, target) && After(timestampOf, late, target)
    && late == head - (Pow2(j - 1) - 1)
    && head - lo <= Pow2(j) - 1
  }

  // The doubling walk-back from a head known to be past the target.
  method WalkBack(head: u64, target: u64, timestampOf: Lookup)
    returns (r: Result<u64, SearchError>, lookups: nat, ghost late: u64)
    requires After(timestampOf, head, target)
    ensures r.Success? ==> Stopped(timestampOf, head, target, r.value, lookups, late)
    ensures r.Failure? ==> r.error == GenesisTooLate || r.error.LookupFailed?
    ensures r.Failure? && r.error.LookupFailed? ==> r.error.block <= head && timestampOf(r.error.block).Failure?
    ensures r == Failure(GenesisTooLate) ==>
              && (Chain(timestampOf, head) ==> r == Reference(timestampOf, head, target))
              && CostsAtMost(1 + lookups, head, 1)
  {
    var lo: u64, stride: u64 := head, 1;
    lookups, late := 0, head;
    while true
      invariant lo <= head && After(timestampOf, lo, target)
      invariant Strode(head, lookups, lo, stride)
      invariant lookups > 0 ==> head > Pow2(lookups - 1) - 1
      decreases lo
    {
      if lo == 0 {
        WalkBackFails(timestampOf, head, target, lookups);
        r := Failure(GenesisTooLate);
        return;
      }
      Stride(head, lookups, lo, stride);
      late := lo;
      lo, stride := SaturatingSub(lo, stride), SaturatingDouble(stride);
      lookups := lookups + 1;
      var ts := timestampOf(lo);
      if ts.Failure? {
        r := Failure(LookupFailed(lo));
        return;
      }
      if ts.value <= target {
        r := Success(lo);
        return;
      }
    }
  }

  // The bisection of (lo, head), at most `spare` lookups for at most 2^spare - 1 blocks.
  method Bisect(head: u64, target: u64, timestampOf: Lookup, lo: u64, ghost spare: nat)
    returns (r: Result<u64, SearchError>, lookups: nat)
    requires lo < head && AtOrBefore(timestampOf, lo, target) && After(timestampOf, head, target)
    requires head - lo <= Pow2(spare)
    ensures r.Success? ==> Boundary(timestampOf, head, target, r.value) && lookups <= spare
    ensures r.Failure? ==> r.error.LookupFailed? && r.error.block <= head && timestampOf(r.error.block).Failure?
  {
    lookups := 0;
    var best := lo;
    var a: u64, b: u64 := lo + 1, head - 1;
    ghost var left := spare;
    while a <= b
      invariant Bracket(timestampOf, head, target, a, b) && best == a - 1
      invariant b - a + 1 <= Pow2(left) - 1
      invariant lookups + left == spare
      decreases b + 1 - a
    {
      var mid: u64 := a + (b - a) / 2;
      Halves(a, b, left);
      lookups, left := lookups + 1, left - 1;
      var ts := timestampOf(mid);
      if ts.Failure? {
        return Failure(LookupFailed(mid)), lookups;
      }
      if ts.value <= target {
        best := mid;
        a := mid + 1;
      } else {
        b := mid - 1;
      }
    }
    return Success(best), lookups;
  }

  /**
   * Highest block whose timestamp is at or before `target`. Whatever the lookup
   * answers, a returned block sits on the boundary; on a chain it is the
   * reference answer, at a cost of 1 + 2k lookups once 2^k - 1 covers the gap.
   */
  method BlockAtOrBefore(head: u64, target: u64, timestampOf: Lookup)
    returns (r: Result<u64, SearchError>, lookups: nat)
    ensures r.Success? ==> Boundary(timestampOf, head, target, r.value)
    ensures r.Failure? && r.error.LookupFailed? ==> r.error.block <= head && timestampOf(r.error.block).Failure?
    ensures Chain(timestampOf, head) ==> r == Reference(timestampOf, head, target)
    ensures Chain(timestampOf, head) && r.Success? ==> CostsAtMost(lookups, head - r.value, 2)
    ensures r == Failure(GenesisTooLate) ==> CostsAtMost(lookups, head, 1)
  {
    lookups := 1;
    var headTs := timestampOf(head);
    if headTs.Failure? {
      return Failure(LookupFailed(head)), lookups;
    }
    if headTs.value <= target {
      return Failure(HeadNotPast), lookups;
    }
    var bracket, strides, late := WalkBack(head, target, timestampOf);
    lookups := lookups + strides;
    if bracket.Failure? {
      return bracket, lookups;
    }
    var probes;
    r, probes := Bisect(head, target, timestampOf, bracket.value, strides);
    lookups := lookups + probes;
    if r.Success? {
      BisectionEnds(timestampOf, head, target, r.value, strides, late, lookups);
    }
  }

  // What a cycle may pin for a lag, block by block: the block `lag` before the last one at or
  // before the target, and each error exactly in its own case.
  ghost predicate Pins(timestampOf: Lookup, head: u64, target: u64, lag: u64, r: Result<u64, SearchError>)
    requires Chain(timestampOf, head)
  {
    && (r.Success? <==>
          timestampOf(head).value > target && exists n: u64 :: lag <= n <= head && timestampOf(n).value <= target)
    && (r.Success? ==>
          && r.value + lag < head && timestampOf((r.value + lag) as u64).value <= target
          && (forall m: u64 | r.value + lag < m <= head :: timestampOf(m).value > target))
    && (r == Failure(HeadNotPast) <==> timestampOf(head).value <= target)
    && (r == Failure(GenesisTooLate) <==> timestampOf(head).value > target && timestampOf(0).value > target)
    && (r == Failure(ShallowerThanLag) <==>
          && timestampOf(0).value <= target < timestampOf(head).value
          && (forall n: u64 | lag <= n <= head :: timestampOf(n).value > target))
  }

  lemma ReferencePins(timestampOf: Lookup, head: u64, target: u64, lag: u64, r: Result<u64, SearchError>)
    requires Chain(timestampOf, head)
    requires var at := Reference(timestampOf, head, target);
             r == if at.Failure? then at
                  else if lag <= at.value then Success(at.value - lag) else Failure(ShallowerThanLag)
    ensures Pins(timestampOf, head, target, lag, r)
  {
    ReferenceMeaning(timestampOf, head, target);
    ScanIsLast(timestampOf, head, target);
    var at := Reference(timestampOf, head, target);
    if at.Success? && lag <= at.value {
      assert lag <= at.value <= head && timestampOf(at.value).value <= target;
    }
  }

  // No two results pin the same cycle.
  lemma PinsOnce(timestampOf: Lookup, head: u64, target: u64, lag: u64, a: Result<u64, SearchError>,
                 b: Result<u64, SearchError>)
    requires Chain(timestampOf, head)
    requires Pins(timestampOf, head, target, lag, a) && Pins(timestampOf, head, target, lag, b)
    ensures a == b
  {
    if a.Success? {
      assert a.value + lag <= b.value + lag && b.value + lag <= a.value + lag;
    }
  }

  // The block a cron cycle pins its reads to.
  method ResolveInputsBlock(head: u64, triggerTime: u64, lag: u64, timestampOf: Lookup)
    returns (r: Result<u64, SearchError>, lookups: nat)
    ensures Chain(timestampOf, head) ==> Pins(timestampOf, head, triggerTime, lag, r)
    ensures r.Success? ==> r.value + lag < head && Boundary(timestampOf, head, triggerTime, r.value + lag)
  {
    var atTrigger;
    atTrigger, lookups := BlockAtOrBefore(head, triggerTime, timestampOf);
    r := if atTrigger.Failure? then atTrigger
         else if lag <= atTrigger.value then Success(atTrigger.value - lag)
         else Failure(ShallowerThanLag);
    if Chain(timestampOf, head) {
      ReferencePins(timestampOf, head, triggerTime, lag, r);
    }
  }

  // Every operator whose head has cleared the trigger time pins the same block,
  // or fails the cycle with the same error.
  lemma OperatorsAgree(tsA: Lookup, headA: u64, a: Result<u64, SearchError>,
                       tsB: Lookup, headB: u64, b: Result<u64, SearchError>, target: u64, lag: u64)
    requires Chain(tsA, headA) && Chain(tsB, headB)
    requires forall n: u64 | n <= headA && n <= headB :: tsA(n) == tsB(n)
    requires tsA(headA).value > target && tsB(headB).value > target
    requires Pins(tsA, headA, target, lag, a) && Pins(tsB, headB, target, lag, b)
    ensures a == b
  {
    if headA <= headB {
      ShorterPins(tsA, headA, tsB, headB, target, lag, b);
      PinsOnce(tsA, headA, target, lag, a, b);
    } else {
      ShorterPins(tsB, headB, tsA, headA, target, lag, a);
      PinsOnce(tsB, headB, target, lag, b, a);
    }
  }

  // What the longer chain pins, the shorter does.
  lemma ShorterPins(
      tsA: Lookup, headA: u64, tsB: Lookup, headB: u64, target: u64, lag: u64, b: Result<u64, SearchError>)
    requires Chain(tsA, headA) && Chain(tsB, headB) && headA <= headB
    requires forall n: u64 | n <= headA && n <= headB :: tsA(n) == tsB(n)
    requires tsA(headA).value > target && tsB(headB).value > target
    requires Pins(tsB, headB, target, lag, b)
    ensures Pins(tsA, headA, target, lag, b)
  {
    assert tsA(headA) == tsB(headA) && tsA(0) == tsB(0);
    forall n: u64 | headA <= n <= headB ensures tsB(n).value > target {
      assert tsB(headA).value <= tsB(n).value;
    }
    if exists n: u64 :: lag <= n <= headB && tsB(n).value <= target {
      var n: u64 :| lag <= n <= headB && tsB(n).value <= target;
      assert n < headA && tsA(n) == tsB(n);
    }
  }
}
