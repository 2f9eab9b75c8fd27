/** The heading-lock mode of SwerveSubsystem: a three-valued mode that the
    operator advances around a fixed cycle and can force back to FREE. */
module HeadingLock {

  datatype HeadingState = Forward | Backward | Free

  /** The mode a freshly constructed subsystem starts in. */
  const Initial: HeadingState := Free

  /** setHeadingState: FORWARD -> BACKWARD -> FREE -> FORWARD. */
  function Advance(h: HeadingState): (next: HeadingState)
    ensures next != h
    ensures h == Forward <==> next == Backward
    ensures h == Backward <==> next == Free
    ensures h == Free <==> next == Forward
  {
    match h
    case Forward => Backward
    case Backward => Free
    case Free => Forward
  }

  /** freeHeadingState: FREE from any mode. */
  function Release(h: HeadingState): (next: HeadingState)
    ensures next == Free
  {
    Free
  }

  /** Advancing `n` times. */
  function AdvanceN(h: HeadingState, n: nat): HeadingState
    decreases n
  {
    if n == 0 then h else AdvanceN(Advance(h), n - 1)
  }

  /** Three advances come back to the starting mode, from every mode. */
  lemma AdvanceThreeTimes(h: HeadingState)
    ensures AdvanceN(h, 3) == h
    ensures AdvanceN(h, 1) != h && AdvanceN(h, 2) != h
  {
  }

  /** The cycle has period three: advancing n times lands where advancing
      n mod 3 times does. */
  lemma {:induction false} AdvancePeriodic(h: HeadingState, n: nat)
    ensures AdvanceN(h, n) == AdvanceN(h, n % 3)
  {
    if n >= 3 {
      calc {
        AdvanceN(h, n);
        { AdvanceSplit(h, 3, n - 3); }
        AdvanceN(AdvanceN(h, 3), n - 3);
        { AdvanceThreeTimes(h); }
        AdvanceN(h, n - 3);
        { AdvancePeriodic(h, n - 3); }
        AdvanceN(h, (n - 3) % 3);
      }
    }
  }

  lemma {:induction false} AdvanceSplit(h: HeadingState, m: nat, n: nat)
    ensures AdvanceN(h, m + n) == AdvanceN(AdvanceN(h, m), n)
    decreases m
  {
    if m > 0 {
      AdvanceSplit(Advance(h), m - 1, n);
    }
  }

  /** Releasing is idempotent, and releasing after any number of advances
      gives the initial mode back. */
  lemma ReleaseResets(h: HeadingState, n: nat)
    ensures Release(Release(h)) == Release(h)
    ensures Release(AdvanceN(h, n)) == Initial
  {
  }
}
