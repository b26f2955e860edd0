/** The two exponential backoffs of the bridge: when a module's client is replaced, and when a
    missed discovery is retried. Times and delays are in milliseconds. */
module Backoff {

  function Pow2(n: nat): (p: nat)
    ensures p >= 1
  {
    if n == 0 then 1 else 2 * Pow2(n - 1)
  }

  function Min(a: int, b: int): int {
    if a <= b then a else b
  }

  // ---------------------------------------------------------------------------
  // Client replacement
  // ---------------------------------------------------------------------------

  const FIRST_GAP := 2000
  const MAX_GAP := 60000

  /** `since`: when the current client was created; `gap`: how long it is given. */
  datatype Policy = Policy(since: int, gap: int)

  function Created(now: int): Policy {
    Policy(now, FIRST_GAP)
  }

  function OnUnavailable(p: Policy, now: int): (Policy, bool) {
    if now - p.since < p.gap then (p, false) else (Policy(now, Min(p.gap * 2, MAX_GAP)), true)
  }

  function OnReached(p: Policy): Policy {
    p.(gap := FIRST_GAP)
  }

  class RecyclePolicy {
    var since: int
    var gap: int

    function Value(): Policy
      reads this
    {
      Policy(since, gap)
    }

    constructor (created: int)
      ensures Value() == Created(created)
    {
      since, gap := created, FIRST_GAP;
    }

    method Unavailable(now: int) returns (replace: bool)
      modifies this
      ensures (Value(), replace) == OnUnavailable(old(Value()), now)
    {
      if now - since < gap {
        return false;
      }
      since := now;
      gap := if gap * 2 <= MAX_GAP then gap * 2 else MAX_GAP;
      return true;
    }

    method Reached()
      modifies this
      ensures Value() == OnReached(old(Value()))
    {
      gap := FIRST_GAP;
    }
  }

  datatype Answer = Unavailable(now: int) | Reached

  function After(p: Policy, e: Answer): Policy {
    match e
    case Unavailable(now) => OnUnavailable(p, now).0
    case Reached => OnReached(p)
  }

  /** The times at which a run of answers decides to replace the client. */
  function Decisions(p: Policy, es: seq<Answer>): seq<int>
    decreases |es|
  {
    if es == [] then []
    else
      var rest := Decisions(After(p, es[0]), es[1..]);
      if es[0].Unavailable? && OnUnavailable(p, es[0].now).1 then [es[0].now] + rest else rest
  }

  function Afters(p: Policy, es: seq<Answer>): Policy {
    if es == [] then p else After(Afters(p, es[..|es| - 1]), es[|es| - 1])
  }

  function Decided(p: Policy, e: Answer): seq<int> {
    if e.Unavailable? && OnUnavailable(p, e.now).1 then [e.now] else []
  }

  lemma {:induction false} DecisionsLast(p: Policy, es: seq<Answer>, e: Answer)
    ensures Decisions(p, es + [e]) == Decisions(p, es) + Decided(Afters(p, es), e)
    decreases |es|
  {
    if es == [] {
      assert [e][1..] == [] && [] + [e] == [e];
      assert Decisions(After(p, e), []) == [];
    } else {
      var q := After(p, es[0]);
      assert (es + [e])[1..] == es[1..] + [e];
      DecisionsLast(q, es[1..], e);
      AftersFirst(p, es);
    }
  }

  lemma {:induction false} AftersFirst(p: Policy, es: seq<Answer>)
    requires es != []
    ensures Afters(p, es) == Afters(After(p, es[0]), es[1..])
    decreases |es|
  {
    if |es| == 1 {
      assert es[..0] == [] && es[1..] == [];
    } else {
      AftersFirst(p, es[..|es| - 1]);
      assert es[..|es| - 1][1..] == es[1..][..|es| - 2];
    }
  }

  /** The k-th gap when nothing answers: 2 s doubling to 60 s. */
  function Gap(k: nat): int {
    Min(FIRST_GAP * Pow2(k), MAX_GAP)
  }

  function GapSum(from: nat, count: nat): int {
    if count == 0 then 0 else GapSum(from, count - 1) + Gap(from + count - 1)
  }

  lemma {:induction false} GapSumSplit(from: nat, count: nat)
    ensures GapSum(from, count + 1) == Gap(from) + GapSum(from + 1, count)
  {
    if count == 0 {
      assert GapSum(from, 0) == 0;
    } else {
      GapSumSplit(from, count - 1);
    }
  }

  lemma GapDoubles(k: nat)
    ensures Min(Gap(k) * 2, MAX_GAP) == Gap(k + 1)
  {
  }

  /** With no answer from the module: the k-th decision waits for the first k + 1 gaps, and each
      decision waits for its own gap after the one before it. No assumption on the clock. */
  lemma {:induction false} SilentDecisions(p: Policy, k: nat, es: seq<Answer>, i: nat)
    requires p.gap == Gap(k)
    requires forall j | 0 <= j < |es| :: es[j].Unavailable?
    requires i < |Decisions(p, es)|
    ensures Decisions(p, es)[i] >= p.since + GapSum(k, i + 1)
    ensures i > 0 ==> Decisions(p, es)[i] - Decisions(p, es)[i - 1] >= Gap(k + i)
    decreases |es|
  {
    var q := After(p, es[0]);
    var rest := Decisions(q, es[1..]);
    if !OnUnavailable(p, es[0].now).1 {
      SilentDecisions(p, k, es[1..], i);
    } else {
      GapDoubles(k);
      GapSumSplit(k, i);
      if i > 0 {
        SilentDecisions(q, k + 1, es[1..], i - 1);
        if i == 1 {
          assert GapSum(k + 1, 1) == Gap(k + 1) by { assert GapSum(k + 1, 0) == 0; }
        }
      } else {
        assert GapSum(k + 1, 0) == 0;
      }
    }
  }

  ghost predicate GapInRange(p: Policy) {
    FIRST_GAP <= p.gap <= MAX_GAP
  }

  /** Whatever answers arrive in between, decisions stay at least FIRST_GAP apart, the first one
      counted from the client's creation; and a module found unavailable MAX_GAP after the last
      decision is always replaced. */
  lemma {:induction false} DecisionsSpaced(p: Policy, es: seq<Answer>, i: nat)
    requires GapInRange(p)
    requires i < |Decisions(p, es)|
    ensures Decisions(p, es)[i] - (if i == 0 then p.since else Decisions(p, es)[i - 1]) >= FIRST_GAP
    decreases |es|
  {
    var q := After(p, es[0]);
    if es[0].Unavailable? && OnUnavailable(p, es[0].now).1 {
      if i > 0 {
        DecisionsSpaced(q, es[1..], i - 1);
      }
    } else {
      DecisionsSpaced(q, es[1..], i);
    }
  }

  /** The first decision is also no later than it has to be. */
  lemma {:induction false} DecisionDue(p: Policy, es: seq<Answer>)
    requires GapInRange(p)
    requires es != [] && es[|es| - 1].Unavailable? && es[|es| - 1].now >= p.since + MAX_GAP
    ensures Decisions(p, es) != []
    decreases |es|
  {
    if |es| > 1 {
      var q := After(p, es[0]);
      if q.since == p.since {
        assert es[1..][|es| - 2] == es[|es| - 1];
        DecisionDue(q, es[1..]);
      }
    }
  }

  /** An answer from the module starts the waits again from the first one. */
  lemma ReachedRestarts(p: Policy, es: seq<Answer>, now: int)
    ensures
      Decided(Afters(p, es + [Reached]), Unavailable(now)) != [] <==> now - Afters(p, es).since >= FIRST_GAP
  {
    assert (es + [Reached])[..|es|] == es;
  }

  // ---------------------------------------------------------------------------
  // Discovery retry
  // ---------------------------------------------------------------------------

  const RETRY_BASE := 500
  const RETRY_CAP := 30000

  function RetryDelayOf(failures: int): int {
    if failures <= 1 then RETRY_BASE else Min(RETRY_BASE * Pow2(failures - 1), RETRY_CAP)
  }

  /** Half a second after the first failure, then twice the wait before, up to half a minute. */
  lemma RetryDoubles(failures: int)
    ensures failures <= 1 ==> RetryDelayOf(failures) == 500
    ensures failures >= 1 ==> RetryDelayOf(failures + 1) == Min(2 * RetryDelayOf(failures), 30000)
  {
    if failures >= 1 {
      assert Pow2(failures) == 2 * Pow2(failures - 1);
    }
  }

  lemma {:induction false} Pow2Monotone(a: nat, b: nat)
    requires a <= b
    ensures Pow2(a) <= Pow2(b)
    decreases b
  {
    if a < b {
      Pow2Monotone(a, b - 1);
    }
  }

  /** The doubling loop stops at the cap, so a long outage never overflows the delay. */
  method RetryDelay(failures: int) returns (d: int)
    ensures d == RetryDelayOf(failures)
    ensures RETRY_BASE <= d <= RETRY_CAP
  {
    d := RETRY_BASE;
    var i := 1;
    while i < failures && d < RETRY_CAP
      invariant 1 <= i && (i <= failures || i == 1)
      invariant d == RETRY_BASE * Pow2(i - 1) && d < 2 * RETRY_CAP
    {
      d := d * 2;
      i := i + 1;
    }
    if i < failures {
      Pow2Monotone(i - 1, failures - 1);
    }
    d := if d <= RETRY_CAP then d else RETRY_CAP;
  }
}
