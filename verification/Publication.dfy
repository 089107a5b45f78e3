/** Descriptor and locator windows of a published generation
    (pkg/directory/generation_publication.go), and the checks the activation makes on them
    (pkg/directory/https_publication.go).  Instants are nanoseconds, windows whole seconds. */
module Publication {
  import opened Foundation

  const MINUTE: nat := 60 * SECOND
  const HOUR: nat := 3600 * SECOND
  const DAY_SECONDS: nat := 86400
  const MAX_DESCRIPTOR_LIFETIME: nat := 7 * DAY_SECONDS
  const MAX_DELEGATION_LIFETIME: nat := 365 * DAY_SECONDS
  const MAX_BUNDLE_LIFETIME: nat := 30 * DAY_SECONDS
  const MIN_SESSION_LIFETIME: nat := 60
  const MAX_SESSION_LIFETIME: nat := 30 * DAY_SECONDS

  /** The policy's lifetime in seconds, the publish interval, and the delegation's window with the
      longest session it allows. */
  datatype Publisher = Publisher(maxLifetime: nat, interval: nat, notBefore: nat, delegationEnd: nat, session: nat)

  datatype Generation = Generation(issued: nat, expires: nat)

  datatype Window = Window(issued: nat, descriptorExpiry: nat, locatorExpiry: nat)

  /** How far apart descriptor issue times lie. */
  function Step(maxLifetime: nat): nat {
    maxLifetime / 2
  }

  /** The part of Validate that bounds times. */
  predicate ValidTimes(maxLifetime: nat, interval: nat) {
    && 0 < maxLifetime <= MAX_DESCRIPTOR_LIFETIME
    && MINUTE <= interval <= HOUR
    && MINUTE <= Step(maxLifetime) * SECOND
    && interval <= Step(maxLifetime) * SECOND
  }

  /** validateWindowFields of the delegation, which Validate reaches through its digest. */
  predicate ValidDelegation(p: Publisher) {
    && 0 < p.notBefore < p.delegationEnd <= p.notBefore + MAX_DELEGATION_LIFETIME
    && MIN_SESSION_LIFETIME <= p.session <= MAX_SESSION_LIFETIME && p.session <= p.delegationEnd - p.notBefore
  }

  predicate Configured(p: Publisher) {
    ValidTimes(p.maxLifetime, p.interval) && ValidDelegation(p)
  }

  /** Prekey bundles, and so the generations made of them, last no longer than this. */
  predicate Bounded(g: Generation) {
    g.expires <= g.issued + MAX_BUNDLE_LIFETIME
  }

  predicate InGeneration(g: Generation, t: nat) {
    0 < g.issued <= t < g.expires
  }

  /** Where the descriptor of second `t` starts: its bucket, or the generation if that is later. */
  function Start(maxLifetime: nat, g: Generation, t: nat): nat
    requires Step(maxLifetime) > 0
  {
    var bucket := t / Step(maxLifetime) * Step(maxLifetime);
    if bucket < g.issued then g.issued else bucket
  }

  /** The windows Publish computes at second `t`; None where it refuses already. */
  function Plan(p: Publisher, g: Generation, t: nat): Option<Window>
    requires Step(p.maxLifetime) > 0
  {
    if !InGeneration(g, t) then None
    else
      var issued := Start(p.maxLifetime, g, t);
      var descriptorExpiry := Min(Min(g.expires, issued + p.maxLifetime), p.delegationEnd);
      if descriptorExpiry <= t then None
      else Some(Window(issued, descriptorExpiry, Min(issued + DAY_SECONDS, descriptorExpiry)))
  }

  /** CheckWindow of the delegation. */
  predicate InDelegation(p: Publisher, t: nat) {
    p.notBefore <= t < p.delegationEnd
  }

  /** The times at which Bind and VerifyLocator admit the signed objects. */
  predicate Admitted(p: Publisher, w: Window, t: nat) {
    InDelegation(p, t) && w.issued <= t < w.descriptorExpiry && w.issued <= t < w.locatorExpiry
  }

  /** What Publish at second `t` publishes, as far as times decide it. */
  function Publish(p: Publisher, g: Generation, t: nat): Option<Window> {
    if !Configured(p) then None
    else
      match Plan(p, g, t)
      case None => None
      case Some(w) => if Admitted(p, w, t) then Some(w) else None
  }

  lemma BucketBounds(t: nat, step: nat)
    requires step > 0
    ensures t / step * step <= t < t / step * step + step
  {
    assert t == t / step * step + t % step;
  }

  /** The published locator window lies inside the descriptor window, that inside the generation
      and the delegation; both cover the time of publication and keep to their longest lifetimes. */
  lemma WindowsNested(p: Publisher, g: Generation, t: nat)
    requires Publish(p, g, t).Some?
    ensures var w := Publish(p, g, t).value;
            && g.issued <= w.issued <= t < w.locatorExpiry <= w.descriptorExpiry <= g.expires
            && w.descriptorExpiry <= p.delegationEnd && p.notBefore <= t
            && w.descriptorExpiry - w.issued <= p.maxLifetime
            && w.locatorExpiry - w.issued <= DAY_SECONDS
  {
    BucketBounds(t, Step(p.maxLifetime));
  }

  /** The windows before the activation's checks: the descriptor always covers the publication. */
  lemma PlanExactly(p: Publisher, g: Generation, t: nat)
    requires Step(p.maxLifetime) > 0
    ensures Plan(p, g, t).Some? <==> InGeneration(g, t) && t < p.delegationEnd
    ensures Plan(p, g, t).Some? ==> Plan(p, g, t).value.issued <= t < Plan(p, g, t).value.descriptorExpiry
  {
    BucketBounds(t, Step(p.maxLifetime));
    assert p.maxLifetime >= 2 * Step(p.maxLifetime);
  }

  /** Publish succeeds exactly for a valid publisher, inside the generation and the delegation and
      less than a day after its descriptor starts. */
  lemma PublishesExactly(p: Publisher, g: Generation, t: nat)
    ensures Publish(p, g, t).Some? <==>
            Configured(p) && InGeneration(g, t) && InDelegation(p, t) && t < Start(p.maxLifetime, g, t) + DAY_SECONDS
  {
    if Configured(p) {
      PlanExactly(p, g, t);
    }
  }

  /** Two publications in one bucket compute the same windows. */
  lemma SameBucket(p: Publisher, g: Generation, t: nat, u: nat)
    requires Publish(p, g, t).Some? && Publish(p, g, u).Some? && t / Step(p.maxLifetime) == u / Step(p.maxLifetime)
    ensures Publish(p, g, t) == Publish(p, g, u)
  {
  }

  // ------------------------------------------------------------------- refused publications

  lemma LateInBucket(step: nat, late: nat)
    requires 0 < step && late < step
    ensures (step + late) / step == 1
  {
    BucketBounds(step + late, step);
    var q := (step + late) / step;
    assert q >= 2 ==> q * step >= 2 * step;
    assert q <= 0 ==> q * step <= 0;
  }

  /** A publisher whose delegation lasts the longest, and the longest generation, both from second
      one. */
  function LongPublisher(maxLifetime: nat, interval: nat): (p: Publisher)
    ensures ValidDelegation(p)
  {
    Publisher(maxLifetime, interval, 1, 1 + MAX_DELEGATION_LIFETIME, DAY_SECONDS)
  }

  const LONG: Generation := Generation(1, 1 + MAX_BUNDLE_LIFETIME)

  /** `late` seconds into the second bucket of a generation and delegation that started early. */
  lemma LatePlan(maxLifetime: nat, interval: nat, late: nat)
    requires ValidTimes(maxLifetime, interval) && late < Step(maxLifetime)
    ensures var p, t := LongPublisher(maxLifetime, interval), Step(maxLifetime) + late;
            && Configured(p) && Bounded(LONG) && InGeneration(LONG, t) && InDelegation(p, t)
            && Start(maxLifetime, LONG, t) == Step(maxLifetime)
            && (Publish(p, LONG, t).Some? <==> late < DAY_SECONDS)
            && (Publish(p, LONG, t).Some? ==> Publish(p, LONG, t).value.locatorExpiry <= Step(maxLifetime) + DAY_SECONDS)
  {
    LateInBucket(Step(maxLifetime), late);
    PublishesExactly(LongPublisher(maxLifetime, interval), LONG, Step(maxLifetime) + late);
  }

  /** A valid publisher with these times. */
  ghost predicate Of(p: Publisher, maxLifetime: nat, interval: nat) {
    p.maxLifetime == maxLifetime && p.interval == interval && Configured(p)
  }

  /** Publication succeeds whenever it is due, inside generation and delegation. */
  ghost predicate NeverRefused(p: Publisher, g: Generation, t: nat) {
    InGeneration(g, t) && InDelegation(p, t) ==> Publish(p, g, t).Some?
  }

  /** That holds for every valid publisher with these times, every generation and every second
      exactly when half the lifetime is at most a day; a longer policy has seconds at which nothing
      can be published. */
  lemma NeverRefusedExactly(maxLifetime: nat, interval: nat)
    requires ValidTimes(maxLifetime, interval)
    ensures (forall p, g, t: nat :: Of(p, maxLifetime, interval) && Bounded(g) ==> NeverRefused(p, g, t))
            <==> Step(maxLifetime) <= DAY_SECONDS
  {
    var step := Step(maxLifetime);
    if step <= DAY_SECONDS {
      forall p, g, t: nat | Of(p, maxLifetime, interval) && Bounded(g) ensures NeverRefused(p, g, t) {
        BucketBounds(t, step);
        PublishesExactly(p, g, t);
      }
    } else {
      LatePlan(maxLifetime, interval, DAY_SECONDS);
      var p := LongPublisher(maxLifetime, interval);
      assert Of(p, maxLifetime, interval) && Bounded(LONG) && !NeverRefused(p, LONG, step + DAY_SECONDS);
    }
  }

  // ------------------------------------------------------------------------- coverage

  /** Both objects of a published pair are unexpired. */
  ghost predicate Live(w: Window, later: nat) {
    Unix(later) < w.descriptorExpiry && Unix(later) < w.locatorExpiry
  }

  /** What is published at `instant` stays unexpired until the next publication is due, unless the
      generation or the delegation ends first. */
  ghost predicate Covers(p: Publisher, g: Generation, instant: nat) {
    Publish(p, g, Unix(instant)).Some? ==>
      forall later :: instant <= later <= instant + p.interval && Unix(later) < Min(g.expires, p.delegationEnd) ==>
        Live(Publish(p, g, Unix(instant)).value, later)
  }

  lemma SecondsBound(instant: nat, later: nat, span: nat, cap: nat)
    requires instant <= later <= instant + span && span <= cap * SECOND
    ensures Unix(later) <= Unix(instant) + cap
  {
  }

  lemma SecondsAfter(later: nat, bound: nat)
    requires later < bound * SECOND
    ensures Unix(later) < bound
  {
  }

  lemma SecondsFrom(instant: nat, bound: nat)
    requires bound * SECOND <= instant
    ensures bound <= Unix(instant)
  {
  }

  /** With half the lifetime and the interval within a day, every publication covers its interval. */
  lemma Coverage(p: Publisher, g: Generation, instant: nat)
    requires Step(p.maxLifetime) * SECOND + p.interval <= DAY_SECONDS * SECOND
    ensures Covers(p, g, instant)
  {
    var t, step := Unix(instant), Step(p.maxLifetime);
    if Publish(p, g, t).Some? {
      BucketBounds(t, step);
      var w := Publish(p, g, t).value;
      var start := t / step * step;
      forall later | instant <= later <= instant + p.interval && Unix(later) < Min(g.expires, p.delegationEnd)
        ensures Live(w, later)
      {
        SecondsBound(instant, later, p.interval, step);
        assert instant < (start + step) * SECOND;
        SecondsAfter(later, start + DAY_SECONDS);
      }
    }
  }

  /** Without it, something is published that expires before the next publication is due: at the
      last second of a bucket, or the last one at which its locator can still be published. */
  lemma CoverageFails(maxLifetime: nat, interval: nat)
    requires ValidTimes(maxLifetime, interval)
    requires Step(maxLifetime) * SECOND + interval > DAY_SECONDS * SECOND
    ensures exists p, g, instant: nat ::
              Of(p, maxLifetime, interval) && Bounded(g) && Publish(p, g, Unix(instant)).Some? && !Covers(p, g, instant)
  {
    var step := Step(maxLifetime);
    var late := Min(step, DAY_SECONDS) - 1;
    var p := LongPublisher(maxLifetime, interval);
    var instant := (step + late + 1) * SECOND - 1;
    var later := instant + interval;
    SecondsAfter(instant, step + late + 1);
    SecondsFrom(instant, step + late);
    LatePlan(maxLifetime, interval, late);
    SecondsFrom(later, step + DAY_SECONDS);
    SecondsAfter(later, step + late + 1 + 3600);
    assert !Live(Publish(p, LONG, Unix(instant)).value, later);
    assert Of(p, maxLifetime, interval) && Publish(p, LONG, Unix(instant)).Some? && !Covers(p, LONG, instant);
  }

  /** The condition is exact. */
  lemma CoverageExactly(maxLifetime: nat, interval: nat)
    requires ValidTimes(maxLifetime, interval)
    ensures (forall p, g, instant: nat :: Of(p, maxLifetime, interval) && Bounded(g) ==> Covers(p, g, instant)) <==>
            Step(maxLifetime) * SECOND + interval <= DAY_SECONDS * SECOND
  {
    if Step(maxLifetime) * SECOND + interval <= DAY_SECONDS * SECOND {
      forall p, g, instant: nat | Of(p, maxLifetime, interval) && Bounded(g) ensures Covers(p, g, instant) {
        Coverage(p, g, instant);
      }
    } else {
      CoverageFails(maxLifetime, interval);
    }
  }

  /** Successive publications, each no later than an interval after the one before. */
  ghost predicate Schedule(p: Publisher, instants: seq<nat>) {
    forall i :: 0 <= i < |instants| - 1 ==> instants[i] <= instants[i + 1] <= instants[i] + p.interval
  }

  /** From the first publication on, until an interval after the last, some publication succeeded
      and both its objects are unexpired. */
  lemma {:induction false} ScheduleCovers(p: Publisher, g: Generation, instants: seq<nat>, later: nat)
    requires Configured(p) && Step(p.maxLifetime) * SECOND + p.interval <= DAY_SECONDS * SECOND
    requires |instants| > 0 && Schedule(p, instants)
    requires 0 < g.issued <= Unix(instants[0]) && p.notBefore <= Unix(instants[0])
    requires instants[0] <= later <= instants[|instants| - 1] + p.interval
    requires Unix(later) < Min(g.expires, p.delegationEnd)
    ensures exists i :: 0 <= i < |instants| && instants[i] <= later && Publish(p, g, Unix(instants[i])).Some?
                        && Live(Publish(p, g, Unix(instants[i])).value, later)
  {
    var last := |instants| - 1;
    if later < instants[last] {
      var front := instants[..last];
      ScheduleCovers(p, g, front, later);
      var i :| 0 <= i < |front| && front[i] <= later && Publish(p, g, Unix(front[i])).Some?
               && Live(Publish(p, g, Unix(front[i])).value, later);
      assert instants[i] == front[i];
    } else {
      ScheduleGrows(p, instants, last);
      var t := Unix(instants[last]);
      assert Unix(instants[0]) <= t <= Unix(later);
      BucketBounds(t, Step(p.maxLifetime));
      assert Step(p.maxLifetime) <= DAY_SECONDS;
      PublishesExactly(p, g, t);
      Coverage(p, g, instants[last]);
    }
  }

  lemma {:induction false} ScheduleGrows(p: Publisher, instants: seq<nat>, i: nat)
    requires Schedule(p, instants) && i < |instants|
    ensures instants[0] <= instants[i]
  {
    if i > 0 {
      ScheduleGrows(p, instants, i - 1);
      assert instants[i - 1] <= instants[i - 1 + 1];
    }
  }
}
