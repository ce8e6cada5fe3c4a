// What the cap on the cache costs: exactly when a message is charged more than the
// most it ever reported, and by how much.
module TokenEvictions {
  import opened Wrappers
  import opened TokenCharge
  import opened TokenTheorems

  // What the cache remembers of a message.
  function Known(steps: seq<Step>, id: string, k: Counter): int {
    Get(Previous(After(steps), Some(id)), k)
  }

  predicate Drops(before: Cache, after: Cache, id: string) {
    id in before.peaks && id !in after.peaks
  }

  // All that was forgotten with the evictions of a message.
  function Forgotten(steps: seq<Step>, id: string, k: Counter): int {
    if steps == [] then 0
    else
      var init := steps[..|steps| - 1];
      Forgotten(init, id, k) + if Drops(After(init), After(steps), id) then Known(init, id, k) else 0
  }

  // Step i evicts the message while a counter of it is above zero.
  ghost predicate ForgetsAt(steps: seq<Step>, id: string, k: Counter, i: nat)
    requires i < |steps|
  {
    Drops(After(steps[..i]), After(steps[..i + 1]), id) && Known(steps[..i], id, k) > 0
  }

  ghost predicate Forgets(steps: seq<Step>, id: string, k: Counter) {
    exists i :: 0 <= i < |steps| && ForgetsAt(steps, id, k, i)
  }

  // Step j reports the message with that counter above zero.
  predicate Counts(step: Step, id: string, k: Counter) {
    Reports(step, id) && Get(step.line.report.value.counts, k) > 0
  }

  // The message comes back with a counter that was forgotten.
  ghost predicate ComesBack(steps: seq<Step>, id: string, k: Counter) {
    exists i, j :: 0 <= i < j < |steps| && ForgetsAt(steps, id, k, i) && Counts(steps[j], id, k)
  }

  // ----- one step at a time ------------------------------------------------------------

  lemma LineDropsNothing(cache: Cache, line: SessionLine, id: string)
    ensures !Drops(cache, Record(cache, line), id)
  {
  }

  lemma SamePrefixes(steps: seq<Step>)
    requires steps != []
    ensures forall i :: 0 <= i <= |steps| - 1 ==> steps[..|steps| - 1][..i] == steps[..i]
    ensures steps[..|steps|] == steps
  {
  }

  lemma ForgetsSoFar(steps: seq<Step>, id: string, k: Counter)
    requires steps != []
    ensures Forgets(steps, id, k) <==> Forgets(steps[..|steps| - 1], id, k) || ForgetsAt(steps, id, k, |steps| - 1)
  {
    hide Drops, Known, After;
    var init := steps[..|steps| - 1];
    SamePrefixes(steps);
    assert forall i :: 0 <= i < |init| ==> ForgetsAt(init, id, k, i) == ForgetsAt(steps, id, k, i);
  }

  lemma ComesBackSoFar(steps: seq<Step>, id: string, k: Counter)
    requires steps != []
    ensures
      var init, step := steps[..|steps| - 1], steps[|steps| - 1];
      ComesBack(steps, id, k) <==> ComesBack(init, id, k) || (Forgets(init, id, k) && Counts(step, id, k))
  {
    hide Drops, Known, After, Counts;
    var init, step := steps[..|steps| - 1], steps[|steps| - 1];
    SamePrefixes(steps);
    assert forall i :: 0 <= i < |init| ==>
      ForgetsAt(init, id, k, i) == ForgetsAt(steps, id, k, i) && init[i] == steps[i];
  }

  lemma {:induction false} KnownIsNotNegative(steps: seq<Step>, id: string, k: Counter)
    ensures Known(steps, id, k) >= 0
  {
    NeverUndercharged(steps, id);
  }

  lemma {:induction false} ForgottenWhatWasThere(steps: seq<Step>, id: string, k: Counter)
    ensures Forgotten(steps, id, k) >= 0
    ensures Forgotten(steps, id, k) > 0 <==> Forgets(steps, id, k)
  {
    if steps != [] {
      hide Known, After, Drops;
      ForgottenWhatWasThere(steps[..|steps| - 1], id, k);
      KnownIsNotNegative(steps[..|steps| - 1], id, k);
      ForgetsSoFar(steps, id, k);
      SamePrefixes(steps);
    }
  }

  // What a report does to the sums, counter by counter.
  lemma ReportStep(steps: seq<Step>, id: string, k: Counter)
    requires steps != [] && Reports(steps[|steps| - 1], id)
    ensures
      var init, count := steps[..|steps| - 1], Get(steps[|steps| - 1].line.report.value.counts, k);
      && Known(steps, id, k) == Larger(count, Known(init, id, k))
      && Get(Peak(steps, id), k) == Larger(count, Get(Peak(init, id), k))
      && Get(Charged(steps, id), k) == Get(Charged(init, id), k) + Larger(count - Known(init, id, k), 0)
      && Forgotten(steps, id, k) == Forgotten(init, id, k)
  {
    LineDropsNothing(After(steps[..|steps| - 1]), steps[|steps| - 1].line, id);
  }

  lemma TrimmedKeeps(cache: Cache, id: string)
    ensures Drops(cache, Trimmed(cache), id) ==> Previous(Trimmed(cache), Some(id)) == NO_USAGE
    ensures !Drops(cache, Trimmed(cache), id) ==> Previous(Trimmed(cache), Some(id)) == Previous(cache, Some(id))
  {
  }

  lemma LostKeeps(cache: Cache, id: string)
    ensures Previous(EMPTY_CACHE, Some(id)) == NO_USAGE
    ensures !Drops(cache, EMPTY_CACHE, id) ==> Previous(cache, Some(id)) == NO_USAGE
  {
  }

  // Any other step charges nothing; an eviction moves what was known to what is
  // forgotten.
  lemma OtherStep(steps: seq<Step>, id: string, k: Counter)
    requires steps != [] && !Reports(steps[|steps| - 1], id)
    ensures
      var init := steps[..|steps| - 1];
      && Peak(steps, id) == Peak(init, id) && Charged(steps, id) == Charged(init, id)
      && Known(steps, id, k) + Forgotten(steps, id, k) == Known(init, id, k) + Forgotten(init, id, k)
      && (Known(steps, id, k) == Known(init, id, k) || Known(steps, id, k) == 0)
  {
    var init, step := steps[..|steps| - 1], steps[|steps| - 1];
    hide Trimmed, Drops;
    match step
    case Line(line) => LineDropsNothing(After(init), line, id);
    case Trim => TrimmedKeeps(After(init), id);
    case Lost => LostKeeps(After(init), id);
  }

  // ----- exactly when, and by how much -------------------------------------------------

  // A counter is charged what was forgotten of it and what is known of it.
  lemma {:induction false} ChargedIsForgottenAndKnown(steps: seq<Step>, id: string, k: Counter)
    ensures Get(Charged(steps, id), k) == Forgotten(steps, id, k) + Known(steps, id, k)
  {
    if steps != [] {
      hide Known, Charged, Forgotten, Get, Reports;
      ChargedIsForgottenAndKnown(steps[..|steps| - 1], id, k);
      if Reports(steps[|steps| - 1], id) {
        ReportStep(steps, id, k);
      } else {
        OtherStep(steps, id, k);
      }
    } else {
      assert Known(steps, id, k) == 0;
    }
  }

  // The peak was forgotten, or is known.
  lemma {:induction false} PeakIsForgottenOrKnown(steps: seq<Step>, id: string, k: Counter)
    ensures Get(Peak(steps, id), k) <= Larger(Forgotten(steps, id, k), Known(steps, id, k))
  {
    if steps != [] {
      hide Known, Peak, Forgotten, Get, Reports, Forgets;
      var init := steps[..|steps| - 1];
      PeakIsForgottenOrKnown(init, id, k);
      KnownIsNotNegative(init, id, k);
      KnownIsNotNegative(steps, id, k);
      ForgottenWhatWasThere(init, id, k);
      ForgottenWhatWasThere(steps, id, k);
      if Reports(steps[|steps| - 1], id) {
        ReportStep(steps, id, k);
      } else {
        OtherStep(steps, id, k);
      }
    }
  }

  lemma Undercharged(steps: seq<Step>, id: string, k: Counter)
    ensures Get(Peak(steps, id), k) <= Get(Charged(steps, id), k)
  {
    NeverUndercharged(steps, id);
  }

  // A counter of a message is charged more than the most it ever reported if and only
  // if the message is evicted while the counter is above zero and later reports it
  // above zero again.
  lemma {:induction false} OverchargedIffItComesBack(steps: seq<Step>, id: string, k: Counter)
    ensures Get(Charged(steps, id), k) > Get(Peak(steps, id), k) <==> ComesBack(steps, id, k)
  {
    if steps != [] {
      hide Known, Peak, Charged, Forgotten, Get, Forgets, ComesBack, Reports;
      var init, step := steps[..|steps| - 1], steps[|steps| - 1];
      OverchargedIffItComesBack(init, id, k);
      ComesBackSoFar(steps, id, k);
      Undercharged(init, id, k);
      ChargedIsForgottenAndKnown(init, id, k);
      PeakIsForgottenOrKnown(init, id, k);
      KnownIsNotNegative(init, id, k);
      ForgottenWhatWasThere(init, id, k);
      if Reports(step, id) {
        ReportStep(steps, id, k);
      } else {
        OtherStep(steps, id, k);
      }
    }
  }

  // So a message is charged once, all in all, if and only if none of its counters
  // comes back.
  lemma ChargedOnceIfNoneComesBack(steps: seq<Step>, id: string)
    ensures Charged(steps, id) == Peak(steps, id) <==> forall k :: !ComesBack(steps, id, k)
  {
    hide Charged, Peak, ComesBack;
    forall k: Counter
      ensures ComesBack(steps, id, k) <==> Get(Charged(steps, id), k) != Get(Peak(steps, id), k)
    {
      OverchargedIffItComesBack(steps, id, k);
      Undercharged(steps, id, k);
    }
    if forall k :: !ComesBack(steps, id, k) {
      SameCounters(Charged(steps, id), Peak(steps, id));
    }
  }

  lemma SameCounters(u: Usage, v: Usage)
    requires forall k :: Get(u, k) == Get(v, k)
    ensures u == v
  {
    assert Get(u, Input) == Get(v, Input) && Get(u, CacheWrite) == Get(v, CacheWrite);
    assert Get(u, CacheRead) == Get(v, CacheRead) && Get(u, Output) == Get(v, Output);
  }

  // ----- it happens ----------------------------------------------------------------------

  predicate Identified(step: Step) {
    step.Line? && step.line.recent && step.line.report.Some? && step.line.report.value.id.Some?
  }

  function IdOf(step: Step): string {
    if Identified(step) then step.line.report.value.id.value else ""
  }

  function IdsOf(steps: seq<Step>): seq<string> {
    seq(|steps|, i requires 0 <= i < |steps| => IdOf(steps[i]))
  }

  // Lines that report one new message each.
  ghost predicate Introduce(cache: Cache, others: seq<Step>) {
    && (forall i :: 0 <= i < |others| ==> Identified(others[i]) && IdOf(others[i]) !in cache.peaks)
    && NoDuplicates(IdsOf(others))
  }

  lemma AllButTheLast(cache: Cache, others: seq<Step>)
    requires Introduce(cache, others) && others != []
    ensures
      var init, last := others[..|others| - 1], others[|others| - 1];
      && Introduce(cache, init) && Identified(last) && IdOf(last) !in cache.peaks
      && IdsOf(others) == IdsOf(init) + [IdOf(last)] && IdOf(last) !in IdsOf(init)
  {
    var init, ids := others[..|others| - 1], IdsOf(others);
    assert ids == IdsOf(init) + [ids[|init|]];
    assert forall i :: 0 <= i < |init| ==> IdsOf(init)[i] == ids[i];
  }

  lemma RecordsNew(cache: Cache, step: Step)
    requires Identified(step) && IdOf(step) !in cache.peaks
    ensures Apply(cache, step).order == cache.order + [IdOf(step)]
    ensures forall j :: j in Apply(cache, step).peaks <==> j in cache.peaks || j == IdOf(step)
    ensures forall j :: j in cache.peaks ==> Apply(cache, step).peaks[j] == cache.peaks[j]
  {
  }

  lemma {:induction false} NewIdsLineUp(steps: seq<Step>, others: seq<Step>)
    requires Introduce(After(steps), others)
    ensures After(steps + others).order == After(steps).order + IdsOf(others)
    ensures forall j :: j in After(steps + others).peaks <==> j in After(steps).peaks || j in IdsOf(others)
    ensures forall j :: j in After(steps).peaks ==> After(steps + others).peaks[j] == After(steps).peaks[j]
  {
    if others == [] {
      assert steps + others == steps;
    } else {
      hide After;
      var init, last := others[..|others| - 1], others[|others| - 1];
      AllButTheLast(After(steps), others);
      hide Introduce, IdOf;
      NewIdsLineUp(steps, init);
      OneMore(steps + init, last);
      assert steps + others == steps + init + [last];
      RecordsNew(After(steps + init), last);
    }
  }

  // Enough new messages push an old one out at the next trim.
  lemma TrimForgets(steps: seq<Step>, others: seq<Step>, id: string)
    requires Introduce(After(steps), others) && |others| == USAGE_BY_ID_CAP && id in After(steps).peaks
    ensures Drops(After(steps + others), After(steps + others + [Trim]), id)
  {
    hide After;
    var cache := After(steps + others);
    NewIdsLineUp(steps, others);
    CacheStaysValid(steps);
    OneMore(steps + others, Trim);
    assert cache.order[|cache.order| - USAGE_BY_ID_CAP..] == IdsOf(others);
    assert id !in IdsOf(others);
  }

  // After any history in which a counter of a message is above zero: as many new
  // messages as the cap, a trim, and the message again, and it is charged too much.
  lemma ManyMessagesOvercharge(steps: seq<Step>, others: seq<Step>, again: Step, id: string, k: Counter)
    requires Known(steps, id, k) > 0 && Counts(again, id, k)
    requires Introduce(After(steps), others) && |others| == USAGE_BY_ID_CAP
    ensures
      var all := steps + others + [Trim] + [again];
      Get(Charged(all, id), k) > Get(Peak(all, id), k)
  {
    hide After, Counts, Charged, Peak;
    var n, all := |steps + others|, steps + others + [Trim] + [again];
    assert all[..n] == steps + others && all[..n + 1] == steps + others + [Trim] && all[n + 1] == again;
    TrimForgets(steps, others, id);
    NewIdsLineUp(steps, others);
    assert ForgetsAt(all, id, k, n);
    OverchargedIffItComesBack(all, id, k);
  }

  function Reported(id: string, counts: Usage): Step {
    Reporting(ByAssistant, id, counts)
  }

  function Name(i: nat): string {
    seq(i, _ => 'x')
  }

  function Others(counts: Usage): seq<Step> {
    seq(USAGE_BY_ID_CAP, (i: nat) => Reported(Name(i + 1), counts))
  }

  lemma OthersAreNew(counts: Usage, cache: Cache)
    requires forall id :: id in cache.peaks ==> id == Name(0)
    ensures Introduce(cache, Others(counts)) && |Others(counts)| == USAGE_BY_ID_CAP
  {
    var others := Others(counts);
    assert forall i :: 0 <= i < |others| ==> IdsOf(others)[i] == Name(i + 1) && |Name(i + 1)| == i + 1;
  }

  // Such a history: a message, as many others, a trim, and the same message.
  lemma OverchargedRun(counts: Usage, k: Counter)
    requires Get(counts, k) > 0
    ensures
      var others := Others(counts);
      var all := [Reported(Name(0), counts)] + others + [Trim] + [Reported(Name(0), counts)];
      Get(Charged(all, Name(0)), k) > Get(Peak(all, Name(0)), k)
  {
    var none: seq<Step> := [];
    var once := none + [Reported(Name(0), counts)];
    hide Others, Introduce, Charged, Peak;
    OneMore(none, Reported(Name(0), counts));
    OthersAreNew(counts, After(once));
    ManyMessagesOvercharge(once, Others(counts), Reported(Name(0), counts), Name(0), k);
  }
}
