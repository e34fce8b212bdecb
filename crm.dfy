/** The CRM integration stepper (`src/services/crmService.ts`): four sub-steps in a fixed
    order, each guarded by a flag of the company's `crm_progress`, which is raised in
    place when the step succeeds.  A failing step aborts the run with its error. */
module CrmSync {
  import opened Base

  datatype SubStep = ContactCreated | CompanyUpdated | NotesAdded | CustomFieldsUpdated

  /** The `subSteps` table, in execution order. */
  const SubSteps: seq<SubStep> := [ContactCreated, CompanyUpdated, NotesAdded, CustomFieldsUpdated]

  /** The position of a sub-step in the table. */
  function Rank(s: SubStep): (r: nat)
    ensures r < |SubSteps| && SubSteps[r] == s
  {
    match s
    case ContactCreated => 0
    case CompanyUpdated => 1
    case NotesAdded => 2
    case CustomFieldsUpdated => 3
  }

  lemma RankOf(i: nat)
    requires i < |SubSteps|
    ensures Rank(SubSteps[i]) == i
  {
    if i == 0 { assert SubSteps[0] == ContactCreated; }
    else if i == 1 { assert SubSteps[1] == CompanyUpdated; }
    else if i == 2 { assert SubSteps[2] == NotesAdded; }
    else { assert SubSteps[3] == CustomFieldsUpdated; }
  }

  /** `progress[name]` is truthy; an absent key reads as `undefined`. */
  predicate Done(flags: map<SubStep, bool>, s: SubStep) {
    s in flags && flags[s]
  }

  /** The flags, the sub-steps executed so far, and the error that aborted the run. */
  datatype Run = Run(flags: map<SubStep, bool>, executed: seq<SubStep>, error: Option<string>)

  /** One iteration of the loop; `exec(s)` is the error sub-step `s` throws, if any. */
  function Step(p: Run, s: SubStep, exec: SubStep -> Option<string>): Run {
    if p.error.Some? || Done(p.flags, s) then p
    else match exec(s)
      case None => p.(flags := p.flags[s := true], executed := p.executed + [s])
      case Some(e) => p.(executed := p.executed + [s], error := Some(e))
  }

  /** The loop over a list of sub-steps. */
  function RunAll(p: Run, steps: seq<SubStep>, exec: SubStep -> Option<string>): Run {
    if steps == [] then p else Step(RunAll(p, steps[..|steps| - 1], exec), steps[|steps| - 1], exec)
  }

  /** The flags of `b` extend those of `a`, and every flag that differs is true. */
  predicate OnlyRaised(a: map<SubStep, bool>, b: map<SubStep, bool>) {
    (forall s :: Done(a, s) ==> Done(b, s))
    && (forall s :: s in b && !(s in a && a[s] == b[s]) ==> b[s])
  }

  lemma {:induction false} RunAllRaisesOnly(p: Run, steps: seq<SubStep>, exec: SubStep -> Option<string>)
    ensures OnlyRaised(p.flags, RunAll(p, steps, exec).flags)
  {
    if steps != [] {
      RunAllRaisesOnly(p, steps[..|steps| - 1], exec);
    }
  }

  /** A sub-step whose flag was set at the start is never executed. */
  lemma {:induction false} RunAllSkipsDone(p: Run, steps: seq<SubStep>, exec: SubStep -> Option<string>)
    ensures var r := RunAll(p, steps, exec);
      forall k :: |p.executed| <= k < |r.executed| ==> r.executed[k] in steps && !Done(p.flags, r.executed[k])
    ensures p.executed <= RunAll(p, steps, exec).executed
  {
    if steps != [] {
      var init := steps[..|steps| - 1];
      RunAllSkipsDone(p, init, exec);
      RunAllRaisesOnly(p, init, exec);
      var q := RunAll(p, init, exec);
      var r := RunAll(p, steps, exec);
      forall k | |p.executed| <= k < |r.executed|
        ensures r.executed[k] in steps && !Done(p.flags, r.executed[k])
      {
        if k < |q.executed| {
          assert r.executed[k] == q.executed[k];
          assert r.executed[k] in init;
        } else {
          assert r.executed[k] == steps[|steps| - 1];
        }
      }
    }
  }

  /** Once a sub-step has thrown, the remaining ones change nothing. */
  lemma {:induction false} ErrorIsFinal(p: Run, steps: seq<SubStep>, exec: SubStep -> Option<string>)
    requires p.error.Some?
    ensures RunAll(p, steps, exec) == p
  {
    if steps != [] {
      ErrorIsFinal(p, steps[..|steps| - 1], exec);
    }
  }

  /** A run that returns normally leaves every sub-step of the list done. */
  lemma {:induction false} RunAllSuccess(p: Run, steps: seq<SubStep>, exec: SubStep -> Option<string>)
    ensures var r := RunAll(p, steps, exec);
      r.error.None? ==> forall k :: 0 <= k < |steps| ==> Done(r.flags, steps[k])
  {
    if steps != [] {
      var init := steps[..|steps| - 1];
      RunAllSuccess(p, init, exec);
      var q := RunAll(p, init, exec);
      var r := RunAll(p, steps, exec);
      if r.error.None? {
        assert q.error.None?;
        forall k | 0 <= k < |steps| ensures Done(r.flags, steps[k]) {
          if k < |init| {
            assert Done(q.flags, init[k]);
          }
        }
      }
    }
  }

  /** An aborted run ends with the sub-step that threw, whose flag stays down. */
  lemma {:induction false} RunAllFailure(p: Run, steps: seq<SubStep>, exec: SubStep -> Option<string>)
    requires p.error.None?
    ensures var r := RunAll(p, steps, exec);
      r.error.Some? ==>
        |r.executed| > |p.executed|
        && exec(r.executed[|r.executed| - 1]) == r.error
        && !Done(r.flags, r.executed[|r.executed| - 1])
  {
    if steps != [] {
      var init := steps[..|steps| - 1];
      var q := RunAll(p, init, exec);
      if q.error.Some? {
        RunAllFailure(p, init, exec);
      } else {
        RunAllSkipsDone(p, init, exec);
      }
    }
  }

  /** Every entry ranks below `n`, and the ranks strictly increase. */
  predicate RanksBelow(ex: seq<SubStep>, n: nat) {
    (forall k :: 0 <= k < |ex| ==> Rank(ex[k]) < n)
    && forall k, l :: 0 <= k < l < |ex| ==> Rank(ex[k]) < Rank(ex[l])
  }

  /** The executed sub-steps appear in table order, each at most once. */
  lemma {:induction false} RunAllInOrder(p: Run, n: nat, exec: SubStep -> Option<string>)
    requires n <= |SubSteps| && p.executed == []
    ensures RanksBelow(RunAll(p, SubSteps[..n], exec).executed, n)
  {
    if n > 0 {
      RunAllInOrder(p, n - 1, exec);
      assert SubSteps[..n][..n - 1] == SubSteps[..n - 1];
      var q := RunAll(p, SubSteps[..n - 1], exec);
      var r := RunAll(p, SubSteps[..n], exec);
      assert r == Step(q, SubSteps[n - 1], exec);
      RankOf(n - 1);
      if r.executed != q.executed {
        RanksSnoc(q.executed, SubSteps[n - 1], n - 1);
      }
    }
  }

  lemma RanksSnoc(ex: seq<SubStep>, x: SubStep, n: nat)
    requires RanksBelow(ex, n) && Rank(x) == n
    ensures RanksBelow(ex + [x], n + 1)
  {
    var e := ex + [x];
    forall k, l | 0 <= k < l < |e| ensures Rank(e[k]) < Rank(e[l]) {
      if l == |ex| { assert e[l] == x && e[k] == ex[k]; }
      else { assert e[l] == ex[l] && e[k] == ex[k]; }
    }
    forall k | 0 <= k < |e| ensures Rank(e[k]) < n + 1 {
      if k == |ex| { assert e[k] == x; } else { assert e[k] == ex[k]; }
    }
  }

  /** A `crm_progress` object, updated in place. */
  class CrmProgress {
    var flags: map<SubStep, bool>

    constructor (flags: map<SubStep, bool>)
      ensures this.flags == flags
    {
      this.flags := flags;
    }
  }

  /** `sendToCRM`: runs the sub-steps over `crm_progress`, or over a fresh empty progress
      object when there is none (which the caller then never sees).  Returns the error
      of the sub-step that threw, and the sub-steps executed. */
  method SendToCrm(progress: Option<CrmProgress>, exec: SubStep -> Option<string>)
    returns (r: Result<()>, executed: seq<SubStep>)
    modifies if progress.Some? then {progress.value} else {}
    ensures var start := if progress.Some? then old(progress.value.flags) else map[];
      var fin := RunAll(Run(start, [], None), SubSteps, exec);
      executed == fin.executed
      && (r.Err? <==> fin.error.Some?)
      && (r.Err? ==> r.message == fin.error.value)
      && (progress.Some? ==> progress.value.flags == fin.flags)
  {
    var p: CrmProgress;
    if progress.Some? {
      p := progress.value;
    } else {
      p := new CrmProgress(map[]);
    }
    ghost var start := p.flags;
    executed := [];
    var i := 0;
    while i < |SubSteps|
      invariant 0 <= i <= |SubSteps|
      invariant progress.Some? ==> p == progress.value
      invariant RunAll(Run(start, [], None), SubSteps[..i], exec) == Run(p.flags, executed, None)
    {
      var s := SubSteps[i];
      RunAllPrefix(Run(start, [], None), SubSteps, i, exec);
      StepCases(p.flags, executed, s, exec);
      if !(s in p.flags && p.flags[s]) {
        var outcome := exec(s);
        executed := executed + [s];
        if outcome.Some? {
          ErrorStops(Run(start, [], None), SubSteps, i + 1, exec);
          return Err(outcome.value), executed;
        }
        p.flags := p.flags[s := true];
      }
      i := i + 1;
    }
    FullPrefix(SubSteps);
    r := Ok(());
  }

  /** One step of a run that has not failed: skipped when done, otherwise executed,
      raising the flag or recording the error. */
  lemma StepCases(flags: map<SubStep, bool>, ex: seq<SubStep>, s: SubStep, exec: SubStep -> Option<string>)
    ensures var q := Step(Run(flags, ex, None), s, exec);
      if s in flags && flags[s] then q == Run(flags, ex, None)
      else if exec(s).None? then q == Run(flags[s := true], ex + [s], None)
      else q == Run(flags, ex + [s], exec(s))
  {
  }

  /** The loop over one more element of a prefix is one more step. */
  lemma RunAllPrefix(p: Run, steps: seq<SubStep>, i: nat, exec: SubStep -> Option<string>)
    requires i < |steps|
    ensures RunAll(p, steps[..i + 1], exec) == Step(RunAll(p, steps[..i], exec), steps[i], exec)
  {
    assert steps[..i + 1][..i] == steps[..i];
  }

  /** Once a prefix of the list has thrown, the loop over the whole list ends as it did. */
  lemma ErrorStops(p: Run, steps: seq<SubStep>, n: nat, exec: SubStep -> Option<string>)
    requires n <= |steps| && RunAll(p, steps[..n], exec).error.Some?
    ensures RunAll(p, steps, exec) == RunAll(p, steps[..n], exec)
  {
    ErrorIsFinal(RunAll(p, steps[..n], exec), steps[n..], exec);
    RunAllConcat(p, steps[..n], steps[n..], exec);
    assert steps[..n] + steps[n..] == steps;
  }

  lemma {:induction false} RunAllConcat(p: Run, a: seq<SubStep>, b: seq<SubStep>, exec: SubStep -> Option<string>)
    ensures RunAll(p, a + b, exec) == RunAll(RunAll(p, a, exec), b, exec)
  {
    if b != [] {
      assert (a + b)[..|a + b| - 1] == a + b[..|b| - 1];
      RunAllConcat(p, a, b[..|b| - 1], exec);
    } else {
      assert a + b == a;
    }
  }

  /** With the stubs as written no sub-step throws: every run completes all four. */
  lemma StubsComplete(flags: map<SubStep, bool>)
    ensures var r := RunAll(Run(flags, [], None), SubSteps, s => None);
      r.error.None? && forall s :: Done(r.flags, s)
  {
    var exec: SubStep -> Option<string> := s => None;
    NoErrorWithStubs(Run(flags, [], None), SubSteps, exec);
    RunAllSuccess(Run(flags, [], None), SubSteps, exec);
    var r := RunAll(Run(flags, [], None), SubSteps, exec);
    forall s ensures Done(r.flags, s) {
      assert SubSteps[Rank(s)] == s;
    }
  }

  lemma {:induction false} NoErrorWithStubs(p: Run, steps: seq<SubStep>, exec: SubStep -> Option<string>)
    requires p.error.None? && forall s :: exec(s).None?
    ensures RunAll(p, steps, exec).error.None?
  {
    if steps != [] {
      NoErrorWithStubs(p, steps[..|steps| - 1], exec);
    }
  }

  /** What a caller of `sendToCRM` can rely on, for starting flags `f`: flags only rise,
      flags already up are skipped, a normal return leaves all four up, and an abort
      names the sub-step that threw, whose flag stays down. */
  lemma SendToCrmGuarantees(f: map<SubStep, bool>, exec: SubStep -> Option<string>)
    ensures var r := RunAll(Run(f, [], None), SubSteps, exec);
      OnlyRaised(f, r.flags)
      && (forall k :: 0 <= k < |r.executed| ==> !Done(f, r.executed[k]))
      && RanksBelow(r.executed, |SubSteps|)
      && (r.error.None? ==> forall s :: Done(r.flags, s))
      && (r.error.Some? ==> r.executed != [] && exec(r.executed[|r.executed| - 1]) == r.error
                            && !Done(r.flags, r.executed[|r.executed| - 1]))
  {
    var p := Run(f, [], None);
    RunAllRaisesOnly(p, SubSteps, exec);
    RunAllSkipsDone(p, SubSteps, exec);
    RunAllSuccess(p, SubSteps, exec);
    RunAllFailure(p, SubSteps, exec);
    RunAllInOrder(p, |SubSteps|, exec);
    FullPrefix(SubSteps);
    var r := RunAll(p, SubSteps, exec);
    if r.error.None? {
      forall s ensures Done(r.flags, s) {
        assert SubSteps[Rank(s)] == s;
      }
    }
  }
}
