/** The adaptive loop of benchmark/internal/experiment that collects independent cold runs. What the
    services do in each attempt is arbitrary. */
module IndependentRuns {
  import opened Records
  import opened Reals
  import opened Sorting
  import opened Quantile
  import opened Summary
  import opened Results

  /** One attempt: whether the reset and the warm-up get through, what the readiness probe answers, the
      index temperature when the state can be fetched, and the measurement when the probe succeeds. */
  datatype Attempt = Attempt(resetOK: bool, warmupOK: bool, readyz: bool, indexCold: Option<bool>, probe: Option<Probe>)

  type World = nat -> Attempt

  predicate ValidPreProbe(name: Scenario, indexCold: bool, readyOK: bool) {
    match name
    case S0Control => indexCold
    case SRef => !indexCold
    case SDw => readyOK && !indexCold
    case Overhead(_) => true
  }

  predicate Fatal(a: Attempt) {
    !a.resetOK || !a.warmupOK
  }

  /** A scenario's attempts: only some track readiness. */
  datatype Plan = Plan(name: Scenario, trackReady: bool)

  predicate Measured(p: Plan, a: Attempt) {
    a.indexCold.Some? && ValidPreProbe(p.name, a.indexCold.value, p.trackReady && a.readyz) && a.probe.Some?
  }

  function Record(p: Plan, a: Attempt, runIndex: nat, attempt: nat): RunRecord
    requires Measured(p, a)
  {
    RunRecord(runIndex, attempt, a.probe.value, a.indexCold.value, p.trackReady && a.readyz)
  }

  /** The valid records among the attempts 1 to k. */
  function Valid(p: Plan, world: World, k: nat): seq<RunRecord> {
    if k == 0 then []
    else
      var before, a := Valid(p, world, k - 1), world(k);
      if Measured(p, a) then before + [Record(p, a, |before| + 1, k)] else before
  }

  function Workload(r: RunRecord): real {
    r.probe.workloadNs as real
  }

  function Workloads(records: seq<RunRecord>): seq<real> {
    Map(Workload, records)
  }

  function E2E(r: RunRecord): real {
    r.probe.e2eNs as real
  }

  function E2Es(records: seq<RunRecord>): seq<real> {
    Map(E2E, records)
  }

  function MaxValid(m: Manifest): nat {
    if m.profileOnHighCV then m.maxRuns else m.runs
  }

  predicate PassesCV(m: Manifest, p: Plan, records: seq<RunRecord>) {
    CvPass(Workloads(records), m.CVThresholdForScenario(p.name))
  }

  type Verdict = seq<RunRecord> -> bool

  function PassCV(m: Manifest, p: Plan): Verdict {
    (records: seq<RunRecord>) => PassesCV(m, p, records)
  }

  /** The stopping rule, for any verdict on the records. */
  predicate Enough(m: Manifest, pass: Verdict, records: seq<RunRecord>) {
    |records| >= m.runs && (pass(records) || |records| >= MaxValid(m) || !m.profileOnHighCV)
  }

  datatype Outcome = Collected(res: Result) | NoValidRuns | Aborted

  /** A result that says of its records what is true of them. */
  ghost predicate Reports(m: Manifest, p: Plan, res: Result, rng: Source) {
    && res.scenario == p.name && res.values == Workloads(res.runs)
    && res.e2eValues == E2Es(res.runs) && Summarizes(res.e2eSummary, res.e2eValues, rng)
    && Built(res, m.CVThresholdForScenario(p.name), rng)
  }

  ghost predicate NotYet(m: Manifest, p: Plan, pass: Verdict, world: World, k: nat) {
    && (forall j: nat :: j < k ==> !Enough(m, pass, Valid(p, world, j)))
    && (forall j: nat :: 1 <= j <= k ==> !Fatal(world(j)))
  }

  lemma OneMoreAttempt(m: Manifest, p: Plan, pass: Verdict, world: World, k: nat, attempt: nat)
    requires attempt == k + 1 && NotYet(m, p, pass, world, k)
    requires !Enough(m, pass, Valid(p, world, k)) && !Fatal(world(attempt))
    ensures NotYet(m, p, pass, world, attempt)
    ensures var before := Valid(p, world, k);
            if Measured(p, world(attempt))
            then var rec := Record(p, world(attempt), |before| + 1, attempt);
                 && Valid(p, world, attempt) == before + [rec]
                 && Workloads(before + [rec]) == Workloads(before) + [rec.probe.workloadNs as real]
                 && E2Es(before + [rec]) == E2Es(before) + [rec.probe.e2eNs as real]
            else Valid(p, world, attempt) == before
  {
    var before := Valid(p, world, k);
    if Measured(p, world(attempt)) {
      var rec := Record(p, world(attempt), |before| + 1, attempt);
      assert Workloads(before + [rec]) == Workloads(before) + [Workload(rec)];
      assert E2Es(before + [rec]) == E2Es(before) + [E2E(rec)];
    }
  }

  lemma NothingYet(m: Manifest, p: Plan, pass: Verdict, world: World)
    requires m.Loaded()
    ensures NotYet(m, p, pass, world, 0) && Valid(p, world, 0) == [] && Workloads([]) == [] && E2Es([]) == []
    ensures !Enough(m, pass, [])
  {
  }

  lemma TooFew(m: Manifest, pass: Verdict, records: seq<RunRecord>)
    requires |records| < m.runs
    ensures !Enough(m, pass, records)
  {
  }

  /** The test that the loop makes on a fresh result is the stopping rule. */
  lemma VerdictDecides(m: Manifest, p: Plan, res: Result, rng: Source)
    requires Reports(m, p, res, rng) && m.Loaded() && |res.runs| >= m.runs
    ensures Enough(m, PassCV(m, p), res.runs) <==> res.cvPass || |res.runs| >= MaxValid(m) || !m.profileOnHighCV
  {
  }

  method Report(m: Manifest, p: Plan, records: seq<RunRecord>, values: seq<real>, e2e: seq<real>, rng: Source)
    returns (res: Result)
    requires Seeded(rng) && values == Workloads(records) && e2e == E2Es(records)
    ensures res.runs == records && Reports(m, p, res, rng)
  {
    hide Summarizes, CvPass;
    res := BuildResult(p.name, records, values, e2e, m, rng);
  }

  /** One attempt that got through to the probe: the record it yields, unless it is skipped. */
  method Measure(p: Plan, a: Attempt, runIndex: nat, attempt: nat) returns (rec: Option<RunRecord>)
    ensures rec == if Measured(p, a) then Some(Record(p, a, runIndex, attempt)) else None
  {
    var readyOK := false;
    if p.trackReady {
      readyOK := a.readyz;
    }
    if a.indexCold.None? || !ValidPreProbe(p.name, a.indexCold.value, readyOK) || a.probe.None? {
      return None;
    }
    rec := Some(RunRecord(runIndex, attempt, a.probe.value, a.indexCold.value, readyOK));
  }

  /** Either some attempt was fatal before there was enough, or all permitted attempts measured nothing, or the
      result reports the shortest sufficient prefix of what all permitted attempts would have measured. */
  method RunIndependent(m: Manifest, p: Plan, world: World, rng: Source) returns (out: Outcome, ghost used: nat)
    requires m.Loaded() && Seeded(rng)
    ensures used <= m.MaxAttempts() && NotYet(m, p, PassCV(m, p), world, used)
    ensures used <= 2 * if m.profileOnHighCV then m.maxRuns else m.runs
    ensures forall k :: 1 <= k <= used ==> world(k).resetOK && world(k).warmupOK
    ensures out.Aborted? ==> used < m.MaxAttempts() && !(world(used + 1).resetOK && world(used + 1).warmupOK)
    ensures out.Aborted? ==> !Enough(m, PassCV(m, p), Valid(p, world, used))
    ensures out.NoValidRuns? ==> used == m.MaxAttempts() && Valid(p, world, used) == []
    ensures out.Collected? ==> out.res.runs == Valid(p, world, used) != [] && Reports(m, p, out.res, rng)
    ensures out.Collected? ==> Enough(m, PassCV(m, p), out.res.runs) || used == m.MaxAttempts()
    ensures out.Collected? ==> FirstEnough(m, PassCV(m, p), Valid(p, world, m.MaxAttempts()), out.res.runs)
  {
    hide Reports, FirstEnough, PassCV, Workloads, E2Es, Enough, NotYet, Valid;
    var records, values, e2e := [], [], [];
    var maxValid := MaxValid(m);
    var maxAttempts := m.MaxAttempts();
    ghost var pass := PassCV(m, p);
    var attempt := 1;
    used := 0;
    NothingYet(m, p, pass, world);
    while attempt <= maxAttempts && |records| < maxValid
      invariant attempt == used + 1 <= maxAttempts + 1
      invariant NotYet(m, p, pass, world, used)
      invariant forall k :: 1 <= k <= used ==> world(k).resetOK && world(k).warmupOK
      invariant records == Valid(p, world, used) && values == Workloads(records) && e2e == E2Es(records)
      invariant |records| < maxValid && !Enough(m, pass, records)
      decreases maxAttempts + 1 - attempt
    {
      var a := world(attempt);
      if !a.resetOK || !a.warmupOK {
        return Aborted, used;
      }
      OneMoreAttempt(m, p, pass, world, used, attempt);
      used := attempt;
      var rec := Measure(p, a, |records| + 1, attempt);
      if rec.Some? {
        records := records + [rec.value];
        values := values + [rec.value.probe.workloadNs as real];
        e2e := e2e + [rec.value.probe.e2eNs as real];
        if |records| >= m.runs {
          var res := Report(m, p, records, values, e2e, rng);
          VerdictDecides(m, p, res, rng);
          if res.cvPass || |records| >= maxValid || !m.profileOnHighCV {
            RunIsFirstPassingPrefix(m, p, pass, world, used);
            return Collected(res), used;
          }
        } else {
          TooFew(m, pass, records);
        }
      }
      attempt := attempt + 1;
    }
    if |records| == 0 {
      return NoValidRuns, used;
    }
    var res := Report(m, p, records, values, e2e, rng);
    RunIsFirstPassingPrefix(m, p, pass, world, used);
    out := Collected(res);
  }

  // ----- What the records are

  /** Records are numbered from one, in the order of their attempts, and each is the measurement that its
      attempt made in a state valid for the scenario. */
  lemma {:induction false} RecordsAreOrdered(p: Plan, world: World, k: nat)
    ensures forall i :: 0 <= i < |Valid(p, world, k)| ==>
      var r := Valid(p, world, k)[i];
      && r.runIndex == i + 1 && 1 <= r.attempt <= k && Measured(p, world(r.attempt))
      && Some(r.probe) == world(r.attempt).probe && Some(r.indexCold) == world(r.attempt).indexCold
      && ValidPreProbe(p.name, r.indexCold, r.readyOK)
    ensures forall i, j :: 0 <= i < j < |Valid(p, world, k)| ==>
      Valid(p, world, k)[i].attempt < Valid(p, world, k)[j].attempt
  {
    if k > 0 {
      RecordsAreOrdered(p, world, k - 1);
    }
  }

  /** Which attempts count: control runs on a cold index, reference runs on a warm one, dynamic runs on a warm one of an
      instance that says it is ready; and all of those whose probe succeeds. */
  lemma MeasuredIff(world: World, k: nat)
    ensures Measured(Plan(S0Control, false), world(k)) <==> world(k).indexCold == Some(true) && world(k).probe.Some?
    ensures Measured(Plan(SRef, false), world(k)) <==> world(k).indexCold == Some(false) && world(k).probe.Some?
    ensures Measured(Plan(SDw, true), world(k)) <==>
            world(k).indexCold == Some(false) && world(k).readyz && world(k).probe.Some?
  {
  }

  /** Every measured attempt is recorded. */
  lemma {:induction false} MeasuredIsRecorded(p: Plan, world: World, k: nat, a: nat)
    requires 1 <= a <= k && Measured(p, world(a))
    ensures exists i :: 0 <= i < |Valid(p, world, k)| && Valid(p, world, k)[i].attempt == a
  {
    var v := Valid(p, world, k);
    if a == k {
      assert v[|v| - 1].attempt == a;
    } else {
      MeasuredIsRecorded(p, world, k - 1, a);
      var i :| 0 <= i < |Valid(p, world, k - 1)| && Valid(p, world, k - 1)[i].attempt == a;
      assert v[i].attempt == a;
    }
  }

  lemma {:induction false} RecordsGrow(p: Plan, world: World, j: nat, k: nat)
    requires j <= k
    ensures Valid(p, world, j) <= Valid(p, world, k)
  {
    if j < k {
      RecordsGrow(p, world, j, k - 1);
    }
  }

  /** Each prefix of the records was all of them after some attempt. */
  lemma {:induction false} PrefixWasReached(p: Plan, world: World, k: nat, n: nat) returns (j: nat)
    requires n < |Valid(p, world, k)|
    ensures j < k && Valid(p, world, j) == Valid(p, world, k)[..n]
  {
    RecordsGrow(p, world, k - 1, k);
    if n < |Valid(p, world, k - 1)| {
      j := PrefixWasReached(p, world, k - 1, n);
    } else {
      j := k - 1;
    }
  }

  // ----- The stopping rule

  /** The shortest prefix of `all` that is enough, or all of it. */
  ghost predicate FirstEnough(m: Manifest, pass: Verdict, all: seq<RunRecord>, records: seq<RunRecord>) {
    && records <= all
    && (Enough(m, pass, records) || records == all)
    && forall n: nat :: n < |records| ==> !Enough(m, pass, all[..n])
  }

  /** For every world and every verdict: a run that is not aborted reports the shortest sufficient prefix of what
      all the permitted attempts would have measured. */
  lemma RunIsFirstPassingPrefix(m: Manifest, p: Plan, pass: Verdict, world: World, used: nat)
    requires used <= m.MaxAttempts() && NotYet(m, p, pass, world, used)
    requires Enough(m, pass, Valid(p, world, used)) || used == m.MaxAttempts()
    ensures FirstEnough(m, pass, Valid(p, world, m.MaxAttempts()), Valid(p, world, used))
  {
    var all, records := Valid(p, world, m.MaxAttempts()), Valid(p, world, used);
    RecordsGrow(p, world, used, m.MaxAttempts());
    forall n: nat | n < |records|
      ensures !Enough(m, pass, all[..n])
    {
      var j := PrefixWasReached(p, world, used, n);
      assert all[..n] == records[..n];
    }
  }

  lemma FirstEnoughIsUnique(m: Manifest, pass: Verdict, all: seq<RunRecord>, a: seq<RunRecord>, b: seq<RunRecord>)
    requires FirstEnough(m, pass, all, a) && FirstEnough(m, pass, all, b)
    ensures a == b
  {
    assert a == all[..|a|] && b == all[..|b|];
  }

  /** What that comes to: at most maxValid records; no proper prefix of the minimum length passed; short of
      maxValid only on a pass or when all attempts together had fewer than maxValid to offer; and
      without adaptivity the first Runs of them, if there are so many. */
  lemma QuotaIsKept(m: Manifest, pass: Verdict, all: seq<RunRecord>, records: seq<RunRecord>)
    requires m.Loaded() && FirstEnough(m, pass, all, records)
    ensures |records| <= if m.profileOnHighCV then m.maxRuns else m.runs
    ensures m.profileOnHighCV && !pass(records) ==> |records| == if |all| < m.maxRuns then |all| else m.maxRuns
    ensures forall n :: m.runs <= n < |records| ==> !pass(records[..n])
    ensures |records| < (if m.profileOnHighCV then m.maxRuns else m.runs) ==>
              (pass(records) && |records| >= m.runs) || records == all
    ensures !m.profileOnHighCV ==> |records| == if |all| < m.runs then |all| else m.runs
  {
    var full := if MaxValid(m) <= |all| then all[..MaxValid(m)] else all;
    forall n | m.runs <= n < |records|
      ensures !pass(records[..n])
    {
      assert records[..n] == all[..n];
    }
  }

  /** The verdict on readiness is settled before it is asked: a result of the dynamic scenario holds only
      records that were ready, so H3 passes on every one. */
  lemma ReadinessVerdictAlwaysPasses(world: World, k: nat, res: Result)
    requires res.runs == Valid(Plan(SDw, true), world, k)
    ensures H3(res)
  {
    RecordsAreOrdered(Plan(SDw, true), world, k);
  }

  /** Measuring in another unit stops after the same records. */
  lemma StoppingHasNoUnit(m: Manifest, p: Plan, c: real, records: seq<RunRecord>, records': seq<RunRecord>)
    requires c > 0.0 && Workloads(records') == Map(Times(c), Workloads(records))
    ensures Enough(m, PassCV(m, p), records') <==> Enough(m, PassCV(m, p), records)
  {
    hide CvPass;
    TimesIsConversion(c);
    PipelineConverts(Times(c), Times(Square(c)), Workloads(records), m.CVThresholdForScenario(p.name));
    assert |Workloads(records')| == |Workloads(records)|;
  }
}
