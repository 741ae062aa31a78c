/**
 Benchmarks: only a team's newest revision counts, and no team starts too often.

 Benchers share markers in the artifact store.  Each call on them is atomic here,
 and the clock, which all benchers share, does not go back.
 */
module Supersession {
  import opened Wrappers

  datatype Job = Job(jobId: string, team: string, revision: int)

  datatype Markers = Markers(cancelled: set<string>, latest: map<string, int>, rate: map<string, real>)

  datatype Refusal = Cancelled | Superseded(newest: int) | RateLimited(waited: real)

  predicate Outdated(m: Markers, job: Job) { job.team in m.latest && m.latest[job.team] > job.revision }

  /** Why a job must not run, if it must not. */
  function RefusalOf(m: Markers, job: Job, now: real, interval: real): Option<Refusal> {
    if job.jobId in m.cancelled then Some(Cancelled)
    else if Outdated(m, job) then Some(Superseded(m.latest[job.team]))
    else if interval > 0.0 && job.team in m.rate && now - m.rate[job.team] < interval then
      Some(RateLimited(now - m.rate[job.team]))
    else None
  }

  function StartMarked(m: Markers, job: Job, now: real): Markers { m.(rate := m.rate[job.team := now]) }

  function RevisionMarked(m: Markers, job: Job): Markers {
    if job.team in m.latest && m.latest[job.team] >= job.revision then m
    else m.(latest := m.latest[job.team := job.revision])
  }

  /** The guard each bencher holds over the shared markers. */
  class BenchGuard {
    var cancelled: set<string>
    var latest: map<string, int>
    var rate: map<string, real>
    const interval: real

    function Held(): Markers
      reads this
    {
      Markers(cancelled, latest, rate)
    }

    constructor (interval: real)
      ensures Held() == Markers({}, map[], map[]) && this.interval == interval
    {
      this.interval := interval;
      cancelled, latest, rate := {}, map[], map[];
    }

    method Cancel(jobId: string)
      modifies this
      ensures Held() == old(Held()).(cancelled := old(cancelled) + {jobId})
    {
      cancelled := cancelled + {jobId};
    }

    method LatestRevision(team: string) returns (newest: Option<int>)
      ensures newest == if team in latest then Some(latest[team]) else None
    {
      newest := if team in latest then Some(latest[team]) else None;
    }

    method Refuse(job: Job, now: real) returns (reason: Option<Refusal>)
      ensures reason == RefusalOf(Held(), job, now, interval)
    {
      if job.jobId in cancelled {
        return Some(Cancelled);
      }
      var newest := LatestRevision(job.team);
      if newest.Some? && newest.value > job.revision {
        return Some(Superseded(newest.value));
      }
      if interval > 0.0 && job.team in rate {
        var waited := now - rate[job.team];
        if waited < interval {
          return Some(RateLimited(waited));
        }
      }
      reason := None;
    }

    method Started(job: Job, now: real)
      modifies this
      ensures Held() == StartMarked(old(Held()), job, now)
    {
      rate := rate[job.team := now];
    }

    method SupersededAfterRun(job: Job) returns (yes: bool)
      ensures yes == Outdated(Held(), job)
    {
      var newest := LatestRevision(job.team);
      yes := newest.Some? && newest.value > job.revision;
    }

    method Record(job: Job)
      modifies this
      ensures Held() == RevisionMarked(old(Held()), job)
    {
      var newest := LatestRevision(job.team);
      if newest.Some? && newest.value >= job.revision {
        return;
      }
      latest := latest[job.team := job.revision];
    }
  }

  // ---- any number of benchers -------------------------------------------

  /** Where one bencher's run stands. */
  datatype Stage = Cleared(job: Job) | Running(job: Job) | Scored(job: Job)

  datatype Start = Start(bencher: nat, team: string, at: real)

  datatype State = State(
    interval: real,
    now: real,
    markers: Markers,
    stages: map<nat, Stage>,
    starts: seq<Start>,
    recorded: seq<Job>)

  datatype Action =
    | Tick(now: real)
    | Cancel(jobId: string)
    | Check(bencher: nat, job: Job)
    | Quit(bencher: nat)
    | Begin(bencher: nat)
    | AfterRun(bencher: nat, ok: bool)
    | Record(bencher: nat)

  function Initial(interval: real): State { State(interval, 0.0, Markers({}, map[], map[]), map[], [], []) }

  /** One guard call, or one step outside it; one that does not apply changes nothing. */
  function Step(s: State, a: Action): State {
    match a
    case Tick(now) => if now >= s.now then s.(now := now) else s
    case Cancel(id) => s.(markers := s.markers.(cancelled := s.markers.cancelled + {id}))
    case Check(b, job) =>
      if b in s.stages || RefusalOf(s.markers, job, s.now, s.interval).Some? then s
      else s.(stages := s.stages[b := Cleared(job)])
    case Quit(b) => s.(stages := s.stages - {b})
    case Begin(b) =>
      if b in s.stages && s.stages[b].Cleared? then
        var job := s.stages[b].job;
        s.(markers := StartMarked(s.markers, job, s.now), stages := s.stages[b := Running(job)],
           starts := s.starts + [Start(b, job.team, s.now)])
      else s
    case AfterRun(b, ok) =>
      if b in s.stages && s.stages[b].Running? then
        if Outdated(s.markers, s.stages[b].job) || !ok then s.(stages := s.stages - {b})
        else s.(stages := s.stages[b := Scored(s.stages[b].job)])
      else s
    case Record(b) =>
      if b in s.stages && s.stages[b].Scored? then
        var job := s.stages[b].job;
        s.(markers := RevisionMarked(s.markers, job), stages := s.stages - {b}, recorded := s.recorded + [job])
      else s
  }

  function Run(s: State, run: seq<Action>): State
    decreases |run|
  {
    if run == [] then s else Step(Run(s, run[..|run| - 1]), run[|run| - 1])
  }

  // ---- the latest revision ----------------------------------------------

  /** A team's marker is the largest revision recorded for it. */
  ghost predicate LatestIsLargest(s: State) {
    && (forall n :: 0 <= n < |s.recorded| ==>
          s.recorded[n].team in s.markers.latest && s.recorded[n].revision <= s.markers.latest[s.recorded[n].team])
    && (forall t :: t in s.markers.latest ==>
          exists n :: 0 <= n < |s.recorded| && s.recorded[n].team == t && s.recorded[n].revision == s.markers.latest[t])
  }

  lemma LargestStep(s: State, a: Action)
    requires LatestIsLargest(s)
    ensures LatestIsLargest(Step(s, a))
    ensures forall t :: t in s.markers.latest ==>
              t in Step(s, a).markers.latest && s.markers.latest[t] <= Step(s, a).markers.latest[t]
  {
    var u := Step(s, a);
    if u.recorded != s.recorded {
      var job := s.stages[a.bencher].job;
      assert u.recorded[|s.recorded|] == job;
      forall t | t in u.markers.latest
        ensures exists n :: 0 <= n < |u.recorded| && u.recorded[n].team == t && u.recorded[n].revision == u.markers.latest[t]
      {
        if t in s.markers.latest && u.markers.latest[t] == s.markers.latest[t] {
          var n :| 0 <= n < |s.recorded| && s.recorded[n].team == t && s.recorded[n].revision == s.markers.latest[t];
          assert u.recorded[n] == s.recorded[n];
        }
      }
    }
  }

  lemma {:induction false} LargestRun(interval: real, run: seq<Action>)
    ensures LatestIsLargest(Run(Initial(interval), run))
    decreases |run|
  {
    if run != [] {
      LargestRun(interval, run[..|run| - 1]);
      LargestStep(Run(Initial(interval), run[..|run| - 1]), run[|run| - 1]);
    }
  }

  /** A team's marker never goes down. */
  lemma {:induction false} LatestNeverDecreases(interval: real, before: seq<Action>, later: seq<Action>, team: string)
    requires team in Run(Initial(interval), before).markers.latest
    ensures var s := Run(Initial(interval), before);
            var t := Run(s, later);
            LatestIsLargest(t) && team in t.markers.latest && s.markers.latest[team] <= t.markers.latest[team]
    decreases |later|
  {
    if later == [] {
      LargestRun(interval, before);
    } else {
      LatestNeverDecreases(interval, before, later[..|later| - 1], team);
      LargestStep(Run(Run(Initial(interval), before), later[..|later| - 1]), later[|later| - 1]);
    }
  }

  /** No newer revision of the job's team has been recorded. */
  ghost predicate NoneNewer(s: State, job: Job) {
    forall n :: 0 <= n < |s.recorded| && s.recorded[n].team == job.team ==> s.recorded[n].revision <= job.revision
  }

  /** A job is outdated exactly when a newer revision of its team has been recorded. */
  lemma OutdatedByANewerOne(interval: real, run: seq<Action>, job: Job)
    ensures var s := Run(Initial(interval), run); Outdated(s.markers, job) <==> !NoneNewer(s, job)
  {
    LargestRun(interval, run);
    var s := Run(Initial(interval), run);
    if Outdated(s.markers, job) {
      var n :| 0 <= n < |s.recorded| && s.recorded[n].team == job.team
               && s.recorded[n].revision == s.markers.latest[job.team];
      assert s.recorded[n].revision > job.revision;
    }
  }

  // ---- the check after the run ------------------------------------------

  /** At step k the bencher's job passed its check: it had run, and none newer was recorded. */
  ghost predicate PassedAt(interval: real, run: seq<Action>, k: nat, b: nat, job: Job) {
    && k < |run| && run[k] == AfterRun(b, true)
    && var s := Run(Initial(interval), run[..k]);
       b in s.stages && s.stages[b] == Running(job) && NoneNewer(s, job)
  }

  ghost predicate Passed(interval: real, run: seq<Action>, b: nat, job: Job) {
    exists k: nat :: PassedAt(interval, run, k, b, job)
  }

  ghost predicate RecordedPassed(interval: real, run: seq<Action>, n: nat, job: Job) {
    exists b: nat, k: nat :: PassedAt(interval, run, k, b, job) && |Run(Initial(interval), run[..k]).recorded| <= n
  }

  /** Every job scored, or recorded, has passed its check, and was recorded after it. */
  ghost predicate ScoresPassed(interval: real, run: seq<Action>) {
    var s := Run(Initial(interval), run);
    && (forall b :: b in s.stages && s.stages[b].Scored? ==> Passed(interval, run, b, s.stages[b].job))
    && (forall n :: 0 <= n < |s.recorded| ==> RecordedPassed(interval, run, n, s.recorded[n]))
  }

  lemma {:induction false} RecordedGrows(s: State, run: seq<Action>, k: nat)
    requires k <= |run|
    ensures Run(s, run[..k]).recorded <= Run(s, run).recorded
    decreases |run|
  {
    if k < |run| {
      var front := run[..|run| - 1];
      assert front[..k] == run[..k];
      RecordedGrows(s, front, k);
    } else {
      assert run[..k] == run;
    }
  }

  lemma PassedSurvives(interval: real, run: seq<Action>, a: Action, k: nat, b: nat, job: Job)
    requires PassedAt(interval, run, k, b, job)
    ensures PassedAt(interval, run + [a], k, b, job)
  {
    assert (run + [a])[..k] == run[..k];
  }

  lemma RecordedSurvives(interval: real, run: seq<Action>, a: Action, n: nat, job: Job)
    requires RecordedPassed(interval, run, n, job)
    ensures RecordedPassed(interval, run + [a], n, job)
  {
    var b: nat, k: nat :| PassedAt(interval, run, k, b, job) && |Run(Initial(interval), run[..k]).recorded| <= n;
    PassedSurvives(interval, run, a, k, b, job);
    assert (run + [a])[..k] == run[..k];
  }

  lemma ScoredSurvives(interval: real, run: seq<Action>, a: Action, b: nat, job: Job)
    requires Passed(interval, run, b, job)
    ensures Passed(interval, run + [a], b, job)
  {
    var k: nat :| PassedAt(interval, run, k, b, job);
    PassedSurvives(interval, run, a, k, b, job);
  }

  lemma ScoredIsRecorded(interval: real, run: seq<Action>, b: nat, job: Job)
    requires Passed(interval, run, b, job)
    ensures RecordedPassed(interval, run, |Run(Initial(interval), run).recorded|, job)
  {
    var k: nat :| PassedAt(interval, run, k, b, job);
    RecordedGrows(Initial(interval), run, k);
  }

  lemma CheckScores(interval: real, run: seq<Action>, b: nat)
    requires var s := Run(Initial(interval), run); b in s.stages && s.stages[b].Running?
    requires !Outdated(Run(Initial(interval), run).markers, Run(Initial(interval), run).stages[b].job)
    ensures Passed(interval, run + [AfterRun(b, true)], b, Run(Initial(interval), run).stages[b].job)
  {
    var job := Run(Initial(interval), run).stages[b].job;
    OutdatedByANewerOne(interval, run, job);
    assert (run + [AfterRun(b, true)])[..|run|] == run;
    assert PassedAt(interval, run + [AfterRun(b, true)], |run|, b, job);
  }

  lemma ScoresPassedStep(interval: real, run: seq<Action>, a: Action)
    requires ScoresPassed(interval, run)
    ensures ScoresPassed(interval, run + [a])
  {
    hide Passed, RecordedPassed, NoneNewer;
    var s, t := Run(Initial(interval), run), Run(Initial(interval), run + [a]);
    assert (run + [a])[..|run|] == run;
    forall b | b in t.stages && t.stages[b].Scored?
      ensures Passed(interval, run + [a], b, t.stages[b].job)
    {
      if b in s.stages && s.stages[b].Scored? {
        ScoredSurvives(interval, run, a, b, s.stages[b].job);
      } else {
        CheckScores(interval, run, b);
      }
    }
    forall n | 0 <= n < |t.recorded|
      ensures RecordedPassed(interval, run + [a], n, t.recorded[n])
    {
      if n == |s.recorded| {
        ScoredIsRecorded(interval, run, a.bencher, t.recorded[n]);
      }
      RecordedSurvives(interval, run, a, n, t.recorded[n]);
    }
  }

  /** Nothing is scored, or recorded, whose team had a newer revision recorded when it was
      checked after its run. */
  lemma {:induction false} NothingOutdatedIsScored(interval: real, run: seq<Action>)
    ensures ScoresPassed(interval, run)
    decreases |run|
  {
    hide Passed, RecordedPassed, Step;
    if run != [] {
      NothingOutdatedIsScored(interval, run[..|run| - 1]);
      ScoresPassedStep(interval, run[..|run| - 1], run[|run| - 1]);
      assert run[..|run| - 1] + [run[|run| - 1]] == run;
    }
  }

  /** The check after the run lets a job through exactly when none newer is recorded. */
  lemma CheckDecides(interval: real, run: seq<Action>, b: nat)
    requires var s := Run(Initial(interval), run); b in s.stages && s.stages[b].Running?
    ensures var s := Run(Initial(interval), run);
            Step(s, AfterRun(b, true)).stages
            == if NoneNewer(s, s.stages[b].job) then s.stages[b := Scored(s.stages[b].job)] else s.stages - {b}
  {
    var s := Run(Initial(interval), run);
    OutdatedByANewerOne(interval, run, s.stages[b].job);
  }

  /** An older revision is recorded after a newer one of its team only when the newer one was
      recorded between the older one's check and its record. */
  lemma OnlyARaceRecordsLate(interval: real, run: seq<Action>, m: nat, n: nat)
    requires m < n < |Run(Initial(interval), run).recorded|
    requires var r := Run(Initial(interval), run).recorded; r[m].team == r[n].team && r[m].revision > r[n].revision
    ensures var r := Run(Initial(interval), run).recorded;
            exists b: nat, k: nat :: PassedAt(interval, run, k, b, r[n])
                                     && |Run(Initial(interval), run[..k]).recorded| <= m
  {
    NothingOutdatedIsScored(interval, run);
    var r := Run(Initial(interval), run).recorded;
    assert RecordedPassed(interval, run, n, r[n]);
    var b: nat, k: nat :| PassedAt(interval, run, k, b, r[n]) && |Run(Initial(interval), run[..k]).recorded| <= n;
    RecordedGrows(Initial(interval), run, k);
    var earlier := Run(Initial(interval), run[..k]).recorded;
    forall x | 0 <= x < |earlier|
      ensures earlier[x] == r[x]
    {
    }
  }

  lemma RunOneMore(s: State, run: seq<Action>, a: Action)
    ensures Run(s, run + [a]) == Step(Run(s, run), a)
  {
    assert (run + [a])[..|run|] == run;
  }

  /** Such a race happens: the markers are read, then written. */
  lemma AnOlderResultCanFollow(team: string) returns (run: seq<Action>)
    ensures Run(Initial(0.0), run).recorded == [Job("new", team, 2), Job("old", team, 1)]
  {
    var s0, old1, new2 := Initial(0.0), Job("old", team, 1), Job("new", team, 2);
    run := [];
    assert Run(s0, run) == s0;
    hide Run;
    RunOneMore(s0, run, Check(0, old1));
    run := run + [Check(0, old1)];
    RunOneMore(s0, run, Check(1, new2));
    run := run + [Check(1, new2)];
    RunOneMore(s0, run, Begin(0));
    run := run + [Begin(0)];
    RunOneMore(s0, run, Begin(1));
    run := run + [Begin(1)];
    RunOneMore(s0, run, AfterRun(0, true));
    run := run + [AfterRun(0, true)];
    RunOneMore(s0, run, AfterRun(1, true));
    run := run + [AfterRun(1, true)];
    RunOneMore(s0, run, Record(1));
    run := run + [Record(1)];
    RunOneMore(s0, run, Record(0));
    run := run + [Record(0)];
  }

  // ---- the check before the run -----------------------------------------

  /** The markers say what has happened: who was cancelled, and when each team last started. */
  ghost predicate MarkersTell(s: State, run: seq<Action>) {
    (forall id :: id in s.markers.cancelled <==> Cancel(id) in run) && StartsTell(s)
  }

  ghost predicate StartsTell(s: State) {
    && (forall n :: 0 <= n < |s.starts| ==> Past(s, s.starts[n]))
    && (forall t :: t in s.markers.rate ==> LastStart(s, t, s.markers.rate[t]))
  }

  predicate Past(s: State, x: Start) {
    x.team in s.markers.rate && x.at <= s.markers.rate[x.team] <= s.now
  }

  ghost predicate LastStart(s: State, team: string, at: real) {
    && (exists n :: 0 <= n < |s.starts| && s.starts[n].team == team && s.starts[n].at == at)
    && (forall n :: 0 <= n < |s.starts| && s.starts[n].team == team ==> s.starts[n].at <= at)
  }

  lemma StartsTellStep(s: State, a: Action)
    requires StartsTell(s)
    ensures StartsTell(Step(s, a))
  {
    var u := Step(s, a);
    forall n | 0 <= n < |u.starts|
      ensures Past(u, u.starts[n])
    {
      assert n < |s.starts| ==> Past(s, s.starts[n]);
    }
    forall t | t in u.markers.rate
      ensures LastStart(u, t, u.markers.rate[t])
    {
      if t in s.markers.rate && u.markers.rate[t] == s.markers.rate[t] {
        var n :| 0 <= n < |s.starts| && s.starts[n].team == t && s.starts[n].at == s.markers.rate[t];
        assert u.starts[n] == s.starts[n];
      } else {
        assert u.starts[|s.starts|].team == t;
      }
    }
  }

  lemma MarkersTellStep(s: State, run: seq<Action>, a: Action)
    requires MarkersTell(s, run)
    ensures MarkersTell(Step(s, a), run + [a])
  {
    StartsTellStep(s, a);
    hide StartsTell;
  }

  lemma {:induction false} MarkersTellRun(interval: real, run: seq<Action>)
    ensures MarkersTell(Run(Initial(interval), run), run) && Run(Initial(interval), run).interval == interval
    decreases |run|
  {
    hide MarkersTell;
    if run == [] {
      assert MarkersTell(Initial(interval), []) by {
        NothingYet(interval);
      }
    } else {
      var front := run[..|run| - 1];
      MarkersTellRun(interval, front);
      MarkersTellStep(Run(Initial(interval), front), front, run[|run| - 1]);
      assert front + [run[|run| - 1]] == run;
    }
  }

  lemma NothingYet(interval: real)
    ensures MarkersTell(Initial(interval), [])
  {
  }

  /** The check before the run, told by what has happened.  A job is let through exactly when
      it was never cancelled, no newer revision of its team has been recorded, and every start
      of its team lies the interval back; otherwise the first of these that fails is named,
      with the largest revision recorded or the time since the team's last start. */
  lemma ClearedExactlyWhen(interval: real, run: seq<Action>, job: Job)
    ensures var s := Run(Initial(interval), run);
            match RefusalOf(s.markers, job, s.now, s.interval)
            case None =>
              && Cancel(job.jobId) !in run && NoneNewer(s, job)
              && (interval > 0.0 ==>
                    forall n :: 0 <= n < |s.starts| && s.starts[n].team == job.team ==> s.now - s.starts[n].at >= interval)
            case Some(Cancelled) => Cancel(job.jobId) in run
            case Some(Superseded(newest)) =>
              && Cancel(job.jobId) !in run && newest > job.revision && NoneNewer(s, job.(revision := newest))
              && exists n :: 0 <= n < |s.recorded| && s.recorded[n].team == job.team && s.recorded[n].revision == newest
            case Some(RateLimited(waited)) =>
              && Cancel(job.jobId) !in run && NoneNewer(s, job)
              && waited < interval && LastStart(s, job.team, s.now - waited)
  {
    LargestRun(interval, run);
    MarkersTellRun(interval, run);
    OutdatedByANewerOne(interval, run, job);
    var s := Run(Initial(interval), run);
    assert forall n :: 0 <= n < |s.starts| ==> Past(s, s.starts[n]);
  }

  // ---- the interval between starts --------------------------------------

  /** No start lies in the future or is newer than its team's marker, and a bencher that
      has been cleared has let the interval pass since each of its own starts. */
  ghost predicate Spaced(s: State) {
    && (forall n :: 0 <= n < |s.starts| ==> Past(s, s.starts[n]))
    && (forall b, n :: b in s.stages && s.stages[b].Cleared? && 0 <= n < |s.starts| ==>
          Waited(s, s.starts[n], b, s.stages[b].job.team, s.now))
    && (forall j, k :: 0 <= j < k < |s.starts| ==>
          Waited(s, s.starts[j], s.starts[k].bencher, s.starts[k].team, s.starts[k].at))
  }

  predicate Waited(s: State, x: Start, bencher: nat, team: string, at: real) {
    x.bencher == bencher && x.team == team ==> at - x.at >= s.interval
  }

  lemma SpacedStep(s: State, a: Action)
    requires Spaced(s) && s.interval > 0.0
    ensures Spaced(Step(s, a)) && Step(s, a).interval == s.interval
  {
    var u := Step(s, a);
    forall n | 0 <= n < |s.starts|
      ensures Past(u, s.starts[n])
    {
      assert Past(s, s.starts[n]);
    }
    forall b, n | b in u.stages && u.stages[b].Cleared? && 0 <= n < |s.starts|
      ensures Waited(u, s.starts[n], b, u.stages[b].job.team, u.now)
    {
      assert Past(s, s.starts[n]);
      assert b in s.stages && s.stages[b].Cleared? ==> Waited(s, s.starts[n], b, s.stages[b].job.team, s.now);
    }
    if u.starts != s.starts {
      var b := a.bencher;
      forall j | 0 <= j < |s.starts|
        ensures Waited(u, s.starts[j], b, s.stages[b].job.team, s.now)
      {
        assert Waited(s, s.starts[j], b, s.stages[b].job.team, s.now);
      }
    }
    forall j, k | 0 <= j < k < |s.starts|
      ensures Waited(u, s.starts[j], s.starts[k].bencher, s.starts[k].team, s.starts[k].at)
    {
      assert Waited(s, s.starts[j], s.starts[k].bencher, s.starts[k].team, s.starts[k].at);
    }
  }

  lemma {:induction false} SpacedRun(interval: real, run: seq<Action>)
    requires interval > 0.0
    ensures Spaced(Run(Initial(interval), run)) && Run(Initial(interval), run).interval == interval
    decreases |run|
  {
    if run != [] {
      SpacedRun(interval, run[..|run| - 1]);
      SpacedStep(Run(Initial(interval), run[..|run| - 1]), run[|run| - 1]);
    }
  }

  /** On one bencher, two starts of a team are at least the minimum interval apart,
      whatever other benchers do in between. */
  lemma StartsAreSpaced(interval: real, run: seq<Action>, j: nat, k: nat)
    requires interval > 0.0 && j < k < |Run(Initial(interval), run).starts|
    requires var s := Run(Initial(interval), run);
             s.starts[j].bencher == s.starts[k].bencher && s.starts[j].team == s.starts[k].team
    ensures var s := Run(Initial(interval), run); s.starts[k].at - s.starts[j].at >= interval
  {
    SpacedRun(interval, run);
    var s := Run(Initial(interval), run);
    assert Waited(s, s.starts[j], s.starts[k].bencher, s.starts[k].team, s.starts[k].at);
  }

  /** Two benchers may both be cleared before either has started: the interval is not kept
      between them. */
  lemma TwoBenchersCanStartTogether(job: Job) returns (run: seq<Action>)
    ensures var s := Run(Initial(300.0), run);
            |s.starts| == 2 && s.starts[0].team == s.starts[1].team && s.starts[0].at == s.starts[1].at
  {
    var s0 := Initial(300.0);
    run := [Check(0, job), Check(1, job), Begin(0), Begin(1)];
    assert run[..3] == [Check(0, job), Check(1, job), Begin(0)];
    assert run[..3][..2] == [Check(0, job), Check(1, job)];
    assert run[..3][..2][..1] == [Check(0, job)];
    var s1 := Step(s0, Check(0, job));
    var s2 := Step(s1, Check(1, job));
    var s3 := Step(s2, Begin(0));
    assert Run(s0, run[..3][..2][..1]) == s1;
    assert Run(s0, run[..3][..2]) == s2;
    assert Run(s0, run[..3]) == s3;
    assert Run(s0, run) == Step(s3, Begin(1));
  }
}
