/** `SnowflakeLoaderService` of azure-functions/function_app.py: it connects, then loads the
    day's partition of the stage in five phases, each its own transaction. A failure in one of
    the first three phases (staging, channels, facts) is rolled back and ends the load with
    False; a failure in the last two (aggregations, cleanup) is rolled back, logged, and the
    load goes on. The connection is closed on every path once `connect` has succeeded. */
module AzureLoader {
  import opened Wrappers
  import BlobNaming
  import opened Warehouse
  import opened Loading

  /** What the loader logs, reduced to the outcome of each step. */
  datatype Event =
    | Connected
    | ConnectFailed
    | LoadingFrom(datePath: string)
    | PhaseDone(phase: Phase)
    | PhaseFailed(phase: Phase)
    | Finished

  /** Phases 1-3: a failure ends the load. */
  predicate Critical(p: Phase) {
    p.Staging? || p.Channels? || p.Facts?
  }

  /** `connect` has four steps that may raise: the connector call, `cursor()`, `USE DATABASE`
      and `USE SCHEMA`. */
  const ConnectSteps: nat := 4

  /** The statements each phase method issues. */
  function Statements(p: Phase, stage: seq<StageFile>, datePath: string, now: BlobNaming.DateTime): (stmts: seq<Statement>)
    ensures |stmts| + 1 == Steps(p)
  {
    match p
    case Staging => [CreateStagingTable, CreateTempVideos(stage, datePath), InsertIntoStaging(now)]
    case Channels => [CreateTempChannels(stage, datePath), MergeIntoChannels(now)]
    case Facts => [MergeIntoFacts]
    case Aggregations => [CreateAnalyticsSchema, CreateAggregatesTable, DeleteAggregates(now.date), InsertAggregates(now.date)]
    case Cleanup => [TruncateStaging]
  }

  /** The steps of a phase's `try` block that may raise: its statements and the commit. */
  function Steps(p: Phase): nat {
    match p
    case Staging => 4
    case Channels => 3
    case Facts => 2
    case Aggregations => 5
    case Cleanup => 2
  }

  /** Phase `p` raises somewhere in its `try` block under `fs`. */
  predicate Fails(fs: Faults, p: Phase) {
    Raises(FaultOf(fs, p), Steps(p))
  }

  /** The statements of several phases, one after another. */
  function Script(phases: seq<Phase>, stage: seq<StageFile>, datePath: string, now: BlobNaming.DateTime): seq<Statement> {
    if phases == [] then [] else Statements(phases[0], stage, datePath, now) + Script(phases[1..], stage, datePath, now)
  }

  /** How one `try` block ends: the session after it, and whether it raised. */
  datatype Outcome = Outcome(session: Session, failed: bool)

  /** A phase's `try` block: its statements, then `conn.commit()`; when either raises,
      `conn.rollback()` puts the tables back as they were when the phase began. */
  function Attempt(s: Session, stmts: seq<Statement>, f: Fault): Outcome {
    var ran := Partial(s, stmts, f);
    if Raises(f, |stmts| + 1) then Outcome(ran.(tables := s.tables), true) else Outcome(ran, false)
  }

  /** A failed phase leaves the tables as they were before it; a phase that does not fail has
      run all its statements. */
  lemma AttemptSpec(s: Session, stmts: seq<Statement>, f: Fault)
    ensures Attempt(s, stmts, f).failed <==> Raises(f, |stmts| + 1)
    ensures Attempt(s, stmts, f).failed ==> Attempt(s, stmts, f).session.tables == s.tables
    ensures !Attempt(s, stmts, f).failed ==> Attempt(s, stmts, f).session == Apply(s, stmts)
  {
    assert stmts[..|stmts|] == stmts;
  }

  /** The result, final session and log of a run. */
  datatype Run = Run(ok: bool, session: Session, log: seq<Event>)

  /** The phases from the given one on, as `load_todays_data` runs them. */
  function RunPhases(s: Session, phases: seq<Phase>, stage: seq<StageFile>, datePath: string, now: BlobNaming.DateTime, fs: Faults)
    : Run
    decreases |phases|
  {
    if phases == [] then Run(true, s, [Finished])
    else
      var p := phases[0];
      var o := Attempt(s, Statements(p, stage, datePath, now), FaultOf(fs, p));
      if o.failed && Critical(p) then Run(false, o.session, [PhaseFailed(p)])
      else
        var rest := RunPhases(o.session, phases[1..], stage, datePath, now, fs);
        Run(rest.ok, rest.session, [if o.failed then PhaseFailed(p) else PhaseDone(p)] + rest.log)
  }

  lemma RunPhasesFirst(s: Session, phases: seq<Phase>, stage: seq<StageFile>, datePath: string,
                       now: BlobNaming.DateTime, fs: Faults)
    requires phases != []
    ensures var p := phases[0];
            var o := Attempt(s, Statements(p, stage, datePath, now), FaultOf(fs, p));
            var rest := RunPhases(o.session, phases[1..], stage, datePath, now, fs);
            RunPhases(s, phases, stage, datePath, now, fs)
            == if o.failed && Critical(p) then Run(false, o.session, [PhaseFailed(p)])
               else Run(rest.ok, rest.session, [if o.failed then PhaseFailed(p) else PhaseDone(p)] + rest.log)
  {
  }

  /** `load_todays_data` from a session `s` at time `now`: `connect`, then the five phases on
      the partition of `now`'s date. */
  function LoadRun(s: Session, stage: seq<StageFile>, now: BlobNaming.DateTime, fs: Faults): Run {
    if Raises(fs.connect, ConnectSteps) then Run(false, s, [ConnectFailed])
    else
      var datePath := BlobNaming.DatePath(now.date);
      var r := RunPhases(s, Phases, stage, datePath, now, fs);
      Run(r.ok, r.session, [Connected, LoadingFrom(datePath)] + r.log)
  }

  /** Log entries appended one after another, then a list of them. */
  lemma LogShape(a: seq<Event>, b: seq<Event>, c: seq<Event>, x: Event, y: Event, rest: seq<Event>)
    requires b == a + [x] && c == b + [y] + rest
    ensures c == a + ([x, y] + rest)
  {
  }

  /** The log entries of phases that completed. */
  function Done(phases: seq<Phase>): seq<Event> {
    if phases == [] then [] else [PhaseDone(phases[0])] + Done(phases[1..])
  }

  /** No step of the run raises. */
  predicate NothingRaises(fs: Faults) {
    && !Raises(fs.connect, ConnectSteps)
    && !Fails(fs, Staging) && !Fails(fs, Channels) && !Fails(fs, Facts)
    && !Fails(fs, Aggregations) && !Fails(fs, Cleanup)
  }

  /** Whether a phase's `try` block fails is decided by its fault alone. */
  lemma AttemptFails(s: Session, p: Phase, stage: seq<StageFile>, datePath: string, now: BlobNaming.DateTime, fs: Faults)
    ensures Attempt(s, Statements(p, stage, datePath, now), FaultOf(fs, p)).failed <==> Fails(fs, p)
  {
    AttemptSpec(s, Statements(p, stage, datePath, now), FaultOf(fs, p));
  }

  /** A run of phases returns True iff none of its critical phases fails. */
  lemma {:induction false} RunPhasesOk(s: Session, phases: seq<Phase>, stage: seq<StageFile>, datePath: string,
                                       now: BlobNaming.DateTime, fs: Faults)
    ensures RunPhases(s, phases, stage, datePath, now, fs).ok <==>
              forall q :: q in phases && Critical(q) ==> !Fails(fs, q)
    decreases |phases|
  {
    if phases != [] {
      var p := phases[0];
      var o := Attempt(s, Statements(p, stage, datePath, now), FaultOf(fs, p));
      AttemptFails(s, p, stage, datePath, now, fs);
      RunPhasesOk(o.session, phases[1..], stage, datePath, now, fs);
      assert forall q :: q in phases <==> q == p || q in phases[1..];
    }
  }

  /** `load_todays_data` returns True iff `connect` succeeds and none of staging, channels and
      facts fails; failures of aggregation and cleanup do not change the result. */
  lemma LoadSucceedsIff(s: Session, stage: seq<StageFile>, now: BlobNaming.DateTime, fs: Faults)
    ensures LoadRun(s, stage, now, fs).ok <==>
              !Raises(fs.connect, ConnectSteps) && !Fails(fs, Staging) && !Fails(fs, Channels) && !Fails(fs, Facts)
  {
    RunPhasesOk(s, Phases, stage, BlobNaming.DatePath(now.date), now, fs);
    assert forall q :: q in Phases && Critical(q) <==> q == Staging || q == Channels || q == Facts;
  }

  /** When the first phase to fail is critical, the run stops there: the log names the phases
      before it as done and it as failed and no later phase, and the tables are those the
      earlier phases left, its own changes rolled back. */
  lemma {:induction false} RunPhasesStopsAtCriticalFailure(s: Session, phases: seq<Phase>, stage: seq<StageFile>,
                                                           datePath: string, now: BlobNaming.DateTime, fs: Faults, i: nat)
    requires i < |phases| && Critical(phases[i]) && Fails(fs, phases[i])
    requires forall j :: 0 <= j < i ==> !Fails(fs, phases[j])
    ensures var r := RunPhases(s, phases, stage, datePath, now, fs);
            && !r.ok
            && r.session.tables == Apply(s, Script(phases[..i], stage, datePath, now)).tables
            && r.log == Done(phases[..i]) + [PhaseFailed(phases[i])]
    decreases i
  {
    var p, tail := phases[0], phases[1..];
    var stmts := Statements(p, stage, datePath, now);
    if i == 0 {
      AttemptSpec(s, stmts, FaultOf(fs, p));
      AttemptFails(s, p, stage, datePath, now, fs);
      RunPhasesFirst(s, phases, stage, datePath, now, fs);
      assert phases[..0] == [];
    } else {
      RunPhasesPass(s, phases, stage, datePath, now, fs);
      var s1 := Apply(s, stmts);
      assert forall j :: 0 <= j < i - 1 ==> tail[j] == phases[j + 1];
      assert tail[i - 1] == phases[i];
      RunPhasesStopsAtCriticalFailure(s1, tail, stage, datePath, now, fs, i - 1);
      PrefixSplit(phases, i, stage, datePath, now);
      ApplyAppend(s, stmts, Script(tail[..i - 1], stage, datePath, now));
      ConsAppend(PhaseDone(p), Done(tail[..i - 1]), [PhaseFailed(phases[i])]);
    }
  }

  /** A critical failure in phase `i` (0, 1 or 2) after a successful connect: False, the
      failed phase rolled back, no later phase run. */
  lemma CriticalFailureEndsLoad(s: Session, stage: seq<StageFile>, now: BlobNaming.DateTime, fs: Faults, i: nat)
    requires !Raises(fs.connect, ConnectSteps)
    requires i < 3 && Fails(fs, Phases[i])
    requires forall j :: 0 <= j < i ==> !Fails(fs, Phases[j])
    ensures var datePath := BlobNaming.DatePath(now.date);
            var r := LoadRun(s, stage, now, fs);
            && !r.ok
            && r.session.tables == Apply(s, Script(Phases[..i], stage, datePath, now)).tables
            && r.log == [Connected, LoadingFrom(datePath)]
                        + Done(Phases[..i]) + [PhaseFailed(Phases[i])]
  {
    RunPhasesStopsAtCriticalFailure(s, Phases, stage, BlobNaming.DatePath(now.date), now, fs, i);
  }

  /** The log entry for a phase that was attempted. */
  function Report(fs: Faults, p: Phase): Event {
    if Fails(fs, p) then PhaseFailed(p) else PhaseDone(p)
  }

  /** Phases that do not fail run one after another: after `i` of them the log names each as
      done and the session is their statements applied in order. */
  lemma {:induction false} RunPhasesSucceedingPrefix(s: Session, phases: seq<Phase>, stage: seq<StageFile>,
                                                     datePath: string, now: BlobNaming.DateTime, fs: Faults, i: nat)
    requires i <= |phases|
    requires forall j :: 0 <= j < i ==> !Fails(fs, phases[j])
    ensures var rest := RunPhases(Apply(s, Script(phases[..i], stage, datePath, now)), phases[i..], stage, datePath, now, fs);
            RunPhases(s, phases, stage, datePath, now, fs)
            == Run(rest.ok, rest.session, Done(phases[..i]) + rest.log)
    decreases i
  {
    if i == 0 {
      assert phases[..0] == [] && phases[0..] == phases;
      assert [] + RunPhases(s, phases, stage, datePath, now, fs).log == RunPhases(s, phases, stage, datePath, now, fs).log;
    } else {
      var p, tail := phases[0], phases[1..];
      var stmts := Statements(p, stage, datePath, now);
      RunPhasesPass(s, phases, stage, datePath, now, fs);
      var s1 := Apply(s, stmts);
      assert forall j :: 0 <= j < i - 1 ==> tail[j] == phases[j + 1];
      RunPhasesSucceedingPrefix(s1, tail, stage, datePath, now, fs, i - 1);
      PrefixSplit(phases, i, stage, datePath, now);
      var front := Script(tail[..i - 1], stage, datePath, now);
      ApplyAppend(s, stmts, front);
      var rest := RunPhases(Apply(s1, front), tail[i - 1..], stage, datePath, now, fs);
      ConsAppend(PhaseDone(p), Done(tail[..i - 1]), rest.log);
    }
  }

  /** A phase that does not fail runs all its statements, is logged as done, and the run goes
      on with the next phase. */
  lemma RunPhasesPass(s: Session, phases: seq<Phase>, stage: seq<StageFile>, datePath: string,
                      now: BlobNaming.DateTime, fs: Faults)
    requires phases != [] && !Fails(fs, phases[0])
    ensures var rest := RunPhases(Apply(s, Statements(phases[0], stage, datePath, now)), phases[1..], stage, datePath, now, fs);
            RunPhases(s, phases, stage, datePath, now, fs) == Run(rest.ok, rest.session, [PhaseDone(phases[0])] + rest.log)
  {
    var p := phases[0];
    AttemptSpec(s, Statements(p, stage, datePath, now), FaultOf(fs, p));
    AttemptFails(s, p, stage, datePath, now, fs);
    RunPhasesFirst(s, phases, stage, datePath, now, fs);
  }

  /** The first `i` phases are the first phase, then the first `i - 1` of the others. */
  lemma PrefixSplit(phases: seq<Phase>, i: nat, stage: seq<StageFile>, datePath: string, now: BlobNaming.DateTime)
    requires 0 < i <= |phases|
    ensures Script(phases[..i], stage, datePath, now)
            == Statements(phases[0], stage, datePath, now) + Script(phases[1..][..i - 1], stage, datePath, now)
    ensures Done(phases[..i]) == [PhaseDone(phases[0])] + Done(phases[1..][..i - 1])
    ensures phases[1..][i - 1..] == phases[i..]
  {
    assert phases[..i][0] == phases[0] && phases[..i][1..] == phases[1..][..i - 1];
  }

  lemma ConsAppend<T>(x: T, a: seq<T>, b: seq<T>)
    ensures [x] + (a + b) == ([x] + a) + b
  {
  }

  /** A log that grew by one entry and then by `rest` is the old log followed by both. */
  lemma LogStep<T>(a: seq<T>, b: seq<T>, x: T, rest: seq<T>)
    requires b == a + [x]
    ensures b + rest == a + ([x] + rest)
  {
  }

  /** The two non-critical phases: both are attempted and logged, the run returns True, and a
      failed one leaves no change in the tables. */
  lemma FinishPhases(s: Session, stage: seq<StageFile>, datePath: string, now: BlobNaming.DateTime, fs: Faults)
    ensures var r := RunPhases(s, [Aggregations, Cleanup], stage, datePath, now, fs);
            && r.ok
            && r.log == [Report(fs, Aggregations), Report(fs, Cleanup), Finished]
            && r.session.tables
               == Apply(s, (if Fails(fs, Aggregations) then [] else Statements(Aggregations, stage, datePath, now))
                           + (if Fails(fs, Cleanup) then [] else Statements(Cleanup, stage, datePath, now))).tables
  {
    var aggs := Statements(Aggregations, stage, datePath, now);
    var o4 := Attempt(s, aggs, fs.aggregations);
    AttemptSpec(s, aggs, fs.aggregations);
    AttemptFails(s, Aggregations, stage, datePath, now, fs);
    var clean := Statements(Cleanup, stage, datePath, now);
    var o5 := Attempt(o4.session, clean, fs.cleanup);
    AttemptSpec(o4.session, clean, fs.cleanup);
    AttemptFails(o4.session, Cleanup, stage, datePath, now, fs);
    assert [Aggregations, Cleanup][1..] == [Cleanup] && [Cleanup][1..] == [];
    RunPhasesFirst(s, [Aggregations, Cleanup], stage, datePath, now, fs);
    RunPhasesFirst(o4.session, [Cleanup], stage, datePath, now, fs);
    var a := if Fails(fs, Aggregations) then [] else aggs;
    var c := if Fails(fs, Cleanup) then [] else clean;
    ApplyAppend(s, a, c);
    // cleanup reads only the tables, so a rolled-back aggregation does not change what it does
    assert o4.session.tables == Apply(s, a).tables;
    if c != [] {
      assert c == [TruncateStaging] && c[1..] == [];
      assert Apply(o4.session, c).tables == Apply(Apply(s, a), c).tables;
    }
  }

  /** When staging, channels and facts succeed, the run returns True whatever aggregation and
      cleanup do; each of those is logged as done or failed, cleanup is attempted even after
      aggregation fails, and a failed one leaves no change in the tables. */
  lemma NonCriticalFailuresAreLoggedAndSkipped(s: Session, stage: seq<StageFile>, now: BlobNaming.DateTime, fs: Faults)
    requires !Raises(fs.connect, ConnectSteps)
    requires !Fails(fs, Staging) && !Fails(fs, Channels) && !Fails(fs, Facts)
    ensures var datePath := BlobNaming.DatePath(now.date);
            var r := LoadRun(s, stage, now, fs);
            && r.ok
            && r.log == [Connected, LoadingFrom(datePath), PhaseDone(Staging), PhaseDone(Channels), PhaseDone(Facts),
                         Report(fs, Aggregations), Report(fs, Cleanup), Finished]
            && r.session.tables
               == Apply(Apply(s, Script(Phases[..3], stage, datePath, now)),
                        (if Fails(fs, Aggregations) then [] else Statements(Aggregations, stage, datePath, now))
                        + (if Fails(fs, Cleanup) then [] else Statements(Cleanup, stage, datePath, now))).tables
  {
    var datePath := BlobNaming.DatePath(now.date);
    var s3 := Apply(s, Script(Phases[..3], stage, datePath, now));
    RunPhasesSucceedingPrefix(s, Phases, stage, datePath, now, fs, 3);
    assert Phases[3..] == [Aggregations, Cleanup];
    var fin := RunPhases(s3, [Aggregations, Cleanup], stage, datePath, now, fs);
    FinishPhases(s3, stage, datePath, now, fs);
    assert Phases[..3] == [Staging, Channels, Facts];
    DoneThree(Staging, Channels, Facts);
    var done := [PhaseDone(Staging), PhaseDone(Channels), PhaseDone(Facts)];
    var r := RunPhases(s, Phases, stage, datePath, now, fs);
    assert r.ok == fin.ok && r.session == fin.session && r.log == done + fin.log;
    ConcatEight(Connected, LoadingFrom(datePath), PhaseDone(Staging), PhaseDone(Channels), PhaseDone(Facts),
                Report(fs, Aggregations), Report(fs, Cleanup), Finished);
  }

  /** The log entries of three completed phases. */
  lemma DoneThree(a: Phase, b: Phase, c: Phase)
    ensures Done([a, b, c]) == [PhaseDone(a), PhaseDone(b), PhaseDone(c)]
  {
    assert [a, b, c][1..] == [b, c] && [b, c][1..] == [c] && [c][1..] == [];
    assert Done([c]) == [PhaseDone(c)];
    assert Done([b, c]) == [PhaseDone(b), PhaseDone(c)];
  }

  /** Two entries, three entries and three more, laid end to end. */
  lemma ConcatEight<T>(a: T, b: T, c: T, d: T, e: T, f: T, g: T, h: T)
    ensures [a, b] + ([c, d, e] + [f, g, h]) == [a, b, c, d, e, f, g, h]
  {
  }

  /** The staging phase appends the day's video elements to `STG_VIDEOS` and leaves the other
      tables alone. */
  lemma StagingPhaseEffect(s: Session, stage: seq<StageFile>, datePath: string, now: BlobNaming.DateTime)
    ensures var temp := VideoSource(stage, datePath);
            Apply(s, Statements(Staging, stage, datePath, now))
            == Session(s.tables.(staging := InsertStaging(s.tables.staging, temp, now)), temp, s.tempChannels)
  {
    var stmts := Statements(Staging, stage, datePath, now);
    assert stmts[..0] == [];
    ApplyNext(s, stmts, 0);
    ApplyNext(s, stmts, 1);
    ApplyNext(s, stmts, 2);
    assert stmts[..3] == stmts;
  }

  /** The channel phase upserts the day's latest row of each channel and leaves the other
      tables alone. */
  lemma ChannelsPhaseEffect(s: Session, stage: seq<StageFile>, datePath: string, now: BlobNaming.DateTime)
    ensures var latest := LatestChannels(ChannelCandidates(stage, datePath));
            Apply(s, Statements(Channels, stage, datePath, now))
            == Session(s.tables.(channels := UpsertChannels(s.tables.channels, latest, now)), s.tempVideos, latest)
  {
    var stmts := Statements(Channels, stage, datePath, now);
    assert stmts[..0] == [];
    ApplyNext(s, stmts, 0);
    ApplyNext(s, stmts, 1);
    assert stmts[..2] == stmts;
  }

  /** The aggregation phase replaces today's aggregate rows and leaves the other tables alone. */
  lemma AggregationsPhaseEffect(s: Session, stage: seq<StageFile>, datePath: string, now: BlobNaming.DateTime)
    ensures var t := s.tables;
            Apply(s, Statements(Aggregations, stage, datePath, now))
            == s.(tables := t.(aggregates := RefreshAggregates(t.aggregates, t.facts, t.channels, now.date)))
  {
    ApplyFour(s, CreateAnalyticsSchema, CreateAggregatesTable, DeleteAggregates(now.date), InsertAggregates(now.date));
    assert Step(Step(s, CreateAnalyticsSchema), CreateAggregatesTable) == s;
    RefreshSteps(s, now.date);
  }

  /** The three critical phases, run in full: the day's videos staged, the day's channels
      upserted, and the staged facts merged. */
  lemma CriticalPhasesEffect(s: Session, stage: seq<StageFile>, datePath: string, now: BlobNaming.DateTime)
    ensures var t := s.tables;
            var staged := InsertStaging(t.staging, VideoSource(stage, datePath), now);
            var latest := LatestChannels(ChannelCandidates(stage, datePath));
            Apply(s, Script(Phases[..3], stage, datePath, now)).tables
            == t.(staging := staged, channels := UpsertChannels(t.channels, latest, now), facts := MergeFacts(t.facts, staged))
  {
    var st := Statements(Staging, stage, datePath, now);
    var ch := Statements(Channels, stage, datePath, now);
    var fa := Statements(Facts, stage, datePath, now);
    assert Phases[..3] == [Staging, Channels, Facts];
    ScriptThree(Staging, Channels, Facts, stage, datePath, now);
    StagingPhaseEffect(s, stage, datePath, now);
    var s1 := Apply(s, st);
    ChannelsPhaseEffect(s1, stage, datePath, now);
    var s2 := Apply(s1, ch);
    ApplyAppend(s, st, ch + fa);
    ApplyAppend(s1, ch, fa);
    assert fa == [MergeIntoFacts];
    ApplyOne(s2, MergeIntoFacts);
    assert Apply(s2, fa).tables == s2.tables.(facts := MergeFacts(s2.tables.facts, s2.tables.staging));
  }

  /** The statements of three phases, one after another. */
  lemma ScriptThree(a: Phase, b: Phase, c: Phase, stage: seq<StageFile>, datePath: string, now: BlobNaming.DateTime)
    ensures Script([a, b, c], stage, datePath, now)
            == Statements(a, stage, datePath, now) + (Statements(b, stage, datePath, now) + Statements(c, stage, datePath, now))
  {
    assert [a, b, c][1..] == [b, c] && [b, c][1..] == [c] && [c][1..] == [];
    assert Script([c], stage, datePath, now) == Statements(c, stage, datePath, now) + [];
    assert Statements(c, stage, datePath, now) + [] == Statements(c, stage, datePath, now);
  }

  /** A load in which nothing raises returns True and logs every phase as done. */
  lemma CleanLoad(s: Session, stage: seq<StageFile>, now: BlobNaming.DateTime, fs: Faults)
    requires NothingRaises(fs)
    ensures var r := LoadRun(s, stage, now, fs);
            && r.ok
            && r.log == [Connected, LoadingFrom(BlobNaming.DatePath(now.date)), PhaseDone(Staging), PhaseDone(Channels),
                         PhaseDone(Facts), PhaseDone(Aggregations), PhaseDone(Cleanup), Finished]
  {
    NonCriticalFailuresAreLoggedAndSkipped(s, stage, now, fs);
  }

  /** After a load in which nothing raises, staging is empty, the channel dimension holds the
      day's upserted channels, the fact table the merged facts, and today's aggregates are
      recomputed from those. */
  lemma CleanLoadTables(s: Session, stage: seq<StageFile>, now: BlobNaming.DateTime, fs: Faults)
    requires NothingRaises(fs)
    ensures var datePath := BlobNaming.DatePath(now.date);
            var t := s.tables;
            var channels := UpsertChannels(t.channels, LatestChannels(ChannelCandidates(stage, datePath)), now);
            var facts := MergeFacts(t.facts, InsertStaging(t.staging, VideoSource(stage, datePath), now));
            LoadRun(s, stage, now, fs).session.tables
            == Tables([], channels, facts, RefreshAggregates(t.aggregates, facts, channels, now.date))
  {
    var datePath := BlobNaming.DatePath(now.date);
    var t := s.tables;
    var staged := InsertStaging(t.staging, VideoSource(stage, datePath), now);
    var channels := UpsertChannels(t.channels, LatestChannels(ChannelCandidates(stage, datePath)), now);
    var facts := MergeFacts(t.facts, staged);
    var s3 := Apply(s, Script(Phases[..3], stage, datePath, now));
    var ag := Statements(Aggregations, stage, datePath, now);
    assert Statements(Cleanup, stage, datePath, now) == [TruncateStaging];
    assert LoadRun(s, stage, now, fs).session.tables == Apply(s3, ag + [TruncateStaging]).tables by {
      NonCriticalFailuresAreLoggedAndSkipped(s, stage, now, fs);
      assert !Fails(fs, Aggregations) && !Fails(fs, Cleanup);
    }
    var t3 := s3.tables;
    assert t3.channels == channels && t3.facts == facts && t3.aggregates == t.aggregates by {
      CriticalPhasesEffect(s, stage, datePath, now);
    }
    FinishTables(s3, stage, datePath, now);
    assert Apply(s3, ag + [TruncateStaging]).tables
        == Tables([], t3.channels, t3.facts, RefreshAggregates(t3.aggregates, t3.facts, t3.channels, now.date));
  }

  /** Aggregation, then cleanup, both completing: today's aggregates recomputed, staging empty. */
  lemma FinishTables(s: Session, stage: seq<StageFile>, datePath: string, now: BlobNaming.DateTime)
    ensures var t := s.tables;
            Apply(s, Statements(Aggregations, stage, datePath, now) + [TruncateStaging]).tables
            == t.(staging := [], aggregates := RefreshAggregates(t.aggregates, t.facts, t.channels, now.date))
  {
    var ag := Statements(Aggregations, stage, datePath, now);
    ApplyAppend(s, ag, [TruncateStaging]);
    AggregationsPhaseEffect(s, stage, datePath, now);
    var s4 := Apply(s, ag);
    assert [TruncateStaging][1..] == [];
    assert Apply(s4, [TruncateStaging]) == Step(s4, TruncateStaging);
    var t := s.tables;
    assert s4.tables == t.(aggregates := RefreshAggregates(t.aggregates, t.facts, t.channels, now.date));
    assert Step(s4, TruncateStaging).tables == s4.tables.(staging := []);
  }

  /** Loading the same day's files again, after a load in which nothing raised, adds no fact
      row: every staged video is already in the fact table, so the merge inserts nothing. */
  lemma SecondLoadAddsNoFacts(s: Session, stage: seq<StageFile>, now1: BlobNaming.DateTime, now2: BlobNaming.DateTime,
                              fs: Faults)
    requires NothingRaises(fs)
    requires now1.date == now2.date
    ensures var first := LoadRun(s, stage, now1, fs);
            LoadRun(first.session, stage, now2, fs).session.tables.facts == first.session.tables.facts
  {
    var datePath := BlobNaming.DatePath(now1.date);
    var temp := VideoSource(stage, datePath);
    var first := LoadRun(s, stage, now1, fs);
    CleanLoadTables(s, stage, now1, fs);
    CleanLoadTables(first.session, stage, now2, fs);
    var t := s.tables;
    var staged := InsertStaging(t.staging, temp, now1);
    var again := InsertStaging([], temp, now2);
    forall x | x in FactSource(again) ensures x in FactSource(staged) {
      RestagedFactIsKnown(t.staging, temp, now1, now2, x);
    }
    MergeFactsAbsorbs(t.facts, staged, again);
  }

  class SnowflakeLoaderService {
    const db: Database
    var conn: Handle
    var cursor: Handle
    var log: seq<Event>

    constructor (db: Database)
      ensures this.db == db && conn == Unset && cursor == Unset && log == []
    {
      this.db := db;
      conn, cursor := Unset, Unset;
      log := [];
    }

    /** `connect`: the connection is kept once the connector call returns, even when a later
        step raises; the method then returns False. */
    method Connect(f: Fault) returns (ok: bool)
      modifies this
      ensures ok <==> !Raises(f, ConnectSteps)
      ensures conn == (if f == RaisesAt(0) then old(conn) else Open)
      ensures cursor == (if Raises(f, 2) then old(cursor) else Open)
      ensures log == old(log) + [if ok then Connected else ConnectFailed]
    {
      if f == RaisesAt(0) {
        log := log + [ConnectFailed];
        return false;
      }
      conn := Open;
      if f == RaisesAt(1) {
        log := log + [ConnectFailed];
        return false;
      }
      cursor := Open;
      if f == RaisesAt(2) || f == RaisesAt(3) {
        log := log + [ConnectFailed];
        return false;
      }
      log := log + [Connected];
      ok := true;
    }

    /** `_load_videos_to_staging` */
    method LoadVideosToStaging(stage: seq<StageFile>, datePath: string, now: BlobNaming.DateTime, f: Fault) returns (raised: bool)
      requires cursor == Open
      modifies db
      ensures raised <==> Raises(f, |Statements(Staging, stage, datePath, now)|)
      ensures db.State() == Partial(old(db.State()), Statements(Staging, stage, datePath, now), f)
      ensures db.committed == old(db.committed)
    {
      ghost var stmts := Statements(Staging, stage, datePath, now);
      ghost var s := db.State();
      assert stmts[..0] == [];
      if f == RaisesAt(0) {
        return true;
      }
      // CREATE TABLE IF NOT EXISTS RAW.STG_VIDEOS: the table is there already
      ApplyNext(s, stmts, 0);
      if f == RaisesAt(1) {
        return true;
      }
      db.CreateTempVideos(stage, datePath);
      ApplyNext(s, stmts, 1);
      if f == RaisesAt(2) {
        return true;
      }
      db.InsertIntoStaging(now);
      ApplyNext(s, stmts, 2);
      assert stmts[..3] == stmts;
      raised := false;
    }

    /** `_load_channels` */
    method LoadChannels(stage: seq<StageFile>, datePath: string, now: BlobNaming.DateTime, f: Fault) returns (raised: bool)
      requires cursor == Open
      modifies db
      ensures raised <==> Raises(f, |Statements(Channels, stage, datePath, now)|)
      ensures db.State() == Partial(old(db.State()), Statements(Channels, stage, datePath, now), f)
      ensures db.committed == old(db.committed)
    {
      ghost var stmts := Statements(Channels, stage, datePath, now);
      ghost var s := db.State();
      assert stmts[..0] == [];
      if f == RaisesAt(0) {
        return true;
      }
      db.CreateTempChannels(stage, datePath);
      ApplyNext(s, stmts, 0);
      if f == RaisesAt(1) {
        return true;
      }
      db.MergeIntoChannels(now);
      ApplyNext(s, stmts, 1);
      assert stmts[..2] == stmts;
      raised := false;
    }

    /** `_load_video_facts` */
    method LoadVideoFacts(stage: seq<StageFile>, datePath: string, now: BlobNaming.DateTime, f: Fault) returns (raised: bool)
      requires cursor == Open
      modifies db
      ensures raised <==> Raises(f, |Statements(Facts, stage, datePath, now)|)
      ensures db.State() == Partial(old(db.State()), Statements(Facts, stage, datePath, now), f)
      ensures db.committed == old(db.committed)
    {
      ghost var stmts := Statements(Facts, stage, datePath, now);
      ghost var s := db.State();
      assert stmts[..0] == [];
      if f == RaisesAt(0) {
        return true;
      }
      db.MergeIntoFacts();
      ApplyNext(s, stmts, 0);
      assert stmts[..1] == stmts;
      raised := false;
    }

    /** `_refresh_aggregations` */
    method RefreshAggregations(stage: seq<StageFile>, datePath: string, now: BlobNaming.DateTime, f: Fault) returns (raised: bool)
      requires cursor == Open
      modifies db
      ensures raised <==> Raises(f, |Statements(Aggregations, stage, datePath, now)|)
      ensures db.State() == Partial(old(db.State()), Statements(Aggregations, stage, datePath, now), f)
      ensures db.committed == old(db.committed)
    {
      ghost var stmts := Statements(Aggregations, stage, datePath, now);
      ghost var s := db.State();
      assert stmts[..0] == [];
      if f == RaisesAt(0) {
        return true;
      }
      // CREATE SCHEMA IF NOT EXISTS ANALYTICS and CREATE TABLE IF NOT EXISTS AGG_DAILY_BY_REGION:
      // both are there already
      ApplyNext(s, stmts, 0);
      if f == RaisesAt(1) {
        return true;
      }
      ApplyNext(s, stmts, 1);
      if f == RaisesAt(2) {
        return true;
      }
      db.DeleteAggregates(now.date);
      ApplyNext(s, stmts, 2);
      if f == RaisesAt(3) {
        return true;
      }
      db.InsertAggregates(now.date);
      ApplyNext(s, stmts, 3);
      assert stmts[..4] == stmts;
      raised := false;
    }

    /** `_cleanup_staging` */
    method CleanupStaging(stage: seq<StageFile>, datePath: string, now: BlobNaming.DateTime, f: Fault) returns (raised: bool)
      requires cursor == Open
      modifies db
      ensures raised <==> Raises(f, |Statements(Cleanup, stage, datePath, now)|)
      ensures db.State() == Partial(old(db.State()), Statements(Cleanup, stage, datePath, now), f)
      ensures db.committed == old(db.committed)
    {
      ghost var stmts := Statements(Cleanup, stage, datePath, now);
      ghost var s := db.State();
      assert stmts[..0] == [];
      if f == RaisesAt(0) {
        return true;
      }
      db.TruncateStaging();
      ApplyNext(s, stmts, 0);
      assert stmts[..1] == stmts;
      raised := false;
    }

    /** One `try` block of `load_todays_data`: the phase method and `conn.commit()`; on an
        exception, the error is logged and `conn.rollback()` runs. */
    method TryPhase(p: Phase, stage: seq<StageFile>, datePath: string, now: BlobNaming.DateTime, f: Fault) returns (failed: bool)
      requires cursor == Open && db.Clean()
      modifies this, db
      ensures var o := Attempt(old(db.State()), Statements(p, stage, datePath, now), f);
              failed == o.failed && db.State() == o.session
      ensures db.Clean()
      ensures log == old(log) + [if failed then PhaseFailed(p) else PhaseDone(p)]
      ensures conn == old(conn) && cursor == old(cursor)
    {
      var raised: bool;
      match p {
        case Staging => raised := LoadVideosToStaging(stage, datePath, now, f);
        case Channels => raised := LoadChannels(stage, datePath, now, f);
        case Facts => raised := LoadVideoFacts(stage, datePath, now, f);
        case Aggregations => raised := RefreshAggregations(stage, datePath, now, f);
        case Cleanup => raised := CleanupStaging(stage, datePath, now, f);
      }
      if !raised {
        if f == RaisesAt(|Statements(p, stage, datePath, now)|) {
          raised := true;  // the commit raises
        } else {
          db.Commit();
        }
      }
      if raised {
        log := log + [PhaseFailed(p)];
        db.Rollback();
      } else {
        log := log + [PhaseDone(p)];
      }
      failed := raised;
    }

    /** `load_todays_data` */
    method LoadTodaysData(stage: seq<StageFile>, now: BlobNaming.DateTime, fs: Faults) returns (ok: bool)
      requires db.Clean()
      modifies this, db
      ensures var r := LoadRun(old(db.State()), stage, now, fs);
              ok == r.ok && db.State() == r.session && log == old(log) + r.log
      ensures db.Clean()
      ensures !Raises(fs.connect, ConnectSteps) ==> conn == Closed && cursor == Closed
      ensures Raises(fs.connect, ConnectSteps) ==>
                conn == (if fs.connect.step == 0 then old(conn) else Open)
                && cursor == (if fs.connect.step < 2 then old(cursor) else Open)
    {
      ghost var log0 := log;
      var connected := Connect(fs.connect);
      if !connected {
        return false;
      }
      ghost var mid := log;
      ok := LoadPartition(stage, now, fs);
      ghost var r := RunPhases(old(db.State()), Phases, stage, BlobNaming.DatePath(now.date), now, fs);
      LogShape(log0, mid, log, Connected, LoadingFrom(BlobNaming.DatePath(now.date)), r.log);
    }

    /** `load_todays_data` once connected: the partition of `now`'s date is loaded, then
        `close` runs. */
    method LoadPartition(stage: seq<StageFile>, now: BlobNaming.DateTime, fs: Faults) returns (ok: bool)
      requires cursor == Open && conn == Open && db.Clean()
      modifies this, db
      ensures var datePath := BlobNaming.DatePath(now.date);
              var r := RunPhases(old(db.State()), Phases, stage, datePath, now, fs);
              ok == r.ok && db.State() == r.session && log == old(log) + [LoadingFrom(datePath)] + r.log
      ensures db.Clean()
      ensures conn == Closed && cursor == Closed
    {
      var datePath := BlobNaming.DatePath(now.date);
      log := log + [LoadingFrom(datePath)];
      ok := RunLoadPhases(stage, datePath, now, fs);
      Close();
    }

    /** The body of the outer `try` of `load_todays_data`: the five phase blocks in order. */
    method RunLoadPhases(stage: seq<StageFile>, datePath: string, now: BlobNaming.DateTime, fs: Faults) returns (ok: bool)
      requires cursor == Open && db.Clean()
      modifies this, db
      ensures var r := RunPhases(old(db.State()), Phases, stage, datePath, now, fs);
              ok == r.ok && db.State() == r.session && log == old(log) + r.log
      ensures db.Clean()
      ensures conn == old(conn) && cursor == old(cursor)
    {
      ghost var s0, log0 := db.State(), log;
      RunPhasesFirst(s0, Phases, stage, datePath, now, fs);
      var failed := TryPhase(Staging, stage, datePath, now, fs.staging);
      if failed {
        return false;
      }
      ghost var s1, log1 := db.State(), log;
      assert Phases[1..] == [Channels, Facts, Aggregations, Cleanup];
      RunPhasesFirst(s1, Phases[1..], stage, datePath, now, fs);
      failed := TryPhase(Channels, stage, datePath, now, fs.channels);
      if failed {
        LogStep(log0, log1, PhaseDone(Staging), [PhaseFailed(Channels)]);
        return false;
      }
      ghost var s2, log2 := db.State(), log;
      assert Phases[1..][1..] == [Facts, Aggregations, Cleanup];
      RunPhasesFirst(s2, Phases[1..][1..], stage, datePath, now, fs);
      failed := TryPhase(Facts, stage, datePath, now, fs.facts);
      if failed {
        LogStep(log1, log2, PhaseDone(Channels), [PhaseFailed(Facts)]);
        LogStep(log0, log1, PhaseDone(Staging), [PhaseDone(Channels), PhaseFailed(Facts)]);
        return false;
      }
      ghost var log3 := log;
      ok := FinishLoad(stage, datePath, now, fs);
      ghost var rest := log[|log3|..];
      assert log == log3 + rest;
      LogStep(log2, log3, PhaseDone(Facts), rest);
      LogStep(log1, log2, PhaseDone(Channels), [PhaseDone(Facts)] + rest);
      LogStep(log0, log1, PhaseDone(Staging), [PhaseDone(Channels)] + ([PhaseDone(Facts)] + rest));
    }

    /** Steps 4 and 5 of `load_todays_data`: neither is critical, so a failure is logged and the
        load goes on. */
    method FinishLoad(stage: seq<StageFile>, datePath: string, now: BlobNaming.DateTime, fs: Faults) returns (ok: bool)
      requires cursor == Open && db.Clean()
      modifies this, db
      ensures var r := RunPhases(old(db.State()), [Aggregations, Cleanup], stage, datePath, now, fs);
              ok == r.ok && db.State() == r.session && log == old(log) + r.log
      ensures db.Clean()
      ensures conn == old(conn) && cursor == old(cursor)
    {
      ghost var s3, log0 := db.State(), log;
      RunPhasesFirst(s3, [Aggregations, Cleanup], stage, datePath, now, fs);
      var failed := TryPhase(Aggregations, stage, datePath, now, fs.aggregations);
      ghost var s4 := db.State();
      assert [Aggregations, Cleanup][1..] == [Cleanup];
      RunPhasesFirst(s4, [Cleanup], stage, datePath, now, fs);
      failed := TryPhase(Cleanup, stage, datePath, now, fs.cleanup);
      assert [Cleanup][1..] == [];
      log := log + [Finished];
      ok := true;
    }

    /** `close`: each handle that was assigned is closed. */
    method Close()
      modifies this
      ensures cursor == (if old(cursor) == Unset then Unset else Closed)
      ensures conn == (if old(conn) == Unset then Unset else Closed)
      ensures log == old(log)
    {
      if cursor != Unset {
        cursor := Closed;
      }
      if conn != Unset {
        conn := Closed;
      }
    }
  }
}
