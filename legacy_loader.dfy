/** `SnowflakeLoader` of src/snowflake_loader.py, the older loader: the same five phases run
    back to back with no commit and no rollback, so each statement that completes stays done;
    the first exception skips everything after it and the load returns False. Its fact load is
    a plain INSERT. `main` turns the outcome into a process exit code. */
module LegacyLoader {
  import opened Wrappers
  import BlobNaming
  import opened Warehouse
  import opened Loading
  import Settings

  /** `__init__` opens the connection in four steps that may raise: the connector call,
      `cursor()`, `USE DATABASE` and `USE SCHEMA`. */
  const ConnectSteps: nat := 4

  /** `print_summary` runs two queries, either of which may raise. */
  const SummarySteps: nat := 2

  /** `close` closes the cursor, then the connection; either may raise. */
  const CloseSteps: nat := 2

  /** The statements each step method issues. */
  function Statements(p: Phase, stage: seq<StageFile>, datePath: string, now: BlobNaming.DateTime): seq<Statement> {
    match p
    case Staging => [CreateStagingTable, CreateTempVideos(stage, datePath), InsertIntoStaging(now)]
    case Channels => [CreateTempChannels(stage, datePath), MergeIntoChannels(now)]
    case Facts => [InsertIntoFacts]
    case Aggregations => [DeleteAggregates(now.date), InsertAggregates(now.date)]
    case Cleanup => [TruncateStaging]
  }

  /** How many statements each step issues. */
  function Size(p: Phase): nat {
    match p
    case Staging => 3
    case Channels => 2
    case Facts => 1
    case Aggregations => 2
    case Cleanup => 1
  }

  lemma StatementsSize(p: Phase, stage: seq<StageFile>, datePath: string, now: BlobNaming.DateTime)
    ensures |Statements(p, stage, datePath, now)| == Size(p)
  {
  }

  /** Step `p` raises under `fs`. */
  predicate Fails(fs: Faults, p: Phase) {
    Raises(FaultOf(fs, p), Size(p))
  }

  /** The statements of several steps, one after another. */
  function Script(phases: seq<Phase>, stage: seq<StageFile>, datePath: string, now: BlobNaming.DateTime): seq<Statement> {
    if phases == [] then [] else Statements(phases[0], stage, datePath, now) + Script(phases[1..], stage, datePath, now)
  }

  /** The result of `load_todays_data` and the session it leaves. */
  datatype Run = Run(ok: bool, session: Session)

  /** The steps from the given one on, then `print_summary`: a step that raises keeps what its
      completed statements did and ends the run with False. */
  function RunSteps(s: Session, phases: seq<Phase>, stage: seq<StageFile>, datePath: string, now: BlobNaming.DateTime,
                    fs: Faults, summary: Fault): Run
    decreases |phases|
  {
    if phases == [] then Run(!Raises(summary, SummarySteps), s)
    else
      var p := phases[0];
      var stmts := Statements(p, stage, datePath, now);
      var after := Partial(s, stmts, FaultOf(fs, p));
      if Raises(FaultOf(fs, p), |stmts|) then Run(false, after)
      else RunSteps(after, phases[1..], stage, datePath, now, fs, summary)
  }

  /** `load_todays_data` at time `now`. */
  function LoadRun(s: Session, stage: seq<StageFile>, now: BlobNaming.DateTime, fs: Faults, summary: Fault): Run {
    RunSteps(s, Phases, stage, BlobNaming.DatePath(now.date), now, fs, summary)
  }

  /** The exit code of `main`, and the session it leaves. */
  datatype Exit = Exit(code: int, session: Session)

  /** `main`: validate, connect, load, close; any exception on the way gives 1. */
  function MainRun(valid: bool, s: Session, stage: seq<StageFile>, now: BlobNaming.DateTime, fs: Faults, summary: Fault,
                   close: Fault): Exit
  {
    if !valid || Raises(fs.connect, ConnectSteps) then Exit(1, s)
    else
      var r := LoadRun(s, stage, now, fs, summary);
      Exit(if r.ok && !Raises(close, CloseSteps) then 0 else 1, r.session)
  }

  // ---------------------------------------------------------------------------------------
  // Properties of a run

  /** The load returns True iff no step and no summary query raises. */
  lemma {:induction false} RunStepsOk(s: Session, phases: seq<Phase>, stage: seq<StageFile>, datePath: string,
                                      now: BlobNaming.DateTime, fs: Faults, summary: Fault)
    ensures RunSteps(s, phases, stage, datePath, now, fs, summary).ok <==>
              (forall q :: q in phases ==> !Fails(fs, q)) && !Raises(summary, SummarySteps)
    decreases |phases|
  {
    if phases != [] {
      var p := phases[0];
      var stmts := Statements(p, stage, datePath, now);
      StatementsSize(p, stage, datePath, now);
      assert Fails(fs, p) <==> Raises(FaultOf(fs, p), |stmts|);
      assert forall q :: q in phases <==> q == p || q in phases[1..];
      if !Fails(fs, p) {
        RunStepsOk(Partial(s, stmts, FaultOf(fs, p)), phases[1..], stage, datePath, now, fs, summary);
      }
    }
  }

  lemma LoadSucceedsIff(s: Session, stage: seq<StageFile>, now: BlobNaming.DateTime, fs: Faults, summary: Fault)
    ensures LoadRun(s, stage, now, fs, summary).ok <==>
              !Fails(fs, Staging) && !Fails(fs, Channels) && !Fails(fs, Facts) && !Fails(fs, Aggregations)
              && !Fails(fs, Cleanup) && !Raises(summary, SummarySteps)
  {
    RunStepsOk(s, Phases, stage, BlobNaming.DatePath(now.date), now, fs, summary);
    assert forall q :: q in Phases <==> q == Staging || q == Channels || q == Facts || q == Aggregations || q == Cleanup;
  }

  /** When step `i` is the first to raise, the run returns False, no later step runs, and the
      session keeps all that the earlier steps did and the statements of step `i` that
      completed before the exception: nothing is rolled back. */
  lemma {:induction false} FirstFailureAborts(s: Session, phases: seq<Phase>, stage: seq<StageFile>, datePath: string,
                                              now: BlobNaming.DateTime, fs: Faults, summary: Fault, i: nat)
    requires i < |phases| && Fails(fs, phases[i])
    requires forall j :: 0 <= j < i ==> !Fails(fs, phases[j])
    ensures var r := RunSteps(s, phases, stage, datePath, now, fs, summary);
            && !r.ok
            && r.session == Partial(Apply(s, Script(phases[..i], stage, datePath, now)),
                                    Statements(phases[i], stage, datePath, now), FaultOf(fs, phases[i]))
    decreases i
  {
    var p := phases[0];
    var stmts := Statements(p, stage, datePath, now);
    StatementsSize(p, stage, datePath, now);
    if i == 0 {
      assert phases[..0] == [];
    } else {
      var tail := phases[1..];
      assert Partial(s, stmts, FaultOf(fs, p)) == Apply(s, stmts) by {
        assert stmts[..|stmts|] == stmts;
      }
      FirstFailureAborts(Apply(s, stmts), tail, stage, datePath, now, fs, summary, i - 1);
      assert phases[..i][0] == p && phases[..i][1..] == tail[..i - 1];
      assert Script(phases[..i], stage, datePath, now) == stmts + Script(tail[..i - 1], stage, datePath, now);
      ApplyAppend(s, stmts, Script(tail[..i - 1], stage, datePath, now));
    }
  }

  /** With no rollback, a failed fact load leaves the day's rows in staging and the day's
      channels upserted. */
  lemma FailedFactLoadKeepsEarlierSteps(s: Session, stage: seq<StageFile>, now: BlobNaming.DateTime, fs: Faults,
                                        summary: Fault)
    requires !Fails(fs, Staging) && !Fails(fs, Channels) && Fails(fs, Facts)
    ensures var datePath := BlobNaming.DatePath(now.date);
            var t := s.tables;
            var r := LoadRun(s, stage, now, fs, summary);
            && !r.ok
            && r.session.tables
               == t.(staging := InsertStaging(t.staging, VideoSource(stage, datePath), now),
                     channels := UpsertChannels(t.channels, LatestChannels(ChannelCandidates(stage, datePath)), now))
  {
    var datePath := BlobNaming.DatePath(now.date);
    assert Phases[0] == Staging && Phases[1] == Channels && Phases[2] == Facts;
    FirstFailureAborts(s, Phases, stage, datePath, now, fs, summary, 2);
    var st := Statements(Staging, stage, datePath, now);
    var ch := Statements(Channels, stage, datePath, now);
    assert Phases[..2] == [Staging, Channels];
    assert [Staging, Channels][1..] == [Channels] && [Channels][1..] == [];
    assert Script([Channels], stage, datePath, now) == ch + [];
    assert Script(Phases[..2], stage, datePath, now) == st + (ch + []);
    assert ch + [] == ch;
    ApplyAppend(s, st, ch);
    var s1 := Apply(s, st);
    PhaseEffect(Staging, s, stage, datePath, now);
    PhaseEffect(Channels, s1, stage, datePath, now);
    assert [InsertIntoFacts][..0] == [];
  }

  /** The tables after step `p` has run in full, given the tables before it. */
  function PhaseTables(p: Phase, t: Tables, stage: seq<StageFile>, datePath: string, now: BlobNaming.DateTime): Tables {
    match p
    case Staging => t.(staging := InsertStaging(t.staging, VideoSource(stage, datePath), now))
    case Channels => t.(channels := UpsertChannels(t.channels, LatestChannels(ChannelCandidates(stage, datePath)), now))
    case Facts => t.(facts := InsertFacts(t.facts, t.staging))
    case Aggregations => t.(aggregates := RefreshAggregates(t.aggregates, t.facts, t.channels, now.date))
    case Cleanup => t.(staging := [])
  }

  /** Each step, run in full, changes the tables as `PhaseTables` says, whatever the
      temporary tables held before it. */
  lemma PhaseEffect(p: Phase, s: Session, stage: seq<StageFile>, datePath: string, now: BlobNaming.DateTime)
    ensures Apply(s, Statements(p, stage, datePath, now)).tables == PhaseTables(p, s.tables, stage, datePath, now)
  {
    match p
    case Staging =>
      ApplyThree(s, CreateStagingTable, CreateTempVideos(stage, datePath), InsertIntoStaging(now));
    case Channels =>
      ApplyTwo(s, CreateTempChannels(stage, datePath), MergeIntoChannels(now));
    case Facts =>
      ApplyOne(s, InsertIntoFacts);
    case Aggregations =>
      ApplyTwo(s, DeleteAggregates(now.date), InsertAggregates(now.date));
      RefreshSteps(s, now.date);
    case Cleanup =>
      ApplyOne(s, TruncateStaging);
  }

  /** The tables after several steps, each run in full. */
  function RunTables(t: Tables, phases: seq<Phase>, stage: seq<StageFile>, datePath: string, now: BlobNaming.DateTime): Tables
    decreases |phases|
  {
    if phases == [] then t
    else RunTables(PhaseTables(phases[0], t, stage, datePath, now), phases[1..], stage, datePath, now)
  }

  /** When no step raises, the run leaves the tables the steps compute one after another. */
  lemma {:induction false} CleanRunTables(s: Session, phases: seq<Phase>, stage: seq<StageFile>, datePath: string,
                                          now: BlobNaming.DateTime, fs: Faults, summary: Fault)
    requires forall j :: 0 <= j < |phases| ==> !Fails(fs, phases[j])
    ensures RunSteps(s, phases, stage, datePath, now, fs, summary).session.tables
            == RunTables(s.tables, phases, stage, datePath, now)
    decreases |phases|
  {
    if phases != [] {
      var p := phases[0];
      var stmts := Statements(p, stage, datePath, now);
      StatementsSize(p, stage, datePath, now);
      assert !Fails(fs, phases[0]);
      assert stmts[..|stmts|] == stmts;
      PhaseEffect(p, s, stage, datePath, now);
      CleanRunTables(Apply(s, stmts), phases[1..], stage, datePath, now, fs, summary);
    }
  }

  /** The full run in which nothing raises: the facts of the staging table, old rows
      included, are appended to the fact table with no check for ids it holds, and staging
      ends empty. */
  lemma CleanRunFacts(s: Session, stage: seq<StageFile>, now: BlobNaming.DateTime, fs: Faults, summary: Fault)
    requires !Fails(fs, Staging) && !Fails(fs, Channels) && !Fails(fs, Facts) && !Fails(fs, Aggregations)
             && !Fails(fs, Cleanup)
    ensures var t := s.tables;
            var staged := InsertStaging(t.staging, VideoSource(stage, BlobNaming.DatePath(now.date)), now);
            var r := LoadRun(s, stage, now, fs, summary).session.tables;
            r.facts == InsertFacts(t.facts, staged) && r.staging == []
  {
    var datePath := BlobNaming.DatePath(now.date);
    assert forall j :: 0 <= j < |Phases| ==> !Fails(fs, Phases[j]) by {
      assert Phases == [Staging, Channels, Facts, Aggregations, Cleanup];
    }
    CleanRunTables(s, Phases, stage, datePath, now, fs, summary);
    var t1 := PhaseTables(Staging, s.tables, stage, datePath, now);
    var t2 := PhaseTables(Channels, t1, stage, datePath, now);
    var t3 := PhaseTables(Facts, t2, stage, datePath, now);
    var t4 := PhaseTables(Aggregations, t3, stage, datePath, now);
    var t5 := PhaseTables(Cleanup, t4, stage, datePath, now);
    assert RunTables(s.tables, Phases, stage, datePath, now) == t5 by {
      assert Phases[1..] == [Channels, Facts, Aggregations, Cleanup];
      assert Phases[1..][1..] == [Facts, Aggregations, Cleanup];
      assert Phases[1..][1..][1..] == [Aggregations, Cleanup];
      assert [Aggregations, Cleanup][1..] == [Cleanup] && [Cleanup][1..] == [];
      assert RunTables(t5, [], stage, datePath, now) == t5;
      assert RunTables(t4, [Cleanup], stage, datePath, now) == t5;
      assert RunTables(t3, [Aggregations, Cleanup], stage, datePath, now) == t5;
      assert RunTables(t2, [Facts, Aggregations, Cleanup], stage, datePath, now) == t5;
      assert RunTables(t1, [Channels, Facts, Aggregations, Cleanup], stage, datePath, now) == t5;
    }
  }

  /** Loading the same day's files twice appends their video rows twice: a second clean run
      adds to the fact table every fact the day's files offer, though all are already there. */
  lemma SecondLoadDuplicatesFacts(s: Session, stage: seq<StageFile>, now1: BlobNaming.DateTime,
                                  now2: BlobNaming.DateTime, fs: Faults, summary: Fault)
    requires !Fails(fs, Staging) && !Fails(fs, Channels) && !Fails(fs, Facts) && !Fails(fs, Aggregations)
             && !Fails(fs, Cleanup)
    requires now1.date == now2.date
    ensures var first := LoadRun(s, stage, now1, fs, summary).session;
            var again := FactSource(InsertStaging([], VideoSource(stage, BlobNaming.DatePath(now2.date)), now2));
            LoadRun(first, stage, now2, fs, summary).session.tables.facts == first.tables.facts + again
  {
    var first := LoadRun(s, stage, now1, fs, summary).session;
    CleanRunFacts(s, stage, now1, fs, summary);
    CleanRunFacts(first, stage, now2, fs, summary);
  }

  // ---------------------------------------------------------------------------------------
  // The loader object

  class SnowflakeLoader {
    const db: Database
    var conn: Handle
    var cursor: Handle

    /** The object before `__init__` opens its connection. */
    constructor (db: Database)
      ensures this.db == db && conn == Unset && cursor == Unset
    {
      this.db := db;
      conn, cursor := Unset, Unset;
    }

    /** The connection steps of `__init__`; False when one of them raises. */
    method Connect(f: Fault) returns (ok: bool)
      modifies this
      ensures ok <==> !Raises(f, ConnectSteps)
      ensures conn == (if f == RaisesAt(0) then old(conn) else Open)
      ensures cursor == (if Raises(f, 2) then old(cursor) else Open)
    {
      if f == RaisesAt(0) {
        return false;
      }
      conn := Open;
      if f == RaisesAt(1) {
        return false;
      }
      cursor := Open;
      ok := !(f == RaisesAt(2) || f == RaisesAt(3));
    }

    /** `load_videos_to_staging` */
    method LoadVideosToStaging(stage: seq<StageFile>, datePath: string, now: BlobNaming.DateTime, f: Fault)
      returns (raised: bool)
      requires cursor == Open
      modifies db
      ensures raised <==> Raises(f, Size(Staging))
      ensures db.State() == Partial(old(db.State()), Statements(Staging, stage, datePath, now), f)
      ensures db.committed == old(db.committed)
    {
      ghost var stmts := Statements(Staging, stage, datePath, now);
      ghost var s := db.State();
      assert stmts[..0] == [];
      if f == RaisesAt(0) {
        return true;
      }
      // CREATE TABLE IF NOT EXISTS RAW.STG_VIDEOS: the table is there already
      ApplyNext(s, stmts, 0);
      if f == RaisesAt(1) {
        return true;
      }
      db.CreateTempVideos(stage, datePath);
      ApplyNext(s, stmts, 1);
      if f == RaisesAt(2) {
        return true;
      }
      db.InsertIntoStaging(now);
      ApplyNext(s, stmts, 2);
      assert stmts[..3] == stmts;
      raised := false;
    }

    /** `load_channels` */
    method LoadChannels(stage: seq<StageFile>, datePath: string, now: BlobNaming.DateTime, f: Fault)
      returns (raised: bool)
      requires cursor == Open
      modifies db
      ensures raised <==> Raises(f, Size(Channels))
      ensures db.State() == Partial(old(db.State()), Statements(Channels, stage, datePath, now), f)
      ensures db.committed == old(db.committed)
    {
      ghost var stmts := Statements(Channels, stage, datePath, now);
      ghost var s := db.State();
      assert stmts[..0] == [];
      if f == RaisesAt(0) {
        return true;
      }
      db.CreateTempChannels(stage, datePath);
      ApplyNext(s, stmts, 0);
      if f == RaisesAt(1) {
        return true;
      }
      db.MergeIntoChannels(now);
      ApplyNext(s, stmts, 1);
      assert stmts[..2] == stmts;
      raised := false;
    }

    /** `load_video_facts`: a plain INSERT of every staged video. */
    method LoadVideoFacts(stage: seq<StageFile>, datePath: string, now: BlobNaming.DateTime, f: Fault)
      returns (raised: bool)
      requires cursor == Open
      modifies db
      ensures raised <==> Raises(f, Size(Facts))
      ensures db.State() == Partial(old(db.State()), Statements(Facts, stage, datePath, now), f)
      ensures db.committed == old(db.committed)
    {
      ghost var stmts := Statements(Facts, stage, datePath, now);
      ghost var s := db.State();
      assert stmts[..0] == [];
      if f == RaisesAt(0) {
        return true;
      }
      db.InsertIntoFacts();
      ApplyNext(s, stmts, 0);
      assert stmts[..1] == stmts;
      raised := false;
    }

    /** `refresh_aggregations` */
    method RefreshAggregations(stage: seq<StageFile>, datePath: string, now: BlobNaming.DateTime, f: Fault)
      returns (raised: bool)
      requires cursor == Open
      modifies db
      ensures raised <==> Raises(f, Size(Aggregations))
      ensures db.State() == Partial(old(db.State()), Statements(Aggregations, stage, datePath, now), f)
      ensures db.committed == old(db.committed)
    {
      ghost var stmts := Statements(Aggregations, stage, datePath, now);
      ghost var s := db.State();
      assert stmts[..0] == [];
      if f == RaisesAt(0) {
        return true;
      }
      db.DeleteAggregates(now.date);
      ApplyNext(s, stmts, 0);
      if f == RaisesAt(1) {
        return true;
      }
      db.InsertAggregates(now.date);
      ApplyNext(s, stmts, 1);
      assert stmts[..2] == stmts;
      raised := false;
    }

    /** `cleanup_staging` */
    method CleanupStaging(stage: seq<StageFile>, datePath: string, now: BlobNaming.DateTime, f: Fault)
      returns (raised: bool)
      requires cursor == Open
      modifies db
      ensures raised <==> Raises(f, Size(Cleanup))
      ensures db.State() == Partial(old(db.State()), Statements(Cleanup, stage, datePath, now), f)
      ensures db.committed == old(db.committed)
    {
      ghost var stmts := Statements(Cleanup, stage, datePath, now);
      ghost var s := db.State();
      assert stmts[..0] == [];
      if f == RaisesAt(0) {
        return true;
      }
      db.TruncateStaging();
      ApplyNext(s, stmts, 0);
      assert stmts[..1] == stmts;
      raised := false;
    }

    /** `print_summary`: two queries, no change to any table. */
    method PrintSummary(f: Fault) returns (raised: bool)
      requires cursor == Open
      ensures raised <==> Raises(f, SummarySteps)
    {
      raised := f == RaisesAt(0) || f == RaisesAt(1);
    }

    /** `load_todays_data`: the five steps, then the summary; the first exception ends the
        load with False and nothing is undone. */
    method LoadTodaysData(stage: seq<StageFile>, now: BlobNaming.DateTime, fs: Faults, summary: Fault)
      returns (ok: bool)
      requires cursor == Open
      modifies db
      ensures var r := LoadRun(old(db.State()), stage, now, fs, summary);
              ok == r.ok && db.State() == r.session
      ensures db.committed == old(db.committed)
    {
      var datePath := BlobNaming.DatePath(now.date);
      ghost var s0 := db.State();
      StatementsSize(Staging, stage, datePath, now);
      var raised := LoadVideosToStaging(stage, datePath, now, fs.staging);
      if raised {
        return false;
      }
      assert Phases[1..] == [Channels, Facts, Aggregations, Cleanup];
      StatementsSize(Channels, stage, datePath, now);
      raised := LoadChannels(stage, datePath, now, fs.channels);
      if raised {
        return false;
      }
      assert Phases[1..][1..] == [Facts, Aggregations, Cleanup];
      StatementsSize(Facts, stage, datePath, now);
      raised := LoadVideoFacts(stage, datePath, now, fs.facts);
      if raised {
        return false;
      }
      assert Phases[1..][1..][1..] == [Aggregations, Cleanup];
      StatementsSize(Aggregations, stage, datePath, now);
      raised := RefreshAggregations(stage, datePath, now, fs.aggregations);
      if raised {
        return false;
      }
      assert [Aggregations, Cleanup][1..] == [Cleanup] && [Cleanup][1..] == [];
      StatementsSize(Cleanup, stage, datePath, now);
      raised := CleanupStaging(stage, datePath, now, fs.cleanup);
      if raised {
        return false;
      }
      raised := PrintSummary(summary);
      ok := !raised;
    }

    /** `close`: the cursor, then the connection; an exception stops it where it is. */
    method Close(f: Fault) returns (raised: bool)
      modifies this
      ensures raised <==> Raises(f, CloseSteps)
      ensures cursor == (if f == RaisesAt(0) then old(cursor) else Closed)
      ensures conn == (if Raises(f, CloseSteps) then old(conn) else Closed)
    {
      if f == RaisesAt(0) {
        return true;
      }
      cursor := Closed;
      if f == RaisesAt(1) {
        return true;
      }
      conn := Closed;
      raised := false;
    }
  }

  /** `main`: returns 0 when validation, the connection, the load and `close` all succeed, and
      1 otherwise. `close` runs exactly when the loader was built, since `load_todays_data`
      catches its own exceptions; a connection that fails part-way is never closed. */
  method LoaderMain(config: Settings.Config, db: Database, stage: seq<StageFile>, now: BlobNaming.DateTime,
                    fs: Faults, summary: Fault, close: Fault) returns (code: int, loader: SnowflakeLoader?)
    modifies db
    ensures var valid := IsSetAll(config);
            var e := MainRun(valid, old(db.State()), stage, now, fs, summary, close);
            code == e.code && db.State() == e.session
    ensures loader == null <==> !IsSetAll(config)
    ensures loader != null && !Raises(fs.connect, ConnectSteps) ==>
              loader.cursor == (if close == RaisesAt(0) then Open else Closed)
              && loader.conn == (if Raises(close, CloseSteps) then Open else Closed)
    ensures loader != null && Raises(fs.connect, ConnectSteps) ==>
              loader.conn == (if fs.connect == RaisesAt(0) then Unset else Open)
  {
    var validated := config.Validate();
    if validated.Failure? {
      return 1, null;
    }
    loader := new SnowflakeLoader(db);
    var connected := loader.Connect(fs.connect);
    if !connected {
      return 1, loader;
    }
    var success := loader.LoadTodaysData(stage, now, fs, summary);
    var raised := loader.Close(close);
    code := if success && !raised then 0 else 1;
  }

  /** The three settings `Config.validate` checks. */
  predicate IsSetAll(config: Settings.Config)
    reads config
  {
    Settings.IsSet(config.youtubeApiKey) && Settings.IsSet(config.azureConnectionString)
    && Settings.IsSet(config.snowflakeUser)
  }

  /** `main` exits with 0 iff the three settings are set, the connection opens, every step and
      the summary complete, and `close` completes. */
  lemma MainSucceedsIff(valid: bool, s: Session, stage: seq<StageFile>, now: BlobNaming.DateTime, fs: Faults,
                        summary: Fault, close: Fault)
    ensures MainRun(valid, s, stage, now, fs, summary, close).code == 0 <==>
              valid && !Raises(fs.connect, ConnectSteps)
              && !Fails(fs, Staging) && !Fails(fs, Channels) && !Fails(fs, Facts) && !Fails(fs, Aggregations)
              && !Fails(fs, Cleanup) && !Raises(summary, SummarySteps) && !Raises(close, CloseSteps)
    ensures MainRun(valid, s, stage, now, fs, summary, close).code in {0, 1}
  {
    LoadSucceedsIff(s, stage, now, fs, summary);
  }
}
