/** What both Snowflake loaders share: the five phases of a daily load, the state of a
    connector handle, and the exceptions a run may meet, given as parameters. */
module Loading {
  import opened Warehouse

  /** A connector object (`conn` or `cursor`): not yet assigned, open, or closed. */
  datatype Handle = Unset | Open | Closed

  /** The five phases of `load_todays_data`, in the order both loaders run them. */
  datatype Phase = Staging | Channels | Facts | Aggregations | Cleanup

  const Phases: seq<Phase> := [Staging, Channels, Facts, Aggregations, Cleanup]

  /** Where an exception is raised during one run, if anywhere: one `Fault` for opening the
      connection and one per phase. */
  datatype Faults = Faults(
    connect: Fault,
    staging: Fault,
    channels: Fault,
    facts: Fault,
    aggregations: Fault,
    cleanup: Fault)

  function FaultOf(fs: Faults, p: Phase): Fault {
    match p
    case Staging => fs.staging
    case Channels => fs.channels
    case Facts => fs.facts
    case Aggregations => fs.aggregations
    case Cleanup => fs.cleanup
  }

  /** The session after a run of statements under `f`: those before the raising one complete. */
  function Partial(s: Session, stmts: seq<Statement>, f: Fault): Session {
    Apply(s, stmts[..Completed(f, |stmts|)])
  }
}
