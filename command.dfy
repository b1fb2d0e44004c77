/** The base of every command: an id and execution metadata, each
    defaulted when the caller leaves it out.  The generated uuid and the
    current time are parameters. */
module Commands {
  import opened Wrappers

  /** Who ran a command; every spelling is a non-empty string. */
  datatype Executor = SystemExecutor | AnonymousExecutor | UserExecutor {
    function Name(): string {
      match this
      case SystemExecutor => "system"
      case AnonymousExecutor => "anonymous"
      case UserExecutor => "user"
    }
  }

  /** The metadata a caller may pass, any part of it missing. */
  datatype MetadataProps = MetadataProps(executor: Option<Executor>, timestamp: Option<int>, userId: Option<string>)

  /** The id and metadata a caller may pass. */
  datatype CommandProps = CommandProps(id: Option<string>, metadata: Option<MetadataProps>)

  datatype Metadata = Metadata(executor: Executor, timestamp: int, userId: Option<string>)

  datatype Command = Command(id: string, metadata: Metadata)

  /** `a || b` on an optional string: `b` when `a` is missing or "". */
  function OrText(a: Option<string>, b: string): string {
    if a.Some? && a.value != "" then a.value else b
  }

  /** `a || b` on an optional number: `b` when `a` is missing or 0. */
  function OrNumber(a: Option<int>, b: int): int {
    if a.Some? && a.value != 0 then a.value else b
  }

  /** `new Command(props)`: the given id unless it is missing or empty, the
      given executor unless missing ("anonymous" then), the given timestamp
      unless missing or 0 (the current time then), and the user id as
      given, missing included. */
  function NewCommand(props: CommandProps, uuid: string, now: int): (c: Command)
    ensures props.id.Some? && props.id.value != "" ==> c.id == props.id.value
    ensures props.id == None || props.id == Some("") ==> c.id == uuid
    ensures props.metadata == None ==> c.metadata == Metadata(AnonymousExecutor, now, None)
    ensures props.metadata.Some? ==>
              var m := props.metadata.value;
              && c.metadata.executor == m.executor.GetOr(AnonymousExecutor)
              && (m.timestamp == None || m.timestamp == Some(0) ==> c.metadata.timestamp == now)
              && (m.timestamp.Some? && m.timestamp.value != 0 ==> c.metadata.timestamp == m.timestamp.value)
              && c.metadata.userId == m.userId
  {
    var executor := if props.metadata.Some? then props.metadata.value.executor else None;
    var timestamp := if props.metadata.Some? then props.metadata.value.timestamp else None;
    var userId := if props.metadata.Some? then props.metadata.value.userId else None;
    Command(OrText(props.id, uuid),
            Metadata(if executor.Some? then executor.value else AnonymousExecutor, OrNumber(timestamp, now), userId))
  }

  /** The props that describe an existing command completely. */
  function PropsOf(c: Command): CommandProps {
    CommandProps(Some(c.id), Some(MetadataProps(Some(c.metadata.executor), Some(c.metadata.timestamp), c.metadata.userId)))
  }

  /** Rebuilding a command from its own id and metadata gives it back, as
      long as neither its id nor its timestamp is falsy; the generated id
      and the clock are then not consulted. */
  lemma RebuildRoundTrip(c: Command, uuid: string, now: int)
    requires c.id != "" && c.metadata.timestamp != 0
    ensures NewCommand(PropsOf(c), uuid, now) == c
  {
  }

  /** An empty id and a zero timestamp count as missing. */
  lemma FalsyValuesAreReplaced(uuid: string, now: int, userId: Option<string>)
    ensures NewCommand(CommandProps(Some(""), Some(MetadataProps(None, Some(0), userId))), uuid, now)
            == Command(uuid, Metadata(AnonymousExecutor, now, userId))
  {
  }
}
