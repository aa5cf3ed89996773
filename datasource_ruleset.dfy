/** The migration of the rule's stored `ssl` setting: older rules stored a
    boolean or a host name string, current ones a tagged pair. */
module DatasourceRuleset {
  import opened PyBase
  import AgentCommand

  /** The Python values a stored rule can hold under the `ssl` key. */
  datatype PyValue =
    | PyNone
    | PyBool(b: bool)
    | PyInt(i: int)
    | PyStr(s: string)
    | PyList(elements: seq<PyValue>)
    | PyTuple(items: seq<PyValue>)

  /** `_migrate_ssl`: a tuple is kept as it is, False and True become the
      "deactivated" and "hostname" pairs, a string becomes the
      "custom_hostname" pair, and anything else raises TypeError. The
      patterns `False` and `True` match only the booleans, not 0 and 1. */
  function MigrateSsl(value: PyValue): (r: Try<PyValue>)
    ensures r.Return? ==> r.value.PyTuple?
    ensures value.PyTuple? ==> r == Return(value)
    ensures r.Raise? <==> !(value.PyTuple? || value.PyBool? || value.PyStr?)
    ensures r.Raise? ==> r.error == TypeError
  {
    match value
    case PyTuple(_) => Return(value)
    case PyBool(false) => Return(PyTuple([PyStr("deactivated"), PyNone]))
    case PyBool(true) => Return(PyTuple([PyStr("hostname"), PyNone]))
    case PyStr(s) => Return(PyTuple([PyStr("custom_hostname"), PyStr(s)]))
    case _ => Raise(TypeError)
  }

  /** Migrating a migrated value changes nothing. */
  lemma MigrateSslIdempotent(value: PyValue)
    requires MigrateSsl(value).Return?
    ensures MigrateSsl(MigrateSsl(value).value) == MigrateSsl(value)
  {
  }

  /** The pair a validated `ssl` setting is stored as. */
  function SslValue(ssl: AgentCommand.Ssl): PyValue {
    match ssl
    case Deactivated => PyTuple([PyStr("deactivated"), PyNone])
    case Hostname => PyTuple([PyStr("hostname"), PyNone])
    case CustomHostname(h) => PyTuple([PyStr("custom_hostname"), PyStr(h)])
  }

  /** The `ssl` field of `Params` accepts exactly these three pairs. */
  function SslOfValue(value: PyValue): (r: Option<AgentCommand.Ssl>)
    ensures r.Some? ==> SslValue(r.value) == value
  {
    if value == PyTuple([PyStr("deactivated"), PyNone]) then Some(AgentCommand.Deactivated)
    else if value == PyTuple([PyStr("hostname"), PyNone]) then Some(AgentCommand.Hostname)
    else if value.PyTuple? && |value.items| == 2 && value.items[0] == PyStr("custom_hostname") && value.items[1].PyStr? then
      Some(AgentCommand.CustomHostname(value.items[1].s))
    else None
  }

  /** Each legacy value migrates to the pair of the setting it meant, and
      that pair is valid. */
  lemma MigrateLegacyValues(value: PyValue)
    requires value.PyBool? || value.PyStr?
    ensures MigrateSsl(value).Return?
    ensures value.PyBool? ==>
      SslOfValue(MigrateSsl(value).value) == Some(if value.b then AgentCommand.Hostname else AgentCommand.Deactivated)
    ensures value.PyStr? ==> SslOfValue(MigrateSsl(value).value) == Some(AgentCommand.CustomHostname(value.s))
  {
  }

  /** Every valid setting is left unchanged by the migration and reads back
      as itself. */
  lemma MigrateValidSetting(ssl: AgentCommand.Ssl)
    ensures MigrateSsl(SslValue(ssl)) == Return(SslValue(ssl))
    ensures SslOfValue(SslValue(ssl)) == Some(ssl)
  {
  }
}
