/** The logger module's configuration: its four flags, the defaults and the
    alias registered for them, and the check applied to the logger binary's path. */
module LoggerFlags {
  import opened Wrappers

  /** The four fields of the `Flags` structure. */
  datatype Field = ExternalLoggerBinary | MesosFieldPrefix | StreamNameField | ExecutorInfoJsonField

  /** The values of the four fields, as the logger process keeps its own copy of them. */
  datatype FlagValues = FlagValues(
    externalLoggerBinary: string,
    mesosFieldPrefix: string,
    streamNameField: string,
    executorInfoJsonField: string)

  /** One registration made by `add`: the field it fills, the name it is loaded
      under, an optional second name, an optional default, and whether a
      validator is attached. */
  datatype FlagSpec = FlagSpec(
    field: Field,
    name: string,
    alias: Option<string>,
    default: Option<string>,
    validated: bool)

  // The binary's path has no default, a second name, and is validated.
  const BinaryFlag := FlagSpec(ExternalLoggerBinary, "external_logger_binary", Some("external_logger_script"), None, true)
  const PrefixFlag := FlagSpec(MesosFieldPrefix, "mesos_field_prefix", None, Some("MESOS_LOG_"), false)
  const StreamFlag := FlagSpec(StreamNameField, "stream_name_field", None, Some("STREAM"), false)
  const JsonFlag := FlagSpec(ExecutorInfoJsonField, "executor_info_json_field", None, Some("EXECUTORINFO_JSON"), false)

  /** The registrations in the order the `Flags` constructor makes them. */
  function FlagTable(): seq<FlagSpec>
  {
    [BinaryFlag, PrefixFlag, StreamFlag, JsonFlag]
  }

  function Get(values: FlagValues, field: Field): string
  {
    match field
    case ExternalLoggerBinary => values.externalLoggerBinary
    case MesosFieldPrefix => values.mesosFieldPrefix
    case StreamNameField => values.streamNameField
    case ExecutorInfoJsonField => values.executorInfoJsonField
  }

  /** The values after `add` has stored a registration's default, if it has one. */
  function ApplyDefault(values: FlagValues, spec: FlagSpec): (r: FlagValues)
    ensures forall f :: Get(r, f) == if f == spec.field && spec.default.Some? then spec.default.value else Get(values, f)
  {
    match spec.default
    case None => values
    case Some(d) =>
      match spec.field
      case ExternalLoggerBinary => values.(externalLoggerBinary := d)
      case MesosFieldPrefix => values.(mesosFieldPrefix := d)
      case StreamNameField => values.(streamNameField := d)
      case ExecutorInfoJsonField => values.(executorInfoJsonField := d)
  }

  /** A key loads a registration when it is the registration's name or its alias. */
  predicate Answers(spec: FlagSpec, key: string)
  {
    spec.name == key || spec.alias == Some(key)
  }

  /** The position of the first registration that a key loads, if any. */
  function Resolve(specs: seq<FlagSpec>, key: string): (r: Option<nat>)
    ensures r.Some? ==> r.value < |specs| && Answers(specs[r.value], key)
    ensures r.Some? ==> forall j :: 0 <= j < r.value ==> !Answers(specs[j], key)
    ensures r.None? <==> forall j :: 0 <= j < |specs| ==> !Answers(specs[j], key)
  {
    if |specs| == 0 then None
    else if Answers(specs[0], key) then Some(0)
    else
      match Resolve(specs[1..], key)
      case None => None
      case Some(i) => Some(i + 1)
  }

  /** Both the name and the alias of the binary's path load that one flag, which has no default. */
  lemma BinaryFlagNames()
    ensures Resolve(FlagTable(), "external_logger_binary") == Some(0)
    ensures Resolve(FlagTable(), "external_logger_script") == Some(0)
    ensures FlagTable()[0].field == ExternalLoggerBinary && FlagTable()[0].default == None
    ensures forall j :: 0 <= j < |FlagTable()| ==> (FlagTable()[j].validated <==> j == 0)
  {
  }

  /** The defaults the constructor leaves in the three other fields are found under their own names. */
  lemma DefaultsByName()
    ensures Resolve(FlagTable(), "mesos_field_prefix") == Some(1) && FlagTable()[1].default == Some("MESOS_LOG_")
    ensures Resolve(FlagTable(), "stream_name_field") == Some(2) && FlagTable()[2].default == Some("STREAM")
    ensures Resolve(FlagTable(), "executor_info_json_field") == Some(3) && FlagTable()[3].default == Some("EXECUTORINFO_JSON")
  {
    assert FlagTable()[1..][0] == PrefixFlag;
    assert FlagTable()[1..][1..][0] == StreamFlag;
    assert FlagTable()[1..][1..][1..][0] == JsonFlag;
  }

  /** The flag registry: the four fields of the structure and the registrations made so far. */
  class Flags {
    var externalLoggerBinary: string
    var mesosFieldPrefix: string
    var streamNameField: string
    var executorInfoJsonField: string
    var registered: seq<FlagSpec>

    function Values(): FlagValues
      reads this
    {
      FlagValues(externalLoggerBinary, mesosFieldPrefix, streamNameField, executorInfoJsonField)
    }

    /** Registers the four flags; every field with a default holds it afterwards,
        and the binary's path keeps the empty value of a fresh string. */
    constructor ()
      ensures registered == FlagTable()
      ensures Values() == FlagValues("", "MESOS_LOG_", "STREAM", "EXECUTORINFO_JSON")
    {
      externalLoggerBinary, mesosFieldPrefix, streamNameField, executorInfoJsonField := "", "", "", "";
      registered := [];
      new;
      Add(BinaryFlag);
      Add(PrefixFlag);
      Add(StreamFlag);
      Add(JsonFlag);
    }

    /** Appends a registration and stores its default in its field, if it has one. */
    method Add(spec: FlagSpec)
      modifies this
      ensures registered == old(registered) + [spec]
      ensures Values() == ApplyDefault(old(Values()), spec)
    {
      registered := registered + [spec];
      if spec.default.Some? {
        var d := spec.default.value;
        match spec.field
        case ExternalLoggerBinary => externalLoggerBinary := d;
        case MesosFieldPrefix => mesosFieldPrefix := d;
        case StreamNameField => streamNameField := d;
        case ExecutorInfoJsonField => executorInfoJsonField := d;
      }
    }
  }

  /** What the filesystem reports: the paths that exist, and the outcome the
      execute-permission check would give on each path (a yes/no answer, or an error). */
  datatype Filesystem = Filesystem(present: set<string>, access: string -> Result<bool, string>)

  /** The validator of the binary's path: `None` accepts it, `Some(message)` rejects it.
      The permission check is only consulted for a path that exists. */
  function ValidateExecutable(fs: Filesystem, path: string): (r: Option<string>)
    ensures r.None? <==> path in fs.present && fs.access(path) == Success(true)
    ensures path !in fs.present ==> r == Some("Cannot find: " + path)
  {
    if path !in fs.present then Some("Cannot find: " + path)
    else
      match fs.access(path)
      case Success(executable) => if executable then None else Some("Not executable by Mesos: " + path)
      case Failure(_) => Some("Cannot stat for access check: " + path)
  }

  /** An existing path the permission check refuses is rejected as not executable. */
  lemma RejectsNonExecutable(fs: Filesystem, path: string)
    requires path in fs.present && fs.access(path) == Success(false)
    ensures ValidateExecutable(fs, path) == Some("Not executable by Mesos: " + path)
  {
  }

  /** An existing path on which the permission check itself fails is rejected as unstattable. */
  lemma RejectsFailedAccessCheck(fs: Filesystem, path: string)
    requires path in fs.present && fs.access(path).Failure?
    ensures ValidateExecutable(fs, path) == Some("Cannot stat for access check: " + path)
  {
  }

  /** For a missing path the verdict does not depend on the permission check at
      all, not even on what it would say of that path: it is never consulted. */
  lemma MissingPathIgnoresAccess(fs: Filesystem, access: string -> Result<bool, string>, path: string)
    requires path !in fs.present
    ensures ValidateExecutable(fs, path) == ValidateExecutable(fs.(access := access), path)
  {
  }
}
