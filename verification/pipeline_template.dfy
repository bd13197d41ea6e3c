/** Acceptance of pipeline templates and filling them in (parsePipelineTemplate and
    resolve of pipeline_template.go). Regular expressions of parameters are given as
    predicates; a pattern that does not compile is `None`. */
module PipelineTemplate {
  import opened Basics
  import opened PlaceholderGrammar

  const MAXIMUM_ARGUMENTS := 128
  const MAXIMUM_ARGUMENT_BYTES := 1024
  const SNAPSHOT_FILE := "/snapshot-%05d.jpg"
  const SNAPSHOT_DIR := "snapshotDir"
  const BUILTIN := {"width", "height", "fps", "rtpHost", "rtpPort", "payloadType", "snapshotDir"}

  datatype Input = Device | Stdin | OtherInput

  datatype Declared = Declared(pattern: Option<string -> bool>, default: Option<string>)

  datatype Document = Document(name: string, input: Input, snapshot: bool, parameters: map<string, Declared>,
                               command: seq<string>, producer: Option<seq<string>>)

  datatype Parameter = Parameter(allowed: string -> bool, default: Option<string>)

  datatype Template = Template(name: string, input: Input, snapshot: bool, parameters: map<string, Parameter>,
                               command: seq<string>, producer: seq<string>)

  datatype ParseError =
    | BadName
    | BadInput
    | ProducerNeedsStdin
    | EmptyProducer
    | BadParameter(parameter: string)
    | NoCommand
    | BadVector(vector: seq<string>)
    | SnapshotMismatch
    | NoSnapshotFile

  // ----- names

  predicate Lower(c: char) {
    'a' <= c <= 'z'
  }

  predicate Digit(c: char) {
    '0' <= c <= '9'
  }

  /** `^[a-z0-9][a-z0-9_.-]{0,63}$` */
  predicate TemplateName(s: string) {
    && 1 <= |s| <= 64 && (Lower(s[0]) || Digit(s[0]))
    && forall i :: 0 <= i < |s| ==> Lower(s[i]) || Digit(s[i]) || s[i] in "_.-"
  }

  /** `^[a-z][A-Za-z0-9]{0,31}$` */
  predicate ParameterName(s: string) {
    && 1 <= |s| <= 32 && Lower(s[0])
    && forall i :: 0 <= i < |s| ==> Lower(s[i]) || 'A' <= s[i] <= 'Z' || Digit(s[i])
  }

  predicate GoodParameter(name: string, d: Declared) {
    && ParameterName(name) && name !in BUILTIN
    && d.pattern.Some? && (d.default.Some? ==> d.pattern.value(d.default.value))
  }

  // ----- argument vectors

  /** What checkPipelineArguments demands. */
  ghost predicate GoodArguments(arguments: seq<string>) {
    && |arguments| <= MAXIMUM_ARGUMENTS
    && forall i :: 0 <= i < |arguments| ==>
         arguments[i] != "" && |arguments[i]| <= MAXIMUM_ARGUMENT_BYTES && '\0' !in arguments[i]
  }

  /** A bare name or an absolute path. */
  predicate GoodProgram(program: string) {
    '/' !in program || (program != "" && program[0] == '/')
  }

  ghost predicate GoodVector(arguments: seq<string>, known: set<string>) {
    && GoodArguments(arguments)
    && (arguments != [] ==> GoodProgram(arguments[0]))
    && forall i :: 0 <= i < |arguments| ==> Accepted(arguments[i], known)
  }

  ghost predicate UsesBefore(arguments: seq<string>, name: string, n: nat) {
    exists i :: 0 <= i < n <= |arguments| && name in Names(Scan(arguments[i]))
  }

  ghost predicate Uses(arguments: seq<string>, name: string) {
    UsesBefore(arguments, name, |arguments|)
  }

  function SnapshotPlaceholder(): string {
    "${" + SNAPSHOT_DIR + "}"
  }

  predicate WritesSnapshots(arguments: seq<string>) {
    exists i :: 0 <= i < |arguments| && Contains(arguments[i], SnapshotPlaceholder() + SNAPSHOT_FILE)
  }

  function Vector(producer: Option<seq<string>>): seq<string> {
    if producer.Some? then producer.value else []
  }

  // ----- acceptance

  ghost predicate Acceptable(d: Document) {
    var known := BUILTIN + d.parameters.Keys;
    && TemplateName(d.name)
    && !d.input.OtherInput?
    && (d.producer.Some? ==> d.input.Stdin? && d.producer.value != [])
    && (forall name :: name in d.parameters ==> GoodParameter(name, d.parameters[name]))
    && d.command != []
    && GoodVector(d.command, known) && GoodVector(Vector(d.producer), known)
    && d.snapshot == (Uses(d.command, SNAPSHOT_DIR) || Uses(Vector(d.producer), SNAPSHOT_DIR))
    && (d.snapshot ==> WritesSnapshots(d.command))
  }

  /** An error names something that is wrong with the document. */
  ghost predicate Justified(d: Document, e: ParseError) {
    var known := BUILTIN + d.parameters.Keys;
    match e
    case BadName => !TemplateName(d.name)
    case BadInput => d.input.OtherInput?
    case ProducerNeedsStdin => d.producer.Some? && !d.input.Stdin?
    case EmptyProducer => d.producer == Some([])
    case BadParameter(name) => name in d.parameters && !GoodParameter(name, d.parameters[name])
    case NoCommand => d.command == []
    case BadVector(vector) => (vector == d.command || vector == Vector(d.producer)) && !GoodVector(vector, known)
    case SnapshotMismatch => d.snapshot != (Uses(d.command, SNAPSHOT_DIR) || Uses(Vector(d.producer), SNAPSHOT_DIR))
    case NoSnapshotFile => d.snapshot && !WritesSnapshots(d.command)
  }

  /** What an accepted document runs: a bare name or an absolute path, and not too much of
      anything. */
  lemma AcceptedCommandsAreSafe(d: Document, i: nat)
    requires Acceptable(d)
    ensures 1 <= |d.command| <= 128 && ('/' in d.command[0] ==> d.command[0][0] == '/')
    ensures i < |d.command| ==> 1 <= |d.command[i]| <= 1024 && '\0' !in d.command[i]
    ensures d.producer.Some? ==>
              && 1 <= |d.producer.value| <= 128 && ('/' in d.producer.value[0] ==> d.producer.value[0][0] == '/')
              && (i < |d.producer.value| ==> 1 <= |d.producer.value[i]| <= 1024 && '\0' !in d.producer.value[i])
  {
  }

  /** The template has the document's parts, and its parameters with their patterns. */
  ghost predicate Reflects(t: Template, d: Document) {
    && t.name == d.name && t.input == d.input && t.snapshot == d.snapshot
    && t.command == d.command && t.producer == Vector(d.producer)
    && t.parameters.Keys == d.parameters.Keys
    && forall name :: name in d.parameters ==> Carries(t.parameters[name], d.parameters[name])
  }

  ghost predicate Carries(p: Parameter, d: Declared) {
    d.pattern == Some(p.allowed) && p.default == d.default
  }

  method CheckArguments(arguments: seq<string>) returns (ok: bool)
    ensures ok == GoodArguments(arguments)
  {
    if |arguments| > MAXIMUM_ARGUMENTS {
      return false;
    }
    for i := 0 to |arguments|
      invariant forall k :: 0 <= k < i ==>
                  arguments[k] != "" && |arguments[k]| <= MAXIMUM_ARGUMENT_BYTES && '\0' !in arguments[k]
    {
      if arguments[i] == "" || |arguments[i]| > MAXIMUM_ARGUMENT_BYTES || '\0' in arguments[i] {
        return false;
      }
    }
    return true;
  }

  /** Whether every `$` begins a placeholder with a known name. */
  method CheckPlaceholders(argument: string, known: set<string>) returns (ok: bool, uses: bool)
    ensures ok == Accepted(argument, known)
    ensures ok ==> uses == (SNAPSHOT_DIR in Names(Scan(argument)))
  {
    var names := Names(Scan(argument));
    uses := false;
    if Dollars(argument) != |names| {
      return false, uses;
    }
    for i := 0 to |names|
      invariant forall name :: name in names[..i] ==> name in known
      invariant uses == (SNAPSHOT_DIR in names[..i])
    {
      if names[i] !in known {
        assert names[i] in names;
        return false, uses;
      }
      uses := uses || names[i] == SNAPSHOT_DIR;
    }
    return true, uses;
  }

  method CheckAll(arguments: seq<string>, known: set<string>) returns (ok: bool, uses: bool)
    ensures ok == forall i :: 0 <= i < |arguments| ==> Accepted(arguments[i], known)
    ensures ok ==> uses == Uses(arguments, SNAPSHOT_DIR)
  {
    ok, uses := true, false;
    for i := 0 to |arguments|
      invariant ok && forall k :: 0 <= k < i ==> Accepted(arguments[k], known)
      invariant uses == UsesBefore(arguments, SNAPSHOT_DIR, i)
    {
      var used;
      ok, used := CheckPlaceholders(arguments[i], known);
      if !ok {
        return;
      }
      uses := uses || used;
    }
  }

  method CheckVector(arguments: seq<string>, known: set<string>) returns (ok: bool, uses: bool)
    ensures ok == GoodVector(arguments, known)
    ensures ok ==> uses == Uses(arguments, SNAPSHOT_DIR)
  {
    uses := false;
    ok := CheckArguments(arguments);
    if ok && arguments != [] {
      ok := GoodProgram(arguments[0]);
      if ok {
        ok, uses := CheckAll(arguments, known);
      }
    }
  }

  method CheckParameters(declared: map<string, Declared>) returns (r: Result<map<string, Parameter>, string>)
    ensures r.Ok? <==> forall name :: name in declared ==> GoodParameter(name, declared[name])
    ensures r.Err? ==> r.error in declared && !GoodParameter(r.error, declared[r.error])
    ensures r.Ok? ==> r.value.Keys == declared.Keys && forall name :: name in declared ==> Carries(r.value[name], declared[name])
  {
    var parameters: map<string, Parameter> := map[];
    var left := declared.Keys;
    while left != {}
      invariant left <= declared.Keys
      invariant parameters.Keys == declared.Keys - left
      invariant forall name :: name in parameters ==>
                  GoodParameter(name, declared[name]) && Carries(parameters[name], declared[name])
      decreases |left|
    {
      var name :| name in left;
      left := left - {name};
      var d := declared[name];
      if !GoodParameter(name, d) {
        return Err(name);
      }
      parameters := parameters[name := Parameter(d.pattern.value, d.default)];
    }
    return Ok(parameters);
  }

  /** Accepts a document or says what is wrong with it. */
  method Parse(d: Document) returns (r: Result<Template, ParseError>)
    ensures r.Ok? <==> Acceptable(d)
    ensures r.Ok? ==> Reflects(r.value, d)
    ensures r.Err? ==> Justified(d, r.error)
  {
    if !TemplateName(d.name) {
      return Err(BadName);
    }
    if d.input.OtherInput? {
      return Err(BadInput);
    }
    if d.producer.Some? {
      if !d.input.Stdin? {
        return Err(ProducerNeedsStdin);
      }
      if d.producer.value == [] {
        return Err(EmptyProducer);
      }
    }
    var parameters := CheckParameters(d.parameters);
    if parameters.Err? {
      return Err(BadParameter(parameters.error));
    }
    if d.command == [] {
      return Err(NoCommand);
    }
    var known := BUILTIN + d.parameters.Keys;
    var commandOk, commandUses := CheckVector(d.command, known);
    if !commandOk {
      return Err(BadVector(d.command));
    }
    var producerOk, producerUses := CheckVector(Vector(d.producer), known);
    if !producerOk {
      return Err(BadVector(Vector(d.producer)));
    }
    if (commandUses || producerUses) != d.snapshot {
      return Err(SnapshotMismatch);
    }
    if d.snapshot && !WritesSnapshots(d.command) {
      return Err(NoSnapshotFile);
    }
    return Ok(Template(d.name, d.input, d.snapshot, parameters.value, d.command, Vector(d.producer)));
  }
}
