/** Filling in an accepted template (resolve of pipeline_template.go), and what
    acceptance buys: it is total and never reinterprets a value. */
module PipelineResolution {
  import opened Basics
  import opened PlaceholderGrammar
  import opened PipelineTemplate

  const PAYLOAD_TYPE := 96

  /** What a source gives; `address` is its listen address split into host and port,
      if it can be split. */
  datatype Source = Source(width: nat, height: nat, fps: nat, address: Option<(string, string)>,
                           parameters: map<string, string>, producer: Option<seq<string>>)

  /** A template with all values filled in; `snapshotDir` is empty without a branch. */
  datatype Spec = Spec(template: string, command: seq<string>, producer: seq<string>, snapshotDir: string)

  datatype ResolveError =
    | RefusesProducer
    | NeedsProducer
    | TakesNoProducer
    | NoSuchParameter(name: string)
    | BadAddress
    | MissingParameter(name: string)
    | NotAllowed(name: string)

  function Decimal(n: nat): (s: string)
    ensures |s| > 0 && forall c :: c in s ==> '0' <= c <= '9'
  {
    if n < 10 then [('0' as int + n) as char] else Decimal(n / 10) + [('0' as int + n % 10) as char]
  }

  /** The number that these digits stand for. */
  function Number(digits: string): int {
    if digits == "" then 0 else 10 * Number(digits[..|digits| - 1]) + (digits[|digits| - 1] as int - '0' as int)
  }

  /** A number is written with its digits, and no zero in front. */
  lemma {:induction false} DecimalIsExact(n: nat)
    ensures Number(Decimal(n)) == n
    ensures Decimal(n)[0] == '0' ==> Decimal(n) == "0"
  {
    var s := Decimal(n);
    if n >= 10 {
      DecimalIsExact(n / 10);
      assert s[..|s| - 1] == Decimal(n / 10);
      assert Decimal(n / 10) != "0" by {
        assert Number("0") == 10 * Number("") + 0;
      }
    } else {
      assert s[..0] == "";
    }
  }

  /** This value of the parameter is allowed. */
  predicate Allows(t: Template, name: string, value: string) {
    name in t.parameters && t.parameters[name].allowed(value)
  }

  /** The parameter has a value, given by the source or else the default, and it is
      allowed. */
  predicate Permitted(t: Template, s: Source, name: string) {
    && name in t.parameters
    && if name in s.parameters then Allows(t, name, s.parameters[name])
       else t.parameters[name].default.Some? && Allows(t, name, t.parameters[name].default.value)
  }

  ghost predicate ProducersAgree(t: Template, s: Source) {
    && !(t.producer != [] && s.producer.Some?)
    && !(t.input.Stdin? && t.producer == [] && Vector(s.producer) == [])
    && !(!t.input.Stdin? && Vector(s.producer) != [])
  }

  ghost predicate Resolvable(t: Template, s: Source) {
    && ProducersAgree(t, s)
    && s.parameters.Keys <= t.parameters.Keys
    && s.address.Some?
    && forall name :: name in t.parameters ==> Permitted(t, s, name)
  }

  ghost predicate ResolveJustified(t: Template, s: Source, e: ResolveError) {
    match e
    case RefusesProducer => t.producer != [] && s.producer.Some?
    case NeedsProducer => t.input.Stdin? && t.producer == [] && Vector(s.producer) == []
    case TakesNoProducer => !t.input.Stdin? && Vector(s.producer) != []
    case NoSuchParameter(name) => name in s.parameters && name !in t.parameters
    case BadAddress => s.address.None?
    case MissingParameter(name) => name in t.parameters && name !in s.parameters && t.parameters[name].default.None?
    case NotAllowed(name) =>
      && name in t.parameters && !Permitted(t, s, name)
      && (name in s.parameters || t.parameters[name].default.Some?)
  }

  /** The values the source itself determines. */
  function BuiltinValues(t: Template, s: Source, scratch: string): map<string, string>
    requires s.address.Some?
  {
    var values := map["width" := Decimal(s.width), "height" := Decimal(s.height), "fps" := Decimal(s.fps),
                      "rtpHost" := s.address.value.0, "rtpPort" := s.address.value.1,
                      "payloadType" := Decimal(PAYLOAD_TYPE)];
    if t.snapshot then values[SNAPSHOT_DIR := scratch] else values
  }

  ghost predicate Expanded(arguments: seq<string>, values: map<string, string>, r: seq<string>) {
    |r| == |arguments| && forall i :: 0 <= i < |r| ==> r[i] == Expand(arguments[i], values)
  }

  method ExpandAll(arguments: seq<string>, values: map<string, string>) returns (r: seq<string>)
    ensures Expanded(arguments, values, r)
  {
    r := [];
    for i := 0 to |arguments|
      invariant |r| == i && forall k :: 0 <= k < i ==> r[k] == Expand(arguments[k], values)
    {
      r := r + [Expand(arguments[i], values)];
    }
  }

  /** The value is what the source gives for the parameter, or else the default. */
  predicate TakesValue(t: Template, s: Source, name: string, value: string) {
    && name in t.parameters
    && if name in s.parameters then value == s.parameters[name] else Some(value) == t.parameters[name].default
  }

  /** The values while the parameters of `left` are still to come. */
  ghost predicate Choosing(values: map<string, string>, builtin: map<string, string>, t: Template, s: Source, left: set<string>) {
    && values.Keys == builtin.Keys + (t.parameters.Keys - left)
    && forall name :: name in values ==>
         if name in t.parameters.Keys - left then Permitted(t, s, name) && TakesValue(t, s, name, values[name])
         else name in builtin && values[name] == builtin[name]
  }

  method ChooseOne(t: Template, s: Source, name: string) returns (r: Result<string, ResolveError>)
    requires name in t.parameters
    ensures r.Ok? <==> Permitted(t, s, name)
    ensures r.Ok? ==> TakesValue(t, s, name, r.value)
    ensures r.Err? ==> ResolveJustified(t, s, r.error)
  {
    var value := "";
    if name in s.parameters {
      value := s.parameters[name];
    } else if t.parameters[name].default.Some? {
      value := t.parameters[name].default.value;
    } else {
      return Err(MissingParameter(name));
    }
    return if t.parameters[name].allowed(value) then Ok(value) else Err(NotAllowed(name));
  }

  lemma ChoosingNext(values: map<string, string>, builtin: map<string, string>, t: Template, s: Source, left: set<string>,
                     name: string, value: string)
    requires Choosing(values, builtin, t, s, left) && name in left && left <= t.parameters.Keys
    requires Permitted(t, s, name) && TakesValue(t, s, name, value)
    ensures Choosing(values[name := value], builtin, t, s, left - {name})
  {
  }

  /** With every parameter chosen, each has what the source gives, or else its default. */
  lemma AllChosen(values: map<string, string>, builtin: map<string, string>, t: Template, s: Source)
    requires Choosing(values, builtin, t, s, {})
    ensures forall name :: name in t.parameters ==> Permitted(t, s, name)
    ensures forall name :: name in t.parameters ==>
              && name in values
              && if name in s.parameters then values[name] == s.parameters[name]
                 else Some(values[name]) == t.parameters[name].default
    ensures forall name :: name in builtin && name !in t.parameters ==> name in values && values[name] == builtin[name]
  {
    forall name | name in t.parameters ensures name in values && Permitted(t, s, name) && TakesValue(t, s, name, values[name]) {
      assert name in values.Keys;
    }
  }

  /** Adds the value of every declared parameter to those of the source: what the source
      gives comes before the default. */
  method Choose(t: Template, s: Source, builtin: map<string, string>) returns (r: Result<map<string, string>, ResolveError>)
    ensures r.Ok? <==> forall name :: name in t.parameters ==> Permitted(t, s, name)
    ensures r.Ok? ==> Choosing(r.value, builtin, t, s, {})
    ensures r.Ok? ==> forall name :: name in t.parameters ==>
              && name in r.value
              && if name in s.parameters then r.value[name] == s.parameters[name]
                 else Some(r.value[name]) == t.parameters[name].default
    ensures r.Ok? ==> forall name :: name in builtin && name !in t.parameters ==> name in r.value && r.value[name] == builtin[name]
    ensures r.Err? ==> ResolveJustified(t, s, r.error)
  {
    var values := builtin;
    var left := t.parameters.Keys;
    while left != {}
      invariant left <= t.parameters.Keys
      invariant Choosing(values, builtin, t, s, left)
      decreases |left|
    {
      var name :| name in left;
      var chosen := ChooseOne(t, s, name);
      if chosen.Err? {
        return Err(chosen.error);
      }
      ChoosingNext(values, builtin, t, s, left, name, chosen.value);
      left := left - {name};
      values := values[name := chosen.value];
    }
    AllChosen(values, builtin, t, s);
    return Ok(values);
  }

  /** All values: the source's own and the chosen one of every declared parameter. */
  ghost predicate AreValues(values: map<string, string>, t: Template, s: Source, scratch: string) {
    s.address.Some? && Choosing(values, BuiltinValues(t, s, scratch), t, s, {})
  }

  method CheckSource(t: Template, s: Source) returns (problem: Option<ResolveError>)
    ensures problem.None? <==> ProducersAgree(t, s) && s.parameters.Keys <= t.parameters.Keys && s.address.Some?
    ensures problem.Some? ==> ResolveJustified(t, s, problem.value)
  {
    if t.producer != [] && s.producer.Some? {
      return Some(RefusesProducer);
    }
    if t.input.Stdin? && t.producer == [] && Vector(s.producer) == [] {
      return Some(NeedsProducer);
    }
    if !t.input.Stdin? && Vector(s.producer) != [] {
      return Some(TakesNoProducer);
    }
    var left := s.parameters.Keys;
    while left != {}
      invariant left <= s.parameters.Keys
      invariant s.parameters.Keys - left <= t.parameters.Keys
      decreases |left|
    {
      var name :| name in left;
      left := left - {name};
      if name !in t.parameters {
        return Some(NoSuchParameter(name));
      }
    }
    return if s.address.None? then Some(BadAddress) else None;
  }

  /** The spec is the template with the values filled in. */
  ghost predicate FilledIn(spec: Spec, t: Template, s: Source, scratch: string, values: map<string, string>) {
    && AreValues(values, t, s, scratch)
    && spec.template == t.name
    && Expanded(t.command, values, spec.command)
    && (t.producer != [] ==> Expanded(t.producer, values, spec.producer))
    && (t.producer == [] ==> spec.producer == Vector(s.producer))
    && spec.snapshotDir == if t.snapshot then scratch else ""
  }

  /** Fills a template in for a source or says what is wrong. */
  method Resolve(t: Template, s: Source, scratch: string) returns (r: Result<Spec, ResolveError>, ghost values: map<string, string>)
    ensures r.Ok? <==> Resolvable(t, s)
    ensures r.Ok? ==> FilledIn(r.value, t, s, scratch, values)
    ensures r.Ok? ==> forall name :: name in t.parameters ==>
              && name in values
              && if name in s.parameters then values[name] == s.parameters[name]
                 else Some(values[name]) == t.parameters[name].default
    ensures r.Err? ==> ResolveJustified(t, s, r.error)
  {
    values := map[];
    var problem := CheckSource(t, s);
    if problem.Some? {
      return Err(problem.value), values;
    }
    var chosen := Choose(t, s, BuiltinValues(t, s, scratch));
    if chosen.Err? {
      return Err(chosen.error), values;
    }
    values := chosen.value;
    var command := ExpandAll(t.command, chosen.value);
    var producer := Vector(s.producer);
    if t.producer != [] {
      producer := ExpandAll(t.producer, chosen.value);
    }
    r := Ok(Spec(t.name, command, producer, if t.snapshot then scratch else ""));
  }

  // ----- what acceptance buys

  lemma ParameterNameIsPlain(name: string)
    requires ParameterName(name)
    ensures '$' !in name && '}' !in name
  {
  }

  lemma BuiltinNamesAreNames(name: string)
    requires name in BUILTIN
    ensures ParameterName(name)
  {
  }

  lemma KnownNamesArePlain(d: Document)
    requires Acceptable(d)
    ensures Plain(BUILTIN + d.parameters.Keys)
  {
    forall name | name in BUILTIN + d.parameters.Keys ensures '$' !in name && '}' !in name {
      if name in BUILTIN {
        BuiltinNamesAreNames(name);
      }
      ParameterNameIsPlain(name);
    }
  }

  ghost predicate IsArgument(t: Template, argument: string) {
    argument in t.command || argument in t.producer
  }

  /** Every argument of an accepted template has exactly one reading as texts and
      placeholders, and filling in a template puts a value into each placeholder. */
  lemma ExpansionIsTotal(d: Document, t: Template, s: Source, scratch: string, values: map<string, string>,
                         argument: string) returns (p: Parsed)
    requires Acceptable(d) && Reflects(t, d) && AreValues(values, t, s, scratch)
    requires IsArgument(t, argument)
    ensures Clean(p) && Render(p) == argument
    ensures forall q :: Clean(q) && Render(q) == argument ==> q == p
    ensures forall name :: name in Names(p) ==> name in values
    ensures Expand(argument, values) == Fill(p, values)
  {
    var known := BUILTIN + d.parameters.Keys;
    KnownNamesArePlain(d);
    assert Accepted(argument, known);
    AcceptedExactly(argument, known);
    p :| WellFormed(p, known) && Render(p) == argument;
    ScanRender(p);
    forall q | Clean(q) && Render(q) == argument ensures q == p {
      OneReading(p, q);
    }
    forall name | name in Names(p) ensures name in values {
      if name == SNAPSHOT_DIR {
        UsedSomewhere(d, argument);
      }
    }
  }

  lemma UsedSomewhere(d: Document, argument: string)
    requires Acceptable(d) && (argument in d.command || argument in Vector(d.producer))
    requires SNAPSHOT_DIR in Names(Scan(argument))
    ensures d.snapshot
  {
    var vector := if argument in d.command then d.command else Vector(d.producer);
    var i :| 0 <= i < |vector| && vector[i] == argument;
    assert UsesBefore(vector, SNAPSHOT_DIR, |vector|);
  }

  /** What else an accepted template can refer to comes from the source: its picture size
      and rate in digits, its address, and the payload type. No parameter hides them. */
  lemma SourceValuesAreItsOwn(d: Document, t: Template, s: Source, scratch: string, values: map<string, string>)
    requires Acceptable(d) && Reflects(t, d) && AreValues(values, t, s, scratch)
    ensures {"width", "height", "fps", "rtpHost", "rtpPort", "payloadType"} <= values.Keys
    ensures Number(values["width"]) == s.width && Number(values["height"]) == s.height && Number(values["fps"]) == s.fps
    ensures values["rtpHost"] == s.address.value.0 && values["rtpPort"] == s.address.value.1
    ensures Number(values["payloadType"]) == 96
  {
    NothingHides(d, t, s, scratch, values);
    OwnValues(t, s, scratch);
  }

  lemma OwnValues(t: Template, s: Source, scratch: string)
    requires s.address.Some?
    ensures var own := BuiltinValues(t, s, scratch);
            && {"width", "height", "fps", "rtpHost", "rtpPort", "payloadType"} <= own.Keys
            && Number(own["width"]) == s.width && Number(own["height"]) == s.height && Number(own["fps"]) == s.fps
            && own["rtpHost"] == s.address.value.0 && own["rtpPort"] == s.address.value.1
            && Number(own["payloadType"]) == 96
  {
    DecimalIsExact(s.width);
    DecimalIsExact(s.height);
    DecimalIsExact(s.fps);
    DecimalIsExact(PAYLOAD_TYPE);
  }

  lemma NothingHides(d: Document, t: Template, s: Source, scratch: string, values: map<string, string>)
    requires Acceptable(d) && Reflects(t, d) && AreValues(values, t, s, scratch)
    ensures var own := BuiltinValues(t, s, scratch);
            own.Keys <= values.Keys && forall name :: name in own ==> values[name] == own[name]
  {
    var own := BuiltinValues(t, s, scratch);
    assert own.Keys <= BUILTIN;
    forall name | name in own ensures name in values && values[name] == own[name] {
      assert name in BUILTIN;
      assert name !in d.parameters;
    }
  }

  /** The scratch directory is a value exactly for templates with a snapshot branch. */
  lemma ScratchOnlyWithBranch(d: Document, t: Template, s: Source, scratch: string, values: map<string, string>)
    requires Acceptable(d) && Reflects(t, d) && AreValues(values, t, s, scratch)
    ensures SNAPSHOT_DIR in values <==> t.snapshot
    ensures t.snapshot ==> values[SNAPSHOT_DIR] == scratch
  {
    assert SNAPSHOT_DIR in BUILTIN;
    assert SNAPSHOT_DIR !in d.parameters;
  }

  /** A pipeline with a snapshot branch is told to write its frames into the source's
      scratch directory. */
  lemma FramesGoToScratch(d: Document, t: Template, s: Source, scratch: string, spec: Spec, values: map<string, string>)
    requires Acceptable(d) && Reflects(t, d) && FilledIn(spec, t, s, scratch, values) && t.snapshot
    ensures spec.snapshotDir == scratch
    ensures exists i :: 0 <= i < |spec.command| && Contains(spec.command[i], scratch + SNAPSHOT_FILE)
  {
    var i :| 0 <= i < |d.command| && Contains(d.command[i], SnapshotPlaceholder() + SNAPSHOT_FILE);
    SnapshotPathIsPlain();
    var p := ExpansionIsTotal(d, t, s, scratch, values, d.command[i]);
    FilledWhereContained(p, SNAPSHOT_DIR, SNAPSHOT_FILE, values);
    ScratchOnlyWithBranch(d, t, s, scratch, values);
  }

  lemma SnapshotPathIsPlain()
    ensures '$' !in SNAPSHOT_FILE && '}' !in SNAPSHOT_DIR
  {
  }

  /** Every argument stays one argument, and none has a `$` left if no value has one. */
  lemma NothingUnfilled(d: Document, t: Template, s: Source, scratch: string, spec: Spec, values: map<string, string>)
    requires Acceptable(d) && Reflects(t, d) && FilledIn(spec, t, s, scratch, values)
    requires forall name :: name in values ==> '$' !in values[name]
    ensures |spec.command| == |t.command| && forall i :: 0 <= i < |spec.command| ==> '$' !in spec.command[i]
    ensures t.producer != [] ==>
              |spec.producer| == |t.producer| && forall i :: 0 <= i < |spec.producer| ==> '$' !in spec.producer[i]
  {
    forall i | 0 <= i < |spec.command| ensures '$' !in spec.command[i] {
      ArgumentIsFilled(d, t, s, scratch, values, t.command[i]);
    }
    if t.producer != [] {
      forall i | 0 <= i < |spec.producer| ensures '$' !in spec.producer[i] {
        ArgumentIsFilled(d, t, s, scratch, values, t.producer[i]);
      }
    }
  }

  lemma ArgumentIsFilled(d: Document, t: Template, s: Source, scratch: string, values: map<string, string>, argument: string)
    requires Acceptable(d) && Reflects(t, d) && AreValues(values, t, s, scratch) && IsArgument(t, argument)
    requires forall name :: name in values ==> '$' !in values[name]
    ensures '$' !in Expand(argument, values)
  {
    var p := ExpansionIsTotal(d, t, s, scratch, values, argument);
    NothingLeftToFill(p, values);
  }
}
