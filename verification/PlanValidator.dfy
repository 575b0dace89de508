/** The boundary a plan passes before it runs: every step names a known, available tool, its
    payload fits the tool's schema, and approval is not waived. */
module PlanValidator {
  import opened Wrappers

  // ------------------------------------------------------------------
  // Payload schemas
  // ------------------------------------------------------------------

  datatype Kind = Str | Int | Float | Bool | List | Dict | Null

  datatype Expected = AnyType | StringType | IntegerType | NumberType | BooleanType | ArrayType | ObjectType

  datatype Property = Property(name: string, expected: Expected)

  datatype Schema = Schema(required: seq<string>, properties: seq<Property>, closed: bool)

  datatype SchemaError =
    | NotADictionary
    | MissingField(name: string)
    | UnexpectedField(name: string)
    | WrongType(name: string)

  /** A payload is a dictionary with the kinds of its values, or something else. */
  type Payload = Option<map<string, Kind>>

  predicate Fits(kind: Kind, expected: Expected) {
    match expected
    case AnyType => true
    case StringType => kind == Str
    case IntegerType => kind == Int
    case NumberType => kind == Int || kind == Float
    case BooleanType => kind == Bool
    case ArrayType => kind == List
    case ObjectType => kind == Dict
  }

  /** The types that each kind of value fits: a boolean is no number, an integer is one, and null fits
      nothing but the unconstrained type. */
  function TypesOf(kind: Kind): set<Expected> {
    match kind
    case Str => {AnyType, StringType}
    case Int => {AnyType, IntegerType, NumberType}
    case Float => {AnyType, NumberType}
    case Bool => {AnyType, BooleanType}
    case List => {AnyType, ArrayType}
    case Dict => {AnyType, ObjectType}
    case Null => {AnyType}
  }

  lemma FitsExactlyItsTypes(kind: Kind, expected: Expected)
    ensures Fits(kind, expected) <==> expected in TypesOf(kind)
  {
    match kind {
      case Str =>
      case Int =>
      case Float =>
      case Bool =>
      case List =>
      case Dict =>
      case Null =>
    }
  }

  predicate HasRequired(fields: map<string, Kind>, schema: Schema) {
    forall i :: 0 <= i < |schema.required| ==> schema.required[i] in fields
  }

  predicate Named(schema: Schema, name: string) {
    exists i :: 0 <= i < |schema.properties| && schema.properties[i].name == name
  }

  predicate HasNoOther(fields: map<string, Kind>, schema: Schema) {
    schema.closed ==> forall name :: name in fields ==> Named(schema, name)
  }

  predicate HasKind(fields: map<string, Kind>, property: Property) {
    property.name in fields ==> Fits(fields[property.name], property.expected)
  }

  predicate HasKinds(fields: map<string, Kind>, schema: Schema) {
    forall i :: 0 <= i < |schema.properties| ==> HasKind(fields, schema.properties[i])
  }

  predicate Unknown(fields: map<string, Kind>, schema: Schema, name: string) {
    name in fields && !Named(schema, name)
  }

  predicate Conforms(payload: Payload, schema: Option<Schema>) {
    payload.Some?
    && (schema.Some? ==>
          HasRequired(payload.value, schema.value) && HasNoOther(payload.value, schema.value)
          && HasKinds(payload.value, schema.value))
  }

  /** Which payloads conform, field by field: a dictionary, with every required field, under a closed
      schema none that the schema does not name, and each named field of a type that fits. */
  lemma ConformsExactlyWhen(payload: Payload, schema: Option<Schema>)
    ensures Conforms(payload, schema)
       <==> (payload.Some?
             && (schema == None
                 || ((forall name :: name in schema.value.required ==> name in payload.value)
                     && (forall name :: name in payload.value ==>
                           !schema.value.closed || exists p :: p in schema.value.properties && p.name == name)
                     && (forall p :: p in schema.value.properties && p.name in payload.value ==>
                           p.expected in TypesOf(payload.value[p.name])))))
  {
    if payload.Some? && schema.Some? {
      var fields, s := payload.value, schema.value;
      forall name ensures Named(s, name) <==> exists p :: p in s.properties && p.name == name {
        if Named(s, name) {
          var i :| 0 <= i < |s.properties| && s.properties[i].name == name;
          assert s.properties[i] in s.properties;
        }
      }
      forall p ensures HasKind(fields, p) <==> (p.name in fields ==> p.expected in TypesOf(fields[p.name])) {
        if p.name in fields {
          FitsExactlyItsTypes(fields[p.name], p.expected);
        }
      }
      assert HasKinds(fields, s) <==> forall p :: p in s.properties ==> HasKind(fields, p);
      assert HasRequired(fields, s) <==> forall name :: name in s.required ==> name in fields;
    }
  }

  // ------------------------------------------------------------------
  // The order of field names
  // ------------------------------------------------------------------

  /** Character by character, a prefix first. */
  predicate AtMost(a: string, b: string) {
    a == "" || (b != "" && (a[0] < b[0] || (a[0] == b[0] && AtMost(a[1..], b[1..]))))
  }

  lemma {:induction false} AtMostIsTotal(a: string, b: string)
    ensures AtMost(a, b) || AtMost(b, a)
  {
    if a != "" && b != "" && a[0] == b[0] {
      AtMostIsTotal(a[1..], b[1..]);
    }
  }

  lemma {:induction false} AtMostIsTransitive(a: string, b: string, c: string)
    requires AtMost(a, b) && AtMost(b, c)
    ensures AtMost(a, c)
  {
    if a != "" && a[0] == b[0] && b[0] == c[0] {
      AtMostIsTransitive(a[1..], b[1..], c[1..]);
    }
  }

  /** The order, spelled out: the two agree up to some character; there the first ends, or is the smaller. */
  predicate Branches(a: string, b: string, n: nat) {
    n <= |a| && n <= |b| && a[..n] == b[..n] && (n == |a| || (n < |b| && a[n] < b[n]))
  }

  lemma BranchesAfter(a: string, b: string, n: nat)
    requires Branches(a, b, n) && 0 < n
    ensures a != "" && b != "" && a[0] == b[0] && Branches(a[1..], b[1..], n - 1)
  {
    assert a[..n][0] == b[..n][0];
    assert a[1..][..n - 1] == a[..n][1..] && b[1..][..n - 1] == b[..n][1..];
  }

  lemma {:induction false} AtMostBranches(a: string, b: string)
    ensures AtMost(a, b) <==> exists n: nat :: Branches(a, b, n)
  {
    forall n: nat | Branches(a, b, n) && 0 < n
      ensures a != "" && b != "" && a[0] == b[0] && Branches(a[1..], b[1..], n - 1)
    {
      BranchesAfter(a, b, n);
    }
    if a == "" || (b != "" && a[0] < b[0]) {
      assert Branches(a, b, 0);
    } else if b != "" && a[0] == b[0] {
      AtMostBranches(a[1..], b[1..]);
      if n: nat :| Branches(a[1..], b[1..], n) {
        assert a[..n + 1] == [a[0]] + a[1..][..n] && b[..n + 1] == [b[0]] + b[1..][..n];
        assert Branches(a, b, n + 1);
      }
    }
  }

  lemma {:induction false} AtMostIsAntisymmetric(a: string, b: string)
    requires AtMost(a, b) && AtMost(b, a)
    ensures a == b
  {
    if a != "" {
      AtMostIsAntisymmetric(a[1..], b[1..]);
      assert a == [a[0]] + a[1..] && b == [b[0]] + b[1..];
    }
  }

  predicate IsFirst(name: string, names: set<string>) {
    name in names && forall other :: other in names ==> AtMost(name, other)
  }

  /** The first name in the order. */
  method FirstOf(names: set<string>) returns (first: string)
    requires names != {}
    ensures IsFirst(first, names)
  {
    first :| first in names;
    AtMostIsTotal(first, first);
    var seen, rest := {first}, names - {first};
    while rest != {}
      invariant names == seen + rest
      invariant IsFirst(first, seen)
    {
      var name :| name in rest;
      AtMostIsTotal(first, name);
      AtMostIsTotal(name, name);
      if !AtMost(first, name) {
        forall other | other in seen ensures AtMost(name, other) {
          AtMostIsTransitive(name, first, other);
        }
        first := name;
      }
      seen, rest := seen + {name}, rest - {name};
    }
  }

  /** No error exactly when the payload conforms; the first of the failing checks is reported, and
      within it the first failing field: of the unexpected ones, the first in the order of names. */
  method ValidateInputSchema(payload: Payload, schema: Option<Schema>) returns (error: Option<SchemaError>)
    ensures error == None <==> Conforms(payload, schema)
    ensures error == Some(NotADictionary) <==> payload == None
    ensures payload.Some? && schema.Some? && error.Some? ==> FirstFailure(payload.value, schema.value, error.value)
  {
    if payload == None {
      return Some(NotADictionary);
    }
    if schema == None {
      return None;
    }
    var fields, s := payload.value, schema.value;
    for i := 0 to |s.required|
      invariant forall j :: 0 <= j < i ==> s.required[j] in fields
    {
      if s.required[i] !in fields {
        return Some(MissingField(s.required[i]));
      }
    }
    if s.closed {
      var known: set<string> := {};
      for i := 0 to |s.properties|
        invariant forall name :: name in known <==> exists j :: 0 <= j < i && s.properties[j].name == name
      {
        known := known + {s.properties[i].name};
      }
      assert forall name :: name in known <==> Named(s, name);
      var unknown := fields.Keys - known;
      assert forall name :: name in unknown <==> Unknown(fields, s, name);
      if unknown != {} {
        var first := FirstOf(unknown);
        return Some(UnexpectedField(first));
      }
      forall name | name in fields ensures Named(s, name) {
        assert name !in unknown;
      }
    }
    for i := 0 to |s.properties|
      invariant forall j :: 0 <= j < i ==> HasKind(fields, s.properties[j])
    {
      var property := s.properties[i];
      if property.name in fields && !Fits(fields[property.name], property.expected) {
        return Some(WrongType(property.name));
      }
    }
    return None;
  }

  /** The error names the first failing check, and its first failing field. */
  ghost predicate FirstFailure(fields: map<string, Kind>, schema: Schema, error: SchemaError) {
    match error
    case NotADictionary => false
    case MissingField(name) =>
      exists i :: 0 <= i < |schema.required| && schema.required[i] == name && name !in fields
                  && forall j :: 0 <= j < i ==> schema.required[j] in fields
    case UnexpectedField(name) =>
      HasRequired(fields, schema) && schema.closed && Unknown(fields, schema, name)
      && forall other :: Unknown(fields, schema, other) ==> AtMost(name, other)
    case WrongType(name) =>
      HasRequired(fields, schema) && HasNoOther(fields, schema)
      && exists i :: 0 <= i < |schema.properties| && schema.properties[i].name == name
                     && !HasKind(fields, schema.properties[i])
                     && forall j :: 0 <= j < i ==> HasKind(fields, schema.properties[j])
  }

  /** There is at most one such error. */
  lemma FirstFailureIsUnique(fields: map<string, Kind>, schema: Schema, e: SchemaError, f: SchemaError)
    requires FirstFailure(fields, schema, e) && FirstFailure(fields, schema, f)
    ensures e == f
  {
    if e.UnexpectedField? && f.UnexpectedField? {
      AtMostIsAntisymmetric(e.name, f.name);
    }
  }

  // ------------------------------------------------------------------
  // Plans
  // ------------------------------------------------------------------

  datatype Risk = ReadOnly | WriteExternal | Destructive | OtherRisk

  datatype ToolContract = ToolContract(schema: Option<Schema>, risk: Risk, requiresApproval: bool)

  datatype Approval = NoApproval | RequiresApproval | AlwaysApprove

  function ClassifyApproval(tool: ToolContract): Approval {
    if tool.risk == Destructive then AlwaysApprove
    else if tool.risk == WriteExternal || tool.requiresApproval then RequiresApproval
    else NoApproval
  }

  datatype RawStep =
    | NotAnObject
    | ToolStep(name: string, tool: string, payload: Payload, requiresApproval: Option<bool>)

  datatype Fault = Malformed | UnknownTool | Unavailable | BadPayload(error: SchemaError) | ApprovalBypassed

  datatype PlanError = EmptyPlan | TooLong | DiscoveryMissing | StepError(index: nat, fault: Fault)

  const MAX_PLAN_STEPS := 50

  /** Where the allowed tools come from. */
  datatype Discovery = Discovery(allowed: Option<set<string>>, missing: bool)

  predicate ValidStep(registry: map<string, ToolContract>, discovery: Discovery, step: RawStep) {
    step.ToolStep? && step.tool in registry
    && (discovery.allowed.Some? ==> step.tool in discovery.allowed.value)
    && Conforms(step.payload, registry[step.tool].schema)
    && (step.requiresApproval == Some(false) ==> ClassifyApproval(registry[step.tool]) == NoApproval)
  }

  /** The faults of a step, each by itself. */
  ghost predicate HasFault(registry: map<string, ToolContract>, discovery: Discovery, step: RawStep, fault: Fault) {
    if step.NotAnObject? then fault == Malformed
    else if step.tool !in registry then fault == UnknownTool
    else
      match fault
      case Malformed => false
      case UnknownTool => false
      case Unavailable => discovery.allowed.Some? && step.tool !in discovery.allowed.value
      case BadPayload(error) => PayloadFails(step.payload, registry[step.tool].schema, error)
      case ApprovalBypassed => step.requiresApproval == Some(false) && NeedsApproval(registry[step.tool])
  }

  ghost predicate PayloadFails(payload: Payload, schema: Option<Schema>, error: SchemaError) {
    if payload == None then error == NotADictionary
    else schema.Some? && FirstFailure(payload.value, schema.value, error)
  }

  /** The one error a payload has, if it has any. */
  lemma PayloadFailsSo(payload: Payload, schema: Option<Schema>, error: Option<SchemaError>)
    requires error == None <==> Conforms(payload, schema)
    requires error == Some(NotADictionary) <==> payload == None
    requires payload.Some? && schema.Some? && error.Some? ==> FirstFailure(payload.value, schema.value, error.value)
    ensures forall e :: PayloadFails(payload, schema, e) <==> error == Some(e)
  {
    forall e ensures PayloadFails(payload, schema, e) <==> error == Some(e) {
      if payload.Some? && schema.Some? && FirstFailure(payload.value, schema.value, e) {
        FailureIsNonconforming(payload.value, schema.value, e);
        FirstFailureIsUnique(payload.value, schema.value, e, error.value);
      }
    }
  }

  lemma FailureIsNonconforming(fields: map<string, Kind>, schema: Schema, error: SchemaError)
    requires FirstFailure(fields, schema, error)
    ensures !Conforms(Some(fields), Some(schema))
  {
  }

  /** What may not run unapproved: what destroys, what writes outside, and what says so itself. */
  predicate NeedsApproval(tool: ToolContract) {
    tool.risk in {Destructive, WriteExternal} || tool.requiresApproval
  }

  /** Which approval a tool is classified to need. */
  lemma ClassifiesAs(tool: ToolContract)
    ensures ClassifyApproval(tool) == AlwaysApprove <==> tool.risk == Destructive
    ensures ClassifyApproval(tool) == NoApproval <==> !NeedsApproval(tool)
  {
  }

  predicate ValidPlan(registry: map<string, ToolContract>, discovery: Discovery, steps: seq<RawStep>) {
    1 <= |steps| <= MAX_PLAN_STEPS && !discovery.missing
    && forall i :: 0 <= i < |steps| ==> ValidStep(registry, discovery, steps[i])
  }

  predicate Blames(error: PlanError, index: int) {
    error.StepError? && error.index == index
  }

  /** An accepted plan, step by step: so a plan that waives the approval of a destructive or externally
      writing tool is refused. */
  lemma AcceptedStepIs(registry: map<string, ToolContract>, discovery: Discovery, step: RawStep)
    ensures ValidStep(registry, discovery, step)
       <==> (step.ToolStep? && step.tool in registry
             && (discovery.allowed == None || step.tool in discovery.allowed.value)
             && Conforms(step.payload, registry[step.tool].schema)
             && !(step.requiresApproval == Some(false) && NeedsApproval(registry[step.tool])))
  {
  }

  lemma AcceptedPlanIs(registry: map<string, ToolContract>, discovery: Discovery, steps: seq<RawStep>)
    ensures ValidPlan(registry, discovery, steps)
       <==> (0 < |steps| < 51 && !discovery.missing
             && forall step :: step in steps ==> ValidStep(registry, discovery, step))
  {
  }

  /** Validation succeeds exactly on the valid plans, and then bounds their length; otherwise each
      invalid step is blamed, and only invalid steps are. */
  method Validate(registry: map<string, ToolContract>, discovery: Discovery,
          steps: seq<RawStep>) returns (errors: seq<PlanError>)
    ensures errors == [] <==> ValidPlan(registry, discovery, steps)
    ensures 1 <= |steps| <= MAX_PLAN_STEPS ==>
              forall i :: 0 <= i < |steps| ==>
                (!ValidStep(registry, discovery, steps[i]) <==> exists k :: 0 <= k < |errors| && Blames(errors[k], i))
    ensures |steps| == 0 ==> errors == [EmptyPlan]
    ensures |steps| > 50 ==> errors == [TooLong]
    ensures 1 <= |steps| <= 50 ==> Reports(registry, discovery, steps, |steps|, errors)
  {
    if |steps| == 0 {
      return [EmptyPlan];
    }
    if |steps| > MAX_PLAN_STEPS {
      return [TooLong];
    }
    errors := [];
    if discovery.missing {
      errors := [DiscoveryMissing];
    }
    for i := 0 to |steps|
      invariant errors == []
                <==> (!discovery.missing && forall j :: 0 <= j < i ==> ValidStep(registry, discovery, steps[j]))
      invariant BlamesOnlyInvalid(registry, discovery, steps, i, errors)
      invariant Reports(registry, discovery, steps, i, errors)
      invariant forall j :: 0 <= j < i && !ValidStep(registry, discovery, steps[j]) ==>
                  exists k :: 0 <= k < |errors| && Blames(errors[k], j)
    {
      var found := CheckStep(registry, discovery, i, steps[i]);
      StillBlamed(registry, discovery, steps, i, errors, found);
      ReportsGrow(registry, discovery, steps, i, errors, found);
      errors := errors + found;
    }
  }

  /** The errors are exactly the faults of the first `n` steps, and the missing discovery. */
  ghost predicate Reports(registry: map<string, ToolContract>, discovery: Discovery, steps: seq<RawStep>, n: nat,
          errors: seq<PlanError>)
    requires n <= |steps|
  {
    (DiscoveryMissing in errors <==> discovery.missing)
    && EmptyPlan !in errors && TooLong !in errors
    && forall i: nat, fault :: StepError(i, fault) in errors
                               <==> (i < n && HasFault(registry, discovery, steps[i], fault))
  }

  lemma ReportsGrow(registry: map<string, ToolContract>, discovery: Discovery, steps: seq<RawStep>, i: nat,
                    errors: seq<PlanError>, found: seq<PlanError>)
    requires i < |steps| && Reports(registry, discovery, steps, i, errors)
    requires forall k :: 0 <= k < |found| ==> Blames(found[k], i)
    requires forall fault :: StepError(i, fault) in found <==> HasFault(registry, discovery, steps[i], fault)
    ensures Reports(registry, discovery, steps, i + 1, errors + found)
  {
    assert forall e :: e in found ==> Blames(e, i);
  }

  ghost predicate BlamesOnlyInvalid(registry: map<string, ToolContract>, discovery: Discovery, steps: seq<RawStep>,
          n: nat, errors: seq<PlanError>)
    requires n <= |steps|
  {
    forall k :: 0 <= k < |errors| && errors[k].StepError? ==>
      errors[k].index < n && !ValidStep(registry, discovery, steps[errors[k].index])
  }

  lemma StillBlamed(registry: map<string, ToolContract>, discovery: Discovery, steps: seq<RawStep>, i: nat,
                    errors: seq<PlanError>, found: seq<PlanError>)
    requires i < |steps|
    requires found == [] <==> ValidStep(registry, discovery, steps[i])
    requires forall k :: 0 <= k < |found| ==> Blames(found[k], i)
    requires BlamesOnlyInvalid(registry, discovery, steps, i, errors)
    requires forall j :: 0 <= j < i && !ValidStep(registry, discovery, steps[j]) ==>
               exists k :: 0 <= k < |errors| && Blames(errors[k], j)
    ensures BlamesOnlyInvalid(registry, discovery, steps, i + 1, errors + found)
    ensures forall j :: 0 <= j < i + 1 && !ValidStep(registry, discovery, steps[j]) ==>
              exists k :: 0 <= k < |errors + found| && Blames((errors + found)[k], j)
  {
    var all := errors + found;
    forall k | 0 <= k < |all| && all[k].StepError?
      ensures all[k].index < i + 1 && !ValidStep(registry, discovery, steps[all[k].index])
    {
      if k < |errors| {
        assert all[k] == errors[k];
      } else {
        assert all[k] == found[k - |errors|] && Blames(found[k - |errors|], i);
      }
    }
    forall j | 0 <= j < i + 1 && !ValidStep(registry, discovery, steps[j])
      ensures exists k :: 0 <= k < |errors + found| && Blames((errors + found)[k], j)
    {
      if j < i {
        var k :| 0 <= k < |errors| && Blames(errors[k], j);
        assert (errors + found)[k] == errors[k];
      } else {
        assert (errors + found)[|errors|] == found[0];
      }
    }
  }

  method CheckStep(registry: map<string, ToolContract>, discovery: Discovery, i: nat,
          step: RawStep) returns (errors: seq<PlanError>)
    ensures errors == [] <==> ValidStep(registry, discovery, step)
    ensures forall k :: 0 <= k < |errors| ==> Blames(errors[k], i)
    ensures forall fault :: StepError(i, fault) in errors <==> HasFault(registry, discovery, step, fault)
  {
    if step.NotAnObject? {
      return [StepError(i, Malformed)];
    }
    if step.tool !in registry {
      return [StepError(i, UnknownTool)];
    }
    var tool := registry[step.tool];
    errors := [];
    if discovery.allowed.Some? && step.tool !in discovery.allowed.value {
      errors := errors + [StepError(i, Unavailable)];
    }
    var schemaError := ValidateInputSchema(step.payload, tool.schema);
    PayloadFailsSo(step.payload, tool.schema, schemaError);
    if schemaError.Some? {
      errors := errors + [StepError(i, BadPayload(schemaError.value))];
    }
    if step.requiresApproval == Some(false) && ClassifyApproval(tool) != NoApproval {
      errors := errors + [StepError(i, ApprovalBypassed)];
    }
  }
}
