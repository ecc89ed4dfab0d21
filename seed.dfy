/**
 The fixture loader of server/prisma/seedData/seed.ts, over an abstract record
 store and an abstract filesystem.

 The client is the ordered list of its own keys, each with what `typeof` and the
 two capability checks see. A fixture file is seen only through what existence,
 reading and `JSON.parse` make of it. A run is recorded as a trace of store calls
 (`deleteMany`, `createMany`, `$disconnect`) and abstract log entries; the
 specification functions below give the trace of each phase, and the class
 `Seeder` carries out the same steps one call at a time.
 */
module Seed {

  datatype Option<T> = None | Some(value: T)

  /** What the driver can observe of one property of the client object. */
  datatype Value =
    | Null                                    // typeof null is "object"
    | Obj(deleteMany: bool, createMany: bool) // an object; whether each method is a function
    | NonObject                               // a function, string, number, ...

  datatype Member = Member(key: string, value: Value)

  /** One row of a fixture file; field values are kept as their JSON text. */
  type Record = map<string, string>

  /** What existence check, read and `JSON.parse` make of a fixture file. */
  datatype FileState = Missing | BadJson | NonArray | Array(records: seq<Record>)

  /** How a failing store call rejects: with an Error-like value, or with
      null/undefined, whose `.message` then throws inside the handler. */
  datatype Rejection = WithError | WithNullish

  datatype Env = Env(
    members: seq<Member>,                  // Object.keys(prisma), in order
    files: map<string, FileState>,         // a name that is absent is Missing
    deleteFaults: map<string, Rejection>,  // client keys whose deleteMany rejects
    createFaults: map<string, Rejection>)  // client keys whose createMany rejects

  /** The console lines, without their text. */
  datatype Log =
    | ModelNotFound(name: string)
    | Cleared(name: string)
    | ClearFailed(name: string)
    | DeleteUnsupported(name: string)
    | FileNotFound(file: string)
    | InvalidJson(file: string)
    | NotAnArray(file: string)
    | CreateUnsupported(name: string)
    | Seeded(name: string, file: string)
    | SeedFailed(name: string)
    | Completed
    | Fatal

  datatype Event =
    | DeleteMany(key: string)
    | CreateMany(key: string, records: seq<Record>)
    | Disconnect
    | Logged(entry: Log)

  /** The load order, used for both phases. */
  const OrderedFileNames: seq<string> := [
    "products.json",
    "expenseSummary.json",
    "sales.json",
    "salesSummary.json",
    "purchases.json",
    "purchaseSummary.json",
    "users.json",
    "expenses.json",
    "expenseByCategory.json"
  ]

  // ---------------------------------------------------------------------------
  // Names

  /** ASCII `toLowerCase` of one character. */
  function LowerChar(c: char): (r: char)
    ensures !('A' <= r <= 'Z')
    ensures 'A' <= c <= 'Z' ==> 'a' <= r <= 'z' && r as int - 'a' as int == c as int - 'A' as int
    ensures !('A' <= c <= 'Z') ==> r == c
  {
    if 'A' <= c <= 'Z' then (c as int - 'A' as int + 'a' as int) as char else c
  }

  /** ASCII `toLowerCase`: same length, every upper-case letter replaced by
      its lower-case counterpart, every other character kept. */
  function Lower(s: string): (r: string)
    ensures |r| == |s|
    ensures forall i :: 0 <= i < |r| ==> !('A' <= r[i] <= 'Z')
    ensures forall i :: 0 <= i < |s| && !('A' <= s[i] <= 'Z') ==> r[i] == s[i]
    ensures forall i :: 0 <= i < |s| && 'A' <= s[i] <= 'Z' ==>
      'a' <= r[i] <= 'z' && r[i] as int - 'a' as int == s[i] as int - 'A' as int
  {
    seq(|s|, i requires 0 <= i < |s| => LowerChar(s[i]))
  }

  /** The index of the last '.' of `s`, if it has one. */
  function LastDot(s: string): (r: Option<nat>)
    ensures r.Some? ==> r.value < |s| && s[r.value] == '.' && forall j :: r.value < j < |s| ==> s[j] != '.'
    ensures r.None? ==> forall j :: 0 <= j < |s| ==> s[j] != '.'
  {
    if s == [] then None
    else if s[|s| - 1] == '.' then Some(|s| - 1)
    else LastDot(s[..|s| - 1])
  }

  /** `path.basename(fileName, path.extname(fileName))` for a name without
      directories: the final `.ext` goes, unless the only dot leads the name. */
  function ModelName(fileName: string): (r: string)
    ensures r <= fileName
    ensures r == fileName || (0 < |r| && fileName[|r|] == '.' && forall j :: |r| < j < |fileName| ==> fileName[j] != '.')
  {
    match LastDot(fileName)
    case Some(i) => if i > 0 then fileName[..i] else fileName
    case None => fileName
  }

  lemma ModelNameStripsExtension(stem: string, ext: string)
    requires stem != "" && forall j :: 0 <= j < |ext| ==> ext[j] != '.'
    ensures ModelName(stem + "." + ext) == stem
  {
    var f := stem + "." + ext;
    assert f[|stem|] == '.';
    assert forall j :: |stem| < j < |f| ==> f[j] == ext[j - |stem| - 1];
    assert f[..|stem|] == stem;
  }

  // ---------------------------------------------------------------------------
  // getModel

  /** Index `i` is where `Object.keys(prisma).find(...)` stops for `name`. */
  ghost predicate FirstMatch(members: seq<Member>, name: string, i: int) {
    0 <= i < |members| && Lower(members[i].key) == Lower(name) &&
    forall j :: 0 <= j < i ==> Lower(members[j].key) != Lower(name)
  }

  /** The first index at or after `from` whose key matches `name` case-insensitively. */
  function FindFrom(members: seq<Member>, name: string, from: nat): (r: Option<nat>)
    requires from <= |members|
    ensures r.Some? ==> from <= r.value < |members| && Lower(members[r.value].key) == Lower(name)
    ensures r.Some? ==> forall j :: from <= j < r.value ==> Lower(members[j].key) != Lower(name)
    ensures r.None? ==> forall j :: from <= j < |members| ==> Lower(members[j].key) != Lower(name)
    decreases |members| - from
  {
    if from == |members| then None
    else if Lower(members[from].key) == Lower(name) then Some(from)
    else FindFrom(members, name, from + 1)
  }

  /** `typeof v === "object"` */
  predicate IsObject(v: Value) {
    v.Null? || v.Obj?
  }

  /** getModel: the member at the first case-insensitive match, if its key is
      non-empty (truthy) and its value is an object; otherwise nothing. */
  function Resolve(members: seq<Member>, name: string): (r: Option<Member>)
    ensures forall i :: FirstMatch(members, name, i) ==>
      r == (if members[i].key != "" && IsObject(members[i].value) then Some(members[i]) else None)
    ensures (forall i :: 0 <= i < |members| ==> Lower(members[i].key) != Lower(name)) ==> r == None
  {
    match FindFrom(members, name, 0)
    case None => None
    case Some(i) => if members[i].key != "" && IsObject(members[i].value) then Some(members[i]) else None
  }

  /** The lookup does not depend on how `name` is capitalised. */
  lemma ResolveIgnoresCase(members: seq<Member>, a: string, b: string)
    requires Lower(a) == Lower(b)
    ensures Resolve(members, a) == Resolve(members, b)
  {
  }

  /** `model && typeof model.deleteMany === "function"` */
  predicate SupportsDelete(m: Option<Member>) {
    m.Some? && m.value.value.Obj? && m.value.value.deleteMany
  }

  /** `model && typeof model.createMany === "function"` */
  predicate SupportsCreate(m: Option<Member>) {
    m.Some? && m.value.value.Obj? && m.value.value.createMany
  }

  /** getModel's own error line when it finds nothing. */
  function LookupLog(name: string, m: Option<Member>): seq<Event> {
    if m.None? then [Logged(ModelNotFound(name))] else []
  }

  function FaultOf(faults: map<string, Rejection>, key: string): Option<Rejection> {
    if key in faults then Some(faults[key]) else None
  }

  function FileAt(env: Env, fileName: string): FileState {
    if fileName in env.files then env.files[fileName] else Missing
  }

  // ---------------------------------------------------------------------------
  // The trace of a run

  /** What one loop iteration emits, and whether an exception escapes it. */
  datatype Step = Step(events: seq<Event>, aborted: bool)

  datatype Phase = Clearing | Seeding

  /** One iteration of deleteAllData's loop. */
  function ClearStep(env: Env, modelName: string): (s: Step)
    ensures var m := Resolve(env.members, modelName);
      s.aborted <==> SupportsDelete(m) && FaultOf(env.deleteFaults, m.value.key) == Some(WithNullish)
    ensures s.events != []
    ensures Resolve(env.members, modelName).None? ==> s.events[0] == Logged(ModelNotFound(modelName))
    ensures s.aborted ==> s.events[|s.events| - 1] == DeleteMany(Resolve(env.members, modelName).value.key)
    ensures !s.aborted ==> s.events[|s.events| - 1].Logged?
  {
    var model := Resolve(env.members, modelName);
    var lookup := LookupLog(modelName, model);
    if SupportsDelete(model) then
      var key := model.value.key;
      match FaultOf(env.deleteFaults, key)
      case None => Step(lookup + [DeleteMany(key), Logged(Cleared(modelName))], false)
      case Some(WithError) => Step(lookup + [DeleteMany(key), Logged(ClearFailed(modelName))], false)
      case Some(WithNullish) => Step(lookup + [DeleteMany(key)], true)
    else
      Step(lookup + [Logged(DeleteUnsupported(modelName))], false)
  }

  /** One iteration of main's insert loop. */
  function SeedStep(env: Env, fileName: string): (s: Step)
    ensures var m := Resolve(env.members, ModelName(fileName));
      s.aborted <==> FileAt(env, fileName).Array? && SupportsCreate(m) &&
                     FaultOf(env.createFaults, m.value.key) == Some(WithNullish)
    ensures s.events != []
    ensures s.aborted ==>
      s.events[|s.events| - 1] == CreateMany(Resolve(env.members, ModelName(fileName)).value.key, FileAt(env, fileName).records)
    ensures !s.aborted ==> s.events[|s.events| - 1].Logged?
  {
    match FileAt(env, fileName)
    case Missing => Step([Logged(FileNotFound(fileName))], false)
    case BadJson => Step([Logged(InvalidJson(fileName))], false)
    case NonArray => Step([Logged(NotAnArray(fileName))], false)
    case Array(records) =>
      var modelName := ModelName(fileName);
      var model := Resolve(env.members, modelName);
      var lookup := LookupLog(modelName, model);
      if SupportsCreate(model) then
        var key := model.value.key;
        match FaultOf(env.createFaults, key)
        case None => Step(lookup + [CreateMany(key, records), Logged(Seeded(modelName, fileName))], false)
        case Some(WithError) => Step(lookup + [CreateMany(key, records), Logged(SeedFailed(modelName))], false)
        case Some(WithNullish) => Step(lookup + [CreateMany(key, records)], true)
      else
        Step(lookup + [Logged(CreateUnsupported(modelName))], false)
  }

  function PhaseStep(env: Env, phase: Phase, fileName: string): Step {
    match phase
    case Clearing => ClearStep(env, ModelName(fileName))
    case Seeding => SeedStep(env, fileName)
  }

  /** The file names in order, each handled by `step`; an escaping exception
      ends the loop. */
  function Fold(step: string -> Step, fileNames: seq<string>): Step
    decreases |fileNames|
  {
    if fileNames == [] then Step([], false)
    else
      var done := Fold(step, fileNames[..|fileNames| - 1]);
      if done.aborted then done
      else
        var last := step(fileNames[|fileNames| - 1]);
        Step(done.events + last.events, last.aborted)
  }

  function RunPhase(env: Env, phase: Phase, fileNames: seq<string>): Step {
    Fold(f => PhaseStep(env, phase, f), fileNames)
  }

  /** main: clear, then seed, then the completion line. */
  function MainRun(env: Env, fileNames: seq<string>): (m: Step)
    ensures RunPhase(env, Clearing, fileNames).events <= m.events
    ensures m.aborted <==> RunPhase(env, Clearing, fileNames).aborted || RunPhase(env, Seeding, fileNames).aborted
    ensures !m.aborted ==> m.events != [] && m.events[|m.events| - 1] == Logged(Completed)
  {
    var cleared := RunPhase(env, Clearing, fileNames);
    if cleared.aborted then cleared
    else
      var seeded := RunPhase(env, Seeding, fileNames);
      if seeded.aborted then Step(cleared.events + seeded.events, true)
      else Step(cleared.events + seeded.events + [Logged(Completed)], false)
  }

  /** `main().catch(...).finally(disconnect)` */
  function SeedRun(env: Env, fileNames: seq<string>): (t: seq<Event>)
    ensures MainRun(env, fileNames).events <= t
    ensures |t| == |MainRun(env, fileNames).events| + (if MainRun(env, fileNames).aborted then 2 else 1)
    ensures t[|t| - 1] == Disconnect
    ensures MainRun(env, fileNames).aborted ==> t[|t| - 2] == Logged(Fatal)
  {
    var m := MainRun(env, fileNames);
    m.events + (if m.aborted then [Logged(Fatal)] else []) + [Disconnect]
  }

  // ---------------------------------------------------------------------------
  // The store calls a run makes, independently of how the store answers

  /** The call a file name leads to in a phase: by name resolution, the
      capability check and the file's contents alone. */
  function PlannedCall(env: Env, phase: Phase, fileName: string): seq<Event> {
    match phase
    case Clearing =>
      var model := Resolve(env.members, ModelName(fileName));
      if SupportsDelete(model) then [DeleteMany(model.value.key)] else []
    case Seeding =>
      match FileAt(env, fileName)
      case Array(records) =>
        var model := Resolve(env.members, ModelName(fileName));
        if SupportsCreate(model) then [CreateMany(model.value.key, records)] else []
      case _ => []
  }

  /** The plans of the file names, one after the other. */
  function Concat(plan: string -> seq<Event>, fileNames: seq<string>): seq<Event>
    decreases |fileNames|
  {
    if fileNames == [] then []
    else Concat(plan, fileNames[..|fileNames| - 1]) + plan(fileNames[|fileNames| - 1])
  }

  function PlannedCalls(env: Env, phase: Phase, fileNames: seq<string>): seq<Event> {
    Concat(f => PlannedCall(env, phase, f), fileNames)
  }

  /** The store calls of a trace: everything but the log entries. */
  function Calls(events: seq<Event>): seq<Event>
    decreases |events|
  {
    if events == [] then []
    else Calls(events[..|events| - 1]) + (if events[|events| - 1].Logged? then [] else [events[|events| - 1]])
  }

  /** No store call ever rejects with null or undefined. */
  ghost predicate ErrorsAreObjects(env: Env) {
    WithNullish !in env.deleteFaults.Values && WithNullish !in env.createFaults.Values
  }

  // ---------------------------------------------------------------------------
  // Lemmas about the trace

  lemma {:induction false} CallsAppend(a: seq<Event>, b: seq<Event>)
    ensures Calls(a + b) == Calls(a) + Calls(b)
    decreases |b|
  {
    if b == [] {
      assert a + b == a;
    } else {
      assert (a + b)[..|a + b| - 1] == a + b[..|b| - 1];
      CallsAppend(a, b[..|b| - 1]);
    }
  }

  lemma CallsOfOne(e: Event)
    ensures Calls([e]) == if e.Logged? then [] else [e]
  {
    assert [e][..0] == [];
  }

  lemma CallsOfTwo(a: Event, b: Event)
    ensures Calls([a, b]) == Calls([a]) + Calls([b])
  {
    assert [a, b] == [a] + [b];
    CallsAppend([a], [b]);
  }

  /** A call followed by its log line, or a call alone. */
  lemma CallsOfCall(call: Event, l: Log)
    requires !call.Logged?
    ensures Calls([call, Logged(l)]) == [call] && Calls([call]) == [call]
  {
    CallsOfTwo(call, Logged(l));
    CallsOfOne(call);
    CallsOfOne(Logged(l));
  }

  lemma ClearStepCalls(env: Env, modelName: string)
    ensures Calls(ClearStep(env, modelName).events) ==
      (var m := Resolve(env.members, modelName); if SupportsDelete(m) then [DeleteMany(m.value.key)] else [])
  {
    var model := Resolve(env.members, modelName);
    var lookup := LookupLog(modelName, model);
    assert Calls(lookup) == [] by {
      if model.None? { CallsOfOne(Logged(ModelNotFound(modelName))); }
    }
    if SupportsDelete(model) {
      var key := model.value.key;
      var rest := match FaultOf(env.deleteFaults, key)
        case None => [DeleteMany(key), Logged(Cleared(modelName))]
        case Some(WithError) => [DeleteMany(key), Logged(ClearFailed(modelName))]
        case Some(WithNullish) => [DeleteMany(key)];
      assert ClearStep(env, modelName).events == lookup + rest;
      CallsAppend(lookup, rest);
      CallsOfCall(DeleteMany(key), Cleared(modelName));
      CallsOfCall(DeleteMany(key), ClearFailed(modelName));
    } else {
      var rest := [Logged(DeleteUnsupported(modelName))];
      assert ClearStep(env, modelName).events == lookup + rest;
      CallsAppend(lookup, rest);
      CallsOfOne(Logged(DeleteUnsupported(modelName)));
    }
  }

  lemma SeedStepCalls(env: Env, fileName: string)
    ensures Calls(SeedStep(env, fileName).events) == PlannedCall(env, Seeding, fileName)
  {
    match FileAt(env, fileName)
    case Missing => CallsOfOne(Logged(FileNotFound(fileName)));
    case BadJson => CallsOfOne(Logged(InvalidJson(fileName)));
    case NonArray => CallsOfOne(Logged(NotAnArray(fileName)));
    case Array(records) => ArrayStepCalls(env, fileName, records);
  }

  lemma ArrayStepCalls(env: Env, fileName: string, records: seq<Record>)
    requires FileAt(env, fileName) == Array(records)
    ensures Calls(SeedStep(env, fileName).events) ==
      (var m := Resolve(env.members, ModelName(fileName)); if SupportsCreate(m) then [CreateMany(m.value.key, records)] else [])
  {
    var modelName := ModelName(fileName);
    var model := Resolve(env.members, modelName);
    var lookup := LookupLog(modelName, model);
    assert Calls(lookup) == [] by {
      if model.None? { CallsOfOne(Logged(ModelNotFound(modelName))); }
    }
    if SupportsCreate(model) {
      var key := model.value.key;
      var rest := match FaultOf(env.createFaults, key)
        case None => [CreateMany(key, records), Logged(Seeded(modelName, fileName))]
        case Some(WithError) => [CreateMany(key, records), Logged(SeedFailed(modelName))]
        case Some(WithNullish) => [CreateMany(key, records)];
      assert SeedStep(env, fileName).events == lookup + rest;
      CallsAppend(lookup, rest);
      CallsOfCall(CreateMany(key, records), Seeded(modelName, fileName));
      CallsOfCall(CreateMany(key, records), SeedFailed(modelName));
    } else {
      var rest := [Logged(CreateUnsupported(modelName))];
      assert SeedStep(env, fileName).events == lookup + rest;
      CallsAppend(lookup, rest);
      CallsOfOne(Logged(CreateUnsupported(modelName)));
    }
  }

  /** The calls inside one iteration are the planned one, whatever the store
      answers: it is made once, even when it rejects. */
  lemma StepCallsArePlanned(env: Env, phase: Phase, fileName: string)
    ensures Calls(PhaseStep(env, phase, fileName).events) == PlannedCall(env, phase, fileName)
  {
    match phase
    case Clearing => ClearStepCalls(env, ModelName(fileName));
    case Seeding => SeedStepCalls(env, fileName);
  }

  /** What happens to the names before does not change how a later name is
      handled: a loop over `a + b` is the loop over `a` followed by the loop
      over `b`, unless an exception escaped during `a`. */
  lemma {:induction false} FoldAppend(step: string -> Step, a: seq<string>, b: seq<string>)
    ensures Fold(step, a + b) ==
      (var pa := Fold(step, a);
       if pa.aborted then pa
       else Step(pa.events + Fold(step, b).events, Fold(step, b).aborted))
    decreases |b|
  {
    if b == [] {
      assert a + b == a;
    } else {
      assert (a + b)[..|a + b| - 1] == a + b[..|b| - 1];
      assert (a + b)[|a + b| - 1] == b[|b| - 1];
      FoldAppend(step, a, b[..|b| - 1]);
    }
  }

  /** Once an exception escapes, the loop is over. */
  lemma {:induction false} AbortIsFinal(step: string -> Step, fileNames: seq<string>, k: nat)
    requires k <= |fileNames|
    requires Fold(step, fileNames[..k]).aborted
    ensures Fold(step, fileNames) == Fold(step, fileNames[..k])
    decreases |fileNames| - k
  {
    if k < |fileNames| {
      var front := fileNames[..|fileNames| - 1];
      assert front[..k] == fileNames[..k];
      AbortIsFinal(step, front, k);
    } else {
      assert fileNames[..k] == fileNames;
    }
  }

  /** One more iteration of the loop. */
  lemma FoldSnoc(step: string -> Step, fileNames: seq<string>, i: nat)
    requires i < |fileNames|
    requires !Fold(step, fileNames[..i]).aborted
    ensures Fold(step, fileNames[..i + 1]) ==
      Step(Fold(step, fileNames[..i]).events + step(fileNames[i]).events, step(fileNames[i]).aborted)
  {
    assert fileNames[..i + 1][..i] == fileNames[..i];
  }

  /** A loop whose every step catches its failures runs to the end. */
  lemma {:induction false} FoldCompletes(step: string -> Step, fileNames: seq<string>)
    requires forall f :: !step(f).aborted
    ensures !Fold(step, fileNames).aborted
    decreases |fileNames|
  {
    if fileNames != [] {
      FoldCompletes(step, fileNames[..|fileNames| - 1]);
    }
  }

  /** When each step's calls are its plan, the loop's calls are the plans in
      order, cut short only by an escaping exception. */
  lemma {:induction false} FoldCallsFollowPlan(step: string -> Step, plan: string -> seq<Event>, fileNames: seq<string>)
    requires forall f :: Calls(step(f).events) == plan(f)
    ensures Calls(Fold(step, fileNames).events) <= Concat(plan, fileNames)
    ensures !Fold(step, fileNames).aborted ==> Calls(Fold(step, fileNames).events) == Concat(plan, fileNames)
    decreases |fileNames|
  {
    if fileNames != [] {
      var front := fileNames[..|fileNames| - 1];
      var f := fileNames[|fileNames| - 1];
      FoldCallsFollowPlan(step, plan, front);
      var done := Fold(step, front);
      if !done.aborted {
        CallsAppend(done.events, step(f).events);
      }
    }
  }

  /** Every event of the loop is an event of one of its steps. */
  lemma {:induction false} FoldEvents(step: string -> Step, fileNames: seq<string>)
    ensures forall e :: e in Fold(step, fileNames).events ==> exists f :: f in fileNames && e in step(f).events
    decreases |fileNames|
  {
    if fileNames != [] {
      var front := fileNames[..|fileNames| - 1];
      FoldEvents(step, front);
      forall e | e in Fold(step, fileNames).events
        ensures exists f :: f in fileNames && e in step(f).events
      {
        if e in Fold(step, front).events {
          var f :| f in front && e in step(f).events;
          assert f in fileNames;
        } else {
          assert fileNames[|fileNames| - 1] in fileNames;
        }
      }
    }
  }

  lemma PhaseSnoc(env: Env, phase: Phase, fileNames: seq<string>, i: nat)
    requires i < |fileNames|
    requires !RunPhase(env, phase, fileNames[..i]).aborted
    ensures RunPhase(env, phase, fileNames[..i + 1]) ==
      Step(RunPhase(env, phase, fileNames[..i]).events + PhaseStep(env, phase, fileNames[i]).events,
           PhaseStep(env, phase, fileNames[i]).aborted)
  {
    FoldSnoc(f => PhaseStep(env, phase, f), fileNames, i);
  }

  lemma PhaseAbortIsFinal(env: Env, phase: Phase, fileNames: seq<string>, k: nat)
    requires k <= |fileNames|
    requires RunPhase(env, phase, fileNames[..k]).aborted
    ensures RunPhase(env, phase, fileNames) == RunPhase(env, phase, fileNames[..k])
  {
    AbortIsFinal(f => PhaseStep(env, phase, f), fileNames, k);
  }

  /** Rejections with an Error value are caught per name: the phase runs to
      the end. */
  lemma PhaseCompletes(env: Env, phase: Phase, fileNames: seq<string>)
    requires ErrorsAreObjects(env)
    ensures !RunPhase(env, phase, fileNames).aborted
  {
    forall key
      ensures FaultOf(env.deleteFaults, key) != Some(WithNullish)
      ensures FaultOf(env.createFaults, key) != Some(WithNullish)
    {
      if key in env.deleteFaults { assert env.deleteFaults[key] in env.deleteFaults.Values; }
      if key in env.createFaults { assert env.createFaults[key] in env.createFaults.Values; }
    }
    FoldCompletes(f => PhaseStep(env, phase, f), fileNames);
  }

  /** The calls of a phase follow the plan, one per eligible name and in load
      order; an escaping exception can only cut the plan short. */
  lemma PhaseCallsFollowPlan(env: Env, phase: Phase, fileNames: seq<string>)
    ensures Calls(RunPhase(env, phase, fileNames).events) <= PlannedCalls(env, phase, fileNames)
    ensures !RunPhase(env, phase, fileNames).aborted ==>
      Calls(RunPhase(env, phase, fileNames).events) == PlannedCalls(env, phase, fileNames)
  {
    forall f ensures Calls(PhaseStep(env, phase, f).events) == PlannedCall(env, phase, f) {
      StepCallsArePlanned(env, phase, f);
    }
    FoldCallsFollowPlan(f => PhaseStep(env, phase, f), f => PlannedCall(env, phase, f), fileNames);
  }

  /** A clearing phase makes no insert and no disconnect; a seeding phase makes
      no delete and no disconnect. */
  lemma PhaseEventKinds(env: Env, phase: Phase, fileNames: seq<string>)
    ensures forall e :: e in RunPhase(env, phase, fileNames).events ==>
      !e.Disconnect? && (phase == Clearing ==> !e.CreateMany?) && (phase == Seeding ==> !e.DeleteMany?)
  {
    FoldEvents(f => PhaseStep(env, phase, f), fileNames);
    forall e | e in RunPhase(env, phase, fileNames).events
      ensures !e.Disconnect? && (phase == Clearing ==> !e.CreateMany?) && (phase == Seeding ==> !e.DeleteMany?)
    {
      var f :| f in fileNames && e in PhaseStep(env, phase, f).events;
      StepEventKinds(env, phase, f);
    }
  }

  lemma StepEventKinds(env: Env, phase: Phase, fileName: string)
    ensures forall e :: e in PhaseStep(env, phase, fileName).events ==>
      !e.Disconnect? && (phase == Clearing ==> !e.CreateMany?) && (phase == Seeding ==> !e.DeleteMany?)
  {
    match phase
    case Clearing => ClearStepKinds(env, ModelName(fileName));
    case Seeding => SeedStepKinds(env, fileName);
  }

  lemma ClearStepKinds(env: Env, modelName: string)
    ensures forall e :: e in ClearStep(env, modelName).events ==> e.DeleteMany? || e.Logged?
  {
    var model := Resolve(env.members, modelName);
    var lookup := LookupLog(modelName, model);
    if SupportsDelete(model) {
      var key := model.value.key;
      var rest := match FaultOf(env.deleteFaults, key)
        case None => [DeleteMany(key), Logged(Cleared(modelName))]
        case Some(WithError) => [DeleteMany(key), Logged(ClearFailed(modelName))]
        case Some(WithNullish) => [DeleteMany(key)];
      assert ClearStep(env, modelName).events == lookup + rest;
    } else {
      assert ClearStep(env, modelName).events == lookup + [Logged(DeleteUnsupported(modelName))];
    }
  }

  lemma SeedStepKinds(env: Env, fileName: string)
    ensures forall e :: e in SeedStep(env, fileName).events ==> e.CreateMany? || e.Logged?
  {
    if FileAt(env, fileName).Array? {
      var records := FileAt(env, fileName).records;
      var modelName := ModelName(fileName);
      var model := Resolve(env.members, modelName);
      var lookup := LookupLog(modelName, model);
      if SupportsCreate(model) {
        var key := model.value.key;
        var rest := match FaultOf(env.createFaults, key)
          case None => [CreateMany(key, records), Logged(Seeded(modelName, fileName))]
          case Some(WithError) => [CreateMany(key, records), Logged(SeedFailed(modelName))]
          case Some(WithNullish) => [CreateMany(key, records)];
        assert SeedStep(env, fileName).events == lookup + rest;
      } else {
        assert SeedStep(env, fileName).events == lookup + [Logged(CreateUnsupported(modelName))];
      }
    }
  }

  /** Every deleteMany of a run comes before every createMany. */
  lemma DeletesPrecedeCreates(env: Env, fileNames: seq<string>)
    ensures var t := SeedRun(env, fileNames);
      forall i, j :: 0 <= i < |t| && 0 <= j < |t| && t[i].DeleteMany? && t[j].CreateMany? ==> i < j
  {
    var t := SeedRun(env, fileNames);
    var cleared := RunPhase(env, Clearing, fileNames);
    PhaseEventKinds(env, Clearing, fileNames);
    PhaseEventKinds(env, Seeding, fileNames);
    forall i | 0 <= i < |t| && t[i].DeleteMany? ensures i < |cleared.events| {
    }
    forall j | 0 <= j < |t| && t[j].CreateMany? ensures j >= |cleared.events| {
    }
  }

  /** The connection is released exactly once, as the very last event,
      whether main completes or throws. */
  lemma DisconnectIsLastAndOnce(env: Env, fileNames: seq<string>)
    ensures var t := SeedRun(env, fileNames);
      |t| > 0 && t[|t| - 1] == Disconnect &&
      forall i :: 0 <= i < |t| - 1 ==> !t[i].Disconnect?
  {
    var t := SeedRun(env, fileNames);
    var m := MainRun(env, fileNames);
    PhaseEventKinds(env, Clearing, fileNames);
    PhaseEventKinds(env, Seeding, fileNames);
    forall i | 0 <= i < |t| - 1 ensures !t[i].Disconnect? {
      if i < |m.events| {
        assert t[i] in m.events;
      }
    }
  }

  /** An exception escaping main is logged once by the outer handler, right
      before the disconnect. */
  lemma FatalOnlyWhenMainThrows(env: Env, fileNames: seq<string>)
    ensures var t := SeedRun(env, fileNames);
      MainRun(env, fileNames).aborted <==> (|t| >= 2 && t[|t| - 2] == Logged(Fatal))
  {
    var m := MainRun(env, fileNames);
    if !m.aborted && |m.events| > 0 {
      assert m.events[|m.events| - 1] == Logged(Completed);
    }
  }

  /** With every failure an Error value, a run calls the store exactly as
      planned: the deletes of the whole load order, then the inserts of the
      whole load order, then the disconnect. */
  lemma RunCallsFollowPlan(env: Env, fileNames: seq<string>)
    requires ErrorsAreObjects(env)
    ensures Calls(SeedRun(env, fileNames)) ==
      PlannedCalls(env, Clearing, fileNames) + PlannedCalls(env, Seeding, fileNames) + [Disconnect]
  {
    PhaseCompletes(env, Clearing, fileNames);
    PhaseCompletes(env, Seeding, fileNames);
    PhaseCallsFollowPlan(env, Clearing, fileNames);
    PhaseCallsFollowPlan(env, Seeding, fileNames);
    CompletedRun(env, fileNames);
    CallsOfCompletedRun(RunPhase(env, Clearing, fileNames).events, RunPhase(env, Seeding, fileNames).events);
  }

  /** A run in which neither phase aborts: both phases, the completion line, the disconnect. */
  lemma CompletedRun(env: Env, fileNames: seq<string>)
    requires !RunPhase(env, Clearing, fileNames).aborted && !RunPhase(env, Seeding, fileNames).aborted
    ensures SeedRun(env, fileNames) ==
      RunPhase(env, Clearing, fileNames).events + RunPhase(env, Seeding, fileNames).events + [Logged(Completed)] + [Disconnect]
  {
  }

  lemma CallsOfCompletedRun(a: seq<Event>, b: seq<Event>)
    ensures Calls(a + b + [Logged(Completed)] + [Disconnect]) == Calls(a) + Calls(b) + [Disconnect]
  {
    CallsAppend(a, b);
    CallsAppend(a + b, [Logged(Completed)]);
    CallsAppend(a + b + [Logged(Completed)], [Disconnect]);
    CallsOfOne(Logged(Completed));
    CallsOfOne(Disconnect);
  }

  /** A file that is missing, unparsable or not an array is skipped with one
      log line: no call, no exception, the loop goes on. */
  lemma SkippedFileContinues(env: Env, fileName: string)
    requires !FileAt(env, fileName).Array?
    ensures PlannedCall(env, Seeding, fileName) == []
    ensures !SeedStep(env, fileName).aborted && |SeedStep(env, fileName).events| == 1
    ensures SeedStep(env, fileName).events[0] ==
      Logged(match FileAt(env, fileName)
             case Missing => FileNotFound(fileName)
             case BadJson => InvalidJson(fileName)
             case _ => NotAnArray(fileName))
  {
  }

  /** A usable array file is inserted by one createMany carrying the whole
      array, unchanged and in order. */
  lemma ArrayFileInsertedWhole(env: Env, fileName: string)
    requires FileAt(env, fileName).Array?
    requires SupportsCreate(Resolve(env.members, ModelName(fileName)))
    ensures Calls(SeedStep(env, fileName).events) ==
      [CreateMany(Resolve(env.members, ModelName(fileName)).value.key, FileAt(env, fileName).records)]
  {
    StepCallsArePlanned(env, Seeding, fileName);
  }

  /** The model names the load order resolves through. */
  lemma OrderedModelNames()
    ensures |OrderedFileNames| == 9
    ensures ModelName(OrderedFileNames[0]) == "products"
    ensures ModelName(OrderedFileNames[1]) == "expenseSummary"
    ensures ModelName(OrderedFileNames[2]) == "sales"
    ensures ModelName(OrderedFileNames[3]) == "salesSummary"
    ensures ModelName(OrderedFileNames[4]) == "purchases"
    ensures ModelName(OrderedFileNames[5]) == "purchaseSummary"
    ensures ModelName(OrderedFileNames[6]) == "users"
    ensures ModelName(OrderedFileNames[7]) == "expenses"
    ensures ModelName(OrderedFileNames[8]) == "expenseByCategory"
  {
    assert OrderedFileNames[0] == "products" + "." + "json";
    ModelNameStripsExtension("products", "json");
    assert OrderedFileNames[1] == "expenseSummary" + "." + "json";
    ModelNameStripsExtension("expenseSummary", "json");
    assert OrderedFileNames[2] == "sales" + "." + "json";
    ModelNameStripsExtension("sales", "json");
    assert OrderedFileNames[3] == "salesSummary" + "." + "json";
    ModelNameStripsExtension("salesSummary", "json");
    assert OrderedFileNames[4] == "purchases" + "." + "json";
    ModelNameStripsExtension("purchases", "json");
    assert OrderedFileNames[5] == "purchaseSummary" + "." + "json";
    ModelNameStripsExtension("purchaseSummary", "json");
    assert OrderedFileNames[6] == "users" + "." + "json";
    ModelNameStripsExtension("users", "json");
    assert OrderedFileNames[7] == "expenses" + "." + "json";
    ModelNameStripsExtension("expenses", "json");
    assert OrderedFileNames[8] == "expenseByCategory" + "." + "json";
    ModelNameStripsExtension("expenseByCategory", "json");
  }

  // ---------------------------------------------------------------------------
  // A nullish rejection ends the loop

  /** A client with two deletable delegates whose first `deleteMany` rejects
      with null: the input that shows the handler's `(error as Error).message`
      throwing. */
  function NullishEnv(): Env {
    Env([Member("a", Obj(true, true)), Member("b", Obj(true, true))], map[], map["a" := WithNullish], map[])
  }

  lemma NullishEnvResolves()
    ensures ModelName("a") == "a" && ModelName("b") == "b"
    ensures Resolve(NullishEnv().members, "a") == Some(Member("a", Obj(true, true)))
    ensures Resolve(NullishEnv().members, "b") == Some(Member("b", Obj(true, true)))
  {
    assert Lower("a") == "a" && Lower("b") == "b";
    assert FindFrom(NullishEnv().members, "a", 0) == Some(0);
    assert FindFrom(NullishEnv().members, "b", 0) == Some(1);
  }

  lemma NullishEnvPlan()
    ensures PlannedCalls(NullishEnv(), Clearing, ["a", "b"]) == [DeleteMany("a"), DeleteMany("b")]
  {
    NullishEnvResolves();
    var plan := f => PlannedCall(NullishEnv(), Clearing, f);
    assert ["a", "b"][..1] == ["a"] && ["a"][..0] == [];
    assert Concat(plan, ["a"]) == [DeleteMany("a")];
  }

  lemma NullishEnvFirstStep()
    ensures PhaseStep(NullishEnv(), Clearing, "a") == Step([DeleteMany("a")], true)
  {
    NullishEnvResolves();
  }

  /** As written, the rejection of `a` escapes the loop: `b` is never cleared,
      although the plan has a delete for it. */
  lemma NullishRejectionSkipsLaterNames()
    ensures PlannedCalls(NullishEnv(), Clearing, ["a", "b"]) == [DeleteMany("a"), DeleteMany("b")]
    ensures RunPhase(NullishEnv(), Clearing, ["a", "b"]).aborted
    ensures Calls(RunPhase(NullishEnv(), Clearing, ["a", "b"]).events) == [DeleteMany("a")]
  {
    var env := NullishEnv();
    var names := ["a", "b"];
    NullishEnvPlan();
    NullishEnvFirstStep();
    assert names[..0] == [];
    PhaseSnoc(env, Clearing, names, 0);
    PhaseAbortIsFinal(env, Clearing, names, 1);
    CallsOfOne(DeleteMany("a"));
  }

  /** The handlers as evidently intended: a rejection of any kind is logged
      and the loop goes on with the next name. */
  function CaughtStep(env: Env, phase: Phase, fileName: string): Step {
    var s := PhaseStep(env, phase, fileName);
    if !s.aborted then s
    else
      var failed := match phase
        case Clearing => ClearFailed(ModelName(fileName))
        case Seeding => SeedFailed(ModelName(fileName));
      Step(s.events + [Logged(failed)], false)
  }

  function CaughtPhase(env: Env, phase: Phase, fileNames: seq<string>): Step {
    Fold(f => CaughtStep(env, phase, f), fileNames)
  }

  /** With the intended handlers every phase runs to the end and makes every
      planned call, in order, however the store rejects. */
  lemma CaughtPhaseFollowsPlan(env: Env, phase: Phase, fileNames: seq<string>)
    ensures !CaughtPhase(env, phase, fileNames).aborted
    ensures Calls(CaughtPhase(env, phase, fileNames).events) == PlannedCalls(env, phase, fileNames)
  {
    forall f ensures Calls(CaughtStep(env, phase, f).events) == PlannedCall(env, phase, f) {
      var s := PhaseStep(env, phase, f);
      StepCallsArePlanned(env, phase, f);
      if s.aborted {
        var failed := CaughtStep(env, phase, f).events[|s.events|];
        assert CaughtStep(env, phase, f).events == s.events + [failed];
        CallsAppend(s.events, [failed]);
        CallsOfOne(failed);
      }
    }
    FoldCompletes(f => CaughtStep(env, phase, f), fileNames);
    FoldCallsFollowPlan(f => CaughtStep(env, phase, f), f => PlannedCall(env, phase, f), fileNames);
  }

  lemma AppendAssoc(a: seq<Event>, b: seq<Event>, c: seq<Event>)
    ensures a + b + c == a + (b + c)
  {
  }

  // ---------------------------------------------------------------------------
  // The driver

  class Seeder {
    const env: Env
    /** Everything the run has done so far, in order. */
    var trace: seq<Event>

    constructor (env: Env)
      ensures this.env == env && trace == []
    {
      this.env := env;
      trace := [];
    }

    /** A console line. */
    method Note(entry: Log)
      modifies this
      ensures trace == old(trace) + [Logged(entry)]
    {
      trace := trace + [Logged(entry)];
    }

    method GetModel(modelName: string) returns (model: Option<Member>)
      modifies this
      ensures model == Resolve(env.members, modelName)
      ensures trace == old(trace) + LookupLog(modelName, model)
    {
      var modelKey := FindFrom(env.members, modelName, 0);
      if modelKey.Some? && env.members[modelKey.value].key != "" && IsObject(env.members[modelKey.value].value) {
        model := Some(env.members[modelKey.value]);
      } else {
        Note(ModelNotFound(modelName));
        model := None;
      }
    }

    /** The store's deleteMany on the delegate at `key`; how it rejects, if it does. */
    method CallDeleteMany(key: string) returns (rejected: Option<Rejection>)
      modifies this
      ensures trace == old(trace) + [DeleteMany(key)]
      ensures rejected == FaultOf(env.deleteFaults, key)
    {
      trace := trace + [DeleteMany(key)];
      rejected := FaultOf(env.deleteFaults, key);
    }

    /** The store's createMany on the delegate at `key`; how it rejects, if it does. */
    method CallCreateMany(key: string, records: seq<Record>) returns (rejected: Option<Rejection>)
      modifies this
      ensures trace == old(trace) + [CreateMany(key, records)]
      ensures rejected == FaultOf(env.createFaults, key)
    {
      trace := trace + [CreateMany(key, records)];
      rejected := FaultOf(env.createFaults, key);
    }

    /** One iteration of deleteAllData's loop; `aborted` when an exception
        escapes it. */
    method ClearModel(modelName: string) returns (aborted: bool)
      modifies this
      ensures trace == old(trace) + ClearStep(env, modelName).events
      ensures aborted == ClearStep(env, modelName).aborted
    {
      var model := GetModel(modelName);
      if model.Some? && model.value.value.Obj? && model.value.value.deleteMany {
        var rejected := CallDeleteMany(model.value.key);
        match rejected
        case None =>
          Note(Cleared(modelName));
          aborted := false;
        case Some(WithError) =>
          Note(ClearFailed(modelName));
          aborted := false;
        case Some(WithNullish) =>
          aborted := true;
      } else {
        Note(DeleteUnsupported(modelName));
        aborted := false;
      }
    }

    /** deleteAllData; `aborted` when an exception escapes it. */
    method DeleteAllData(orderedFileNames: seq<string>) returns (aborted: bool)
      modifies this
      ensures trace == old(trace) + RunPhase(env, Clearing, orderedFileNames).events
      ensures aborted == RunPhase(env, Clearing, orderedFileNames).aborted
    {
      aborted := false;
      ghost var done := Step([], false);
      assert orderedFileNames[..0] == [];
      for i := 0 to |orderedFileNames|
        invariant done == RunPhase(env, Clearing, orderedFileNames[..i])
        invariant trace == old(trace) + done.events && !done.aborted
      {
        PhaseSnoc(env, Clearing, orderedFileNames, i);
        var modelName := ModelName(orderedFileNames[i]);
        ghost var step := ClearStep(env, modelName);
        assert PhaseStep(env, Clearing, orderedFileNames[i]) == step;
        aborted := ClearModel(modelName);
        AppendAssoc(old(trace), done.events, step.events);
        done := Step(done.events + step.events, step.aborted);
        if aborted {
          PhaseAbortIsFinal(env, Clearing, orderedFileNames, i + 1);
          return;
        }
      }
      assert orderedFileNames[..|orderedFileNames|] == orderedFileNames;
    }

    /** One iteration of main's insert loop; `aborted` when an exception
        escapes it. Each early return is a `continue` of the loop. */
    method SeedFile(fileName: string) returns (aborted: bool)
      modifies this
      ensures trace == old(trace) + SeedStep(env, fileName).events
      ensures aborted == SeedStep(env, fileName).aborted
    {
      aborted := false;
      var contents := FileAt(env, fileName);
      if contents.Missing? {
        Note(FileNotFound(fileName));
        return;
      }
      if contents.BadJson? {
        Note(InvalidJson(fileName));
        return;
      }
      if contents.NonArray? {
        Note(NotAnArray(fileName));
        return;
      }
      var jsonData := contents.records;
      var modelName := ModelName(fileName);
      var model := GetModel(modelName);
      if !(model.Some? && model.value.value.Obj? && model.value.value.createMany) {
        Note(CreateUnsupported(modelName));
        return;
      }
      var rejected := CallCreateMany(model.value.key, jsonData);
      match rejected
      case None =>
        Note(Seeded(modelName, fileName));
      case Some(WithError) =>
        Note(SeedFailed(modelName));
      case Some(WithNullish) =>
        aborted := true;
    }

    /** The insert loop of main; `aborted` when an exception escapes it. */
    method InsertAllData(orderedFileNames: seq<string>) returns (aborted: bool)
      modifies this
      ensures trace == old(trace) + RunPhase(env, Seeding, orderedFileNames).events
      ensures aborted == RunPhase(env, Seeding, orderedFileNames).aborted
    {
      aborted := false;
      ghost var done := Step([], false);
      assert orderedFileNames[..0] == [];
      for i := 0 to |orderedFileNames|
        invariant done == RunPhase(env, Seeding, orderedFileNames[..i])
        invariant trace == old(trace) + done.events && !done.aborted
      {
        PhaseSnoc(env, Seeding, orderedFileNames, i);
        ghost var step := SeedStep(env, orderedFileNames[i]);
        assert PhaseStep(env, Seeding, orderedFileNames[i]) == step;
        aborted := SeedFile(orderedFileNames[i]);
        AppendAssoc(old(trace), done.events, step.events);
        done := Step(done.events + step.events, step.aborted);
        if aborted {
          PhaseAbortIsFinal(env, Seeding, orderedFileNames, i + 1);
          return;
        }
      }
      assert orderedFileNames[..|orderedFileNames|] == orderedFileNames;
    }

    /** The script's `main`: clear, seed, report completion. It is given the
        load order (Run passes OrderedFileNames, the list `main` declares);
        `aborted` when an exception escapes it. */
    method SeedDatabase(orderedFileNames: seq<string>) returns (aborted: bool)
      modifies this
      ensures trace == old(trace) + MainRun(env, orderedFileNames).events
      ensures aborted == MainRun(env, orderedFileNames).aborted
    {
      aborted := DeleteAllData(orderedFileNames);
      if aborted {
        return;
      }
      ghost var cleared := RunPhase(env, Clearing, orderedFileNames).events;
      aborted := InsertAllData(orderedFileNames);
      AppendAssoc(old(trace), cleared, RunPhase(env, Seeding, orderedFileNames).events);
      if aborted {
        return;
      }
      Note(Completed);
      AppendAssoc(old(trace), cleared + RunPhase(env, Seeding, orderedFileNames).events, [Logged(Completed)]);
    }

    /** The script's entry: main, the outer catch, and the disconnect in finally. */
    method Run()
      modifies this
      ensures trace == old(trace) + SeedRun(env, OrderedFileNames)
    {
      var aborted := SeedDatabase(OrderedFileNames);
      if aborted {
        Note(Fatal);
      }
      trace := trace + [Disconnect];
    }
  }
}
