/**
  The persistence codec (definition/codec.py): a specification to its JSONB form and back. Python dictionaries and
  JSONB objects compare without regard to key order, so the sorted iteration of the serializer leaves no trace in
  objects; in the dependency list it does.
  */
module Codec {
  import opened Wrappers
  import opened JsonCompat
  import opened Graph
  import opened Spec
  import opened GraphBuilder
  import opened Validator

  type Fields = map<PyKey, PyValue>

  // ------------------------------------------------------------------------------------- the stored form

  function Str(s: string): PyValue { PyStr(s) }

  function EncodeBinding(b: InputBinding): PyValue {
    match b
    case LiteralBinding(v) => PyDict(map[StrKey("type") := Str("Literal"), StrKey("value") := Thawed(v)])
    case WorkflowInputBinding => PyDict(map[StrKey("type") := Str("WorkflowInput")])
    case TaskOutputBinding(u) =>
      PyDict(map[StrKey("type") := Str("TaskOutput"), StrKey("upstream_task_id") := Str(u)])
  }

  function EncodeNames(names: seq<string>): seq<PyValue> {
    seq(|names|, i requires 0 <= i < |names| => Str(names[i]))
  }

  function EncodeBindings(bindings: map<string, InputBinding>): Fields {
    map p | p in bindings :: StrKey(p) := EncodeBinding(bindings[p])
  }

  function EncodeTask(id: string, t: TaskDefinition): PyValue {
    PyDict(map[
      StrKey("id") := Str(id),
      StrKey("activity_type") := Str(t.activityType),
      StrKey("dependencies") := PyList(EncodeNames(Sorted(t.dependencies))),
      StrKey("input_bindings") := PyDict(EncodeBindings(t.inputBindings)),
      StrKey("max_attempts") := PyInt(t.maxAttempts)])
  }

  function EncodeOutput(source: string): PyValue {
    PyDict(map[StrKey("type") := Str("WorkflowTaskOutput"), StrKey("source_task_id") := Str(source)])
  }

  function EncodeTasks(tasks: map<string, TaskDefinition>): Fields {
    map k | k in tasks :: StrKey(k) := EncodeTask(k, tasks[k])
  }

  function EncodeOutputs(outputs: map<string, string>): Fields {
    map o | o in outputs :: StrKey(o) := EncodeOutput(outputs[o])
  }

  function Encode(spec: ValidatedWorkflowSpec): PyValue {
    PyDict(map[
      StrKey("workflow_name") := Str(spec.name),
      StrKey("tasks") := PyDict(EncodeTasks(spec.tasks)),
      StrKey("output_bindings") := PyDict(EncodeOutputs(spec.outputBindings))])
  }

  // ------------------------------------------------------------------------------ what reading it back gives

  /** data.get(name): None when the key is absent. */
  function Field(fields: Fields, name: string): Option<PyValue> {
    if StrKey(name) in fields then Some(fields[StrKey(name)]) else None
  }

  /** A field that must be a string. */
  function TextField(fields: Fields, name: string): Option<string> {
    match Field(fields, name)
    case Some(PyStr(s)) => Some(s)
    case _ => None
  }

  /** A field that must be a mapping and may be absent. */
  function MappingField(fields: Fields, name: string): Option<Fields> {
    match Field(fields, name)
    case None => Some(map[])
    case Some(PyDict(m)) => Some(m)
    case Some(PyProxy(m)) => Some(m)
    case _ => None
  }

  predicate AllNamed(fields: Fields) {
    forall k | k in fields :: k.StrKey?
  }

  /** The value under name in a mapping that has it. */
  function Named(fields: Fields, name: string): PyValue
    requires StrKey(name) in fields
  {
    fields[StrKey(name)]
  }

  function Names(fields: Fields): set<string> {
    set k | k in fields && k.StrKey? :: k.name
  }

  function DecodeBinding(v: PyValue, dependencies: set<string>): Option<InputBinding> {
    if !v.IsMapping() then None
    else
      match TextField(v.entries, "type")
      case Some("Literal") =>
        (match Field(v.entries, "value")
         case Some(literal) => if Compatible(literal) then Some(LiteralBinding(Frozen(literal))) else None
         case None => None)
      case Some("WorkflowInput") => Some(WorkflowInputBinding)
      case Some("TaskOutput") =>
        (match TextField(v.entries, "upstream_task_id")
         case Some(u) => if u in dependencies then Some(TaskOutputBinding(u)) else None
         case None => None)
      case _ => None
  }

  predicate DependencyItem(v: PyValue, id: string, ids: set<string>) {
    v.PyStr? && v.text != id && v.text in ids
  }

  predicate DependencyList(items: seq<PyValue>, id: string, ids: set<string>) {
    && (forall i | 0 <= i < |items| :: DependencyItem(items[i], id, ids))
    && (forall i, j | 0 <= i < j < |items| :: items[i] != items[j])
  }

  function Texts(items: seq<PyValue>): set<string> {
    set i | 0 <= i < |items| && items[i].PyStr? :: items[i].text
  }

  function DecodeDependencies(fields: Fields, id: string, ids: set<string>): Option<set<string>> {
    match Field(fields, "dependencies")
    case None => Some({})
    case Some(PyList(items)) => if DependencyList(items, id, ids) then Some(Texts(items)) else None
    case _ => None
  }

  predicate BindingsDecode(bindings: Fields, dependencies: set<string>) {
    AllNamed(bindings) && forall p | p in Names(bindings) :: DecodeBinding(Named(bindings, p), dependencies).Some?
  }

  function DecodeTask(id: string, v: PyValue, ids: set<string>): Option<TaskDefinition> {
    if !v.IsMapping() then None
    else
      var embedded := Field(v.entries, "id");
      var activity := TextField(v.entries, "activity_type");
      var dependencies := DecodeDependencies(v.entries, id, ids);
      var attempts := Field(v.entries, "max_attempts");
      var bindings := MappingField(v.entries, "input_bindings");
      if (embedded.Some? ==> embedded.value == PyStr(id))
         && activity.Some? && ValidId(activity.value)
         && dependencies.Some?
         && attempts.Some? && attempts.value.PyInt? && 1 <= attempts.value.number
         && bindings.Some? && BindingsDecode(bindings.value, dependencies.value)
      then
        Some(TaskDefinition(
               id, activity.value, dependencies.value,
               map p | p in Names(bindings.value) ::
                 DecodeBinding(Named(bindings.value, p), dependencies.value).value,
               attempts.value.number))
      else None
  }

  function DecodeOutput(v: PyValue, ids: set<string>): Option<string> {
    if v.IsMapping() && Field(v.entries, "type") == Some(PyStr("WorkflowTaskOutput")) then
      match TextField(v.entries, "source_task_id")
      case Some(s) => if s in ids then Some(s) else None
      case None => None
    else None
  }

  predicate TasksDecode(tasks: Fields) {
    && tasks != map[] && AllNamed(tasks)
    && forall k | k in Names(tasks) :: ValidId(k) && DecodeTask(k, Named(tasks, k), Names(tasks)).Some?
  }

  function DecodedTasks(tasks: Fields): map<string, TaskDefinition>
    requires TasksDecode(tasks)
  {
    map k | k in Names(tasks) :: DecodeTask(k, Named(tasks, k), Names(tasks)).value
  }

  predicate OutputsDecode(outputs: Fields, ids: set<string>) {
    AllNamed(outputs) && forall o | o in Names(outputs) :: DecodeOutput(Named(outputs, o), ids).Some?
  }

  /** The specification stored in data; None where the source raises PersistenceIntegrityError. */
  ghost function Decode(data: PyValue): Option<ValidatedWorkflowSpec> {
    if !data.IsMapping() then None
    else
      var name := TextField(data.entries, "workflow_name");
      var tasks := Field(data.entries, "tasks");
      var outputs := MappingField(data.entries, "output_bindings");
      if name.Some? && name.value != ""
         && tasks.Some? && tasks.value.IsMapping() && TasksDecode(tasks.value.entries)
         && outputs.Some? && OutputsDecode(outputs.value, Names(tasks.value.entries))
         && Acyclic(DependencyMap(DecodedTasks(tasks.value.entries)))
      then
        Some(ValidatedWorkflowSpec(
               name.value, DecodedTasks(tasks.value.entries),
               map o | o in Names(outputs.value) ::
                 DecodeOutput(Named(outputs.value, o), Names(tasks.value.entries)).value))
      else None
  }

  // --------------------------------------------------------------------------------------- the round trip

  predicate StorableBinding(b: InputBinding) {
    b.LiteralBinding? ==> IsFrozen(b.value) && Compatible(b.value)
  }

  /** A valid specification whose name is not empty, and whose identifiers and literals are legal. */
  ghost predicate Storable(spec: ValidatedWorkflowSpec) {
    && ValidSpec(spec) && spec.name != ""
    && (forall k | k in spec.tasks ::
          && ValidId(k) && ValidId(spec.tasks[k].activityType)
          && (forall p | p in spec.tasks[k].inputBindings :: StorableBinding(spec.tasks[k].inputBindings[p])))
  }

  lemma BindingRoundTrip(b: InputBinding, dependencies: set<string>)
    requires StorableBinding(b) && (b.TaskOutputBinding? ==> b.upstream in dependencies)
    ensures DecodeBinding(EncodeBinding(b), dependencies) == Some(b)
  {
    if b.LiteralBinding? {
      StoredAndRead(b.value);
      ThawingKeepsCompatibility(b.value);
    }
  }

  lemma DependenciesRoundTrip(names: set<string>, id: string, ids: set<string>)
    requires names <= ids && id !in names
    ensures DependencyList(EncodeNames(Sorted(names)), id, ids) && Texts(EncodeNames(Sorted(names))) == names
  {
    var order := Sorted(names);
    assert forall i | 0 <= i < |order| :: order[i] in order;
    forall x | x in names ensures x in Texts(EncodeNames(order)) {
      assert x in order;
      var i :| 0 <= i < |order| && order[i] == x;
      assert EncodeNames(order)[i] == Str(x);
    }
  }

  lemma BindingsRoundTrip(bindings: map<string, InputBinding>, dependencies: set<string>)
    requires forall p | p in bindings ::
               StorableBinding(bindings[p]) && (bindings[p].TaskOutputBinding? ==> bindings[p].upstream in dependencies)
    ensures var stored := EncodeBindings(bindings);
      && BindingsDecode(stored, dependencies) && Names(stored) == bindings.Keys
      && (map p | p in Names(stored) :: DecodeBinding(Named(stored, p), dependencies).value) == bindings
  {
    var stored := EncodeBindings(bindings);
    forall p | p in bindings ensures StrKey(p) in stored && p in Names(stored) {
      assert StrKey(p) in stored;
    }
    forall p | p in bindings ensures DecodeBinding(Named(stored, p), dependencies) == Some(bindings[p]) {
      BindingRoundTrip(bindings[p], dependencies);
    }
  }

  ghost predicate StorableTask(id: string, t: TaskDefinition, ids: set<string>) {
    && t.id == id && 1 <= t.maxAttempts && ValidId(t.activityType)
    && t.dependencies <= ids && id !in t.dependencies
    && (forall p | p in t.inputBindings ::
          && StorableBinding(t.inputBindings[p])
          && (t.inputBindings[p].TaskOutputBinding? ==> t.inputBindings[p].upstream in t.dependencies))
  }

  lemma TaskFields(id: string, t: TaskDefinition)
    ensures var fields := EncodeTask(id, t).entries;
      && Field(fields, "id") == Some(PyStr(id))
      && TextField(fields, "activity_type") == Some(t.activityType)
      && Field(fields, "dependencies") == Some(PyList(EncodeNames(Sorted(t.dependencies))))
      && Field(fields, "max_attempts") == Some(PyInt(t.maxAttempts))
      && MappingField(fields, "input_bindings") == Some(EncodeBindings(t.inputBindings))
  {
    hide EncodeNames, Sorted, EncodeBindings;
  }

  lemma TaskRoundTrip(id: string, t: TaskDefinition, ids: set<string>)
    requires StorableTask(id, t, ids)
    ensures DecodeTask(id, EncodeTask(id, t), ids) == Some(t)
  {
    hide ValidId, StorableBinding, DecodeBinding, EncodeBindings, DependencyList, Texts, BindingsDecode, Names,
         EncodeTask, Field, TextField, MappingField;
    TaskFields(id, t);
    assert EncodeTask(id, t).IsMapping() by { TaskIsMapping(id, t); }
    DependenciesRoundTrip(t.dependencies, id, ids);
    BindingsRoundTrip(t.inputBindings, t.dependencies);
  }

  lemma TaskIsMapping(id: string, t: TaskDefinition)
    ensures EncodeTask(id, t).PyDict?
  {
  }

  lemma StorableTasks(spec: ValidatedWorkflowSpec)
    requires Storable(spec)
    ensures forall k | k in spec.tasks :: StorableTask(k, spec.tasks[k], spec.tasks.Keys)
  {
    hide Acyclic, ValidId, StorableBinding;
    forall k | k in spec.tasks ensures StorableTask(k, spec.tasks[k], spec.tasks.Keys) {
      assert WellFormedTask(spec.tasks, k);
      NoSelfDependency(DependencyMap(spec.tasks), k);
    }
  }

  lemma TasksRoundTrip(tasks: map<string, TaskDefinition>)
    requires tasks != map[] && forall k | k in tasks :: ValidId(k) && StorableTask(k, tasks[k], tasks.Keys)
    ensures var stored := EncodeTasks(tasks);
      TasksDecode(stored) && DecodedTasks(stored) == tasks && Names(stored) == tasks.Keys
  {
    hide ValidId, StorableTask, DecodeTask, EncodeTask;
    var stored := EncodeTasks(tasks);
    forall k | k in tasks ensures StrKey(k) in stored && k in Names(stored) {
      assert StrKey(k) in stored;
    }
    assert Names(stored) == tasks.Keys;
    var some :| some in tasks;
    assert StrKey(some) in stored;
    forall k | k in tasks ensures DecodeTask(k, Named(stored, k), Names(stored)) == Some(tasks[k]) {
      TaskRoundTrip(k, tasks[k], tasks.Keys);
    }
  }

  lemma OutputRoundTrip(source: string, ids: set<string>)
    requires source in ids
    ensures DecodeOutput(EncodeOutput(source), ids) == Some(source)
  {
  }

  lemma OutputsRoundTrip(outputs: map<string, string>, ids: set<string>)
    requires forall o | o in outputs :: outputs[o] in ids
    ensures var stored := EncodeOutputs(outputs);
      && OutputsDecode(stored, ids)
      && (map o | o in Names(stored) :: DecodeOutput(Named(stored, o), ids).value) == outputs
  {
    hide EncodeOutput, DecodeOutput;
    var stored := EncodeOutputs(outputs);
    forall o | o in outputs ensures StrKey(o) in stored && o in Names(stored) {
      assert StrKey(o) in stored;
    }
    assert Names(stored) == outputs.Keys;
    forall o | o in outputs ensures DecodeOutput(Named(stored, o), ids) == Some(outputs[o]) {
      OutputRoundTrip(outputs[o], ids);
    }
  }

  lemma SpecFields(spec: ValidatedWorkflowSpec)
    ensures Encode(spec).PyDict?
    ensures var fields := Encode(spec).entries;
      && TextField(fields, "workflow_name") == Some(spec.name)
      && Field(fields, "tasks") == Some(PyDict(EncodeTasks(spec.tasks)))
      && MappingField(fields, "output_bindings") == Some(EncodeOutputs(spec.outputBindings))
  {
    hide EncodeTasks, EncodeOutputs;
  }

  /** The codec round trip: a storable specification is read back as it was written. */
  lemma RoundTrip(spec: ValidatedWorkflowSpec)
    requires Storable(spec)
    ensures Decode(Encode(spec)) == Some(spec)
  {
    hide Acyclic, ValidId, StorableTask, StorableBinding, TasksDecode, DecodedTasks, OutputsDecode, DecodeOutput,
         EncodeTasks, EncodeOutputs, Names, WellFormedTask, Encode, TextField, Field, MappingField;
    SpecFields(spec);
    StorableTasks(spec);
    TasksRoundTrip(spec.tasks);
    OutputsRoundTrip(spec.outputBindings, spec.tasks.Keys);
  }

  // ------------------------------------------------------------------------------- what stored data denotes

  ghost predicate DenotesBinding(v: PyValue, b: InputBinding) {
    && v.IsMapping()
    && match b
       case LiteralBinding(value) =>
         && Field(v.entries, "type") == Some(PyStr("Literal"))
         && var stored := Field(v.entries, "value");
         stored.Some? && Compatible(stored.value) && value == Frozen(stored.value)
       case WorkflowInputBinding => Field(v.entries, "type") == Some(PyStr("WorkflowInput"))
       case TaskOutputBinding(u) =>
         Field(v.entries, "type") == Some(PyStr("TaskOutput")) && Field(v.entries, "upstream_task_id") == Some(PyStr(u))
  }

  /** A list of exactly these names, none of them twice, in any order; no list means none. */
  ghost predicate DenotesNames(v: Option<PyValue>, names: set<string>) {
    match v
    case None => names == {}
    case Some(PyList(items)) =>
      && (forall i | 0 <= i < |items| :: items[i].PyStr? && items[i].text in names)
      && (forall n | n in names :: PyStr(n) in items)
      && (forall i, j | 0 <= i < j < |items| :: items[i] != items[j])
    case _ => false
  }

  /** A mapping with exactly these keys; no mapping means none. */
  ghost predicate HasKeys(v: Option<PyValue>, names: set<string>) {
    match v
    case None => names == {}
    case Some(m) => m.IsMapping() && m.entries.Keys == set n | n in names :: StrKey(n)
  }

  /** The entry of a mapping under a name it has. */
  ghost predicate EntryIs(v: Option<PyValue>, name: string, entry: PyValue) {
    v.Some? && v.value.IsMapping() && Field(v.value.entries, name) == Some(entry)
  }

  ghost predicate DenotesTask(v: PyValue, id: string, t: TaskDefinition) {
    && v.IsMapping() && t.id == id
    && (Field(v.entries, "id").Some? ==> Field(v.entries, "id").value == PyStr(id))
    && Field(v.entries, "activity_type") == Some(PyStr(t.activityType))
    && Field(v.entries, "max_attempts") == Some(PyInt(t.maxAttempts))
    && DenotesNames(Field(v.entries, "dependencies"), t.dependencies)
    && HasKeys(Field(v.entries, "input_bindings"), t.inputBindings.Keys)
    && forall p, e | p in t.inputBindings && EntryIs(Field(v.entries, "input_bindings"), p, e) ::
         DenotesBinding(e, t.inputBindings[p])
  }

  ghost predicate DenotesOutput(v: PyValue, source: string) {
    && v.IsMapping() && Field(v.entries, "type") == Some(PyStr("WorkflowTaskOutput"))
    && Field(v.entries, "source_task_id") == Some(PyStr(source))
  }

  /** The data says what spec says: names, numbers, lists and bindings under their own keys. Dependencies, bindings,
      outputs and a task's id may be missing, the first three when empty; other keys are ignored. */
  ghost predicate Denotes(data: PyValue, spec: ValidatedWorkflowSpec) {
    && data.IsMapping() && Field(data.entries, "workflow_name") == Some(PyStr(spec.name))
    && HasKeys(Field(data.entries, "tasks"), spec.tasks.Keys)
    && (forall k, e | k in spec.tasks && EntryIs(Field(data.entries, "tasks"), k, e) ::
          DenotesTask(e, k, spec.tasks[k]))
    && HasKeys(Field(data.entries, "output_bindings"), spec.outputBindings.Keys)
    && (forall o, e | o in spec.outputBindings && EntryIs(Field(data.entries, "output_bindings"), o, e) ::
          DenotesOutput(e, spec.outputBindings[o]))
  }

  lemma BindingDenotes(v: PyValue, b: InputBinding, dependencies: set<string>)
    ensures DecodeBinding(v, dependencies) == Some(b) <==>
            DenotesBinding(v, b) && (b.TaskOutputBinding? ==> b.upstream in dependencies)
  {
    hide Compatible, Frozen;
  }

  lemma OutputDenotes(v: PyValue, source: string, ids: set<string>)
    ensures DecodeOutput(v, ids) == Some(source) <==> DenotesOutput(v, source) && source in ids
  {
  }

  lemma NamesDenote(fields: Fields, names: set<string>, id: string, ids: set<string>)
    ensures DecodeDependencies(fields, id, ids) == Some(names) <==>
            DenotesNames(Field(fields, "dependencies"), names) && names <= ids && id !in names
  {
    hide Field;
    var stored := Field(fields, "dependencies");
    if stored.Some? && stored.value.PyList? {
      var items := stored.value.items;
      if DependencyList(items, id, ids) {
        forall n | n in Texts(items) ensures PyStr(n) in items && n in ids && n != id {
          var i :| 0 <= i < |items| && items[i].PyStr? && items[i].text == n;
          assert items[i] == PyStr(n) && DependencyItem(items[i], id, ids);
        }
        assert forall i | 0 <= i < |items| :: DependencyItem(items[i], id, ids) && items[i].text in Texts(items);
      }
      if DenotesNames(stored, names) && names <= ids && id !in names {
        forall n | n in names ensures n in Texts(items) {
          var i :| 0 <= i < |items| && items[i] == PyStr(n);
        }
        assert Texts(items) == names;
      }
    }
  }

  lemma KeysNamed(fields: Fields, name: string, names: set<string>)
    ensures HasKeys(Field(fields, name), names) <==>
            MappingField(fields, name).Some? && AllNamed(MappingField(fields, name).value)
            && Names(MappingField(fields, name).value) == names
    ensures MappingField(fields, name).Some? ==> forall n, e ::
              EntryIs(Field(fields, name), n, e) <==>
              StrKey(n) in MappingField(fields, name).value && Named(MappingField(fields, name).value, n) == e
  {
    var m := MappingField(fields, name);
    if HasKeys(Field(fields, name), names) {
      assert m.Some?;
      forall n | n in names ensures StrKey(n) in m.value {
        assert StrKey(n) in m.value.Keys;
      }
      forall k | k in m.value ensures k.StrKey? && k.name in names {
        assert k in m.value.Keys;
      }
      assert Names(m.value) == names;
    }
    if m.Some? && AllNamed(m.value) && Names(m.value) == names {
      forall k | k in m.value ensures k.StrKey? && k.name in names {
        assert k.name in Names(m.value);
      }
      forall n | n in names ensures StrKey(n) in m.value {
        assert n in Names(m.value);
      }
      assert m.value.Keys == set n | n in names :: StrKey(n);
    }
  }

  lemma BindingsDenote(stored: Fields, bindings: map<string, InputBinding>, dependencies: set<string>)
    requires AllNamed(stored)
    ensures (&& BindingsDecode(stored, dependencies)
             && (map p | p in Names(stored) :: DecodeBinding(Named(stored, p), dependencies).value) == bindings) <==>
            && Names(stored) == bindings.Keys
            && forall p | p in bindings :: StrKey(p) in stored && DenotesBinding(Named(stored, p), bindings[p])
                 && (bindings[p].TaskOutputBinding? ==> bindings[p].upstream in dependencies)
  {
    hide DecodeBinding, DenotesBinding;
    forall p | p in Names(stored) ensures StrKey(p) in stored {
    }
    forall p, b | p in Names(stored)
      ensures DecodeBinding(Named(stored, p), dependencies) == Some(b) <==>
              DenotesBinding(Named(stored, p), b) && (b.TaskOutputBinding? ==> b.upstream in dependencies)
    {
      BindingDenotes(Named(stored, p), b, dependencies);
    }
    if BindingsDecode(stored, dependencies) {
      var decoded := map p | p in Names(stored) :: DecodeBinding(Named(stored, p), dependencies).value;
      assert decoded.Keys == Names(stored);
      forall p | p in Names(stored) ensures DecodeBinding(Named(stored, p), dependencies) == Some(decoded[p]) {
      }
    }
  }

  lemma DenotedIsStorable(v: PyValue, b: InputBinding)
    requires DenotesBinding(v, b)
    ensures StorableBinding(b)
  {
    if b.LiteralBinding? {
      FreezingFreezes(Field(v.entries, "value").value);
      FreezingKeepsCompatibility(Field(v.entries, "value").value);
    }
  }

  lemma TaskBindings(fields: Fields, bindings: map<string, InputBinding>, dependencies: set<string>)
    ensures var m := MappingField(fields, "input_bindings");
      (&& m.Some? && BindingsDecode(m.value, dependencies)
       && (map p | p in Names(m.value) :: DecodeBinding(Named(m.value, p), dependencies).value) == bindings) <==>
      && HasKeys(Field(fields, "input_bindings"), bindings.Keys)
      && (forall p, e | p in bindings && EntryIs(Field(fields, "input_bindings"), p, e) ::
            DenotesBinding(e, bindings[p]))
      && (forall p | p in bindings && bindings[p].TaskOutputBinding? :: bindings[p].upstream in dependencies)
    ensures HasKeys(Field(fields, "input_bindings"), bindings.Keys) ==>
      forall p | p in bindings :: exists e :: EntryIs(Field(fields, "input_bindings"), p, e)
  {
    hide DecodeBinding, DenotesBinding, MappingField, Field, HasKeys, EntryIs, Names;
    KeysNamed(fields, "input_bindings", bindings.Keys);
    var m := MappingField(fields, "input_bindings");
    if m.Some? && AllNamed(m.value) {
      BindingsDenote(m.value, bindings, dependencies);
      NamesIn(m.value);
      forall p | p in bindings && StrKey(p) in m.value
        ensures EntryIs(Field(fields, "input_bindings"), p, Named(m.value, p))
      {
      }
    }
  }

  lemma NamesIn(fields: Fields)
    ensures forall n :: n in Names(fields) <==> StrKey(n) in fields
  {
    forall n | StrKey(n) in fields ensures n in Names(fields) {
      assert StrKey(n).name == n;
    }
  }

  lemma TaskDenotes(id: string, v: PyValue, ids: set<string>, t: TaskDefinition)
    ensures DecodeTask(id, v, ids) == Some(t) <==> DenotesTask(v, id, t) && StorableTask(id, t, ids)
  {
    hide ValidId, StorableBinding, DenotesBinding, DecodeBinding, DecodeDependencies, DenotesNames, HasKeys, EntryIs,
         MappingField, Field, AllNamed, Names, BindingsDecode;
    if v.IsMapping() {
      NamesDenote(v.entries, t.dependencies, id, ids);
      TaskBindings(v.entries, t.inputBindings, t.dependencies);
      if DenotesTask(v, id, t) {
        forall p | p in t.inputBindings ensures StorableBinding(t.inputBindings[p]) {
          var e :| EntryIs(Field(v.entries, "input_bindings"), p, e);
          DenotedIsStorable(e, t.inputBindings[p]);
        }
      }
      TextIs(v.entries, "activity_type", t.activityType);
    }
  }

  lemma TextIs(fields: Fields, name: string, text: string)
    ensures TextField(fields, name) == Some(text) <==> Field(fields, name) == Some(PyStr(text))
  {
  }

  lemma TasksDenote(fields: Fields, tasks: map<string, TaskDefinition>)
    ensures var f := Field(fields, "tasks");
      (&& f.Some? && f.value.IsMapping() && TasksDecode(f.value.entries)
       && DecodedTasks(f.value.entries) == tasks) <==>
      && HasKeys(f, tasks.Keys) && tasks != map[]
      && (forall k | k in tasks :: ValidId(k) && StorableTask(k, tasks[k], tasks.Keys))
      && (forall k, e | k in tasks && EntryIs(f, k, e) :: DenotesTask(e, k, tasks[k]))
  {
    hide DecodeTask, DenotesTask, HasKeys, EntryIs, Names, ValidId, StorableTask;
    KeysNamed(fields, "tasks", tasks.Keys);
    var f := Field(fields, "tasks");
    if f.Some? && f.value.IsMapping() {
      var stored := f.value.entries;
      NamesIn(stored);
      forall k, t | k in Names(stored)
        ensures DecodeTask(k, Named(stored, k), Names(stored)) == Some(t) <==>
                DenotesTask(Named(stored, k), k, t) && StorableTask(k, t, Names(stored))
      {
        TaskDenotes(k, Named(stored, k), Names(stored), t);
      }
      if TasksDecode(stored) { DecodedKeys(stored); }
      if tasks != map[] {
        var some :| some in tasks;
        assert Names(stored) == tasks.Keys ==> StrKey(some) in stored;
      }
    } else if HasKeys(f, tasks.Keys) {
      NoKeys(f, tasks);
    }
  }

  lemma NoKeys<V>(f: Option<PyValue>, m: map<string, V>)
    requires HasKeys(f, m.Keys) && !(f.Some? && f.value.IsMapping())
    ensures m == map[]
  {
    assert m.Keys == {};
  }

  lemma OutputsDenote(fields: Fields, outputs: map<string, string>, ids: set<string>)
    ensures var m := MappingField(fields, "output_bindings");
      (&& m.Some? && OutputsDecode(m.value, ids)
       && (map o | o in Names(m.value) :: DecodeOutput(Named(m.value, o), ids).value) == outputs) <==>
      && HasKeys(Field(fields, "output_bindings"), outputs.Keys)
      && (forall o, e | o in outputs && EntryIs(Field(fields, "output_bindings"), o, e) ::
            DenotesOutput(e, outputs[o]))
      && (forall o | o in outputs :: outputs[o] in ids)
  {
    hide DecodeOutput, DenotesOutput, MappingField, Field, HasKeys, EntryIs, Names;
    KeysNamed(fields, "output_bindings", outputs.Keys);
    var m := MappingField(fields, "output_bindings");
    if m.Some? && AllNamed(m.value) {
      NamesIn(m.value);
      forall o, s | o in Names(m.value)
        ensures DecodeOutput(Named(m.value, o), ids) == Some(s) <==>
                DenotesOutput(Named(m.value, o), s) && s in ids
      {
        OutputDenotes(Named(m.value, o), s, ids);
      }
      forall o | o in outputs && StrKey(o) in m.value
        ensures EntryIs(Field(fields, "output_bindings"), o, Named(m.value, o))
      {
      }
    }
  }

  /** Reading back is exact: stored data is read as spec if and only if it says what spec says and spec is storable. So
      nothing is read that was not stored, and every refusal is of data that denotes no specification the runtime can
      trust. */
  lemma DecodesIff(data: PyValue, spec: ValidatedWorkflowSpec)
    ensures Decode(data) == Some(spec) <==> Denotes(data, spec) && Storable(spec)
  {
    hide Acyclic, ValidId, TasksDecode, DecodedTasks, StorableBinding, StorableTask, Names, TextField, Field,
         MappingField, OutputsDecode, HasKeys, EntryIs, DenotesTask, DenotesOutput, WellFormedTask, DecodeOutput;
    if data.IsMapping() {
      TextIs(data.entries, "workflow_name", spec.name);
      TasksDenote(data.entries, spec.tasks);
      OutputsDenote(data.entries, spec.outputBindings, spec.tasks.Keys);
      if Decode(data) == Some(spec) {
        DecodedKeys(Field(data.entries, "tasks").value.entries);
        DecodedIsStorable(data);
      }
      if Denotes(data, spec) && Storable(spec) {
        StorableTasks(spec);
        DecodedKeys(Field(data.entries, "tasks").value.entries);
      }
    }
  }

  // ------------------------------------------------------------------------- the stored form, entry by entry

  ghost predicate StoredBinding(v: PyValue, b: InputBinding) {
    && v.PyDict?
    && match b
       case LiteralBinding(value) =>
         Field(v.entries, "type") == Some(PyStr("Literal")) && Field(v.entries, "value") == Some(Thawed(value))
       case WorkflowInputBinding => Field(v.entries, "type") == Some(PyStr("WorkflowInput"))
       case TaskOutputBinding(u) =>
         Field(v.entries, "type") == Some(PyStr("TaskOutput")) && Field(v.entries, "upstream_task_id") == Some(PyStr(u))
  }

  /** v is the list of exactly these names, in ascending order. */
  ghost predicate StoredNames(v: PyValue, names: set<string>) {
    && v.PyList? && |v.items| == |names|
    && (forall i | 0 <= i < |v.items| :: v.items[i].PyStr? && v.items[i].text in names)
    && (forall i, j | 0 <= i < j < |v.items| :: Before(v.items[i].text, v.items[j].text))
  }

  ghost predicate StoredTask(v: PyValue, id: string, t: TaskDefinition) {
    && v.PyDict?
    && Field(v.entries, "id") == Some(PyStr(id))
    && Field(v.entries, "activity_type") == Some(PyStr(t.activityType))
    && Field(v.entries, "max_attempts") == Some(PyInt(t.maxAttempts))
    && var dependencies, bindings := Field(v.entries, "dependencies"), Field(v.entries, "input_bindings");
    && dependencies.Some? && StoredNames(dependencies.value, t.dependencies)
    && bindings.Some? && bindings.value.PyDict?
    && bindings.value.entries.Keys == (set p | p in t.inputBindings :: StrKey(p))
    && forall p | p in t.inputBindings :: StoredBinding(bindings.value.entries[StrKey(p)], t.inputBindings[p])
  }

  ghost predicate StoredOutput(v: PyValue, source: string) {
    && v.PyDict? && Field(v.entries, "type") == Some(PyStr("WorkflowTaskOutput"))
    && Field(v.entries, "source_task_id") == Some(PyStr(source))
  }

  lemma BindingIsStored(b: InputBinding)
    ensures StoredBinding(EncodeBinding(b), b)
  {
  }

  lemma OutputIsStored(source: string)
    ensures StoredOutput(EncodeOutput(source), source)
  {
  }

  lemma {:induction false} DistinctCount(names: seq<string>)
    requires Distinct(names)
    ensures |names| == |set x | x in names|
  {
    if names != [] {
      var rest := names[1..];
      DistinctCount(rest);
      assert (set x | x in names) == {names[0]} + set x | x in rest;
    }
  }

  lemma NamesAreStored(names: set<string>)
    ensures StoredNames(PyList(EncodeNames(Sorted(names))), names)
  {
    var order := Sorted(names);
    DistinctCount(order);
    assert (set x | x in order) == names;
    forall i, j | 0 <= i < j < |order| ensures Before(order[i], order[j]) { SortedAscends(names, i, j); }
    assert forall i | 0 <= i < |order| :: order[i] in order;
  }

  lemma TaskIsStored(id: string, t: TaskDefinition)
    ensures StoredTask(EncodeTask(id, t), id, t)
  {
    hide Sorted, StoredNames, StoredBinding, EncodeBinding, EncodeNames;
    NamesAreStored(t.dependencies);
    forall p | p in t.inputBindings ensures StoredBinding(EncodeBinding(t.inputBindings[p]), t.inputBindings[p]) {
      BindingIsStored(t.inputBindings[p]);
    }
    forall p | p in t.inputBindings ensures StrKey(p) in EncodeBindings(t.inputBindings) {
      assert StrKey(p) in EncodeBindings(t.inputBindings);
    }
  }

  /** Whoever reads the stored form finds under "tasks" and "output_bindings" one object for every task and output, with
      every field of it under its own name, and dependencies in ascending order. */
  lemma StoredForm(spec: ValidatedWorkflowSpec)
    ensures Encode(spec).PyDict? && Field(Encode(spec).entries, "workflow_name") == Some(PyStr(spec.name))
    ensures var tasks := Field(Encode(spec).entries, "tasks");
      && tasks.Some? && tasks.value.PyDict?
      && tasks.value.entries.Keys == (set k | k in spec.tasks :: StrKey(k))
      && forall k | k in spec.tasks :: StoredTask(tasks.value.entries[StrKey(k)], k, spec.tasks[k])
    ensures var outputs := Field(Encode(spec).entries, "output_bindings");
      && outputs.Some? && outputs.value.PyDict?
      && outputs.value.entries.Keys == (set o | o in spec.outputBindings :: StrKey(o))
      && forall o | o in spec.outputBindings ::
           StoredOutput(outputs.value.entries[StrKey(o)], spec.outputBindings[o])
  {
    hide EncodeTask, EncodeOutput, StoredTask, StoredOutput;
    forall k | k in spec.tasks
      ensures StrKey(k) in EncodeTasks(spec.tasks) && StoredTask(EncodeTask(k, spec.tasks[k]), k, spec.tasks[k])
    {
      assert StrKey(k) in EncodeTasks(spec.tasks);
      TaskIsStored(k, spec.tasks[k]);
    }
    forall o | o in spec.outputBindings
      ensures StrKey(o) in EncodeOutputs(spec.outputBindings)
              && StoredOutput(EncodeOutput(spec.outputBindings[o]), spec.outputBindings[o])
    {
      assert StrKey(o) in EncodeOutputs(spec.outputBindings);
      OutputIsStored(spec.outputBindings[o]);
    }
  }

  /** So no two storable specifications have the same stored form. */
  lemma EncodeIsInjective(s: ValidatedWorkflowSpec, s': ValidatedWorkflowSpec)
    requires Storable(s) && Storable(s') && Encode(s) == Encode(s')
    ensures s == s'
  {
    hide Storable, Encode, Decode;
    RoundTrip(s);
    RoundTrip(s');
  }

  // ------------------------------------------------------------------------------------------- soundness

  lemma DecodedBinding(v: PyValue, dependencies: set<string>)
    requires DecodeBinding(v, dependencies).Some?
    ensures var b := DecodeBinding(v, dependencies).value;
      StorableBinding(b) && (b.TaskOutputBinding? ==> b.upstream in dependencies)
  {
    var b := DecodeBinding(v, dependencies).value;
    if b.LiteralBinding? {
      FreezingFreezes(Field(v.entries, "value").value);
      FreezingKeepsCompatibility(Field(v.entries, "value").value);
    }
  }

  lemma DecodedTask(id: string, v: PyValue, ids: set<string>)
    requires DecodeTask(id, v, ids).Some?
    ensures StorableTask(id, DecodeTask(id, v, ids).value, ids)
  {
    hide ValidId, StorableBinding, DecodeBinding;
    var t := DecodeTask(id, v, ids).value;
    var bindings := MappingField(v.entries, "input_bindings").value;
    forall p | p in t.inputBindings
      ensures StorableBinding(t.inputBindings[p])
      ensures t.inputBindings[p].TaskOutputBinding? ==> t.inputBindings[p].upstream in t.dependencies
    {
      DecodedBinding(Named(bindings, p), t.dependencies);
    }
  }

  lemma DecodedTasksStorable(tasks: Fields)
    requires TasksDecode(tasks)
    ensures var decoded := DecodedTasks(tasks);
      decoded != map[] && forall k | k in decoded :: ValidId(k) && StorableTask(k, decoded[k], decoded.Keys)
  {
    hide ValidId, StorableTask, DecodeTask;
    var some :| some in tasks;
    assert some == StrKey(some.name) && some.name in Names(tasks);
    assert some.name in DecodedTasks(tasks);
    DecodedKeys(tasks);
    forall k | k in DecodedTasks(tasks) ensures StorableTask(k, DecodedTasks(tasks)[k], Names(tasks)) {
      DecodedTask(k, Named(tasks, k), Names(tasks));
    }
  }

  /** Whatever is read back without an error is valid, acyclic and storable: a corrupt row never becomes a
      specification the runtime cannot trust. */
  lemma DecodedIsStorable(data: PyValue)
    requires Decode(data).Some?
    ensures Storable(Decode(data).value)
  {
    hide Acyclic, ValidId, TasksDecode, DecodedTasks, StorableBinding, StorableTask, Names, TextField, Field,
         MappingField, OutputsDecode;
    var spec := Decode(data).value;
    var tasks := Field(data.entries, "tasks").value.entries;
    DecodedTasksStorable(tasks);
    DecodedKeys(tasks);
    DecodedOutputs(MappingField(data.entries, "output_bindings").value, Names(tasks));
    forall k | k in spec.tasks
      ensures WellFormedTask(spec.tasks, k) && ValidId(spec.tasks[k].activityType)
      ensures forall p | p in spec.tasks[k].inputBindings :: StorableBinding(spec.tasks[k].inputBindings[p])
    {
      StorableIsWellFormed(spec.tasks, k);
    }
  }

  lemma StorableIsWellFormed(tasks: map<string, TaskDefinition>, k: string)
    requires k in tasks && StorableTask(k, tasks[k], tasks.Keys)
    ensures WellFormedTask(tasks, k) && ValidId(tasks[k].activityType)
    ensures forall p | p in tasks[k].inputBindings :: StorableBinding(tasks[k].inputBindings[p])
  {
    hide ValidId, StorableBinding;
  }

  lemma DecodedOutputs(outputs: Fields, ids: set<string>)
    requires OutputsDecode(outputs, ids)
    ensures forall o | o in Names(outputs) :: DecodeOutput(Named(outputs, o), ids).value in ids
  {
  }

  lemma DecodedKeys(tasks: Fields)
    requires TasksDecode(tasks)
    ensures DecodedTasks(tasks).Keys == Names(tasks)
  {
  }

  /** The validator's output with a non-empty name is storable, so registration loses nothing. */
  lemma AcceptedIsStorable(c: CandidateWorkflowSpec, limit: int)
    requires Normalised(c) && Conforms(c, limit) && Acyclic(DependencyMap(TaskMap(c.tasks))) && c.name != ""
    ensures Storable(ValidatedWorkflowSpec(c.name, TaskMap(c.tasks), c.outputBindings))
  {
    hide Acyclic, ValidId, Normalised, Conforms, ValidSpec;
    AcceptedIsValid(c, limit);
    TaskMapKeys(c.tasks);
    forall k | k in TaskMap(c.tasks)
      ensures ValidId(k) && ValidId(TaskMap(c.tasks)[k].activityType)
      ensures forall p | p in TaskMap(c.tasks)[k].inputBindings :: StorableBinding(TaskMap(c.tasks)[k].inputBindings[p])
    {
      NormalRow(c, TaskMap(c.tasks)[k]);
    }
  }

  /** The name is the one thing validation lets through and reading back does not. */
  lemma EmptyNameIsNotReadBack(spec: ValidatedWorkflowSpec)
    requires spec.name == ""
    ensures Decode(Encode(spec)) == None
  {
    hide Encode, TextField, Field, MappingField, TasksDecode, OutputsDecode;
    SpecFields(spec);
  }

  // -------------------------------------------------------------------------------------- the operations

  method SerializeBindings(bindings: map<string, InputBinding>) returns (r: Option<Fields>)
    ensures r.Some? <==> forall p | p in bindings && bindings[p].LiteralBinding? :: Compatible(bindings[p].value)
    ensures r.Some? ==> r.value == EncodeBindings(bindings)
  {
    hide EncodeBinding;
    var result: map<string, PyValue> := map[];
    var todo := bindings.Keys;
    while todo != {}
      invariant todo <= bindings.Keys && result.Keys == bindings.Keys - todo
      invariant forall p | p in result :: result[p] == EncodeBinding(bindings[p])
      invariant forall p | p in result && bindings[p].LiteralBinding? :: Compatible(bindings[p].value)
      decreases todo
    {
      var p :| p in todo;
      var stored := SerializeBinding(bindings[p]);
      if stored.None? { return None; }
      result, todo := result[p := stored.value], todo - {p};
    }
    r := Some(Keyed(result));
    assert r.value == EncodeBindings(bindings);
  }

  /** A dictionary with string keys. */
  function Keyed(m: map<string, PyValue>): Fields {
    map k | k in m :: StrKey(k) := m[k]
  }

  method SerializeBinding(b: InputBinding) returns (r: Option<PyValue>)
    ensures r.Some? <==> (b.LiteralBinding? ==> Compatible(b.value))
    ensures r.Some? ==> r.value == EncodeBinding(b)
  {
    match b {
      case LiteralBinding(v) =>
        var thawed := ThawJson(v);
        if !thawed.Json? { return None; }
        r := Some(PyDict(map[StrKey("type") := Str("Literal"), StrKey("value") := thawed.value]));
      case WorkflowInputBinding =>
        r := Some(PyDict(map[StrKey("type") := Str("WorkflowInput")]));
      case TaskOutputBinding(u) =>
        r := Some(PyDict(map[StrKey("type") := Str("TaskOutput"), StrKey("upstream_task_id") := Str(u)]));
    }
  }

  ghost predicate Thawable(t: TaskDefinition) {
    forall p | p in t.inputBindings && t.inputBindings[p].LiteralBinding? :: Compatible(t.inputBindings[p].value)
  }

  /** Writes the stored form, unless some literal cannot be thawed. */
  method SerializeValidatedSpec(spec: ValidatedWorkflowSpec) returns (r: Option<PyValue>)
    ensures r.Some? <==> forall k | k in spec.tasks :: Thawable(spec.tasks[k])
    ensures r.Some? ==> r.value == Encode(spec)
  {
    hide EncodeTask, EncodeOutput, EncodeBindings, Thawable;
    var tasks: map<string, PyValue> := map[];
    var todo := spec.tasks.Keys;
    while todo != {}
      invariant todo <= spec.tasks.Keys && tasks.Keys == spec.tasks.Keys - todo
      invariant forall k | k in tasks :: tasks[k] == EncodeTask(k, spec.tasks[k]) && Thawable(spec.tasks[k])
      decreases todo
    {
      var k :| k in todo;
      var stored := SerializeTask(k, spec.tasks[k]);
      if stored.None? { return None; }
      tasks, todo := tasks[k := stored.value], todo - {k};
    }
    assert Keyed(tasks) == EncodeTasks(spec.tasks);
    var outputs := SerializeOutputs(spec.outputBindings);
    r := Some(PyDict(map[
      StrKey("workflow_name") := Str(spec.name),
      StrKey("tasks") := PyDict(Keyed(tasks)),
      StrKey("output_bindings") := PyDict(outputs)]));
  }

  method SerializeOutputs(bindings: map<string, string>) returns (r: Fields)
    ensures r == EncodeOutputs(bindings)
  {
    hide EncodeOutput;
    var result: map<string, PyValue> := map[];
    var todo := bindings.Keys;
    while todo != {}
      invariant todo <= bindings.Keys && result.Keys == bindings.Keys - todo
      invariant forall o | o in result :: result[o] == EncodeOutput(bindings[o])
      decreases todo
    {
      var o :| o in todo;
      result := result[o := PyDict(
        map[StrKey("type") := Str("WorkflowTaskOutput"), StrKey("source_task_id") := Str(bindings[o])])];
      assert result[o] == EncodeOutput(bindings[o]) by { OutputEncoded(bindings[o]); }
      todo := todo - {o};
    }
    r := Keyed(result);
    assert r == EncodeOutputs(bindings);
  }

  lemma OutputEncoded(source: string)
    ensures EncodeOutput(source) ==
            PyDict(map[StrKey("type") := Str("WorkflowTaskOutput"), StrKey("source_task_id") := Str(source)])
  {
  }

  method SerializeTask(id: string, t: TaskDefinition) returns (r: Option<PyValue>)
    ensures r.Some? <==> Thawable(t)
    ensures r.Some? ==> r.value == EncodeTask(id, t)
  {
    var bindings := SerializeBindings(t.inputBindings);
    if bindings.None? { return None; }
    r := Some(PyDict(map[
      StrKey("id") := Str(id),
      StrKey("activity_type") := Str(t.activityType),
      StrKey("dependencies") := PyList(EncodeNames(Sorted(t.dependencies))),
      StrKey("input_bindings") := PyDict(bindings.value),
      StrKey("max_attempts") := PyInt(t.maxAttempts)]));
  }

  method DeserializeDependencies(fields: Fields, id: string, ids: set<string>) returns (r: Option<set<string>>)
    ensures r == DecodeDependencies(fields, id, ids)
  {
    var raw := Field(fields, "dependencies").GetOr(PyList([]));
    if !raw.PyList? { return None; }
    var result: set<string> := {};
    for i := 0 to |raw.items|
      invariant forall j | 0 <= j < i :: DependencyItem(raw.items[j], id, ids)
      invariant forall j, k | 0 <= j < k < i :: raw.items[j] != raw.items[k]
      invariant result == set j | 0 <= j < i && raw.items[j].PyStr? :: raw.items[j].text
    {
      var d := raw.items[i];
      if !d.PyStr? { return None; }
      if d.text in result {
        ghost var j :| 0 <= j < i && raw.items[j].PyStr? && raw.items[j].text == d.text;
        assert raw.items[j] == raw.items[i];
        return None;
      }
      if d.text == id || d.text !in ids { return None; }
      forall j | 0 <= j < i ensures raw.items[j] != d {
        assert raw.items[j].PyStr? && raw.items[j].text in result;
      }
      result := result + {d.text};
    }
    assert result == Texts(raw.items);
    r := Some(result);
  }

  method DeserializeBindings(bindings: Fields, dependencies: set<string>) returns (r: Option<map<string, InputBinding>>)
    ensures r.Some? <==> BindingsDecode(bindings, dependencies)
    ensures r.Some? ==>
      r.value == map p | p in Names(bindings) :: DecodeBinding(Named(bindings, p), dependencies).value
  {
    hide DecodeBinding;
    var result: map<string, InputBinding> := map[];
    var todo := bindings.Keys;
    while todo != {}
      invariant todo <= bindings.Keys
      invariant forall k | k in bindings && k !in todo :: k.StrKey?
      invariant result.Keys == set k | k in bindings && k !in todo && k.StrKey? :: k.name
      invariant forall p | p in result ::
                  DecodeBinding(Named(bindings, p), dependencies) == Some(result[p])
      decreases todo
    {
      var k :| k in todo;
      if !k.StrKey? { return None; }
      var binding := DeserializeBinding(bindings[k], dependencies);
      if binding.None? {
        assert k.name in Names(bindings) && Named(bindings, k.name) == bindings[k];
        return None;
      }
      result := result[k.name := binding.value];
      todo := todo - {k};
    }
    assert result.Keys == Names(bindings);
    r := Some(result);
  }

  method DeserializeBinding(v: PyValue, dependencies: set<string>) returns (r: Option<InputBinding>)
    ensures r == DecodeBinding(v, dependencies)
  {
    if !v.IsMapping() { return None; }
    var kind := TextField(v.entries, "type");
    if kind == Some("Literal") {
      var literal := Field(v.entries, "value");
      if literal.None? { return None; }
      var frozen := FreezeJson(literal.value);
      if !frozen.Json? { return None; }
      return Some(LiteralBinding(frozen.value));
    }
    if kind == Some("WorkflowInput") {
      return Some(WorkflowInputBinding);
    }
    if kind == Some("TaskOutput") {
      var upstream := TextField(v.entries, "upstream_task_id");
      if upstream.None? || upstream.value !in dependencies { return None; }
      return Some(TaskOutputBinding(upstream.value));
    }
    r := None;
  }

  method DeserializeTask(id: string, v: PyValue, ids: set<string>) returns (r: Option<TaskDefinition>)
    ensures r == DecodeTask(id, v, ids)
  {
    hide DecodeBinding, DecodeDependencies, ValidId, Field, TextField, MappingField, Names;
    if !v.IsMapping() { return None; }
    var embedded := Field(v.entries, "id");
    if embedded.Some? && embedded.value != PyStr(id) { return None; }
    var activity := TextField(v.entries, "activity_type");
    if activity.None? || !ValidId(activity.value) { return None; }
    var dependencies := DeserializeDependencies(v.entries, id, ids);
    if dependencies.None? { return None; }
    var attempts := Field(v.entries, "max_attempts");
    if attempts.None? || !attempts.value.PyInt? || attempts.value.number < 1 { return None; }
    var bindings := MappingField(v.entries, "input_bindings");
    if bindings.None? { return None; }
    var decoded := DeserializeBindings(bindings.value, dependencies.value);
    if decoded.None? { return None; }
    r := Some(TaskDefinition(id, activity.value, dependencies.value, decoded.value, attempts.value.number));
  }

  method DeserializeTasks(tasks: Fields) returns (r: Option<map<string, TaskDefinition>>)
    ensures r.Some? <==> TasksDecode(tasks)
    ensures r.Some? ==> r.value == DecodedTasks(tasks)
  {
    hide DecodeTask, ValidId;
    if tasks == map[] { return None; }
    if exists k | k in tasks :: !k.StrKey? || !ValidId(k.name) {
      assert forall k | k in tasks && k.StrKey? :: k.name in Names(tasks);
      return None;
    }
    var ids := Names(tasks);
    var result: map<string, TaskDefinition> := map[];
    var todo := ids;
    while todo != {}
      invariant todo <= ids && result.Keys == ids - todo
      invariant forall k | k in result :: DecodeTask(k, Named(tasks, k), ids) == Some(result[k])
      decreases todo
    {
      var k :| k in todo;
      var task := DeserializeTask(k, Named(tasks, k), ids);
      if task.None? { return None; }
      result := result[k := task.value];
      todo := todo - {k};
    }
    r := Some(result);
  }

  method DeserializeOutputs(outputs: Fields, ids: set<string>) returns (r: Option<map<string, string>>)
    ensures r.Some? <==> OutputsDecode(outputs, ids)
    ensures r.Some? ==> r.value == map o | o in Names(outputs) :: DecodeOutput(Named(outputs, o), ids).value
  {
    hide DecodeOutput;
    var result: map<string, string> := map[];
    var todo := outputs.Keys;
    while todo != {}
      invariant todo <= outputs.Keys
      invariant forall k | k in outputs && k !in todo :: k.StrKey?
      invariant result.Keys == set k | k in outputs && k !in todo && k.StrKey? :: k.name
      invariant forall o | o in result :: DecodeOutput(Named(outputs, o), ids) == Some(result[o])
      decreases todo
    {
      var k :| k in todo;
      if !k.StrKey? { return None; }
      var source := DecodeOutput(outputs[k], ids);
      if source.None? {
        assert k.name in Names(outputs) && Named(outputs, k.name) == outputs[k];
        return None;
      }
      result := result[k.name := source.value];
      todo := todo - {k};
    }
    assert result.Keys == Names(outputs);
    r := Some(result);
  }

  /** Reads a specification back, or reports a PersistenceIntegrityError. */
  method DeserializeValidatedSpec(data: PyValue) returns (r: Option<ValidatedWorkflowSpec>)
    ensures r == Decode(data)
  {
    hide Acyclic, TasksDecode, OutputsDecode, DecodedTasks, DecodeOutput, TextField, Field, MappingField, Names, Stuck;
    if !data.IsMapping() { return None; }
    var name := TextField(data.entries, "workflow_name");
    if name.None? || name.value == "" { return None; }
    var rawTasks := Field(data.entries, "tasks");
    if rawTasks.None? || !rawTasks.value.IsMapping() { return None; }
    var rawOutputs := MappingField(data.entries, "output_bindings");
    if rawOutputs.None? { return None; }
    var tasks := DeserializeTasks(rawTasks.value.entries);
    if tasks.None? { return None; }
    DecodedTasksStorable(rawTasks.value.entries);
    DecodedKeys(rawTasks.value.entries);
    var outputs := DeserializeOutputs(rawOutputs.value, Names(rawTasks.value.entries));
    if outputs.None? { return None; }
    StorableIsClosed(tasks.value);
    var built := BuildCanonicalGraphAndVerifyAcyclic(tasks.value);
    if built.MissingDependency? || built.cycle.Some? { return None; }
    r := Some(ValidatedWorkflowSpec(name.value, tasks.value, outputs.value));
  }

  lemma StorableIsClosed(tasks: map<string, TaskDefinition>)
    requires forall k | k in tasks :: StorableTask(k, tasks[k], tasks.Keys)
    ensures Closed(DependencyMap(tasks))
  {
    hide StorableBinding, ValidId;
  }
}
