/** The model catalog: one draft held twice, as a map and as an array, and two ways to the same records. */
module Catalog {
  import opened Wrappers

  type ProviderID = string
  type ModelID = string

  /** Where a provider or a model is reached. Only an AI SDK endpoint takes its url from the options. */
  datatype Settings = Settings(aisdk: bool, url: Option<string>, baseURL: Option<string>, other: string)

  datatype Provider = Provider(id: ProviderID, settings: Settings)

  datatype Model = Model(id: ModelID, providerID: ProviderID, settings: Settings)

  datatype Record = Record(provider: Provider, models: map<ModelID, Model>)

  datatype Draft = Draft(records: map<ProviderID, Record>, data: seq<Record>)

  const BLANK: Settings := Settings(false, None, None, "")

  const EMPTY: Draft := Draft(map[], [])

  /** A base url given in the options of an AI SDK endpoint moves to the endpoint. */
  function Normalized(s: Settings): (r: Settings)
    ensures r.aisdk == s.aisdk && r.other == s.other && (s.aisdk ==> r.baseURL == None)
    ensures s.aisdk && s.baseURL.Some? ==> r.url == s.baseURL
    ensures !s.aisdk || s.baseURL.None? ==> r == s
  {
    if s.aisdk && s.baseURL.Some? then s.(url := s.baseURL, baseURL := None) else s
  }

  function Position(data: seq<Record>, id: ProviderID): (index: int)
    ensures -1 <= index < |data|
    ensures index >= 0 ==> data[index].provider.id == id
    ensures forall i :: 0 <= i < (if index < 0 then |data| else index) ==> data[i].provider.id != id
  {
    FindIndex(data, (r: Record) => r.provider.id == id)
  }

  // ---------------------------------------------------------------- specification of the draft

  datatype Op =
    | UpdateProvider(id: ProviderID, fn: Provider -> Provider)
    | RemoveProvider(id: ProviderID)
    | UpdateModel(id: ProviderID, modelID: ModelID, edit: Model -> Model)
    | RemoveModel(id: ProviderID, modelID: ModelID)

  function Put(d: Draft, id: ProviderID, next: Record): Draft {
    var index := Position(d.data, id);
    Draft(d.records[id := next], if index == -1 then d.data + [next] else d.data[index := next])
  }

  /** The record an operation puts in place of a provider's, if it puts one. */
  function Replacement(records: map<ProviderID, Record>, op: Op): Option<Record> {
    match op
    case UpdateProvider(id, fn) =>
      var current := if id in records then records[id].provider else Provider(id, BLANK);
      var p := fn(current);
      Some(Record(p.(settings := Normalized(p.settings)), if id in records then records[id].models else map[]))
    case UpdateModel(id, modelID, edit) =>
      if id !in records then None else
      var models := records[id].models;
      var m := edit(if modelID in models then models[modelID] else Model(modelID, id, BLANK));
      Some(Record(records[id].provider, models[modelID := Model(modelID, id, Normalized(m.settings))]))
    case RemoveModel(id, modelID) =>
      if id !in records then None else Some(Record(records[id].provider, records[id].models - {modelID}))
    case RemoveProvider(_) => None
  }

  /** One operation; updating a model of a provider that does not exist throws. */
  function Apply(d: Draft, op: Op): Option<Draft> {
    match op
    case RemoveProvider(id) =>
      var index := Position(d.data, id);
      Some(Draft(d.records - {id}, if index == -1 then d.data else RemoveAt(d.data, index)))
    case RemoveModel(id, _) =>
      if id !in d.records then Some(d) else
      var index := Position(d.data, id);
      var next := Replacement(d.records, op).value;
      Some(Draft(d.records[id := next], if index == -1 then d.data else d.data[index := next]))
    case _ =>
      var next := Replacement(d.records, op);
      if next.None? then None else Some(Put(d, op.id, next.value))
  }

  function Run(d: Draft, ops: seq<Op>): Option<Draft> {
    if ops == [] then Some(d) else
    var last := |ops| - 1;
    match Run(d, ops[..last])
    case None => None
    case Some(e) => Apply(e, ops[last])
  }

  // ---------------------------------------------------------------- the draft as it is edited

  class DraftContext {
    var records: map<ProviderID, Record>
    var data: seq<Record>

    function View(): Draft
      reads this
    {
      Draft(records, data)
    }

    constructor (d: Draft)
      ensures View() == d
    {
      records, data := d.records, d.data;
    }

    method ProviderUpdate(id: ProviderID, fn: Provider -> Provider)
      modifies this
      ensures Some(View()) == Apply(old(View()), UpdateProvider(id, fn))
    {
      var provider := fn(if id in records then records[id].provider else Provider(id, BLANK));
      provider := provider.(settings := Normalized(provider.settings));
      var next := Record(provider, if id in records then records[id].models else map[]);
      records := records[id := next];
      var index := Position(data, id);
      if index == -1 {
        data := data + [next];
      } else {
        data := data[index := next];
      }
    }

    method ProviderRemove(id: ProviderID)
      modifies this
      ensures Some(View()) == Apply(old(View()), RemoveProvider(id))
    {
      records := records - {id};
      var index := Position(data, id);
      if index != -1 {
        data := data[..index] + data[index + 1..];
      }
    }

    method ModelUpdate(id: ProviderID, modelID: ModelID, edit: Model -> Model) returns (threw: bool)
      modifies this
      ensures threw <==> Apply(old(View()), UpdateModel(id, modelID, edit)).None?
      ensures threw ==> View() == old(View())
      ensures !threw ==> Some(View()) == Apply(old(View()), UpdateModel(id, modelID, edit))
    {
      if id !in records {
        return true;
      }
      threw := false;
      var current := records[id];
      var model := edit(if modelID in current.models then current.models[modelID] else Model(modelID, id, BLANK));
      var next := Record(current.provider, current.models[modelID := Model(modelID, id, Normalized(model.settings))]);
      records := records[id := next];
      var index := Position(data, id);
      if index == -1 {
        data := data + [next];
      } else {
        data := data[index := next];
      }
    }

    method ModelRemove(id: ProviderID, modelID: ModelID)
      modifies this
      ensures Some(View()) == Apply(old(View()), RemoveModel(id, modelID))
    {
      if id !in records {
        return;
      }
      var next := Record(records[id].provider, records[id].models - {modelID});
      records := records[id := next];
      var index := Position(data, id);
      if index != -1 {
        data := data[index := next];
      }
    }
  }

  // ---------------------------------------------------------------- the two copies agree

  /** Array and map hold the same records, each under its own id, and no id twice. */
  predicate Agree(d: Draft) { MapInArray(d) && ArrayInMap(d) && UniqueIds(d.data) }

  predicate MapInArray(d: Draft) {
    forall k :: k in d.records ==> d.records[k].provider.id == k && d.records[k] in d.data
  }

  predicate ArrayInMap(d: Draft) {
    forall i :: 0 <= i < |d.data| ==>
      d.data[i].provider.id in d.records && d.records[d.data[i].provider.id] == d.data[i]
  }

  predicate UniqueIds(data: seq<Record>) {
    forall i, j :: 0 <= i < j < |data| ==> data[i].provider.id != data[j].provider.id
  }

  lemma PutAgreesIff(d: Draft, id: ProviderID, next: Record)
    requires Agree(d)
    ensures Agree(Put(d, id, next)) <==> next.provider.id == id
  {
    var e := Put(d, id, next);
    if next.provider.id == id {
      PutAgrees(d, id, next);
    } else {
      assert e.records[id] == next;
    }
  }

  lemma PutAgrees(d: Draft, id: ProviderID, next: Record)
    requires Agree(d) && next.provider.id == id
    ensures Agree(Put(d, id, next))
  {
    var e := Put(d, id, next);
    var at := PutAt(d, id, next);
    forall k | k in e.records
      ensures e.records[k].provider.id == k && e.records[k] in e.data
    {
      if k == id {
        assert e.data[at] == next;
      } else {
        var i :| 0 <= i < |d.data| && d.data[i] == d.records[k];
        assert e.data[i] == d.data[i];
      }
    }
    assert ArrayInMap(e);
    assert UniqueIds(e.data);
  }

  /** Where the array holds what was put: at the record's old place, or at its end. */
  lemma PutAt(d: Draft, id: ProviderID, next: Record) returns (at: nat)
    requires Agree(d)
    ensures at <= |d.data| && (id in d.records <==> at < |d.data|)
    ensures at < |d.data| ==> d.data[at].provider.id == id
    ensures forall i :: 0 <= i < |d.data| && i != at ==> d.data[i].provider.id != id
    ensures Put(d, id, next).data == if at < |d.data| then d.data[at := next] else d.data + [next]
  {
    var index := Position(d.data, id);
    at := if index == -1 then |d.data| else index;
    if id in d.records {
      var i :| 0 <= i < |d.data| && d.data[i] == d.records[id];
    }
  }

  lemma RemoveAgrees(d: Draft, id: ProviderID)
    requires Agree(d)
    ensures Agree(Apply(d, RemoveProvider(id)).value)
  {
    var index := Position(d.data, id);
    if index == -1 {
      forall k | k in d.records
        ensures k != id
      {
        var i :| 0 <= i < |d.data| && d.data[i] == d.records[k];
      }
      assert d.records - {id} == d.records;
    } else {
      RemovedArrayInMap(d, index);
    }
  }

  function RemoveAt(data: seq<Record>, index: nat): (r: seq<Record>)
    requires index < |data|
    ensures |r| == |data| - 1
    ensures forall i :: 0 <= i < |r| ==> r[i] == data[if i < index then i else i + 1]
  {
    data[..index] + data[index + 1..]
  }

  lemma RemovedArrayInMap(d: Draft, index: nat)
    requires Agree(d) && index < |d.data|
    ensures var e := Draft(d.records - {d.data[index].provider.id}, RemoveAt(d.data, index));
      ArrayInMap(e) && UniqueIds(e.data)
  {
    var data := RemoveAt(d.data, index);
    forall i | 0 <= i < |data|
      ensures data[i].provider.id != d.data[index].provider.id
      ensures data[i].provider.id in d.records && d.records[data[i].provider.id] == data[i]
    {
      var k := if i < index then i else i + 1;
      assert data[i] == d.data[k];
    }
  }

  /** An operation keeps the copies in agreement exactly when its callback, if it is a provider
      update, leaves the provider's id alone. */
  lemma ApplyAgreesIff(d: Draft, op: Op)
    requires Agree(d) && Apply(d, op).Some?
    ensures Agree(Apply(d, op).value) <==>
      (op.UpdateProvider? ==> Replacement(d.records, op).value.provider.id == op.id)
  {
    match op {
      case RemoveProvider(id) => RemoveAgrees(d, id);
      case RemoveModel(id, _) =>
        if id in d.records {
          assert d.records[id] in d.data && Position(d.data, id) >= 0;
          PutAgreesIff(d, id, Replacement(d.records, op).value);
        }
      case _ => PutAgreesIff(d, op.id, Replacement(d.records, op).value);
    }
  }

  /** The callback never renames a provider. */
  ghost predicate KeepsId(op: Op) {
    op.UpdateProvider? ==> forall p :: op.fn(p).id == p.id
  }

  ghost predicate KeepIds(ops: seq<Op>) {
    forall i :: 0 <= i < |ops| ==> KeepsId(ops[i])
  }

  lemma {:induction false} RunAgrees(d: Draft, ops: seq<Op>)
    requires Agree(d) && KeepIds(ops)
    ensures Run(d, ops).Some? ==> Agree(Run(d, ops).value)
  {
    if ops == [] {
    } else {
      var last := |ops| - 1;
      RunAgrees(d, ops[..last]);
      if Run(d, ops).Some? {
        ApplyAgreesIff(Run(d, ops[..last]).value, ops[last]);
      }
    }
  }

  // ---------------------------------------------------------------- hooks

  /** A loader or a plugin's transform. A program decides on its operations from the records, which
      determine every later state of them; a sweep visits the array and edits each record it meets. */
  datatype Hook =
    | Program(ops: map<ProviderID, Record> -> seq<Op>)
    | Sweep(edits: Record -> seq<Op>)

  predicate OwnRecord(ops: seq<Op>, id: ProviderID) {
    forall i :: 0 <= i < |ops| ==> ops[i].id == id && !ops[i].RemoveProvider?
  }

  /** No callback renames a provider, and a sweep edits the record it is at. */
  ghost predicate Tame(h: Hook) {
    match h
    case Program(ops) => forall records {:trigger ops(records)} :: KeepIds(ops(records))
    case Sweep(edits) => forall r {:trigger edits(r)} :: KeepIds(edits(r)) && OwnRecord(edits(r), r.provider.id)
  }

  /** The first `n` places of the array, as they are when the sweep comes to them. */
  function Swept(d: Draft, edits: Record -> seq<Op>, n: nat): Option<Draft> {
    if n == 0 then Some(d) else
    match Swept(d, edits, n - 1)
    case None => None
    case Some(e) => if n > |e.data| then Some(e) else Run(e, edits(e.data[n - 1]))
  }

  /** What a hook does to a draft; nothing if it throws. */
  function RunHook(h: Hook, d: Draft): Option<Draft> {
    match h
    case Program(ops) => Run(d, ops(d.records))
    case Sweep(edits) => Swept(d, edits, |d.data|)
  }

  /** What operations do to the records depends on the records alone. */
  lemma {:induction false} RunIsOrderBlind(d: Draft, e: Draft, ops: seq<Op>)
    requires d.records == e.records
    ensures Run(d, ops).Some? == Run(e, ops).Some?
    ensures Run(d, ops).Some? ==> Run(d, ops).value.records == Run(e, ops).value.records
  {
    if ops == [] {
    } else {
      RunIsOrderBlind(d, e, ops[..|ops| - 1]);
    }
  }

  /** A record after operations on it alone. */
  function Edited(id: ProviderID, r: Record, ops: seq<Op>): Record
    requires OwnRecord(ops, id)
  {
    if ops == [] then r else
    var last := |ops| - 1;
    Replacement(map[id := Edited(id, r, ops[..last])], ops[last]).value
  }

  /** Only the record of `id` and its place in the array differ; it is `r` now. */
  predicate Only(d: Draft, e: Draft, id: ProviderID, r: Record) {
    && e.records == d.records[id := r]
    && |e.data| == |d.data|
    && (forall i :: 0 <= i < |d.data| ==> e.data[i].provider.id == d.data[i].provider.id)
    && forall i :: 0 <= i < |d.data| && d.data[i].provider.id != id ==> e.data[i] == d.data[i]
  }

  lemma PutOnly(d: Draft, id: ProviderID, next: Record)
    requires Agree(d) && id in d.records && next.provider.id == id
    ensures Only(d, Put(d, id, next), id, next)
  {
    var at := PutAt(d, id, next);
  }

  lemma EditOwnRecord(d: Draft, op: Op)
    requires Agree(d) && op.id in d.records && !op.RemoveProvider? && KeepsId(op)
    ensures Apply(d, op).Some? && Agree(Apply(d, op).value)
    ensures Replacement(map[op.id := d.records[op.id]], op).Some?
    ensures Only(d, Apply(d, op).value, op.id, Replacement(map[op.id := d.records[op.id]], op).value)
  {
    assert d.records[op.id].provider.id == op.id;
    PutAgrees(d, op.id, Replacement(d.records, op).value);
    PutOnly(d, op.id, Replacement(d.records, op).value);
  }

  /** Operations on one record leave every other record and its place alone. */
  lemma {:induction false} RunOwnRecord(d: Draft, id: ProviderID, ops: seq<Op>)
    requires Agree(d) && id in d.records && OwnRecord(ops, id) && KeepIds(ops)
    ensures Run(d, ops).Some? && Agree(Run(d, ops).value)
    ensures Only(d, Run(d, ops).value, id, Edited(id, d.records[id], ops))
  {
    if ops == [] {
      assert d.records[id := d.records[id]] == d.records;
    } else {
      var last, first := |ops| - 1, ops[..|ops| - 1];
      RunOwnRecord(d, id, first);
      var e, r := Run(d, first).value, Edited(id, d.records[id], first);
      EditAgain(d, e, id, r, ops[last]);
      assert Run(d, ops) == Apply(e, ops[last]);
      assert Edited(id, d.records[id], ops) == Replacement(map[id := r], ops[last]).value;
    }
  }

  lemma EditAgain(d: Draft, e: Draft, id: ProviderID, r: Record, op: Op)
    requires Agree(e) && Only(d, e, id, r)
    requires op.id == id && !op.RemoveProvider? && KeepsId(op)
    ensures Apply(e, op).Some? && Agree(Apply(e, op).value) && Replacement(map[id := r], op).Some?
    ensures Only(d, Apply(e, op).value, id, Replacement(map[id := r], op).value)
  {
    assert e.records[id] == r;
    EditOwnRecord(e, op);
  }

  /** After the first `n` places of a sweep: each record there is edited on its own, the others are as
      they were. */
  predicate SweptTo(d: Draft, edits: Record -> seq<Op>, n: nat, e: Draft)
    requires n <= |d.data| && forall i :: 0 <= i < n ==> OwnRecord(edits(d.data[i]), d.data[i].provider.id)
  {
    && |e.data| == |d.data| && e.records.Keys == d.records.Keys
    && (forall i :: n <= i < |d.data| ==> e.data[i] == d.data[i])
    && forall i :: 0 <= i < |d.data| && d.data[i].provider.id in e.records ==>
         e.records[d.data[i].provider.id] ==
           if i < n then Edited(d.data[i].provider.id, d.data[i], edits(d.data[i])) else d.data[i]
  }

  lemma {:induction false} SweepEditsEach(d: Draft, edits: Record -> seq<Op>, n: nat)
    requires Agree(d) && Tame(Sweep(edits)) && n <= |d.data|
    ensures Swept(d, edits, n).Some? && Agree(Swept(d, edits, n).value)
    ensures SweptTo(d, edits, n, Swept(d, edits, n).value)
  {
    if n == 0 {
    } else {
      SweepEditsEach(d, edits, n - 1);
      SweepEditsNext(d, edits, n, Swept(d, edits, n - 1).value);
    }
  }

  lemma SweepEditsNext(d: Draft, edits: Record -> seq<Op>, n: nat, e: Draft)
    requires Agree(d) && Agree(e) && Tame(Sweep(edits)) && 0 < n <= |d.data| && SweptTo(d, edits, n - 1, e)
    ensures e.data[n - 1] == d.data[n - 1]
    ensures var f := Run(e, edits(d.data[n - 1])); f.Some? && Agree(f.value) && SweptTo(d, edits, n, f.value)
  {
    var r := d.data[n - 1];
    assert e.data[n - 1] == r && r.provider.id in e.records && e.records[r.provider.id] == r;
    RunOwnRecord(e, r.provider.id, edits(r));
    SweptFurther(d, edits, n, e, Run(e, edits(r)).value);
  }

  lemma SweptFurther(d: Draft, edits: Record -> seq<Op>, n: nat, e: Draft, f: Draft)
    requires ArrayInMap(d) && UniqueIds(d.data) && 0 < n <= |d.data|
    requires forall i :: 0 <= i < n ==> OwnRecord(edits(d.data[i]), d.data[i].provider.id)
    requires SweptTo(d, edits, n - 1, e)
    requires var r := d.data[n - 1]; Only(e, f, r.provider.id, Edited(r.provider.id, r, edits(r)))
    ensures SweptTo(d, edits, n, f)
  {
    forall i | 0 <= i < |d.data| && d.data[i].provider.id in f.records
      ensures f.records[d.data[i].provider.id] ==
        if i < n then Edited(d.data[i].provider.id, d.data[i], edits(d.data[i])) else d.data[i]
    {
      assert i != n - 1 ==> d.data[i].provider.id != d.data[n - 1].provider.id;
    }
    forall i | n <= i < |d.data|
      ensures f.data[i] == d.data[i]
    {
      assert e.data[i] == d.data[i] && d.data[i].provider.id != d.data[n - 1].provider.id;
    }
  }

  /** A tame hook keeps the two copies in agreement. */
  lemma HookAgrees(h: Hook, d: Draft)
    requires Tame(h) && Agree(d)
    ensures RunHook(h, d).Some? ==> Agree(RunHook(h, d).value)
  {
    match h {
      case Program(ops) => RunAgrees(d, ops(d.records));
      case Sweep(edits) => SweepEditsEach(d, edits, |d.data|);
    }
  }

  /** And what it does to the records does not depend on the order in which the array lists them. */
  lemma HookIsOrderBlind(h: Hook, d: Draft, e: Draft)
    requires Tame(h) && Agree(d) && Agree(e) && d.records == e.records
    ensures RunHook(h, d).Some? == RunHook(h, e).Some?
    ensures RunHook(h, d).Some? ==> RunHook(h, d).value.records == RunHook(h, e).value.records
  {
    match h {
      case Program(ops) => RunIsOrderBlind(d, e, ops(d.records));
      case Sweep(edits) =>
        SweepEditsEach(d, edits, |d.data|);
        SweepEditsEach(e, edits, |e.data|);
    }
  }

  // ---------------------------------------------------------------- the rebuild and the shortcut

  function RunHooks(hooks: seq<Hook>, d: Draft): Option<Draft> {
    if hooks == [] then Some(d) else
    match RunHooks(hooks[..|hooks| - 1], d)
    case None => None
    case Some(e) => RunHook(hooks[|hooks| - 1], e)
  }

  /** The full rebuild: every loader, then every plugin, from nothing. */
  function Rebuilt(loaders: seq<Hook>, plugins: seq<Hook>): Option<Draft> {
    match RunHooks(loaders, EMPTY)
    case None => None
    case Some(d) => RunHooks(plugins, d)
  }

  /** A hook that throws while a plugin is added ends the listener for added plugins. */
  datatype Catalog = Catalog(
    loaders: seq<Hook>,
    plugins: seq<Hook>,
    records: map<ProviderID, Record>,
    listening: bool)

  const START: Catalog := Catalog([], [], map[], true)

  /** Registering a loader, loading through it, closing it, and handling a brand-new plugin. The
      incremental path lists the records in whatever order the map yields its keys. */
  datatype Action =
    | RegisterLoader
    | Load(i: nat, update: Hook)
    | CloseLoader(i: nat)
    | PluginAdded(hook: Hook, keys: seq<ProviderID>)

  function Idle(): Hook { Program((records: map<ProviderID, Record>) => []) }

  /** A rebuild that throws leaves the records as they were. */
  function Refreshed(c: Catalog): Catalog {
    match Rebuilt(c.loaders, c.plugins)
    case None => c
    case Some(d) => c.(records := d.records)
  }

  function Listing(records: map<ProviderID, Record>, keys: seq<ProviderID>): seq<Record>
    requires forall i :: 0 <= i < |keys| ==> keys[i] in records
  {
    seq(|keys|, i requires 0 <= i < |keys| => records[keys[i]])
  }

  /** The keys of the map, each once, in some order. */
  ghost predicate Lists(records: map<ProviderID, Record>, keys: seq<ProviderID>) {
    && (forall k :: k in keys <==> k in records)
    && forall i, j :: 0 <= i < j < |keys| ==> keys[i] != keys[j]
  }

  ghost predicate Allowed(c: Catalog, a: Action) {
    match a
    case Load(_, update) => Tame(update)
    case PluginAdded(hook, keys) => Tame(hook) && Lists(c.records, keys)
    case _ => true
  }

  function After(c: Catalog, a: Action): Catalog
    requires a.PluginAdded? ==> Lists(c.records, a.keys)
  {
    match a
    case RegisterLoader => c.(loaders := c.loaders + [Idle()])
    case Load(i, update) => if i >= |c.loaders| then c else Refreshed(c.(loaders := c.loaders[i := update]))
    case CloseLoader(i) =>
      if i >= |c.loaders| then c else Refreshed(c.(loaders := c.loaders[..i] + c.loaders[i + 1..]))
    case PluginAdded(hook, keys) =>
      var added := c.(plugins := c.plugins + [hook]);
      if !c.listening then added else
      match RunHook(hook, Draft(c.records, Listing(c.records, keys)))
      case None => added.(listening := false)
      case Some(d) => added.(records := d.records)
  }

  ghost predicate TameAll(hooks: seq<Hook>) {
    forall i :: 0 <= i < |hooks| ==> Tame(hooks[i])
  }

  ghost predicate Sound(c: Catalog) {
    && TameAll(c.loaders)
    && TameAll(c.plugins)
    && forall k :: k in c.records ==> c.records[k].provider.id == k
  }

  /** Unless a rebuild would throw, the records are those of one. */
  predicate Fresh(c: Catalog) {
    var d := Rebuilt(c.loaders, c.plugins);
    d.Some? ==> d.value.records == c.records
  }

  /** As long as the listener lives the records are fresh. */
  ghost predicate UpToDate(c: Catalog) {
    Sound(c) && (c.listening ==> Fresh(c))
  }

  lemma {:induction false} HooksAgree(hooks: seq<Hook>, d: Draft)
    requires Agree(d) && TameAll(hooks)
    ensures RunHooks(hooks, d).Some? ==> Agree(RunHooks(hooks, d).value)
  {
    if hooks == [] {
    } else {
      var last := |hooks| - 1;
      HooksAgree(hooks[..last], d);
      if RunHooks(hooks, d).Some? {
        HookAgrees(hooks[last], RunHooks(hooks[..last], d).value);
      }
    }
  }

  lemma RebuiltAgrees(loaders: seq<Hook>, plugins: seq<Hook>)
    requires TameAll(loaders) && TameAll(plugins)
    ensures Rebuilt(loaders, plugins).Some? ==> Agree(Rebuilt(loaders, plugins).value)
  {
    HooksAgree(loaders, EMPTY);
    if RunHooks(loaders, EMPTY).Some? {
      HooksAgree(plugins, RunHooks(loaders, EMPTY).value);
    }
  }

  lemma OneMoreHook(hooks: seq<Hook>, h: Hook, d: Draft)
    ensures RunHooks(hooks + [h], d) ==
      match RunHooks(hooks, d) case None => None case Some(e) => RunHook(h, e)
  {
    assert (hooks + [h])[..|hooks|] == hooks;
  }

  lemma ListingAgrees(records: map<ProviderID, Record>, keys: seq<ProviderID>)
    requires Lists(records, keys) && forall k :: k in records ==> records[k].provider.id == k
    ensures Agree(Draft(records, Listing(records, keys)))
  {
    var data := Listing(records, keys);
    forall k | k in records
      ensures records[k] in data
    {
      var i :| 0 <= i < |keys| && keys[i] == k;
      assert data[i] == records[k];
    }
    forall i | 0 <= i < |data|
      ensures data[i].provider.id == keys[i]
    {
      assert keys[i] in keys;
    }
  }

  /** Rebuilding brings the records up to date, or throws and leaves them. */
  lemma RefreshedIsUpToDate(c: Catalog)
    requires Sound(c)
    ensures Sound(Refreshed(c)) && Fresh(Refreshed(c))
  {
    RebuiltAgrees(c.loaders, c.plugins);
  }

  /** What a rebuild with one more plugin comes to, by the records there are. */
  lemma HookOnRebuilt(c: Catalog, hook: Hook, keys: seq<ProviderID>)
    requires Sound(c) && Fresh(c) && Tame(hook) && Lists(c.records, keys)
    ensures var d := RunHook(hook, Draft(c.records, Listing(c.records, keys)));
      var r := Rebuilt(c.loaders, c.plugins + [hook]);
      && r.Some? == (Rebuilt(c.loaders, c.plugins).Some? && d.Some?)
      && (r.Some? ==> r.value.records == d.value.records)
  {
    ListingAgrees(c.records, keys);
    RebuiltAgrees(c.loaders, c.plugins);
    if RunHooks(c.loaders, EMPTY).Some? {
      OneMoreHook(c.plugins, hook, RunHooks(c.loaders, EMPTY).value);
    }
    if Rebuilt(c.loaders, c.plugins).Some? {
      HookIsOrderBlind(hook, Rebuilt(c.loaders, c.plugins).value, Draft(c.records, Listing(c.records, keys)));
    }
  }

  /** Running only the new hook, on the records there are, is running all of them from nothing. */
  lemma AddedIsUpToDate(c: Catalog, hook: Hook, keys: seq<ProviderID>)
    requires UpToDate(c) && Tame(hook) && Lists(c.records, keys)
    ensures UpToDate(After(c, PluginAdded(hook, keys)))
    ensures c.listening ==> Fresh(After(c, PluginAdded(hook, keys)))
  {
    ListingAgrees(c.records, keys);
    HookAgrees(hook, Draft(c.records, Listing(c.records, keys)));
    if c.listening {
      HookOnRebuilt(c, hook, keys);
    }
  }

  /** A loader that does nothing yet does not change what a rebuild comes to. */
  lemma RegisteredRebuilds(loaders: seq<Hook>, plugins: seq<Hook>)
    ensures Rebuilt(loaders + [Idle()], plugins) == Rebuilt(loaders, plugins)
  {
    OneMoreHook(loaders, Idle(), EMPTY);
  }

  lemma RegisteredIsUpToDate(c: Catalog)
    requires UpToDate(c)
    ensures UpToDate(After(c, RegisterLoader))
  {
    RegisteredRebuilds(c.loaders, c.plugins);
  }

  /** The incremental path never shows: whatever happened, throwing hooks included, the records are
      those of a full rebuild unless that would throw or the listener has ended. */
  lemma IncrementalIsRebuild(c: Catalog, a: Action)
    requires UpToDate(c) && Allowed(c, a)
    ensures UpToDate(After(c, a))
  {
    match a {
      case RegisterLoader => RegisteredIsUpToDate(c);
      case Load(i, update) =>
        if i < |c.loaders| {
          RefreshedIsUpToDate(c.(loaders := c.loaders[i := update]));
        }
      case CloseLoader(i) =>
        if i < |c.loaders| {
          RefreshedIsUpToDate(c.(loaders := c.loaders[..i] + c.loaders[i + 1..]));
        }
      case PluginAdded(hook, keys) => AddedIsUpToDate(c, hook, keys);
    }
  }

  // ---------------------------------------------------------------- when the listener has ended

  /** A plugin is added that no listener handles, and running its hook would have changed the records. */
  ghost predicate Misses(c: Catalog, a: Action)
    requires a.PluginAdded? ==> Lists(c.records, a.keys)
  {
    && a.PluginAdded? && !c.listening && Rebuilt(c.loaders, c.plugins).Some?
    && var d := RunHook(a.hook, Draft(c.records, Listing(c.records, a.keys)));
       d.Some? && d.value.records != c.records
  }

  /** Fresh records stay fresh exactly unless such a plugin is added. */
  lemma StaysFreshIff(c: Catalog, a: Action)
    requires UpToDate(c) && Fresh(c) && Allowed(c, a)
    ensures Fresh(After(c, a)) <==> !Misses(c, a)
  {
    match a {
      case RegisterLoader => RegisteredRebuilds(c.loaders, c.plugins);
      case Load(i, update) =>
        if i < |c.loaders| {
          RefreshedIsUpToDate(c.(loaders := c.loaders[i := update]));
        }
      case CloseLoader(i) =>
        if i < |c.loaders| {
          RefreshedIsUpToDate(c.(loaders := c.loaders[..i] + c.loaders[i + 1..]));
        }
      case PluginAdded(hook, keys) =>
        if c.listening {
          AddedIsUpToDate(c, hook, keys);
        } else {
          MissedIsStaleIff(c, hook, keys);
        }
    }
  }

  lemma MissedIsStaleIff(c: Catalog, hook: Hook, keys: seq<ProviderID>)
    requires Sound(c) && Fresh(c) && Tame(hook) && Lists(c.records, keys)
    ensures Fresh(c.(plugins := c.plugins + [hook])) <==>
      (Rebuilt(c.loaders, c.plugins).Some? ==>
         var d := RunHook(hook, Draft(c.records, Listing(c.records, keys)));
         d.Some? ==> d.value.records == c.records)
  {
    HookOnRebuilt(c, hook, keys);
  }

  // ---------------------------------------------------------------- any sequence of actions

  /** Every action is one that can happen where it happens. */
  ghost predicate Possible(actions: seq<Action>) {
    actions == [] ||
    var last := |actions| - 1;
    Possible(actions[..last]) && Allowed(AfterAll(actions[..last]), actions[last])
  }

  ghost function AfterAll(actions: seq<Action>): Catalog {
    if actions == [] then START else
    var last := |actions| - 1;
    var c := AfterAll(actions[..last]);
    if Allowed(c, actions[last]) then After(c, actions[last]) else c
  }

  /** From an empty catalog, over any sequence of loads, closes and additions. */
  lemma {:induction false} CatalogIsAlwaysRebuilt(actions: seq<Action>)
    requires Possible(actions)
    ensures UpToDate(AfterAll(actions))
  {
    if actions == [] {
    } else {
      var last := |actions| - 1;
      CatalogIsAlwaysRebuilt(actions[..last]);
      IncrementalIsRebuild(AfterAll(actions[..last]), actions[last]);
    }
  }

  // ---------------------------------------------------------------- exactly what a dead listener misses

  predicate Reloads(c: Catalog, a: Action) { (a.Load? || a.CloseLoader?) && a.i < |c.loaders| }

  /** How many plugins at the end of the list were added, with no listener, since the last load or close. */
  ghost function Missed(actions: seq<Action>): nat {
    if actions == [] then 0 else
    var last := |actions| - 1;
    var c := AfterAll(actions[..last]);
    if Reloads(c, actions[last]) then 0
    else Missed(actions[..last]) + if actions[last].PluginAdded? && !c.listening then 1 else 0
  }

  /** The records are those of a rebuild without the last `m` plugins, unless that would throw. */
  ghost predicate FreshBut(c: Catalog, m: nat) {
    && m <= |c.plugins|
    && (c.listening ==> m == 0)
    && var d := Rebuilt(c.loaders, c.plugins[..|c.plugins| - m]);
       d.Some? ==> d.value.records == c.records
  }

  lemma FreshButNone(c: Catalog)
    ensures FreshBut(c, 0) <==> Fresh(c)
  {
    assert c.plugins[..|c.plugins|] == c.plugins;
  }

  lemma FreshButAfter(c: Catalog, a: Action, m: nat)
    requires Sound(c) && FreshBut(c, m) && Allowed(c, a)
    ensures Sound(After(c, a))
    ensures FreshBut(After(c, a),
                     if Reloads(c, a) then 0 else m + if a.PluginAdded? && !c.listening then 1 else 0)
  {
    match a {
      case RegisterLoader => FreshButRegistered(c, m);
      case Load(i, update) =>
        if i < |c.loaders| {
          ReloadIsFresh(c, c.loaders[i := update]);
        }
      case CloseLoader(i) =>
        if i < |c.loaders| {
          ReloadIsFresh(c, c.loaders[..i] + c.loaders[i + 1..]);
        }
      case PluginAdded(hook, keys) => FreshButAdded(c, hook, keys, m);
    }
  }

  lemma FreshButRegistered(c: Catalog, m: nat)
    requires Sound(c) && FreshBut(c, m)
    ensures var after := After(c, RegisterLoader); Sound(after) && FreshBut(after, m)
  {
    RegisteredRebuilds(c.loaders, c.plugins[..|c.plugins| - m]);
  }

  lemma ReloadIsFresh(c: Catalog, loaders: seq<Hook>)
    requires Sound(c) && TameAll(loaders)
    ensures var after := Refreshed(c.(loaders := loaders)); Sound(after) && FreshBut(after, 0)
  {
    RefreshedIsUpToDate(c.(loaders := loaders));
    FreshButNone(Refreshed(c.(loaders := loaders)));
  }

  lemma FreshButAdded(c: Catalog, hook: Hook, keys: seq<ProviderID>, m: nat)
    requires Sound(c) && FreshBut(c, m) && Tame(hook) && Lists(c.records, keys)
    ensures var after := After(c, PluginAdded(hook, keys));
      Sound(after) && FreshBut(after, if c.listening then m else m + 1)
  {
    if c.listening {
      FreshButNone(c);
      AddedIsUpToDate(c, hook, keys);
      FreshButNone(After(c, PluginAdded(hook, keys)));
    } else {
      assert (c.plugins + [hook])[..|c.plugins| - m] == c.plugins[..|c.plugins| - m];
    }
  }

  /** After every run, dead listener or not: the records are those of a rebuild without the plugins
      that were missed. */
  lemma {:induction false} RecordsMissOnlyTheMissed(actions: seq<Action>)
    requires Possible(actions)
    ensures Sound(AfterAll(actions)) && FreshBut(AfterAll(actions), Missed(actions))
  {
    if actions == [] {
    } else {
      var last := |actions| - 1;
      RecordsMissOnlyTheMissed(actions[..last]);
      FreshButAfter(AfterAll(actions[..last]), actions[last], Missed(actions[..last]));
    }
  }

  lemma {:induction false} HooksConcat(a: seq<Hook>, b: seq<Hook>, d: Draft)
    ensures RunHooks(a + b, d) == match RunHooks(a, d) case None => None case Some(e) => RunHooks(b, e)
  {
    if b == [] {
      assert a + b == a;
    } else {
      var last := |b| - 1;
      assert a + b == (a + b[..last]) + [b[last]];
      HooksConcat(a, b[..last], d);
      OneMoreHook(a + b[..last], b[last], d);
    }
  }

  lemma {:induction false} HooksAreOrderBlind(hooks: seq<Hook>, d: Draft, e: Draft)
    requires TameAll(hooks) && Agree(d) && Agree(e) && d.records == e.records
    ensures RunHooks(hooks, d).Some? == RunHooks(hooks, e).Some?
    ensures RunHooks(hooks, d).Some? ==> RunHooks(hooks, d).value.records == RunHooks(hooks, e).value.records
  {
    if hooks == [] {
    } else {
      var last := |hooks| - 1;
      HooksAreOrderBlind(hooks[..last], d, e);
      HooksAgree(hooks[..last], d);
      HooksAgree(hooks[..last], e);
      if RunHooks(hooks[..last], d).Some? {
        HookIsOrderBlind(hooks[last], RunHooks(hooks[..last], d).value, RunHooks(hooks[..last], e).value);
      }
    }
  }

  /** The last `m` hooks, run on the records there are, change nothing, or they or the rest of a
      rebuild throw. */
  ghost predicate Harmless(c: Catalog, m: nat, keys: seq<ProviderID>)
    requires m <= |c.plugins| && Lists(c.records, keys)
  {
    var handled, missed := c.plugins[..|c.plugins| - m], c.plugins[|c.plugins| - m..];
    Rebuilt(c.loaders, handled).Some? ==>
      var d := RunHooks(missed, Draft(c.records, Listing(c.records, keys)));
      d.Some? ==> d.value.records == c.records
  }

  /** So after a run the records are those of a full rebuild exactly if the missed hooks are harmless. */
  lemma RunIsFreshIff(actions: seq<Action>, keys: seq<ProviderID>)
    requires Possible(actions) && Lists(AfterAll(actions).records, keys)
    ensures Missed(actions) <= |AfterAll(actions).plugins|
    ensures Fresh(AfterAll(actions)) <==> Harmless(AfterAll(actions), Missed(actions), keys)
  {
    RecordsMissOnlyTheMissed(actions);
    MissedHooksDecide(AfterAll(actions), Missed(actions), keys);
  }

  lemma MissedHooksDecide(c: Catalog, m: nat, keys: seq<ProviderID>)
    requires Sound(c) && FreshBut(c, m) && Lists(c.records, keys)
    ensures Fresh(c) <==> Harmless(c, m, keys)
  {
    var handled, missed := c.plugins[..|c.plugins| - m], c.plugins[|c.plugins| - m..];
    assert c.plugins == handled + missed;
    if RunHooks(c.loaders, EMPTY).Some? {
      HooksConcat(handled, missed, RunHooks(c.loaders, EMPTY).value);
    }
    if Rebuilt(c.loaders, handled).Some? {
      ListingAgrees(c.records, keys);
      RebuiltAgrees(c.loaders, handled);
      HooksAreOrderBlind(missed, Rebuilt(c.loaders, handled).value, Draft(c.records, Listing(c.records, keys)));
    }
  }

  function EditsModel(id: ProviderID): Hook {
    Program((records: map<ProviderID, Record>) => [UpdateModel(id, "m", (m: Model) => m)])
  }

  function AddsProvider(id: ProviderID): Hook {
    Program((records: map<ProviderID, Record>) => [UpdateProvider(id, (p: Provider) => p)])
  }

  /** A run that ends with stale records: a plugin edits a model of a provider that is not there yet,
      which ends the listener; then a loader brings the provider, and another plugin is missed. */
  lemma DeadListenerMisses() returns (actions: seq<Action>)
    ensures Possible(actions)
    ensures var c := AfterAll(actions);
      && !c.listening && !Fresh(c) && "q" !in c.records
      && var d := Rebuilt(c.loaders, c.plugins); d.Some? && "q" in d.value.records
  {
    var c;
    actions, c := ProviderLoaded();
    var next := c.(plugins := c.plugins + [AddsProvider("q")]);
    var a := PluginAdded(AddsProvider("q"), ["p"]);
    assert After(c, a) == next;
    AfterThen(actions, a);
    actions := actions + [a];
  }

  lemma ListenerDies() returns (actions: seq<Action>, c: Catalog)
    ensures Possible(actions) && AfterAll(actions) == c
    ensures c == Catalog([Idle()], [EditsModel("p")], map[], false)
  {
    var registered := START.(loaders := [Idle()]);
    assert AfterAll([]) == START && START.loaders + [Idle()] == [Idle()];
    AfterThen([], RegisterLoader);
    assert [] + [RegisterLoader] == [RegisterLoader];
    var edits, adds, d := MissedRebuild();
    c := registered.(plugins := [edits], listening := false);
    var a := PluginAdded(edits, []);
    assert After(registered, a) == c;
    AfterThen([RegisterLoader], a);
    actions := [RegisterLoader] + [a];
  }

  lemma ProviderLoaded() returns (actions: seq<Action>, c: Catalog)
    ensures Possible(actions) && AfterAll(actions) == c && !c.listening && c.records.Keys == {"p"}
    ensures var d := Rebuilt(c.loaders, c.plugins + [AddsProvider("q")]); d.Some? && "q" in d.value.records
    ensures Tame(AddsProvider("q"))
  {
    var before, edits, adds, d;
    edits, adds, d := MissedRebuild();
    actions, before := ListenerDies();
    c := Catalog([adds], [edits], d.records, false);
    assert before.loaders[0 := adds] == [adds] && [edits] + [AddsProvider("q")] == [edits, AddsProvider("q")];
    assert After(before, Load(0, adds)) == c;
    AfterThen(actions, Load(0, adds));
    actions := actions + [Load(0, adds)];
  }

  lemma MissedRebuild() returns (edits: Hook, adds: Hook, d: Draft)
    ensures edits == EditsModel("p") && adds == AddsProvider("p")
    ensures Tame(edits) && Tame(adds) && Tame(AddsProvider("q"))
    ensures RunHook(edits, Draft(map[], Listing(map[], []))).None?
    ensures Rebuilt([adds], [edits]) == Some(d) && d.records.Keys == {"p"}
    ensures var r := Rebuilt([adds], [edits, AddsProvider("q")]); r.Some? && "q" in r.value.records
  {
    edits, adds := EditsModel("p"), AddsProvider("p");
    EditingThrows("p");
    var one := OneProvider("p");
    d := OneProviderEdited("p");
    var e := QAdded(d);
    OneHook(adds, EMPTY);
    OneHook(edits, one);
    OneMoreHook([edits], AddsProvider("q"), one);
    assert [edits] + [AddsProvider("q")] == [edits, AddsProvider("q")];
  }

  lemma OneHook(h: Hook, d: Draft)
    ensures RunHooks([h], d) == RunHook(h, d)
  {
    OneMoreHook([], h, d);
    assert [] + [h] == [h];
  }

  lemma OneOp(d: Draft, op: Op)
    ensures Run(d, [op]) == Apply(d, op)
  {
    assert [op][..0] == [];
  }

  lemma EditingThrows(id: ProviderID)
    ensures RunHook(EditsModel(id), Draft(map[], Listing(map[], []))).None?
  {
    OneOp(Draft(map[], Listing(map[], [])), EditsModel(id).ops(map[])[0]);
  }

  lemma OneProvider(id: ProviderID) returns (d: Draft)
    ensures RunHook(AddsProvider(id), EMPTY) == Some(d) && d.records.Keys == {id}
    ensures d == Draft(map[id := Record(Provider(id, BLANK), map[])], [Record(Provider(id, BLANK), map[])])
  {
    OneOp(EMPTY, AddsProvider(id).ops(map[])[0]);
    d := RunHook(AddsProvider(id), EMPTY).value;
  }

  lemma OneProviderEdited(id: ProviderID) returns (d: Draft)
    ensures var one := Draft(map[id := Record(Provider(id, BLANK), map[])], [Record(Provider(id, BLANK), map[])]);
      RunHook(EditsModel(id), one) == Some(d)
    ensures d.records.Keys == {id}
  {
    var one := Draft(map[id := Record(Provider(id, BLANK), map[])], [Record(Provider(id, BLANK), map[])]);
    OneOp(one, EditsModel(id).ops(one.records)[0]);
    d := RunHook(EditsModel(id), one).value;
  }

  lemma QAdded(d: Draft) returns (e: Draft)
    ensures RunHook(AddsProvider("q"), d) == Some(e) && "q" in e.records
  {
    OneOp(d, AddsProvider("q").ops(d.records)[0]);
    e := RunHook(AddsProvider("q"), d).value;
  }

  lemma AfterThen(before: seq<Action>, a: Action)
    requires Allowed(AfterAll(before), a)
    ensures AfterAll(before + [a]) == After(AfterAll(before), a)
  {
    var actions := before + [a];
    assert actions[..|actions| - 1] == before && actions[|actions| - 1] == a;
  }
}
