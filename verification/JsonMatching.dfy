/** Matching recorded HTTP requests: comparing canonical forms on one side, listing differences on
    the other. */
module JsonMatching {
  import opened Wrappers

  datatype Json =
    | Null
    | Bool(b: bool)
    | Number(n: real)
    | Text(s: string)
    | Array(items: seq<Json>)
    | Object(fields: seq<Field>)

  /** A member of an object, in the order in which the object lists them. */
  datatype Field = Field(key: string, value: Json)

  // ---------------------------------------------------------------- keys and their order

  /** The default string order: by code units, a prefix first. */
  predicate Less(a: string, b: string) {
    if b == "" then false
    else if a == "" then true
    else a[0] < b[0] || (a[0] == b[0] && Less(a[1..], b[1..]))
  }

  lemma {:induction false} LessTotal(a: string, b: string)
    ensures Less(a, b) || a == b || Less(b, a)
    ensures !(Less(a, b) && Less(b, a)) && !Less(a, a)
  {
    if a != "" && b != "" {
      LessTotal(a[1..], b[1..]);
      assert a == [a[0]] + a[1..] && b == [b[0]] + b[1..];
    }
    if a != "" {
      LessTotal(a[1..], a[1..]);
    }
  }

  lemma {:induction false} LessTransitive(a: string, b: string, c: string)
    requires Less(a, b) && Less(b, c)
    ensures Less(a, c)
  {
    if a != "" && a[0] == b[0] == c[0] {
      LessTransitive(a[1..], b[1..], c[1..]);
    }
  }

  predicate Ascending(keys: seq<string>) {
    forall i, j :: 0 <= i < j < |keys| ==> Less(keys[i], keys[j])
  }

  function InsertKey(sorted: seq<string>, key: string): (r: seq<string>)
    ensures forall k :: k in r <==> k in sorted || k == key
    ensures |r| <= |sorted| + 1
  {
    if sorted == [] then [key]
    else if key == sorted[0] then sorted
    else if Less(key, sorted[0]) then [key] + sorted
    else [sorted[0]] + InsertKey(sorted[1..], key)
  }

  /** The keys without repetition, sorted. */
  function SortedKeys(keys: seq<string>): (r: seq<string>)
    ensures forall k :: k in r <==> k in keys
    ensures |r| <= |keys|
  {
    if keys == [] then [] else InsertKey(SortedKeys(keys[1..]), keys[0])
  }

  lemma {:induction false} InsertKeyAscends(sorted: seq<string>, key: string)
    requires Ascending(sorted)
    ensures Ascending(InsertKey(sorted, key))
  {
    if sorted == [] {
    } else {
      LessTotal(key, sorted[0]);
      if Less(key, sorted[0]) {
        forall i | 0 <= i < |sorted|
          ensures Less(key, sorted[i])
        {
          if i > 0 {
            LessTransitive(key, sorted[0], sorted[i]);
          }
        }
      } else if key != sorted[0] {
        InsertKeyAscends(sorted[1..], key);
        var rest := InsertKey(sorted[1..], key);
        forall i | 0 <= i < |rest|
          ensures Less(sorted[0], rest[i])
        {
          assert rest[i] in rest;
          assert rest[i] in sorted[1..] || rest[i] == key;
        }
      }
    }
  }

  lemma {:induction false} SortedKeysAscend(keys: seq<string>)
    ensures Ascending(SortedKeys(keys))
  {
    if keys == [] {
    } else {
      SortedKeysAscend(keys[1..]);
      InsertKeyAscends(SortedKeys(keys[1..]), keys[0]);
    }
  }

  lemma HeadIsLeast(a: seq<string>, b: seq<string>)
    requires a != [] && Ascending(a) && Ascending(b) && forall k :: k in a <==> k in b
    ensures b != [] && a[0] == b[0]
  {
    assert a[0] in b && b[0] in a;
    LessTotal(a[0], b[0]);
  }

  lemma NotInTail(a: seq<string>)
    requires a != [] && Ascending(a)
    ensures forall k :: k in a[1..] <==> k in a && k != a[0]
  {
    forall k | k in a[1..]
      ensures k in a && k != a[0]
    {
      var i :| 0 <= i < |a[1..]| && a[1..][i] == k;
      assert a[i + 1] == k;
      LessTotal(a[0], k);
    }
    assert a == [a[0]] + a[1..];
  }

  /** An ascending sequence is determined by its members. */
  lemma {:induction false} AscendingUnique(a: seq<string>, b: seq<string>)
    requires Ascending(a) && Ascending(b) && forall k :: k in a <==> k in b
    ensures a == b
  {
    if a == [] {
      FirstIsMember(b);
    } else {
      HeadIsLeast(a, b);
      NotInTail(a);
      NotInTail(b);
      AscendingUnique(a[1..], b[1..]);
      assert a == [a[0]] + a[1..] && b == [b[0]] + b[1..];
    }
  }

  lemma FirstIsMember(b: seq<string>)
    ensures b != [] ==> b[0] in b
  {
  }

  // ---------------------------------------------------------------- objects

  function Keys(fields: seq<Field>): (r: seq<string>)
    ensures |r| == |fields| && forall i :: 0 <= i < |r| ==> r[i] == fields[i].key
  {
    seq(|fields|, i requires 0 <= i < |fields| => fields[i].key)
  }

  predicate HasKey(fields: seq<Field>, key: string) { exists i :: 0 <= i < |fields| && fields[i].key == key }

  function IndexOf(fields: seq<Field>, key: string): (i: nat)
    requires HasKey(fields, key)
    ensures i < |fields| && fields[i].key == key
  {
    if fields[0].key == key then 0 else
    assert HasKey(fields[1..], key) by {
      var k :| 0 <= k < |fields| && fields[k].key == key;
      assert fields[1..][k - 1].key == key;
    }
    IndexOf(fields[1..], key) + 1
  }

  /** A parsed document lists every key of an object once. */
  predicate Parsed(j: Json) {
    match j
    case Array(items) => forall i :: 0 <= i < |items| ==> Parsed(items[i])
    case Object(fields) =>
      && (forall i, k :: 0 <= i < k < |fields| ==> fields[i].key != fields[k].key)
      && forall i :: 0 <= i < |fields| ==> Parsed(fields[i].value)
    case _ => true
  }

  /** Equality of documents: the order of the keys of an object does not matter, at any depth. */
  predicate SameJson(a: Json, b: Json)
    decreases a
  {
    match a
    case Array(items) =>
      b.Array? && |b.items| == |items| && forall i :: 0 <= i < |items| ==> SameJson(items[i], b.items[i])
    case Object(fields) =>
      && b.Object?
      && (forall k :: k in Keys(b.fields) ==> HasKey(fields, k))
      && forall i :: 0 <= i < |fields| ==>
           HasKey(b.fields, fields[i].key) &&
           SameJson(fields[i].value, b.fields[IndexOf(b.fields, fields[i].key)].value)
    case _ => a == b
  }

  // ---------------------------------------------------------------- canonical form

  function Canonical(j: Json): Json
    decreases j, if j.Object? then |SortedKeys(Keys(j.fields))| + 2 else 0
  {
    match j
    case Array(items) => Array(seq(|items|, i requires 0 <= i < |items| => Canonical(items[i])))
    case Object(fields) => Object(CanonicalFields(j, SortedKeys(Keys(fields))))
    case _ => j
  }

  function CanonicalFields(j: Json, keys: seq<string>): (r: seq<Field>)
    requires j.Object? && forall k :: k in keys ==> HasKey(j.fields, k)
    ensures |r| == |keys|
    ensures forall i :: 0 <= i < |keys| ==>
      r[i].key == keys[i] && r[i].value == Canonical(j.fields[IndexOf(j.fields, keys[i])].value)
    decreases j, |keys| + 1
  {
    if keys == [] then []
    else [Field(keys[0], Canonical(j.fields[IndexOf(j.fields, keys[0])].value))] + CanonicalFields(j, keys[1..])
  }

  lemma KeysAreHasKey(fields: seq<Field>)
    ensures forall k :: k in SortedKeys(Keys(fields)) <==> HasKey(fields, k)
  {
    forall k
      ensures k in Keys(fields) <==> HasKey(fields, k)
    {
      if HasKey(fields, k) {
        assert Keys(fields)[IndexOf(fields, k)] == k;
      }
    }
  }

  /** For every pair of members the values compare alike in both ways. */
  ghost predicate ValuesAgree(a: Json, b: Json)
    requires a.Object? && b.Object?
  {
    forall i, k :: 0 <= i < |a.fields| && 0 <= k < |b.fields| ==>
      (Canonical(a.fields[i].value) == Canonical(b.fields[k].value) <==> SameJson(a.fields[i].value, b.fields[k].value))
  }

  lemma SameObjectsKeys(a: Json, b: Json)
    requires a.Object? && b.Object? && SameJson(a, b)
    ensures SortedKeys(Keys(a.fields)) == SortedKeys(Keys(b.fields))
  {
    KeysAreHasKey(a.fields);
    KeysAreHasKey(b.fields);
    SortedKeysAscend(Keys(a.fields));
    SortedKeysAscend(Keys(b.fields));
    forall k
      ensures HasKey(a.fields, k) <==> HasKey(b.fields, k)
    {
      if HasKey(b.fields, k) {
        assert Keys(b.fields)[IndexOf(b.fields, k)] == k && k in Keys(b.fields);
      }
    }
    AscendingUnique(SortedKeys(Keys(a.fields)), SortedKeys(Keys(b.fields)));
  }

  lemma SameObjectsCanonical(a: Json, b: Json)
    requires a.Object? && b.Object? && ValuesAgree(a, b) && SameJson(a, b)
    ensures Canonical(a) == Canonical(b)
  {
    KeysAreHasKey(a.fields);
    KeysAreHasKey(b.fields);
    SameObjectsKeys(a, b);
    var keys := SortedKeys(Keys(a.fields));
    var ca, cb := CanonicalFields(a, keys), CanonicalFields(b, keys);
    forall i | 0 <= i < |keys|
      ensures ca[i] == cb[i]
    {
      assert keys[i] in keys;
      var at, bt := IndexOf(a.fields, keys[i]), IndexOf(b.fields, keys[i]);
      assert SameJson(a.fields[at].value, b.fields[bt].value);
    }
    assert ca == cb;
  }

  lemma CanonicalObjectsSame(a: Json, b: Json)
    requires a.Object? && b.Object? && ValuesAgree(a, b) && Parsed(a) && Canonical(a) == Canonical(b)
    ensures SameJson(a, b)
  {
    KeysAreHasKey(a.fields);
    KeysAreHasKey(b.fields);
    var ka, kb := SortedKeys(Keys(a.fields)), SortedKeys(Keys(b.fields));
    var ca, cb := CanonicalFields(a, ka), CanonicalFields(b, kb);
    assert ca == cb && |ka| == |kb|;
    forall i | 0 <= i < |ka|
      ensures ka[i] == kb[i]
    {
      assert ca[i].key == cb[i].key;
    }
    assert ka == kb;
    forall k | k in Keys(b.fields)
      ensures HasKey(a.fields, k)
    {
      assert k in kb;
    }
    forall i | 0 <= i < |a.fields|
      ensures HasKey(b.fields, a.fields[i].key)
      ensures SameJson(a.fields[i].value, b.fields[IndexOf(b.fields, a.fields[i].key)].value)
    {
      var k := a.fields[i].key;
      assert HasKey(a.fields, k) && k in ka && IndexOf(a.fields, k) == i;
      var p :| 0 <= p < |ka| && ka[p] == k;
      assert ca[p].value == cb[p].value;
    }
  }

  /** The comparison of canonical forms ignores key order, at every depth, and nothing else. */
  lemma {:induction false} CanonicalIff(a: Json, b: Json)
    requires Parsed(a) && Parsed(b)
    ensures Canonical(a) == Canonical(b) <==> SameJson(a, b)
    decreases a
  {
    if a.Array? && b.Array? {
      assert |Canonical(a).items| == |a.items| && |Canonical(b).items| == |b.items|;
      if |a.items| == |b.items| {
        forall i | 0 <= i < |a.items|
          ensures Canonical(a.items[i]) == Canonical(b.items[i]) <==> SameJson(a.items[i], b.items[i])
        {
          CanonicalIff(a.items[i], b.items[i]);
        }
        CanonicalItems(a, b);
      }
    } else if a.Object? && b.Object? {
      forall i, k | 0 <= i < |a.fields| && 0 <= k < |b.fields|
        ensures Canonical(a.fields[i].value) == Canonical(b.fields[k].value) <==>
          SameJson(a.fields[i].value, b.fields[k].value)
      {
        CanonicalIff(a.fields[i].value, b.fields[k].value);
      }
      if SameJson(a, b) {
        SameObjectsCanonical(a, b);
      } else if Canonical(a) == Canonical(b) {
        CanonicalObjectsSame(a, b);
      }
    }
  }

  lemma CanonicalItems(a: Json, b: Json)
    requires a.Array? && b.Array? && |a.items| == |b.items|
    ensures Canonical(a) == Canonical(b) <==>
      forall i :: 0 <= i < |a.items| ==> Canonical(a.items[i]) == Canonical(b.items[i])
  {
    if Canonical(a) == Canonical(b) {
      forall i | 0 <= i < |a.items|
        ensures Canonical(a.items[i]) == Canonical(b.items[i])
      {
        assert Canonical(a).items[i] == Canonical(b).items[i];
      }
    }
  }

  // ---------------------------------------------------------------- values as the diff sees them

  /** Reading a key that an object does not have finds what every object inherits: nothing, a
      function, or, under `__proto__`, the shared prototype object, which has no keys of its own. */
  datatype Js = Value(j: Json) | Undefined | Inherited | Prototype

  const PROTO: string := "__proto__"

  const INHERITED: set<string> := {
    "constructor", "toString", "toLocaleString", "valueOf", "hasOwnProperty", "isPrototypeOf", "propertyIsEnumerable",
    "__defineGetter__", "__defineSetter__", "__lookupGetter__", "__lookupSetter__" }

  predicate IsRecord(v: Js) { v.Prototype? || (v.Value? && v.j.Object?) }

  predicate IsArray(v: Js) { v.Value? && v.j.Array? }

  function OwnKeys(v: Js): seq<string> {
    if v.Value? && v.j.Object? then Keys(v.j.fields) else []
  }

  function Get(v: Js, key: string): Js
    requires IsRecord(v)
  {
    if v.Value? && HasKey(v.j.fields, key) then Value(v.j.fields[IndexOf(v.j.fields, key)].value)
    else if key in INHERITED then Inherited
    else if key != PROTO then Undefined
    else if v.Value? then Prototype
    else Value(Null)
  }

  function Length(v: Js): nat { if IsArray(v) then |v.j.items| else 0 }

  function At(v: Js, i: nat): Js
    requires IsArray(v)
  {
    if i < |v.j.items| then Value(v.j.items[i]) else Undefined
  }

  // How deep a value can be taken apart.

  function Size(j: Json): nat
    decreases j, 1
  {
    match j
    case Array(items) => 3 + ItemsSize(items)
    case Object(fields) => 3 + FieldsSize(fields)
    case _ => 1
  }

  function ItemsSize(items: seq<Json>): nat
    decreases items, 0
  {
    if items == [] then 0 else Size(items[0]) + ItemsSize(items[1..])
  }

  function FieldsSize(fields: seq<Field>): nat
    decreases fields, 0
  {
    if fields == [] then 0 else Size(fields[0].value) + FieldsSize(fields[1..])
  }

  function JsSize(v: Js): nat {
    match v case Value(j) => Size(j) case Undefined => 0 case Inherited => 0 case Prototype => 2
  }

  lemma {:induction false} ItemSize(items: seq<Json>, i: nat)
    requires i < |items|
    ensures Size(items[i]) <= ItemsSize(items)
  {
    if i == 0 {
    } else {
      ItemSize(items[1..], i - 1);
    }
  }

  lemma {:induction false} FieldSize(fields: seq<Field>, i: nat)
    requires i < |fields|
    ensures Size(fields[i].value) <= FieldsSize(fields)
  {
    if i == 0 {
    } else {
      FieldSize(fields[1..], i - 1);
    }
  }

  lemma GetSize(v: Js, key: string)
    requires IsRecord(v)
    ensures JsSize(Get(v, key)) < JsSize(v)
  {
    if v.Value? && HasKey(v.j.fields, key) {
      FieldSize(v.j.fields, IndexOf(v.j.fields, key));
    }
  }

  lemma AtSize(v: Js, i: nat)
    requires IsArray(v)
    ensures JsSize(At(v, i)) < JsSize(v)
  {
    if i < |v.j.items| {
      ItemSize(v.j.items, i);
    }
  }

  // ---------------------------------------------------------------- the diff

  datatype PathStep = Member(key: string) | Index(i: nat)

  /** One reported difference: where, and the two values. */
  datatype Line = Line(path: seq<PathStep>, expected: Js, received: Js)

  /** `Object.is` on two documents that were parsed separately: only primitives are identical. */
  predicate Identical(e: Js, r: Js) { e == r && !IsRecord(e) && !IsArray(e) }

  function UnionKeys(e: Js, r: Js): seq<string> { SortedKeys(OwnKeys(e) + OwnKeys(r)) }

  function Slice(lines: seq<Line>, limit: nat): seq<Line> { if |lines| <= limit then lines else lines[..limit] }

  function ValueDiffs(e: Js, r: Js, base: seq<PathStep>, limit: nat): seq<Line>
    decreases JsSize(e) + JsSize(r), |OwnKeys(e)| + |OwnKeys(r)| + Length(e) + Length(r) + 1
  {
    if Identical(e, r) then []
    else if IsRecord(e) && IsRecord(r) then Slice(MemberDiffs(e, r, UnionKeys(e, r), base, limit), limit)
    else if IsArray(e) && IsArray(r) then Slice(ItemDiffs(e, r, 0, base, limit), limit)
    else [Line(base, e, r)]
  }

  function MemberDiffs(e: Js, r: Js, keys: seq<string>, base: seq<PathStep>, limit: nat): seq<Line>
    requires IsRecord(e) && IsRecord(r)
    decreases JsSize(e) + JsSize(r), |keys|
  {
    if keys == [] then [] else
    GetSize(e, keys[0]);
    GetSize(r, keys[0]);
    ValueDiffs(Get(e, keys[0]), Get(r, keys[0]), base + [Member(keys[0])], limit)
      + MemberDiffs(e, r, keys[1..], base, limit)
  }

  function ItemDiffs(e: Js, r: Js, i: nat, base: seq<PathStep>, limit: nat): seq<Line>
    requires IsArray(e) && IsArray(r)
    decreases JsSize(e) + JsSize(r), Length(e) + Length(r) - i
  {
    if i >= Length(e) && i >= Length(r) then [] else
    AtSize(e, i);
    AtSize(r, i);
    ValueDiffs(At(e, i), At(r, i), base + [Index(i)], limit) + ItemDiffs(e, r, i + 1, base, limit)
  }

  /** Never more lines than asked for. */
  lemma DiffsWithinLimit(e: Js, r: Js, base: seq<PathStep>, limit: nat)
    requires limit >= 1
    ensures |ValueDiffs(e, r, base, limit)| <= limit
  {
  }

  /** The diff finds nothing under this key. */
  predicate SameAt(e: Js, r: Js, k: string, base: seq<PathStep>, limit: nat)
    requires IsRecord(e) && IsRecord(r)
  {
    ValueDiffs(Get(e, k), Get(r, k), base + [Member(k)], limit) == []
  }

  lemma {:induction false} NoMemberDiffs(e: Js, r: Js, keys: seq<string>, base: seq<PathStep>, limit: nat)
    requires IsRecord(e) && IsRecord(r)
    ensures MemberDiffs(e, r, keys, base, limit) == [] <==> forall k :: k in keys ==> SameAt(e, r, k, base, limit)
    decreases |keys|
  {
    if keys == [] {
    } else {
      NoMemberDiffs(e, r, keys[1..], base, limit);
      assert keys == [keys[0]] + keys[1..];
      assert MemberDiffs(e, r, keys, base, limit) == [] <==>
        SameAt(e, r, keys[0], base, limit) && MemberDiffs(e, r, keys[1..], base, limit) == [];
    }
  }

  lemma RecordDiffs(e: Js, r: Js, base: seq<PathStep>, limit: nat)
    requires IsRecord(e) && IsRecord(r) && limit >= 1
    ensures ValueDiffs(e, r, base, limit) == [] <==>
      forall k :: k in UnionKeys(e, r) ==> SameAt(e, r, k, base, limit)
  {
    NoMemberDiffs(e, r, UnionKeys(e, r), base, limit);
  }

  lemma {:induction false} NoItemDiffs(e: Js, r: Js, i: nat, base: seq<PathStep>, limit: nat)
    requires IsArray(e) && IsArray(r)
    ensures ItemDiffs(e, r, i, base, limit) == [] <==>
      forall k :: i <= k && (k < Length(e) || k < Length(r)) ==>
        ValueDiffs(At(e, k), At(r, k), base + [Index(k)], limit) == []
    decreases Length(e) + Length(r) - i
  {
    if i >= Length(e) && i >= Length(r) {
    } else {
      NoItemDiffs(e, r, i + 1, base, limit);
    }
  }

  /** The value at the end of a path. */
  function Resolve(v: Js, path: seq<PathStep>): Option<Js>
    decreases |path|
  {
    if path == [] then Some(v) else
    match path[0]
    case Member(key) => if IsRecord(v) then Resolve(Get(v, key), path[1..]) else None
    case Index(i) => if IsArray(v) then Resolve(At(v, i), path[1..]) else None
  }

  lemma {:induction false} ResolveStep(v: Js, path: seq<PathStep>, step: PathStep, at: Js)
    requires Resolve(v, path) == Some(at)
    ensures step.Member? && IsRecord(at) ==> Resolve(v, path + [step]) == Some(Get(at, step.key))
    ensures step.Index? && IsArray(at) ==> Resolve(v, path + [step]) == Some(At(at, step.i))
    decreases |path|
  {
    if path == [] {
      assert path + [step] == [step] && [step][1..] == [];
    } else {
      assert (path + [step])[1..] == path[1..] + [step];
      ResolveStep(match path[0] case Member(key) => Get(v, key) case Index(i) => At(v, i), path[1..], step, at);
    }
  }

  /** The line is about two different values, found at its path in the two documents. */
  predicate IsReal(e0: Js, r0: Js, l: Line) {
    Resolve(e0, l.path) == Some(l.expected) && Resolve(r0, l.path) == Some(l.received) && l.expected != l.received
  }

  /** Every line reports a real difference. */
  lemma {:induction false} DiffsAreReal(e0: Js, r0: Js, e: Js, r: Js, base: seq<PathStep>, limit: nat)
    requires Resolve(e0, base) == Some(e) && Resolve(r0, base) == Some(r)
    ensures forall l :: l in ValueDiffs(e, r, base, limit) ==> IsReal(e0, r0, l)
    decreases JsSize(e) + JsSize(r), |OwnKeys(e)| + |OwnKeys(r)| + Length(e) + Length(r) + 1
  {
    if IsRecord(e) && IsRecord(r) {
      MemberDiffsAreReal(e0, r0, e, r, UnionKeys(e, r), base, limit);
    } else if IsArray(e) && IsArray(r) {
      ItemDiffsAreReal(e0, r0, e, r, 0, base, limit);
    }
  }

  lemma {:induction false} MemberDiffsAreReal(e0: Js, r0: Js, e: Js, r: Js, keys: seq<string>, base: seq<PathStep>,
                                              limit: nat)
    requires Resolve(e0, base) == Some(e) && Resolve(r0, base) == Some(r) && IsRecord(e) && IsRecord(r)
    ensures forall l :: l in MemberDiffs(e, r, keys, base, limit) ==> IsReal(e0, r0, l)
    decreases JsSize(e) + JsSize(r), |keys|
  {
    if keys == [] {
    } else {
      GetSize(e, keys[0]);
      GetSize(r, keys[0]);
      ResolveStep(e0, base, Member(keys[0]), e);
      ResolveStep(r0, base, Member(keys[0]), r);
      DiffsAreReal(e0, r0, Get(e, keys[0]), Get(r, keys[0]), base + [Member(keys[0])], limit);
      MemberDiffsAreReal(e0, r0, e, r, keys[1..], base, limit);
    }
  }

  lemma {:induction false} ItemDiffsAreReal(e0: Js, r0: Js, e: Js, r: Js, i: nat, base: seq<PathStep>, limit: nat)
    requires Resolve(e0, base) == Some(e) && Resolve(r0, base) == Some(r) && IsArray(e) && IsArray(r)
    ensures forall l :: l in ItemDiffs(e, r, i, base, limit) ==> IsReal(e0, r0, l)
    decreases JsSize(e) + JsSize(r), Length(e) + Length(r) - i
  {
    if i >= Length(e) && i >= Length(r) {
    } else {
      AtSize(e, i);
      AtSize(r, i);
      ResolveStep(e0, base, Index(i), e);
      ResolveStep(r0, base, Index(i), r);
      DiffsAreReal(e0, r0, At(e, i), At(r, i), base + [Index(i)], limit);
      ItemDiffsAreReal(e0, r0, e, r, i + 1, base, limit);
    }
  }

  // ---------------------------------------------------------------- what the diff can tell apart

  /** A value that the diff cannot tell from the shared prototype object. */
  predicate Phantom(v: Json) {
    v.Object? && forall i :: 0 <= i < |v.fields| ==> v.fields[i] == Field(PROTO, Null)
  }

  /** Equality up to key order, except that a phantom under `__proto__` counts as absent where the
      other side has no such key. */
  predicate Alike(a: Json, b: Json)
    decreases a
  {
    match a
    case Array(items) =>
      b.Array? && |b.items| == |items| && forall i :: 0 <= i < |items| ==> Alike(items[i], b.items[i])
    case Object(fields) =>
      && b.Object?
      && (forall k :: k in Keys(b.fields) ==>
            HasKey(fields, k) || (k == PROTO && Phantom(b.fields[IndexOf(b.fields, k)].value)))
      && (forall k :: k in Keys(fields) ==>
            HasKey(b.fields, k) || (k == PROTO && Phantom(fields[IndexOf(fields, k)].value)))
      && forall i :: 0 <= i < |fields| && HasKey(b.fields, fields[i].key) && IndexOf(fields, fields[i].key) == i ==>
           Alike(fields[i].value, b.fields[IndexOf(b.fields, fields[i].key)].value)
    case _ => a == b
  }

  /** The object has a `__proto__` of null under this key, if any. */
  predicate NullProto(v: Json, k: string)
    requires v.Object?
  {
    HasKey(v.fields, k) && k == PROTO && v.fields[IndexOf(v.fields, k)].value == Null
  }

  /** Against the prototype every own member shows, but for a `__proto__` of null. */
  lemma PrototypeMember(v: Json, k: string, base: seq<PathStep>, limit: nat)
    requires v.Object? && HasKey(v.fields, k)
    ensures SameAt(Prototype, Value(v), k, base, limit) <==> NullProto(v, k)
    ensures SameAt(Value(v), Prototype, k, base, limit) <==> NullProto(v, k)
  {
  }

  lemma PrototypeDiffs(v: Json, base: seq<PathStep>, limit: nat)
    requires Parsed(v) && v.Object? && limit >= 1
    ensures ValueDiffs(Prototype, Value(v), base, limit) == [] <==> Phantom(v)
    ensures ValueDiffs(Value(v), Prototype, base, limit) == [] <==> Phantom(v)
  {
    assert OwnKeys(Prototype) + Keys(v.fields) == Keys(v.fields) == Keys(v.fields) + OwnKeys(Prototype);
    RecordDiffs(Prototype, Value(v), base, limit);
    RecordDiffs(Value(v), Prototype, base, limit);
    PhantomKeys(v);
    forall k | k in SortedKeys(Keys(v.fields))
      ensures SameAt(Prototype, Value(v), k, base, limit) <==> NullProto(v, k)
      ensures SameAt(Value(v), Prototype, k, base, limit) <==> NullProto(v, k)
    {
      KeysAreHasKey(v.fields);
      PrototypeMember(v, k, base, limit);
    }
  }

  /** Reading a key one side lacks: only a phantom under `__proto__` goes unnoticed. */
  lemma AbsentDiffs(v: Json, base: seq<PathStep>, limit: nat, missing: Js)
    requires Parsed(v) && limit >= 1 && !missing.Value?
    ensures ValueDiffs(missing, Value(v), base, limit) == [] <==> missing.Prototype? && Phantom(v)
    ensures ValueDiffs(Value(v), missing, base, limit) == [] <==> missing.Prototype? && Phantom(v)
  {
    if !missing.Prototype? {
    } else if v.Object? {
      PrototypeDiffs(v, base, limit);
    }
  }

  lemma PhantomKeys(v: Json)
    requires Parsed(v) && v.Object?
    ensures Phantom(v) <==> forall k :: k in SortedKeys(Keys(v.fields)) ==> NullProto(v, k)
  {
    KeysAreHasKey(v.fields);
    forall i | 0 <= i < |v.fields|
      ensures v.fields[i].key in SortedKeys(Keys(v.fields)) && IndexOf(v.fields, v.fields[i].key) == i
      ensures NullProto(v, v.fields[i].key) <==> v.fields[i] == Field(PROTO, Null)
    {
      assert HasKey(v.fields, v.fields[i].key);
    }
  }

  /** The diff of two documents is empty exactly when they are alike. */
  lemma {:induction false} DiffsIff(a: Json, b: Json, base: seq<PathStep>, limit: nat)
    requires Parsed(a) && Parsed(b) && limit >= 1
    ensures ValueDiffs(Value(a), Value(b), base, limit) == [] <==> Alike(a, b)
    decreases a
  {
    if a.Array? && b.Array? {
      NoItemDiffs(Value(a), Value(b), 0, base, limit);
      forall i | 0 <= i < |a.items| && i < |b.items|
        ensures ValueDiffs(Value(a.items[i]), Value(b.items[i]), base + [Index(i)], limit) == [] <==>
          Alike(a.items[i], b.items[i])
      {
        DiffsIff(a.items[i], b.items[i], base + [Index(i)], limit);
      }
      ArrayDiffs(a, b, base, limit);
    } else if a.Object? && b.Object? {
      forall k | k in UnionKeys(Value(a), Value(b))
        ensures SameAt(Value(a), Value(b), k, base, limit) <==> MemberAlike(a, b, k)
      {
        if HasKey(a.fields, k) && HasKey(b.fields, k) {
          DiffsIff(a.fields[IndexOf(a.fields, k)].value, b.fields[IndexOf(b.fields, k)].value, base + [Member(k)],
                   limit);
        } else {
          OneSidedMember(a, b, k, base + [Member(k)], limit);
        }
      }
      ObjectDiffs(a, b, base, limit);
    }
  }

  lemma ObjectDiffs(a: Json, b: Json, base: seq<PathStep>, limit: nat)
    requires a.Object? && b.Object? && Parsed(a) && limit >= 1
    requires forall k :: k in UnionKeys(Value(a), Value(b)) && (HasKey(a.fields, k) || HasKey(b.fields, k)) ==>
      (SameAt(Value(a), Value(b), k, base, limit) <==> MemberAlike(a, b, k))
    ensures ValueDiffs(Value(a), Value(b), base, limit) == [] <==> Alike(a, b)
  {
    RecordDiffs(Value(a), Value(b), base, limit);
  }

  lemma ArrayDiffs(a: Json, b: Json, base: seq<PathStep>, limit: nat)
    requires a.Array? && b.Array? && limit >= 1 && Parsed(a) && Parsed(b)
    requires forall i :: 0 <= i < |a.items| && i < |b.items| ==>
      (ValueDiffs(Value(a.items[i]), Value(b.items[i]), base + [Index(i)], limit) == [] <==>
        Alike(a.items[i], b.items[i]))
    ensures ValueDiffs(Value(a), Value(b), base, limit) == [] <==> Alike(a, b)
  {
    NoItemDiffs(Value(a), Value(b), 0, base, limit);
    var n, m := |a.items|, |b.items|;
    if n < m {
      AbsentDiffs(b.items[n], base + [Index(n)], limit, Undefined);
      assert At(Value(a), n) == Undefined && At(Value(b), n) == Value(b.items[n]);
    } else if m < n {
      AbsentDiffs(a.items[m], base + [Index(m)], limit, Undefined);
      assert At(Value(b), m) == Undefined && At(Value(a), m) == Value(a.items[m]);
    }
  }

  /** Alike at one key that some side has. */
  predicate MemberAlike(a: Json, b: Json, k: string)
    requires a.Object? && b.Object? && (HasKey(a.fields, k) || HasKey(b.fields, k))
  {
    if HasKey(a.fields, k) && HasKey(b.fields, k)
    then Alike(a.fields[IndexOf(a.fields, k)].value, b.fields[IndexOf(b.fields, k)].value)
    else k == PROTO && Phantom(if HasKey(a.fields, k) then a.fields[IndexOf(a.fields, k)].value
                               else b.fields[IndexOf(b.fields, k)].value)
  }

  lemma OneSidedMember(a: Json, b: Json, k: string, base: seq<PathStep>, limit: nat)
    requires a.Object? && b.Object? && Parsed(a) && Parsed(b) && limit >= 1
    requires HasKey(a.fields, k) != HasKey(b.fields, k)
    ensures ValueDiffs(Get(Value(a), k), Get(Value(b), k), base, limit) == [] <==> MemberAlike(a, b, k)
  {
    if HasKey(a.fields, k) {
      AbsentDiffs(a.fields[IndexOf(a.fields, k)].value, base, limit, Get(Value(b), k));
    } else {
      AbsentDiffs(b.fields[IndexOf(b.fields, k)].value, base, limit, Get(Value(a), k));
    }
  }

  // ---------------------------------------------------------------- when the two comparisons agree

  /** No object of the document has a member that the diff may overlook. */
  predicate NoPhantoms(j: Json) {
    match j
    case Array(items) => forall i :: 0 <= i < |items| ==> NoPhantoms(items[i])
    case Object(fields) =>
      forall i :: 0 <= i < |fields| ==>
        NoPhantoms(fields[i].value) && !(fields[i].key == PROTO && Phantom(fields[i].value))
    case _ => true
  }

  /** Equal documents are always alike; and without phantoms alike documents are equal. */
  lemma {:induction false} AlikeIffSame(a: Json, b: Json)
    requires Parsed(a) && Parsed(b)
    ensures SameJson(a, b) ==> Alike(a, b)
    ensures Alike(a, b) && NoPhantoms(a) && NoPhantoms(b) ==> SameJson(a, b)
    decreases a
  {
    if a.Array? && b.Array? {
      forall i | 0 <= i < |a.items| && i < |b.items|
        ensures SameJson(a.items[i], b.items[i]) ==> Alike(a.items[i], b.items[i])
        ensures Alike(a.items[i], b.items[i]) && NoPhantoms(a.items[i]) && NoPhantoms(b.items[i]) ==>
          SameJson(a.items[i], b.items[i])
      {
        AlikeIffSame(a.items[i], b.items[i]);
      }
    } else if a.Object? && b.Object? {
      KeysAreHasKey(a.fields);
      KeysAreHasKey(b.fields);
      forall i, k | 0 <= i < |a.fields| && 0 <= k < |b.fields|
        ensures SameJson(a.fields[i].value, b.fields[k].value) ==> Alike(a.fields[i].value, b.fields[k].value)
        ensures Alike(a.fields[i].value, b.fields[k].value) && NoPhantoms(a) && NoPhantoms(b) ==>
          SameJson(a.fields[i].value, b.fields[k].value)
      {
        AlikeIffSame(a.fields[i].value, b.fields[k].value);
      }
      AlikeObjectsSame(a, b);
    }
  }

  lemma AlikeObjectsSame(a: Json, b: Json)
    requires a.Object? && b.Object? && Parsed(a) && Parsed(b)
    requires forall i, k :: 0 <= i < |a.fields| && 0 <= k < |b.fields| ==>
      && (SameJson(a.fields[i].value, b.fields[k].value) ==> Alike(a.fields[i].value, b.fields[k].value))
      && (Alike(a.fields[i].value, b.fields[k].value) && NoPhantoms(a) && NoPhantoms(b) ==>
            SameJson(a.fields[i].value, b.fields[k].value))
    ensures SameJson(a, b) ==> Alike(a, b)
    ensures Alike(a, b) && NoPhantoms(a) && NoPhantoms(b) ==> SameJson(a, b)
  {
    forall k
      ensures k in Keys(a.fields) <==> HasKey(a.fields, k)
      ensures k in Keys(b.fields) <==> HasKey(b.fields, k)
    {
      KeysAreHasKey(a.fields);
      KeysAreHasKey(b.fields);
    }
    forall i | 0 <= i < |a.fields|
      ensures HasKey(a.fields, a.fields[i].key) && IndexOf(a.fields, a.fields[i].key) == i
    {
    }
  }

  /** For documents without phantoms the diff is empty exactly on equal documents. */
  lemma DiffsEmptyIffSame(a: Json, b: Json, base: seq<PathStep>, limit: nat)
    requires Parsed(a) && Parsed(b) && limit >= 1 && NoPhantoms(a) && NoPhantoms(b)
    ensures ValueDiffs(Value(a), Value(b), base, limit) == [] <==> SameJson(a, b)
  {
    DiffsIff(a, b, base, limit);
    AlikeIffSame(a, b);
  }

  // ---------------------------------------------------------------- requests

  /** Headers are a record of strings; a body is text that may be a document. */
  datatype Snapshot = Snapshot(method_: string, url: string, headers: map<string, string>, body: string)

  /** Parsing, whatever it accepts; what it returns lists every key once. */
  type Parser = string -> Option<Json>

  ghost predicate IsParser(parse: Parser) {
    forall body :: parse(body).Some? ==> Parsed(parse(body).value)
  }

  /** What is serialized and compared: the canonical document, or the text of a body that is none. */
  datatype CanonicalSnapshot = CanonicalSnapshot(method_: string, url: string, headers: map<string, string>, body: Json)

  function CanonicalOf(parse: Parser, s: Snapshot): CanonicalSnapshot {
    CanonicalSnapshot(s.method_, s.url, s.headers,
      match parse(s.body) case None => Text(s.body) case Some(j) => Canonical(j))
  }

  predicate Matches(parse: Parser, incoming: Snapshot, recorded: Snapshot) {
    CanonicalOf(parse, incoming) == CanonicalOf(parse, recorded)
  }

  datatype Report =
    | MethodDiffers | UrlDiffers | HeaderDiffers(key: string) | BodyDiffers(line: Line) | BodyTextDiffers

  function HeaderDiffs(expected: map<string, string>, received: map<string, string>, keys: seq<string>): seq<Report> {
    if keys == [] then []
    else
      var k := keys[0];
      (if k in expected && k in received && expected[k] == received[k] then [] else [HeaderDiffers(k)])
        + HeaderDiffs(expected, received, keys[1..])
  }

  lemma {:induction false} NoHeaderDiffs(expected: map<string, string>, received: map<string, string>,
                                         keys: seq<string>)
    ensures HeaderDiffs(expected, received, keys) == [] <==>
      forall k :: k in keys ==> k in expected && k in received && expected[k] == received[k]
  {
    if keys == [] {
    } else {
      NoHeaderDiffs(expected, received, keys[1..]);
      assert keys == [keys[0]] + keys[1..];
    }
  }

  /** The lines of a request diff, and nothing for what agrees. `keys` are the sorted header names. */
  method RequestDiff(parse: Parser, expected: Snapshot, received: Snapshot, keys: seq<string>)
    returns (lines: seq<Report>)
    requires IsParser(parse)
    requires forall k :: k in keys <==> k in expected.headers || k in received.headers
    ensures MethodDiffers in lines <==> expected.method_ != received.method_
    ensures UrlDiffers in lines <==> expected.url != received.url
    ensures forall k :: HeaderDiffers(k) in lines ==>
      !(k in expected.headers && k in received.headers && expected.headers[k] == received.headers[k])
    ensures forall l :: BodyDiffers(l) in lines ==>
      && parse(expected.body).Some? && parse(received.body).Some?
      && IsReal(Value(parse(expected.body).value), Value(parse(received.body).value), l)
    ensures lines == [] <==> Undistinguished(parse, expected, received)
  {
    lines := [];
    if expected.method_ != received.method_ {
      lines := lines + [MethodDiffers];
    }
    if expected.url != received.url {
      lines := lines + [UrlDiffers];
    }
    lines := lines + FirstEight(HeaderDiffs(expected.headers, received.headers, keys));
    FirstEightHeaders(expected.headers, received.headers, keys);
    var body := BodyDiff(parse, expected.body, received.body);
    lines := lines + body;
  }

  function FirstEight(lines: seq<Report>): seq<Report> { if |lines| <= 8 then lines else lines[..8] }

  lemma FirstEightHeaders(expected: map<string, string>, received: map<string, string>, keys: seq<string>)
    requires forall k :: k in keys <==> k in expected || k in received
    ensures FirstEight(HeaderDiffs(expected, received, keys)) == [] <==> expected == received
    ensures forall l :: l in FirstEight(HeaderDiffs(expected, received, keys)) ==>
      l.HeaderDiffers? && !(l.key in expected && l.key in received && expected[l.key] == received[l.key])
  {
    NoHeaderDiffs(expected, received, keys);
    HeaderDiffsAreHeaders(expected, received, keys);
  }

  /** The part of a request diff that is about the bodies. */
  method BodyDiff(parse: Parser, expected: string, received: string) returns (lines: seq<Report>)
    requires IsParser(parse)
    ensures forall l :: l in lines ==> l.BodyDiffers? || l.BodyTextDiffers?
    ensures forall l :: BodyDiffers(l) in lines ==>
      && parse(expected).Some? && parse(received).Some?
      && IsReal(Value(parse(expected).value), Value(parse(received).value), l)
    ensures lines == [] <==> SameBodies(parse, expected, received)
  {
    var e, r := parse(expected), parse(received);
    if e.Some? && r.Some? {
      var diffs := ValueDiffs(Value(e.value), Value(r.value), [], 8);
      DiffsIff(e.value, r.value, [], 8);
      DiffsAreReal(Value(e.value), Value(r.value), Value(e.value), Value(r.value), [], 8);
      lines := seq(|diffs|, i requires 0 <= i < |diffs| => BodyDiffers(diffs[i]));
    } else if expected != received {
      lines := [BodyTextDiffers];
    } else {
      lines := [];
    }
  }

  lemma {:induction false} HeaderDiffsAreHeaders(expected: map<string, string>, received: map<string, string>,
                                                 keys: seq<string>)
    ensures forall l :: l in HeaderDiffs(expected, received, keys) ==>
      l.HeaderDiffers? && !(l.key in expected && l.key in received && expected[l.key] == received[l.key])
  {
    if keys == [] {
    } else {
      HeaderDiffsAreHeaders(expected, received, keys[1..]);
    }
  }

  /** The request diff has nothing to say about this pair. */
  ghost predicate Undistinguished(parse: Parser, expected: Snapshot, received: Snapshot) {
    && expected.method_ == received.method_
    && expected.url == received.url
    && expected.headers == received.headers
    && SameBodies(parse, expected.body, received.body)
  }

  ghost predicate SameBodies(parse: Parser, expected: string, received: string) {
    var e, r := parse(expected), parse(received);
    if e.Some? && r.Some? then Alike(e.value, r.value) else expected == received
  }

  /** The matcher accepts exactly the pairs that agree in method, url and headers and whose bodies are
      equal documents, equal texts, or a text and the document of just that text. */
  lemma MatchesIff(parse: Parser, a: Snapshot, b: Snapshot)
    requires IsParser(parse)
    ensures Matches(parse, a, b) <==>
      && a.method_ == b.method_ && a.url == b.url && a.headers == b.headers
      && match (parse(a.body), parse(b.body))
         case (Some(x), Some(y)) => SameJson(x, y)
         case (None, None) => a.body == b.body
         case (Some(x), None) => x == Text(b.body)
         case (None, Some(y)) => y == Text(a.body)
  {
    if parse(a.body).Some? && parse(b.body).Some? {
      CanonicalIff(parse(a.body).value, parse(b.body).value);
    }
  }

  /** A rejected pair is left unexplained exactly when it differs only in phantoms of its bodies. */
  lemma RejectedUnexplainedIff(parse: Parser, expected: Snapshot, received: Snapshot)
    requires IsParser(parse)
    ensures !Matches(parse, received, expected) && Undistinguished(parse, expected, received) <==>
      && expected.method_ == received.method_ && expected.url == received.url && expected.headers == received.headers
      && parse(expected.body).Some? && parse(received.body).Some?
      && Alike(parse(expected.body).value, parse(received.body).value)
      && !SameJson(parse(expected.body).value, parse(received.body).value)
  {
    MatchesIff(parse, received, expected);
    var e, r := parse(expected.body), parse(received.body);
    if e.Some? && r.Some? {
      CanonicalIff(e.value, r.value);
      CanonicalIff(r.value, e.value);
    }
  }

  /** So every rejection is explained when neither body has a phantom. */
  lemma RejectedIsExplained(parse: Parser, expected: Snapshot, received: Snapshot)
    requires IsParser(parse) && !Matches(parse, received, expected)
    requires parse(expected.body).Some? ==> NoPhantoms(parse(expected.body).value)
    requires parse(received.body).Some? ==> NoPhantoms(parse(received.body).value)
    ensures !Undistinguished(parse, expected, received)
  {
    RejectedUnexplainedIff(parse, expected, received);
    if parse(expected.body).Some? && parse(received.body).Some? {
      AlikeIffSame(parse(expected.body).value, parse(received.body).value);
    }
  }

  /** And one is not: `{}` against `{"__proto__": {}}` is rejected with nothing to show for it. */
  lemma PhantomIsUnexplained()
    ensures var a, b := Object([]), Object([Field(PROTO, Object([]))]);
      && Parsed(a) && Parsed(b) && !SameJson(a, b) && Canonical(a) != Canonical(b)
      && ValueDiffs(Value(a), Value(b), [], 8) == []
  {
    var a, b := Object([]), Object([Field(PROTO, Object([]))]);
    assert Keys(b.fields)[0] == PROTO && HasKey(b.fields, PROTO) && !HasKey(a.fields, PROTO);
    assert Phantom(b.fields[IndexOf(b.fields, PROTO)].value);
    CanonicalIff(a, b);
    DiffsIff(a, b, [], 8);
  }

  /** The two requests: alike but for these bodies, for any parser that reads them as those documents. */
  method PhantomRequestIsUnexplained(parse: Parser, a: Snapshot, b: Snapshot, keys: seq<string>)
    returns (lines: seq<Report>)
    requires IsParser(parse) && b == a.(body := b.body)
    requires parse(a.body) == Some(Object([]))
    requires parse(b.body) == Some(Object([Field(PROTO, Object([]))]))
    requires forall k :: k in keys <==> k in a.headers
    ensures lines == [] && !Matches(parse, b, a)
  {
    PhantomIsUnexplained();
    MatchesIff(parse, b, a);
    CanonicalIff(parse(a.body).value, parse(b.body).value);
    CanonicalIff(parse(b.body).value, parse(a.body).value);
    DiffsIff(parse(a.body).value, parse(b.body).value, [], 8);
    lines := RequestDiff(parse, a, b, keys);
  }
}
