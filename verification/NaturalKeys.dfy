/** Aggregates, their types and their natural keys, as the memory engine indexes them. */
module NaturalKeys {
  import opened Wrappers
  import opened Records

  /** `keyOf` has an entry for every aggregate, None for those without a key. */
  datatype KeyIndex = KeyIndex(count: int, byKey: map<string, int>, keyOf: map<int, Option<string>>,
                               typeOf: map<int, int>)

  const EMPTY_INDEX := KeyIndex(0, map[], map[], map[])

  datatype KeyOp =
    | Create(typeId: int)
    | CreateWithKey(typeId: int, key: string)
    | ChangeKey(id: int, key: string)
    | GetOrCreate(typeId: int, key: string)

  // `NilKey` is the nil pointer that ChangeKey follows on an aggregate without a key.
  datatype KeyResult = Id(id: int, created: bool) | Changed | TooLong | Duplicate | NoAggregate | TypeMismatch | NilKey

  function Added(k: KeyIndex, typeId: int, key: Option<string>): KeyIndex {
    var id := k.count + 1;
    KeyIndex(id, if key.Some? then k.byKey[key.value := id] else k.byKey, k.keyOf[id := key], k.typeOf[id := typeId])
  }

  // A lookup in the type map of an absent id gives the zero id.
  function TypeOf(k: KeyIndex, id: int): int {
    if id in k.typeOf then k.typeOf[id] else 0
  }

  function Rekeyed(k: KeyIndex, id: int, key: string): KeyIndex
    requires id in k.keyOf && k.keyOf[id].Some?
  {
    k.(byKey := (k.byKey - {k.keyOf[id].value})[key := id], keyOf := k.keyOf[id := Some(key)])
  }

  function Do(k: KeyIndex, op: KeyOp): (KeyIndex, KeyResult) {
    match op
    case Create(typeId) => (Added(k, typeId, None), Id(k.count + 1, true))
    case CreateWithKey(typeId, key) =>
      if MAX_KEY_LENGTH < |key| then (k, TooLong)
      else if key in k.byKey then (k, Duplicate)
      else (Added(k, typeId, Some(key)), Id(k.count + 1, true))
    case ChangeKey(id, key) =>
      if MAX_KEY_LENGTH < |key| then (k, TooLong)
      else if id !in k.keyOf then (k, NoAggregate)
      else if k.keyOf[id].None? then (k, NilKey)
      else (Rekeyed(k, id, key), Changed)
    case GetOrCreate(typeId, key) =>
      if MAX_KEY_LENGTH < |key| then (k, TooLong)
      else if key in k.byKey then
        if TypeOf(k, k.byKey[key]) != typeId then (k, TypeMismatch) else (k, Id(k.byKey[key], false))
      else (Added(k, typeId, Some(key)), Id(k.count + 1, true))
  }

  /** Ids are 1..count, each with a type, and keys and keyed aggregates are in one-to-one correspondence. */
  ghost predicate Consistent(k: KeyIndex) {
    && 0 <= k.count
    && (forall id :: id in k.typeOf <==> 1 <= id <= k.count)
    && (forall id :: id in k.keyOf <==> 1 <= id <= k.count)
    && (forall key :: key in k.byKey ==> k.byKey[key] in k.keyOf && k.keyOf[k.byKey[key]] == Some(key))
    && (forall id :: id in k.keyOf && k.keyOf[id].Some? ==>
          k.keyOf[id].value in k.byKey && k.byKey[k.keyOf[id].value] == id)
  }

  // ---------------- What one operation changes, entry by entry ----------------

  // The two maps agree away from this key.
  ghost predicate SameBut<K(!new), V>(m: map<K, V>, m': map<K, V>, k: K) {
    forall x :: x != k ==> (x in m <==> x in m') && (x in m ==> m'[x] == m[x])
  }

  // A new aggregate with the next id, this type and this key, if any, is found under the key; nothing else changes.
  ghost predicate IsNew(k: KeyIndex, k': KeyIndex, id: int, typeId: int, key: Option<string>) {
    && id == k.count + 1 == k'.count && id !in k.keyOf && id !in k.typeOf
    && id in k'.typeOf && k'.typeOf[id] == typeId && SameBut(k.typeOf, k'.typeOf, id)
    && id in k'.keyOf && k'.keyOf[id] == key && SameBut(k.keyOf, k'.keyOf, id)
    && (key.Some? ==> key.value in k'.byKey && k'.byKey[key.value] == id && SameBut(k.byKey, k'.byKey, key.value))
    && (key.None? ==> k'.byKey == k.byKey)
  }

  /** What each creation answers, when it creates, and that it changes nothing when it does not. */
  lemma CreatesExactly(k: KeyIndex, op: KeyOp)
    requires Consistent(k) && !op.ChangeKey?
    ensures var (k', r) := Do(k, op);
            var tooLong, taken := !op.Create? && MAX_KEY_LENGTH < |op.key|, !op.Create? && op.key in k.byKey;
            && (r == TooLong <==> tooLong)
            && (r == Duplicate <==> op.CreateWithKey? && !tooLong && taken)
            && (r == TypeMismatch <==>
                  op.GetOrCreate? && !tooLong && taken && k.typeOf[k.byKey[op.key]] != op.typeId)
            && (r.Id? && r.created <==> !tooLong && !taken)
            && (r.Id? && r.created ==> IsNew(k, k', r.id, op.typeId, if op.Create? then None else Some(op.key)))
            && (r.Id? && !r.created <==>
                  op.GetOrCreate? && !tooLong && taken && k.typeOf[k.byKey[op.key]] == op.typeId)
            && (r.Id? && !r.created ==> k.keyOf[r.id] == Some(op.key))
            && (!(r.Id? && r.created) ==> k' == k)
  {
  }

  /**
   What a change of key answers, and what it changes: the new key leads to the aggregate, its old key to nothing, and
   every other key, every other aggregate and every type are as they were.
   */
  lemma ChangeKeyMoves(k: KeyIndex, id: int, key: string)
    requires Consistent(k)
    ensures var (k', r) := Do(k, ChangeKey(id, key));
            && (r == TooLong <==> MAX_KEY_LENGTH < |key|)
            && (r == NoAggregate <==> |key| <= MAX_KEY_LENGTH && id !in k.keyOf)
            && (r == NilKey <==> |key| <= MAX_KEY_LENGTH && id in k.keyOf && k.keyOf[id].None?)
            && (r == Changed <==> |key| <= MAX_KEY_LENGTH && id in k.keyOf && k.keyOf[id].Some?)
            && (r != Changed ==> k' == k)
            && (r == Changed ==> HasMoved(k, k', id, k.keyOf[id].value, key))
  {
  }

  ghost predicate HasMoved(k: KeyIndex, k': KeyIndex, id: int, older: string, key: string) {
    && key in k'.byKey && k'.byKey[key] == id && id in k'.keyOf && k'.keyOf[id] == Some(key)
    && (older != key ==> older !in k'.byKey)
    && (forall x :: x != key && x != older ==> (x in k.byKey <==> x in k'.byKey))
    && (forall x :: x != key && x != older && x in k.byKey ==> k'.byKey[x] == k.byKey[x])
    && SameBut(k.keyOf, k'.keyOf, id) && k'.typeOf == k.typeOf && k'.count == k.count
  }

  /** So get-or-create finds the aggregate under its new key, and makes a new aggregate of its old one. */
  lemma RekeyedIsFound(k: KeyIndex, id: int, key: string, typeId: int)
    requires Consistent(k) && Do(k, ChangeKey(id, key)).1 == Changed
    ensures var k', older := Do(k, ChangeKey(id, key)).0, k.keyOf[id].value;
            && Do(k', GetOrCreate(k.typeOf[id], key)) == (k', Id(id, false))
            && (older != key && |older| <= MAX_KEY_LENGTH ==>
                  Do(k', GetOrCreate(typeId, older)).1 == Id(k.count + 1, true))
  {
    ChangeKeyMoves(k, id, key);
  }

  // What the UNIQUE constraint of the SQL engines asks of a change of key.
  predicate KeyFree(k: KeyIndex, op: KeyOp) {
    op.ChangeKey? && op.key in k.byKey ==> k.byKey[op.key] == op.id
  }

  lemma AddedConsistent(k: KeyIndex, typeId: int, key: Option<string>)
    requires Consistent(k) && (key.Some? ==> key.value !in k.byKey)
    ensures Consistent(Added(k, typeId, key))
  {
  }

  /** A key change that goes through leaves the index consistent exactly when the key was free or already its own. */
  lemma ChangeKeyExactly(k: KeyIndex, id: int, key: string)
    requires Consistent(k) && Do(k, ChangeKey(id, key)).1 == Changed
    ensures Consistent(Do(k, ChangeKey(id, key)).0) <==> KeyFree(k, ChangeKey(id, key))
  {
    var k' := Do(k, ChangeKey(id, key)).0;
    if key in k.byKey && k.byKey[key] != id {
      assert k'.keyOf[k.byKey[key]] == Some(key);
    }
  }

  lemma DoKeepsConsistent(k: KeyIndex, op: KeyOp)
    requires Consistent(k) && KeyFree(k, op)
    ensures Consistent(Do(k, op).0)
  {
    match op
    case Create(typeId) => AddedConsistent(k, typeId, None);
    case CreateWithKey(typeId, key) => if key !in k.byKey { AddedConsistent(k, typeId, Some(key)); }
    case ChangeKey(id, key) => if Do(k, op).1 == Changed { ChangeKeyExactly(k, id, key); }
    case GetOrCreate(typeId, key) => if key !in k.byKey { AddedConsistent(k, typeId, Some(key)); }
  }

  function DoAll(k: KeyIndex, ops: seq<KeyOp>): KeyIndex {
    if ops == [] then k else Do(DoAll(k, ops[..|ops| - 1]), ops[|ops| - 1]).0
  }

  // Every key change in the run finds its key free or its own.
  predicate KeysFree(k: KeyIndex, ops: seq<KeyOp>) {
    ops == [] ||
    (var init := ops[..|ops| - 1]; KeysFree(k, init) && KeyFree(DoAll(k, init), ops[|ops| - 1]))
  }

  /** The index is consistent after every run that respects the uniqueness of keys. */
  lemma {:induction false} RunKeepsConsistent(k: KeyIndex, ops: seq<KeyOp>)
    requires Consistent(k) && KeysFree(k, ops)
    ensures Consistent(DoAll(k, ops))
  {
    if ops != [] {
      RunKeepsConsistent(k, ops[..|ops| - 1]);
      DoKeepsConsistent(DoAll(k, ops[..|ops| - 1]), ops[|ops| - 1]);
    }
  }

  lemma {:induction false} KeyStays(k: KeyIndex, ops: seq<KeyOp>, key: string)
    requires Consistent(k) && KeysFree(k, ops) && key in k.byKey
    requires forall op :: op in ops ==> !(op.ChangeKey? && op.id == k.byKey[key])
    ensures var k' := DoAll(k, ops);
            && key in k'.byKey && k'.byKey[key] == k.byKey[key]
            && TypeOf(k', k.byKey[key]) == TypeOf(k, k.byKey[key])
  {
    if ops != [] {
      var init := ops[..|ops| - 1];
      KeyStays(k, init, key);
      RunKeepsConsistent(k, init);
      assert ops[|ops| - 1] in ops;
    }
  }

  /** Once a key leads to an aggregate, it leads there again, and creates nothing, until that aggregate is rekeyed. */
  lemma GetOrCreateFindsAgain(k: KeyIndex, typeId: int, key: string, ops: seq<KeyOp>)
    requires Consistent(k)
    requires Do(k, GetOrCreate(typeId, key)).1.Id?
    requires var (k1, r) := Do(k, GetOrCreate(typeId, key));
             KeysFree(k1, ops) && forall op :: op in ops ==> !(op.ChangeKey? && op.id == r.id)
    ensures var (k1, r) := Do(k, GetOrCreate(typeId, key));
            Do(DoAll(k1, ops), GetOrCreate(typeId, key)) == (DoAll(k1, ops), Id(r.id, false))
  {
    var (k1, r) := Do(k, GetOrCreate(typeId, key));
    DoKeepsConsistent(k, GetOrCreate(typeId, key));
    KeyStays(k1, ops, key);
  }

  // Nothing that the older index says of an aggregate's type and key changes.
  predicate Extends(older: KeyIndex, newer: KeyIndex) {
    && (forall id :: id in older.typeOf ==> id in newer.typeOf && newer.typeOf[id] == older.typeOf[id])
    && (forall id :: id in older.keyOf ==> id in newer.keyOf && newer.keyOf[id] == older.keyOf[id])
  }

  lemma ExtendsChain(a: KeyIndex, b: KeyIndex, c: KeyIndex)
    requires Extends(a, b) && Extends(b, c)
    ensures Extends(a, c)
  {
  }

  lemma AddedExtends(k: KeyIndex, typeId: int, key: Option<string>)
    requires Consistent(k)
    ensures Extends(k, Added(k, typeId, key))
  {
  }

  lemma DoExtends(k: KeyIndex, op: KeyOp)
    requires Consistent(k) && !op.ChangeKey?
    ensures Extends(k, Do(k, op).0)
  {
    match op
    case Create(typeId) => AddedExtends(k, typeId, None);
    case CreateWithKey(typeId, key) => AddedExtends(k, typeId, Some(key));
    case GetOrCreate(typeId, key) => AddedExtends(k, typeId, Some(key));
  }

  lemma {:induction false} WithoutChangesConsistent(k: KeyIndex, ops: seq<KeyOp>)
    requires Consistent(k) && forall op :: op in ops ==> !op.ChangeKey?
    ensures Consistent(DoAll(k, ops))
  {
    if ops != [] {
      var init := ops[..|ops| - 1];
      WithoutChangesConsistent(k, init);
      assert ops[|ops| - 1] in ops;
      DoKeepsConsistent(DoAll(k, init), ops[|ops| - 1]);
    }
  }

  /** Unless a key changes, what the index says of an aggregate stands. */
  lemma {:induction false} RunExtends(k: KeyIndex, ops: seq<KeyOp>)
    requires Consistent(k) && forall op :: op in ops ==> !op.ChangeKey?
    ensures Extends(k, DoAll(k, ops))
  {
    if ops != [] {
      var init := ops[..|ops| - 1];
      RunExtends(k, init);
      WithoutChangesConsistent(k, init);
      assert ops[|ops| - 1] in ops;
      DoExtends(DoAll(k, init), ops[|ops| - 1]);
      ExtendsChain(k, DoAll(k, init), DoAll(k, ops));
    }
  }
}
