/** The two-way tables between type names and type ids. */
module TypeNames {

  datatype NameTable = NameTable(byName: map<string, int>, byId: map<int, string>, count: int)

  const EMPTY_TABLE := NameTable(map[], map[], 0)

  /** The id of a name, adding the name when it is new. */
  function Resolve(t: NameTable, name: string): (NameTable, int) {
    if name in t.byName then (t, t.byName[name])
    else
      var id := t.count + 1;
      (NameTable(t.byName[name := id], t.byId[id := name], id), id)
  }

  /** Names and ids are in one-to-one correspondence, and the ids are 1..count. */
  ghost predicate OneToOne(t: NameTable) {
    && 0 <= t.count
    && (forall id :: id in t.byId <==> 1 <= id <= t.count)
    && (forall name :: name in t.byName ==> t.byName[name] in t.byId && t.byId[t.byName[name]] == name)
    && (forall id :: id in t.byId ==> t.byId[id] in t.byName && t.byName[t.byId[id]] == id)
  }

  // Nothing that the older table says is unsaid.
  predicate Keeps(older: NameTable, newer: NameTable) {
    && (forall name :: name in older.byName ==> name in newer.byName && newer.byName[name] == older.byName[name])
    && (forall id :: id in older.byId ==> id in newer.byId && newer.byId[id] == older.byId[id])
  }

  // A cache of ids says nothing that the table does not say.
  predicate CacheOf(cache: map<string, int>, t: NameTable) {
    forall name :: name in cache ==> name in t.byName && t.byName[name] == cache[name]
  }

  lemma ResolveKeeps(t: NameTable, name: string)
    requires OneToOne(t)
    ensures var (t', id) := Resolve(t, name);
            && OneToOne(t') && Keeps(t, t')
            && name in t'.byName && t'.byName[name] == id
            && (name in t.byName <==> t' == t)
  {
  }

  function ResolveAll(t: NameTable, names: seq<string>): NameTable {
    if names == [] then t else Resolve(ResolveAll(t, names[..|names| - 1]), names[|names| - 1]).0
  }

  /**
   After any run of lookups, two names have the same id exactly when they are the same name, every name looked up is
   known, and no id was ever reused.
   */
  lemma {:induction false} LookupsStayOneToOne(names: seq<string>, k: nat)
    requires k <= |names|
    ensures var t := ResolveAll(EMPTY_TABLE, names);
            && OneToOne(t)
            && (forall name :: name in t.byName <==> name in names)
            && Keeps(ResolveAll(EMPTY_TABLE, names[..k]), t)
  {
    if names != [] {
      var init := names[..|names| - 1];
      var last := names[|names| - 1];
      LookupsStayOneToOne(init, if k < |names| then k else k - 1);
      ResolveKeeps(ResolveAll(EMPTY_TABLE, init), last);
      assert forall name :: name in names <==> name in init || name == last;
      if k < |names| {
        assert init[..k] == names[..k];
      } else {
        assert names[..k] == names;
      }
    }
  }
}
