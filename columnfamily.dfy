/**
 * Mapped objects (lazyboy/columnfamily.py, lazyboy/supercolumnfamily.py): a mapping of
 * column names to values that tracks what changed since it was loaded and writes those
 * changes back. `ColumnFamily`, `ImmutableColumnFamily` and `SuperColumnFamily` are one
 * class here, told apart by the kind of the mapped class they belong to; each method
 * does what the Python method the object would dispatch to does.
 */
module ColumnFamilies {
  import opened Common
  import opened PyText
  import opened Store
  import opened PrimaryKeys
  import opened Base
  import T = Tracking

  /** Which of the three Python classes a mapped class derives from. */
  datatype Kind =
    | Plain
      /** `ImmutableColumnFamily`, with its `_immutable` items in iteration order. */
    | Immutable(fixed: seq<(string, PyValue)>)
    | Super

  /** A mapped class: its `_key` template, its `_required` names and its kind. */
  datatype EntityClass = EntityClass(template: Fields, required: seq<string>, kind: Kind)

  /** The names `ImmutableColumnFamily` refuses to change. */
  function Protected(kind: Kind): set<string> {
    if kind.Immutable? then set p | p in kind.fixed :: p.0 else {}
  }

  /** The values `ImmutableColumnFamily.__init__` writes after `update`. */
  function FixedItems(kind: Kind): seq<(string, PyValue)> {
    if kind.Immutable? then kind.fixed else []
  }

  /** The `_gen_pk(key, superkey)` the class dispatches to; a plain class ignores `superkey`. */
  function KeyOf(cls: EntityClass, key: PyStr, superkey: PyStr, uuid: Uuid): Result<Fields> {
    if cls.kind.Super? then GenSuperPk(cls.template, key, superkey, uuid)
    else GenPk(cls.template, key, uuid)
  }

  /**
   * The loop of `_clean()`: `del self[k]` for each name in turn, stopping at the first
   * exception with the earlier deletions kept.
   */
  method DeleteEach(fixed: set<string>, t: T.Tracked, names: seq<string>) returns (p: T.Partial)
    ensures p == T.RemoveAll(fixed, t, names)
  {
    var cur := t;
    var i := 0;
    while i < |names|
      invariant 0 <= i <= |names|
      invariant T.RemoveAll(fixed, cur, names[i..]) == T.RemoveAll(fixed, t, names)
    {
      assert names[i..][0] == names[i] && names[i..][1..] == names[i + 1..];
      match T.Remove(fixed, cur, names[i])
      case Err(e) =>
        return T.Partial(cur, Some(e));
      case Ok(next) =>
        cur := next;
      i := i + 1;
    }
    return T.Partial(cur, None);
  }

  class ColumnFamily {
    const cls: EntityClass
    var pk: Key
    /** The mapping itself. */
    var items: map<string, PyStr>
    var columns: map<string, Column>
    var original: seq<Column>
    var alias: map<string, nat>
    var modified: set<string>
    var deleted: set<string>

    function Tracked(): T.Tracked
      reads this
    {
      T.Tracked(items, columns, original, alias, modified, deleted)
    }

    /** `pk` is a well-formed chain of keys that names every key attribute. */
    ghost predicate Keyed()
      reads this
    {
      pk.Valid() && KeyFields <= pk.Known()
    }

    ghost predicate Valid()
      reads this
    {
      Keyed() && T.Inv(Tracked())
    }

    /** `self.pk.<name>` for a key attribute. */
    function Attr(name: string): PyStr
      requires Valid() && name in KeyFields
      reads this
    {
      GetKnown(pk, name);
      pk.Get(name).value
    }

    /** `missing()`: the required names, in order, that are absent or `None`. */
    function Missing(): (r: seq<string>)
      reads this
      ensures forall f :: f in r <==> f in cls.required && (f !in items || items[f] == None)
    {
      T.MissingSpec(cls.required, items);
      T.Missing(cls.required, items)
    }

    /** `valid()`: every required name holds a value other than `None`. */
    predicate IsValid()
      reads this
      ensures IsValid() <==> forall f :: f in cls.required ==> f in items && items[f] != None
    {
      var m := Missing();
      assert m != [] ==> m[0] in m;
      m == []
    }

    /** `is_modified()`: some write or delete is pending. */
    predicate IsModified()
      reads this
      ensures IsModified() <==> modified != {} || deleted != {}
    {
      T.IsModified(Tracked())
    }

    /** An object with no items, keyed by `key`. */
    constructor Blank(cls: EntityClass, key: Key)
      requires key.Valid() && KeyFields <= key.Known()
      ensures Valid() && this.cls == cls && pk == key && Tracked() == T.Empty
    {
      this.cls := cls;
      pk := key;
      items, columns, original, alias := map[], map[], [], map[];
      modified, deleted := {}, {};
    }

    /**
     * `cls(arg, **kwargs)`: a key from the template with a fresh id (and, for a super
     * column family, a fresh superkey), then `update(arg, **kwargs)` through the class's
     * own item assignment, then, for an immutable class, its fixed values written with
     * `ColumnFamily.__setitem__`, which tracks them like any other write. `pairs` is
     * `arg` as `update` iterates it.
     */
    static method New(cls: EntityClass, pairs: seq<(string, PyValue)>, kwargs: seq<(string, PyValue)>,
                      uuid: Uuid, now: int) returns (r: Result<ColumnFamily>)
      ensures r.Ok? <==>
        KeyOf(cls, None, None, uuid).Ok?
        && T.AssignAll(Protected(cls.kind), T.Empty, pairs + kwargs, now).error.None?
      ensures KeyOf(cls, None, None, uuid).Err? ==> r == Err(KeyOf(cls, None, None, uuid).error)
      ensures KeyOf(cls, None, None, uuid).Ok? && r.Err? ==>
        Some(r.error) == T.AssignAll(Protected(cls.kind), T.Empty, pairs + kwargs, now).error
      ensures r.Ok? ==>
        && fresh(r.value) && fresh(r.value.pk) && r.value.Valid() && r.value.cls == cls
        && r.value.pk.parent == null && r.value.pk.attrs == KeyOf(cls, None, None, uuid).value
        && r.value.Tracked() ==
             T.SetEach(T.AssignAll(Protected(cls.kind), T.Empty, pairs + kwargs, now).state,
                       FixedItems(cls.kind), now)
    {
      var fields :- KeyOf(cls, None, None, uuid);
      var key := new Key.Primary(fields);
      var cf := new ColumnFamily.Blank(cls, key);
      if pairs != [] || kwargs != [] {
        var err := cf.Update(pairs, kwargs, now);
        if err.Some? {
          return Err(err.value);
        }
      }
      cf.TrackEach(FixedItems(cls.kind), now);
      return Ok(cf);
    }

    /**
     * `ColumnFamily.__setitem__(item, v)`: the value as text, a record for the name, the
     * name pending as modified and no longer as deleted. The record shared with
     * `_original`, if any, is the one changed.
     */
    method Track(item: string, v: PyValue, now: int)
      requires Valid()
      modifies this
      ensures Valid() && pk == old(pk)
      ensures Tracked() == T.Set(old(Tracked()), item, Str(v), now)
    {
      ghost var before := Tracked();
      var s := Str(v);
      // `item in self._original` compares a name with records and never holds.
      var col := if item in columns then columns[item].(value := Some(s), timestamp := now)
                 else Column(item, Some(s), now);
      // When `revert` made `_columns[item]` a record of `_original`, that record is the one changed.
      var shared := if item in alias && alias[item] < |original| then original[alias[item] := col] else original;
      items, columns, original, deleted, modified :=
        items[item := Some(s)], columns[item := col], shared, deleted - {item}, modified + {item};
      assert Tracked() == T.Set(before, item, s, now);
      T.SetSpec(before, item, s, now);
    }

    /** `ColumnFamily.__setitem__` for each pair in turn. */
    method TrackEach(pairs: seq<(string, PyValue)>, now: int)
      requires Valid()
      modifies this
      ensures Valid() && pk == old(pk)
      ensures Tracked() == T.SetEach(old(Tracked()), pairs, now)
    {
      var i := 0;
      while i < |pairs|
        invariant 0 <= i <= |pairs|
        invariant Valid() && pk == old(pk)
        invariant T.SetEach(Tracked(), pairs[i..], now) == T.SetEach(old(Tracked()), pairs, now)
      {
        assert pairs[i..][1..] == pairs[i + 1..];
        Track(pairs[i].0, pairs[i].1, now);
        i := i + 1;
      }
    }

    /** `self[item] = v`: refused for a protected name of an immutable class. */
    method Set(item: string, v: PyValue, now: int) returns (r: Result<()>)
      requires Valid()
      modifies this
      ensures Valid() && pk == old(pk)
      ensures r.Err? <==> item in Protected(cls.kind)
      ensures r.Err? ==> r.error == InvalidField(item) && Tracked() == old(Tracked())
      ensures r.Ok? ==> Tracked() == T.Set(old(Tracked()), item, Str(v), now)
    {
      if item in Protected(cls.kind) {
        return Err(InvalidField(item));
      }
      Track(item, v, now);
      return Ok(());
    }

    /** `del self[item]`: refused for a protected name; KeyError for an absent one. */
    method Delete(item: string) returns (r: Result<()>)
      requires Valid()
      modifies this
      ensures Valid() && pk == old(pk)
      ensures r.Ok? <==> T.Remove(Protected(cls.kind), old(Tracked()), item).Ok?
      ensures r.Err? ==>
        r.error == T.Remove(Protected(cls.kind), old(Tracked()), item).error
        && Tracked() == old(Tracked())
      ensures r.Ok? ==> Tracked() == T.Remove(Protected(cls.kind), old(Tracked()), item).value
    {
      if item in Protected(cls.kind) {
        return Err(InvalidField(item));
      }
      if item !in items {
        return Err(KeyError(Some(item)));
      }
      T.DeleteSpec(Tracked(), item);
      items, columns, alias, deleted, modified :=
        items - {item}, columns - {item}, alias - {item}, deleted + {item}, modified - {item};
      return Ok(());
    }

    /** Write `i` of `update` over `all`: refused, or done with the writes after it still to do. */
    method UpdateStep(all: seq<(string, PyValue)>, i: nat, now: int) returns (r: Result<()>)
      requires Valid() && i < |all|
      modifies this
      ensures Valid() && pk == old(pk)
      ensures r.Err? ==>
        T.AssignAll(Protected(cls.kind), old(Tracked()), all[i..], now) == T.Partial(Tracked(), Some(r.error))
      ensures r.Ok? ==>
        T.AssignAll(Protected(cls.kind), Tracked(), all[i + 1..], now)
        == T.AssignAll(Protected(cls.kind), old(Tracked()), all[i..], now)
    {
      assert all[i..][0] == all[i] && all[i..][1..] == all[i + 1..];
      T.AssignAllStep(Protected(cls.kind), Tracked(), all[i..], now);
      r := Set(all[i].0, all[i].1, now);
    }

    /**
     * `update(arg, **kwargs)`: `self[k] = v` for each pair of `arg`, then of `kwargs`,
     * stopping at the first exception with the earlier writes kept.
     */
    method Update(pairs: seq<(string, PyValue)>, kwargs: seq<(string, PyValue)>, now: int)
      returns (err: Option<Error>)
      requires Valid()
      modifies this
      ensures Valid() && pk == old(pk)
      ensures T.Partial(Tracked(), err) == T.AssignAll(Protected(cls.kind), old(Tracked()), pairs + kwargs, now)
    {
      var all := pairs + kwargs;
      var i := 0;
      while i < |all|
        invariant 0 <= i <= |all|
        invariant Valid() && pk == old(pk)
        invariant T.AssignAll(Protected(cls.kind), Tracked(), all[i..], now)
               == T.AssignAll(Protected(cls.kind), old(Tracked()), all, now)
      {
        var r := UpdateStep(all, i, now);
        if r.Err? {
          return Some(r.error);
        }
        i := i + 1;
      }
      return None;
    }

    /** `revert()`: the records of `_original`, in order, back into the mapping and `_columns`. */
    method Revert()
      requires Valid()
      modifies this
      ensures Valid() && pk == old(pk)
      ensures Tracked() == T.Revert(old(Tracked()))
    {
      ghost var start := Tracked();
      var restored := Tracked();
      var i := 0;
      while i < |original|
        invariant 0 <= i <= |original|
        invariant restored == T.Restored(start, i)
      {
        var c := original[i];
        restored := restored.(items := restored.items[c.name := c.value],
                              columns := restored.columns[c.name := c],
                              alias := restored.alias[c.name := i]);
        i := i + 1;
      }
      assert restored.(modified := {}, deleted := {}) == T.Revert(start);
      assert T.Inv(T.Revert(start)) by { T.RevertSpec(start); }
      items, columns, alias, modified, deleted := restored.items, restored.columns, restored.alias, {}, {};
    }

    /**
     * `_clean()`, with `names` the order `keys()` lists the mapping in: every item deleted
     * through the class's own deletion, then every record and pending change dropped.
     */
    method Clean(names: seq<string>) returns (err: Option<Error>)
      requires Valid() && T.Lists(names, items.Keys)
      modifies this
      ensures Valid() && pk == old(pk)
      ensures T.Partial(Tracked(), err) == T.Clean(Protected(cls.kind), old(Tracked()), names)
    {
      var before := Tracked();
      var p := DeleteEach(Protected(cls.kind), before, names);
      assert T.Inv(T.Clean(Protected(cls.kind), before, names).state) by {
        T.CleanSpec(Protected(cls.kind), before, names);
      }
      if p.error.Some? {
        items, columns, original, alias, modified, deleted :=
          p.state.items, p.state.columns, p.state.original, p.state.alias, p.state.modified, p.state.deleted;
        return p.error;
      }
      items, columns, original, alias, modified, deleted := map[], map[], [], map[], {}, {};
      return None;
    }

    /** `self.pk = key`. */
    method Rekey(key: Key)
      requires Valid() && key.Valid() && KeyFields <= key.Known()
      modifies this
      ensures Valid() && pk == key && Tracked() == old(Tracked())
    {
      pk := key;
    }

    /** The end of `load`: `_original` set to the columns read, then `revert()`. */
    method Reload(cols: seq<Column>)
      requires Keyed() && Tracked() == T.Empty
      modifies this
      ensures Valid() && pk == old(pk)
      ensures Tracked() == T.Revert(T.Empty.(original := cols))
    {
      original := cols;
      Revert();
    }

    /**
     * `ColumnFamily.load(key)`: clean, a new key with `key` (or a fresh id), one request
     * for the first 100 columns of the row, and a revert to what came back. A super column
     * family's `load` needs a superkey, so the one-argument call is a TypeError there.
     */
    method Load(key: PyStr, uuid: Uuid, names: seq<string>, cas: Cassandra) returns (r: Result<ColumnFamily>)
      requires Valid() && T.Lists(names, items.Keys)
      modifies this, cas
      ensures Valid()
      ensures cls.kind.Super? ==> r == Err(TypeError) && Tracked() == old(Tracked()) && cas.log == old(cas.log)
      ensures r.Err? ==> cas.log == old(cas.log)
      ensures !cls.kind.Super? && T.Clean(Protected(cls.kind), old(Tracked()), names).error.Some? ==>
        r == Err(T.Clean(Protected(cls.kind), old(Tracked()), names).error.value) && cas.log == old(cas.log)
      ensures r.Ok? <==>
        !cls.kind.Super? && T.Clean(Protected(cls.kind), old(Tracked()), names).error.None?
        && GenPk(cls.template, key, uuid).Ok?
      ensures r.Ok? ==>
        && r.value == this && fresh(pk) && pk.parent == null
        && pk.attrs == GenPk(cls.template, key, uuid).value
        && |cas.log| == |old(cas.log)| + 1
        && var call := cas.log[|old(cas.log)|];
           && cas.log == old(cas.log) + [call]
           && call.GetSlice?
           && call == Call.GetSlice(Attr("table"), Attr("key"), Attr("family"), "", "", true, 100, call.page)
           && Tracked() == T.Revert(T.Empty.(original := call.page))
    {
      if cls.kind.Super? {
        return Err(TypeError);
      }
      var err := Clean(names);
      if err.Some? {
        return Err(err.value);
      }
      var fields :- GenPk(cls.template, key, uuid);
      var k := new Key.Primary(fields);
      Rekey(k);
      var page := cas.GetSlice(Attr("table"), Attr("key"), Attr("family"), "", "", true, 100);
      Reload(page);
      return Ok(this);
    }

    /**
     * `SuperColumnFamily.load(key, superkey, cols)`: clean, a new key, and a revert to the
     * given columns; the backend is not asked. A plain column family's `load` takes one
     * key only, so the call is a TypeError there.
     */
    method LoadSuper(key: PyStr, superkey: PyStr, cols: seq<Column>, uuid: Uuid, names: seq<string>)
      returns (r: Result<ColumnFamily>)
      requires Valid() && T.Lists(names, items.Keys)
      modifies this
      ensures Valid()
      ensures !cls.kind.Super? ==> r == Err(TypeError) && Tracked() == old(Tracked())
      ensures r.Ok? <==>
        cls.kind.Super? && T.Clean(Protected(cls.kind), old(Tracked()), names).error.None?
        && GenSuperPk(cls.template, key, superkey, uuid).Ok?
      ensures r.Ok? ==>
        && r.value == this && fresh(pk) && pk.parent == null
        && pk.attrs == GenSuperPk(cls.template, key, superkey, uuid).value
        && Tracked() == T.Revert(T.Empty.(original := cols))
    {
      if !cls.kind.Super? {
        return Err(TypeError);
      }
      var err := Clean(names);
      if err.Some? {
        return Err(err.value);
      }
      var fields :- GenSuperPk(cls.template, key, superkey, uuid);
      var k := new Key.Primary(fields);
      Rekey(k);
      Reload(cols);
      return Ok(this);
    }

    /**
     * `_marshal()`: the bundle named by `pk.superkey` holding the records of modified
     * names. Listing the deleted records looks each deleted name up in `_columns`, which
     * no longer has it, so any pending delete raises KeyError. Only a super column family
     * has the method.
     */
    method Marshal() returns (r: Result<Bundle>)
      requires Valid()
      ensures r.Ok? <==> cls.kind.Super? && deleted == {}
      ensures !cls.kind.Super? ==> r == Err(AttributeError("_marshal"))
      ensures cls.kind.Super? && r.Err? ==> r.error.KeyError? && r.error.key.Some? && r.error.key.value in deleted
      ensures r.Ok? ==> r.value == Bundle(Attr("superkey"), set n | n in modified :: columns[n])
    {
      if !cls.kind.Super? {
        return Err(AttributeError("_marshal"));
      }
      T.MarshalFailsSpec(Tracked());
      T.ChangedSpec(Tracked());
      if exists n :: n in deleted && n !in columns {
        var n :| n in deleted && n !in columns;
        return Err(KeyError(Some(n)));
      }
      return Ok(Bundle(Attr("superkey"), T.Changed(Tracked())));
    }

    /**
     * `save()`. A plain or immutable column family first insists on `valid()`; it then
     * sends the records of the modified names in one batch, and nothing when there are
     * none. Its deletions are compared with the records of `_original`, never match, and
     * are never sent. A super column family skips the validity check and sends its
     * bundle under `pk.supercol`, when the bundle has records.
     */
    method Save(cas: Cassandra) returns (r: Result<ColumnFamily>)
      requires Valid()
      modifies cas
      ensures r.Ok? ==> r.value == this
      ensures !cls.kind.Super? && !IsValid() ==> r == Err(MissingField(Missing())) && cas.log == old(cas.log)
      ensures !cls.kind.Super? && IsValid() ==>
        r.Ok? &&
        cas.log == old(cas.log) +
          (if modified == {} then []
           else [Call.BatchInsert(Attr("table"), Attr("key"), Attr("family"), set n | n in modified :: columns[n])])
      ensures cls.kind.Super? ==> (r.Ok? <==> deleted == {})
      ensures cls.kind.Super? && r.Err? ==> r.error.KeyError? && cas.log == old(cas.log)
      ensures cls.kind.Super? && r.Ok? ==>
        cas.log == old(cas.log) +
          (if modified == {} then []
           else [Call.BatchInsertSuperColumn(Attr("table"), Attr("key"), Attr("supercol"),
                                             Bundle(Attr("superkey"), set n | n in modified :: columns[n]))])
    {
      if cls.kind.Super? {
        r := SaveSuper(cas);
        return;
      }
      if !IsValid() {
        return Err(MissingField(Missing()));
      }
      T.ChangedSpec(Tracked());
      var changed := T.Changed(Tracked());
      if changed != {} {
        cas.BatchInsert(Attr("table"), Attr("key"), Attr("family"), changed);
      }
      return Ok(this);
    }

    /** `SuperColumnFamily.save()`. */
    method SaveSuper(cas: Cassandra) returns (r: Result<ColumnFamily>)
      requires Valid() && cls.kind.Super?
      modifies cas
      ensures r.Ok? <==> deleted == {}
      ensures r.Ok? ==> r.value == this
      ensures r.Err? ==> r.error.KeyError? && cas.log == old(cas.log)
      ensures r.Ok? ==>
        cas.log == old(cas.log) +
          (if modified == {} then []
           else [Call.BatchInsertSuperColumn(Attr("table"), Attr("key"), Attr("supercol"),
                                             Bundle(Attr("superkey"), set n | n in modified :: columns[n]))])
    {
      var bundle :- Marshal();
      T.ChangedSpec(Tracked());
      // `_marshal` succeeded, so no delete is pending and the removal loop is empty.
      if bundle.columns != {} {
        cas.BatchInsertSuperColumn(Attr("table"), Attr("key"), Attr("supercol"), bundle);
      }
      return Ok(this);
    }
  }
}
