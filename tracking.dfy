/**
 * The bookkeeping of a `ColumnFamily` (lazyboy/columnfamily.py) as values: the mapping
 * itself, the `Column` records behind it, the page last loaded, and the names changed or
 * removed since then. The class `ColumnFamilies.ColumnFamily` performs these steps in place; this module
 * says what each step computes and proves what it preserves.
 */
module Tracking {
  import opened Common
  import opened PyText
  import opened Store

  /**
   * `original` is `_original`. `revert` makes `_columns[n]` the very record
   * `_original[i]`, so later writes to `n` change that record too; `alias[n] == i`
   * records that sharing.
   */
  datatype Tracked = Tracked(
    items: map<string, PyStr>,
    columns: map<string, Column>,
    original: seq<Column>,
    alias: map<string, nat>,
    modified: set<string>,
    deleted: set<string>)

  /** A new or cleaned entity. */
  const Empty: Tracked := Tracked(map[], map[], [], map[], {}, {})

  /** The mapping and `_columns` agree, and every shared record is where `alias` says. */
  predicate Core(t: Tracked) {
    && t.items.Keys == t.columns.Keys
    && (forall n :: n in t.columns ==> t.columns[n].name == n && t.columns[n].value == t.items[n])
    && (forall n :: n in t.alias ==>
          n in t.columns && t.alias[n] < |t.original| && t.original[t.alias[n]] == t.columns[n])
  }

  /** What set, delete and revert keep: `Core`, and pending changes name present or absent items. */
  predicate Inv(t: Tracked) {
    && Core(t)
    && t.modified <= t.items.Keys
    && (forall n :: n in t.modified ==> t.items[n].Some?)
    && t.deleted !! t.items.Keys
  }

  /**
   * `ColumnFamily.__setitem__` after the value has been converted to the text `s`. The
   * comparison with `_original` (lazyboy/columnfamily.py:67) tests a name against a list
   * of records and never holds, so every write is recorded.
   */
  function Set(t: Tracked, item: string, s: string, now: int): Tracked {
    var col := if item in t.columns then t.columns[item].(value := Some(s), timestamp := now)
               else Column(item, Some(s), now);
    var original := if item in t.alias && t.alias[item] < |t.original|
                    then t.original[t.alias[item] := col] else t.original;
    Tracked(t.items[item := Some(s)], t.columns[item := col], original, t.alias,
            t.modified + {item}, t.deleted - {item})
  }

  /** A write stores the text, its record carries the text and the time, and it is pending as a modification only. */
  lemma SetSpec(t: Tracked, item: string, s: string, now: int)
    requires Inv(t)
    ensures var r := Set(t, item, s, now);
      && Inv(r)
      && r.items == t.items[item := Some(s)]
      && r.columns[item] == Column(item, Some(s), now)
      && (forall n :: n in t.columns && n != item ==> r.columns[n] == t.columns[n])
      && r.modified == t.modified + {item} && r.deleted == t.deleted - {item}
      && item in r.modified && item !in r.deleted
  {
  }

  /** `ColumnFamily.__delitem__`: KeyError for an absent name. */
  function Delete(t: Tracked, item: string): (r: Result<Tracked>)
    ensures r.Err? <==> item !in t.items
    ensures r.Err? ==> r.error == KeyError(Some(item))
  {
    if item !in t.items then Err(KeyError(Some(item)))
    else Ok(Tracked(t.items - {item}, t.columns - {item}, t.original, t.alias - {item},
                    t.modified - {item}, t.deleted + {item}))
  }

  /** A delete removes the item and its record and leaves it pending as a deletion only. */
  lemma DeleteSpec(t: Tracked, item: string)
    requires Inv(t) && item in t.items
    ensures var r := Delete(t, item).value;
      && Inv(r)
      && r.items == t.items - {item} && r.columns == t.columns - {item}
      && r.deleted == t.deleted + {item} && r.modified == t.modified - {item}
      && item in r.deleted && item !in r.modified
  {
  }

  /** A name is never pending as both a modification and a deletion. */
  lemma PendingDisjoint(t: Tracked)
    requires Inv(t)
    ensures t.modified !! t.deleted
  {
  }

  /** `is_modified()`: some write or delete is pending. */
  predicate IsModified(t: Tracked)
    ensures IsModified(t) <==> t.modified != {} || t.deleted != {}
  {
    |t.modified| + |t.deleted| != 0
  }

  /** The state after `revert`'s loop has handled `original[..k]`. */
  function Restored(t: Tracked, k: nat): (r: Tracked)
    requires k <= |t.original|
    ensures r.original == t.original && r.modified == t.modified && r.deleted == t.deleted
  {
    if k == 0 then t
    else
      var p := Restored(t, k - 1);
      var c := t.original[k - 1];
      p.(items := p.items[c.name := c.value], columns := p.columns[c.name := c],
         alias := p.alias[c.name := k - 1])
  }

  /** `revert()`: every record of `_original`, in order, back into the mapping and `_columns`. */
  function Revert(t: Tracked): Tracked {
    Restored(t, |t.original|).(modified := {}, deleted := {})
  }

  /** No record among `cols[i+1..k]` has the name of `cols[i]`. */
  predicate LastOfName(cols: seq<Column>, k: nat, i: nat)
    requires i < k <= |cols|
  {
    forall j :: i < j < k ==> cols[j].name != cols[i].name
  }

  /** Some record among `cols[..k]` is named `n`. */
  predicate NamedBefore(cols: seq<Column>, k: nat, n: string)
    requires k <= |cols|
  {
    exists i :: 0 <= i < k && cols[i].name == n
  }

  predicate Named(cols: seq<Column>, n: string) {
    NamedBefore(cols, |cols|, n)
  }

  lemma {:induction false} RestoredCore(t: Tracked, k: nat)
    requires Core(t) && k <= |t.original|
    ensures Core(Restored(t, k))
    decreases k
  {
    if k > 0 {
      RestoredCore(t, k - 1);
    }
  }

  lemma {:induction false} RestoredLast(t: Tracked, k: nat)
    requires k <= |t.original|
    ensures var r := Restored(t, k);
      forall i :: 0 <= i < k && LastOfName(t.original, k, i) ==>
        var n := t.original[i].name;
        n in r.items && r.items[n] == t.original[i].value && n in r.columns && r.columns[n] == t.original[i]
        && n in r.alias && r.alias[n] == i
    decreases k
  {
    if k > 0 {
      RestoredLast(t, k - 1);
      var r := Restored(t, k);
      forall i | 0 <= i < k && LastOfName(t.original, k, i)
        ensures var n := t.original[i].name;
          n in r.items && r.items[n] == t.original[i].value && n in r.columns && r.columns[n] == t.original[i]
          && n in r.alias && r.alias[n] == i
      {
        if i < k - 1 {
          assert LastOfName(t.original, k - 1, i);
        }
      }
    }
  }

  lemma {:induction false} RestoredOthers(t: Tracked, k: nat)
    requires k <= |t.original|
    ensures var r := Restored(t, k);
      forall n :: !NamedBefore(t.original, k, n) ==>
        (n in r.items <==> n in t.items) && (n in t.items ==> r.items[n] == t.items[n])
        && (n in r.columns <==> n in t.columns) && (n in t.columns ==> r.columns[n] == t.columns[n])
        && (n in r.alias <==> n in t.alias)
    decreases k
  {
    if k > 0 {
      RestoredOthers(t, k - 1);
    }
  }

  /**
   * After `revert()`, each name of `_original` maps to the value of its last record there
   * and `_columns` holds that record; every other name keeps its value; nothing is pending.
   */
  lemma RevertSpec(t: Tracked)
    requires Core(t)
    ensures var r := Revert(t);
      && Inv(r) && !IsModified(r) && r.original == t.original
      && (forall i :: 0 <= i < |t.original| && LastOfName(t.original, |t.original|, i) ==>
            var n := t.original[i].name;
            n in r.items && r.items[n] == t.original[i].value && r.columns[n] == t.original[i])
      && (forall n :: !Named(t.original, n) ==>
            (n in r.items <==> n in t.items) && (n in t.items ==> r.items[n] == t.items[n]))
  {
    RestoredCore(t, |t.original|);
    RestoredLast(t, |t.original|);
    RestoredOthers(t, |t.original|);
  }

  /**
   * Revert keeps edits of loaded names: the record `_columns` shares with `_original` is
   * the one a write changes, so reverting after a write to a loaded name yields the new
   * value, not the loaded one.
   */
  lemma RevertKeepsEdits(u: Tracked, n: string, s: string, now: int)
    requires Core(u) && Named(u.original, n)
    ensures var t := Set(Revert(u), n, s, now);
      n in Revert(t).items && Revert(t).items[n] == Some(s)
  {
    var k := |u.original|;
    var i :| 0 <= i < k && u.original[i].name == n;
    var last := LastIndex(u.original, n, i);
    RestoredLast(u, k);
    var r := Revert(u);
    RevertSpec(u);
    assert n in r.alias && r.alias[n] == last;
    SetSpec(r, n, s, now);
    var t := Set(r, n, s, now);
    assert t.original == u.original[last := Column(n, Some(s), now)];
    assert LastOfName(t.original, k, last);
    RevertSpec(t);
  }

  /** The index of the last record named `n`, given one at `i`. */
  function LastIndex(cols: seq<Column>, n: string, i: nat): (j: nat)
    requires i < |cols| && cols[i].name == n
    ensures i <= j < |cols| && cols[j].name == n && LastOfName(cols, |cols|, j)
    decreases |cols| - i
  {
    if exists j :: i < j < |cols| && cols[j].name == n then
      var j :| i < j < |cols| && cols[j].name == n;
      LastIndex(cols, n, j)
    else i
  }

  /** `missing()`: the required names, in order, that are absent or `None`. */
  function Missing(required: seq<string>, items: map<string, PyStr>): (r: seq<string>)
    ensures |r| <= |required|
    ensures (forall i :: 0 <= i < |required| ==> required[i] !in items || items[required[i]] == None) ==>
      r == required
    ensures (forall i :: 0 <= i < |required| ==> required[i] in items && items[required[i]] != None) ==>
      r == []
  {
    if required == [] then []
    else
      var f := required[0];
      (if f !in items || items[f] == None then [f] else []) + Missing(required[1..], items)
  }

  /** A name is reported missing exactly when it is required and absent or `None`. */
  lemma {:induction false} MissingSpec(required: seq<string>, items: map<string, PyStr>)
    ensures forall f :: f in Missing(required, items) <==>
      f in required && (f !in items || items[f] == None)
    ensures Missing(required, items) == [] <==>
      forall f :: f in required ==> f in items && items[f] != None
  {
    if required != [] {
      MissingSpec(required[1..], items);
      assert forall f :: f in required <==> f == required[0] || f in required[1..];
    }
  }

  /** The records `save` and `_marshal` send: those of modified names with a value. */
  function Changed(t: Tracked): set<Column> {
    set n | n in t.modified && n in t.columns && t.columns[n].value != None :: t.columns[n]
  }

  /**
   * Every modified name has a record holding a value, so what is sent is exactly the
   * records of the modified names, and nothing is sent exactly when nothing was modified.
   */
  lemma ChangedSpec(t: Tracked)
    requires Inv(t)
    ensures Changed(t) == set n | n in t.modified :: t.columns[n]
    ensures forall c :: c in Changed(t) ==> c.name in t.modified && c == t.columns[c.name]
    ensures Changed(t) == {} <==> t.modified == {}
  {
    if t.modified != {} {
      var n :| n in t.modified;
      assert t.columns[n] in Changed(t);
    }
  }

  /** `_marshal()` raises KeyError when a deleted name has no record in `_columns`. */
  predicate MarshalFails(t: Tracked) {
    exists n :: n in t.deleted && n !in t.columns
  }

  /** Deleted names never keep a record, so `_marshal()` fails exactly when a delete is pending. */
  lemma MarshalFailsSpec(t: Tracked)
    requires Inv(t)
    ensures MarshalFails(t) <==> t.deleted != {}
  {
    if t.deleted != {} {
      var n :| n in t.deleted;
      assert n !in t.columns;
    }
  }

  /** Item assignment through `ImmutableColumnFamily.__setitem__` when `item` is one of `fixed`. */
  function Assign(fixed: set<string>, t: Tracked, item: string, v: PyValue, now: int): Result<Tracked> {
    if item in fixed then Err(InvalidField(item)) else Ok(Set(t, item, Str(v), now))
  }

  /** Item deletion through `ImmutableColumnFamily.__delitem__`. */
  function Remove(fixed: set<string>, t: Tracked, item: string): Result<Tracked> {
    if item in fixed then Err(InvalidField(item)) else Delete(t, item)
  }

  /** The state a sequence of steps reached, and the exception that stopped it, if any. */
  datatype Partial = Partial(state: Tracked, error: Option<Error>)

  /** `update`: one assignment per pair, in order, stopping at the first exception. */
  function AssignAll(fixed: set<string>, t: Tracked, pairs: seq<(string, PyValue)>, now: int): Partial
    decreases |pairs|
  {
    if pairs == [] then Partial(t, None)
    else match Assign(fixed, t, pairs[0].0, pairs[0].1, now)
      case Err(e) => Partial(t, Some(e))
      case Ok(t') => AssignAll(fixed, t', pairs[1..], now)
  }

  /** One step of `update`: the first pair is refused, or written before the rest. */
  lemma AssignAllStep(fixed: set<string>, t: Tracked, pairs: seq<(string, PyValue)>, now: int)
    requires pairs != []
    ensures pairs[0].0 in fixed ==> AssignAll(fixed, t, pairs, now) == Partial(t, Some(InvalidField(pairs[0].0)))
    ensures pairs[0].0 !in fixed ==>
      AssignAll(fixed, t, pairs, now) == AssignAll(fixed, Set(t, pairs[0].0, Str(pairs[0].1), now), pairs[1..], now)
  {
  }

  /** Plain tracked writes, one per pair, in order. */
  function SetEach(t: Tracked, pairs: seq<(string, PyValue)>, now: int): Tracked
    decreases |pairs|
  {
    if pairs == [] then t else SetEach(Set(t, pairs[0].0, Str(pairs[0].1), now), pairs[1..], now)
  }

  /** Writes add names and remove none: every name written is present afterwards. */
  lemma {:induction false} SetEachPresent(t: Tracked, pairs: seq<(string, PyValue)>, now: int)
    ensures t.items.Keys <= SetEach(t, pairs, now).items.Keys
    ensures forall i :: 0 <= i < |pairs| ==> pairs[i].0 in SetEach(t, pairs, now).items
    decreases |pairs|
  {
    if pairs != [] {
      var t' := Set(t, pairs[0].0, Str(pairs[0].1), now);
      SetEachPresent(t', pairs[1..], now);
      forall i | 0 < i < |pairs| ensures pairs[i].0 in SetEach(t, pairs, now).items {
        assert pairs[i] == pairs[1..][i - 1];
      }
    }
  }

  /**
   * `update` is the sequence of single writes when no name is protected; otherwise it
   * raises InvalidField for the first protected name and keeps the writes before it.
   */
  lemma {:induction false} AssignAllSpec(fixed: set<string>, t: Tracked, pairs: seq<(string, PyValue)>, now: int)
    ensures AssignAll(fixed, t, pairs, now).error.None? <==>
      forall i :: 0 <= i < |pairs| ==> pairs[i].0 !in fixed
    ensures AssignAll(fixed, t, pairs, now).error.None? ==>
      AssignAll(fixed, t, pairs, now).state == SetEach(t, pairs, now)
    ensures AssignAll(fixed, t, pairs, now).error.Some? ==>
      exists i :: 0 <= i < |pairs| && pairs[i].0 in fixed
        && AssignAll(fixed, t, pairs, now) == Partial(SetEach(t, pairs[..i], now), Some(InvalidField(pairs[i].0)))
    decreases |pairs|
  {
    if pairs != [] {
      var (item, v) := pairs[0];
      if item in fixed {
        assert pairs[..0] == [];
      } else {
        var t' := Set(t, item, Str(v), now);
        AssignAllSpec(fixed, t', pairs[1..], now);
        if AssignAll(fixed, t', pairs[1..], now).error.Some? {
          var i :| 0 <= i < |pairs[1..]| && pairs[1..][i].0 in fixed
            && AssignAll(fixed, t', pairs[1..], now)
               == Partial(SetEach(t', pairs[1..][..i], now), Some(InvalidField(pairs[1..][i].0)));
          assert pairs[..i + 1][1..] == pairs[1..][..i];
        } else {
          forall j | 0 <= j < |pairs| ensures pairs[j].0 !in fixed {
            if j > 0 {
              assert pairs[j] == pairs[1..][j - 1];
            }
          }
        }
      }
    }
  }

  /** `update` keeps the invariant, whether it completes or stops part-way. */
  lemma {:induction false} AssignAllInv(fixed: set<string>, t: Tracked, pairs: seq<(string, PyValue)>, now: int)
    requires Inv(t)
    ensures Inv(AssignAll(fixed, t, pairs, now).state)
    decreases |pairs|
  {
    if pairs != [] && pairs[0].0 !in fixed {
      SetSpec(t, pairs[0].0, Str(pairs[0].1), now);
      AssignAllInv(fixed, Set(t, pairs[0].0, Str(pairs[0].1), now), pairs[1..], now);
    }
  }

  /** `map(self.__delitem__, names)`: one deletion per name, in order, stopping at the first exception. */
  function RemoveAll(fixed: set<string>, t: Tracked, names: seq<string>): Partial
    decreases |names|
  {
    if names == [] then Partial(t, None)
    else match Remove(fixed, t, names[0])
      case Err(e) => Partial(t, Some(e))
      case Ok(t') => RemoveAll(fixed, t', names[1..])
  }

  /** `_clean()` with the mapping's keys listed as `names`: the deletions, then everything reset. */
  function Clean(fixed: set<string>, t: Tracked, names: seq<string>): Partial {
    var p := RemoveAll(fixed, t, names);
    if p.error.Some? then p else Partial(Empty, None)
  }

  /** `names` lists the keys of a mapping once each, as `keys()` does. */
  predicate Lists(names: seq<string>, keys: set<string>) {
    && (forall i, j :: 0 <= i < j < |names| ==> names[i] != names[j])
    && (set n | n in names) == keys
  }

  /** The names of a non-empty list are its first name and the names of the rest. */
  lemma NamesCons(names: seq<string>)
    requires names != []
    ensures (set m | m in names) == {names[0]} + (set m | m in names[1..])
    ensures forall m :: m in names <==> m == names[0] || m in names[1..]
  {
    assert forall m :: m in names <==> m == names[0] || m in names[1..];
  }

  /** After deleting the first of several distinct present names, the others are still present. */
  lemma {:induction false} RestStillPresent(names: seq<string>, t: Tracked)
    requires |names| > 0
    requires forall i, j :: 0 <= i < j < |names| ==> names[i] != names[j]
    requires forall n :: n in names ==> n in t.items
    ensures forall m :: m in names[1..] ==> m in t.items - {names[0]}
  {
    forall m | m in names[1..] ensures m in t.items - {names[0]} {
      var j :| 1 <= j < |names| && names[j] == m;
      assert names[0] != names[j];
    }
  }

  /**
   * Deleting every name of a list of distinct present names keeps the invariant, and
   * succeeds, removing exactly those names, unless one of them is protected.
   */
  lemma {:induction false} RemoveAllSpec(fixed: set<string>, t: Tracked, names: seq<string>)
    requires Inv(t)
    requires forall i, j :: 0 <= i < j < |names| ==> names[i] != names[j]
    requires forall n :: n in names ==> n in t.items
    ensures Inv(RemoveAll(fixed, t, names).state)
    ensures RemoveAll(fixed, t, names).error.None? <==> forall n :: n in names ==> n !in fixed
    ensures RemoveAll(fixed, t, names).error.None? ==>
      RemoveAll(fixed, t, names).state.items == t.items - (set n | n in names)
    decreases |names|
  {
    if names != [] {
      var n := names[0];
      if n !in fixed {
        var rest := Delete(t, n).value;
        DeleteSpec(t, n);
        RestStillPresent(names, t);
        RemoveAllSpec(fixed, rest, names[1..]);
        NamesCons(names);
      }
    }
  }

  /** When deleting such a list fails, it fails with InvalidField at the first protected name. */
  lemma {:induction false} RemoveAllFirstProtected(fixed: set<string>, t: Tracked, names: seq<string>)
    requires Inv(t)
    requires forall i, j :: 0 <= i < j < |names| ==> names[i] != names[j]
    requires forall n :: n in names ==> n in t.items
    ensures RemoveAll(fixed, t, names).error.Some? ==>
      exists i :: 0 <= i < |names| && names[i] in fixed
        && RemoveAll(fixed, t, names).error == Some(InvalidField(names[i]))
        && forall j :: 0 <= j < i ==> names[j] !in fixed
    decreases |names|
  {
    if names != [] && names[0] !in fixed {
      var t' := Delete(t, names[0]).value;
      DeleteSpec(t, names[0]);
      RestStillPresent(names, t);
      RemoveAllFirstProtected(fixed, t', names[1..]);
      if RemoveAll(fixed, t', names[1..]).error.Some? {
        var i :| 0 <= i < |names[1..]| && names[1..][i] in fixed
          && RemoveAll(fixed, t', names[1..]).error == Some(InvalidField(names[1..][i]))
          && forall j :: 0 <= j < i ==> names[1..][j] !in fixed;
        assert names[i + 1] == names[1..][i];
        forall j | 0 <= j < i + 1 ensures names[j] !in fixed {
          if j > 0 {
            assert names[j] == names[1..][j - 1];
          }
        }
      }
    }
  }

  /**
   * `_clean()` empties everything when no key is protected; otherwise it raises
   * InvalidField part-way.
   */
  lemma CleanSpec(fixed: set<string>, t: Tracked, names: seq<string>)
    requires Inv(t) && Lists(names, t.items.Keys)
    ensures Inv(Clean(fixed, t, names).state)
    ensures Clean(fixed, t, names).error.None? <==> t.items.Keys !! fixed
    ensures Clean(fixed, t, names).error.None? ==> Clean(fixed, t, names).state == Empty
    ensures Clean(fixed, t, names).error.Some? ==> Clean(fixed, t, names).error.value.InvalidField?
  {
    RemoveAllSpec(fixed, t, names);
    RemoveAllFirstProtected(fixed, t, names);
  }

  /**
   * After writes of the names `pairs`, all protected, deleting every key is refused
   * unless nothing was written: the case of an immutable entity built by its constructor.
   */
  lemma CleanProtected(fixed: set<string>, t: Tracked, names: seq<string>, pairs: seq<(string, PyValue)>, now: int)
    requires t == SetEach(Empty, pairs, now) && Inv(t) && Lists(names, t.items.Keys)
    requires fixed == set p | p in pairs :: p.0
    ensures Clean(fixed, t, names).error.None? <==> pairs == []
    ensures Clean(fixed, t, names).error.Some? ==> Clean(fixed, t, names).error.value.InvalidField?
  {
    CleanSpec(fixed, t, names);
    if pairs != [] {
      SetEachPresent(Empty, pairs, now);
      assert pairs[0].0 in t.items.Keys * fixed;
    }
  }
}
