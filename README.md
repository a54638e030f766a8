# lazyboy, modelled in Dafny

lazyboy is an object mapper for the Cassandra column store. A row of a column family
becomes a Python dictionary (`ColumnFamily`) that remembers the columns it was loaded
with and the names changed or deleted since, and writes only those back. A super column
family (`SuperColumnFamily`) is one such dictionary inside a super column. A
`SuperColumn` container holds the super column families of one super column and loads
them lazily, through a payload cache shared by every container class and a paging scan.
A `View` is a list of object keys stored as column values in one or more partition rows.
Objects reach the store through a connection pool that hands out one client per process,
thread and pool name. Each client proxies every call to its servers in round-robin order.

The model covers the in-memory bookkeeping of these pieces:

| module | Dafny file | Python source (under `lazyboy/`) | models |
|---|---|---|---|
| `Common` | common.dfy | (all) | `Option`, `Result`, the exceptions, truthiness, `'%s'` rendering, `a or b` |
| `PyText` | pytext.dfy | (Python 2 built-ins) | `str()` of a value (UTF-8 for `unicode`), `int()` of a string, the decimal round trip |
| `Store` | store.dfy | (the Thrift client, called from every file) | the backend: a class whose methods take their replies from oracles and append each call to a ghost `log` |
| `PrimaryKeys` | primarykey.dfy | primarykey.py | `PrimaryKey` and `DecoratedPrimaryKey` as heap objects: own attributes, a parent, delegation of the others to the parent |
| `Base` | base.dfy | base.py | `_gen_pk` (plain and super) and the `_get_cas` memo |
| `Tracking` | tracking.dfy | columnfamily.py | the state of a column family as a value, with what set, delete, update, revert and clean compute |
| `ColumnFamilies` | columnfamily.dfy | columnfamily.py, supercolumnfamily.py | the `ColumnFamily` class and its two subclasses as one class performing those steps in place, with load, marshal and save |
| `Paging` | paging.dfy | supercolumn.py | the generator `_iter_columns` as a cursor value |
| `SuperColumns` | supercolumn.dfy | supercolumn.py | the `SuperColumn` container, its payload cache, its iterators, `append`, `valid`, `missing` and `save` |
| `Connection` | connection.dfy | connection.py | the pool registries, the client's servers, round-robin selection and the transport state around a call |
| `Views` | view.dfy | view.py | the view: its constructor, `current_key`, the partition scan, the chain of partitions, loading, and `view[n]` |

Python's three column family classes are one Dafny class, `ColumnFamilies.ColumnFamily`.
Its constant `cls` records the class: a key template, the required names, and a kind
(`Plain`, `Immutable(fixed)` or `Super`). Methods dispatch on that kind as Python
dispatches on the subclass. A view's attributes are set once, so a view is a datatype.
Each generator is modelled in one of two ways:

- as a cursor whose `next()` is a method (`_iter_columns`);
- as the effect of running it to the end or for one step (the view scans).

### Behaviour as written

The model follows the code, including where the code does not do what its own comments
and docstrings promise. The one exception is a set of names the code uses without binding
them (`PrimaryKey`, `cassandra`, `ErrorThriftMessage`): as written each use raises
NameError, and the model gives each use its evident meaning instead, as "## Left out"
lists member by member.

- **A write is always recorded.** The comment at lazyboy/columnfamily.py:66 says that a
  write that changes nothing is not recorded. The test `item in self._original`
  (lazyboy/columnfamily.py:67) compares a name with a list of `Column` records, so it
  never holds, and every write is tracked.
- **`ColumnFamily.save` never removes.** The test `dlt in self._original`
  (lazyboy/columnfamily.py:111) never holds either, so the deletions announced by the comment at
  lazyboy/columnfamily.py:106 are never sent.
- **`revert` keeps edits of loaded names.** The docstring at lazyboy/columnfamily.py:124
  promises the state as loaded. But `revert` files the very `Column` records of
  `_original` in `_columns`, and `__setitem__` changes those records in place. A write
  to a loaded name therefore also rewrites the snapshot, and a later `revert` restores
  the new value, not the loaded one (`Tracking.RevertKeepsEdits`).
- **An immutable column family writes its fixed values tracked.** The constructor writes
  them with `ColumnFamily.__setitem__`, so they are pending as modifications like any
  other write.
- **An immutable column family with fixed values cannot be loaded.** `load` starts with
  `_clean`, which deletes every key. The subclass refuses to delete its fixed names, so
  `load` raises `InvalidField` (`Views.Materialize`).
- **A super column family refuses to marshal pending deletes.** `_marshal` looks each
  deleted name up in `_columns`, which `__delitem__` already emptied of it. Any pending
  delete therefore raises `KeyError` in `save` and in the container's `save`.
- **The container writes whenever it has a child.** The container's `save` builds its map
  with one (possibly empty) list per child's super column. `batch_insert_super_Column`
  is called whenever that map has a key, that is whenever there is a child, even when
  nothing changed.
- **`limit=None` stops `_iter_columns` after one item.** Under Python 2,
  `returned >= None` holds. `load_all`, `__iter__` and the `iter*` methods therefore
  see at most one super column each.
- **A view's partition scan repeats boundary values.** `offset` is assigned but never
  used. Each page after the first starts at the last column of the one before, and that
  column's value is yielded twice (`Views.BoundaryTwice`).
- **A view's page size is fixed at 100.** The view's `limit` attribute is not consulted.

## Model

| member | source | states |
|---|---|---|
| `Common.Or` | lazyboy/base.py:35 | `a or b` is one of its operands, it is truthy iff either operand is, and it is `a` whenever `a` is truthy |
| `PyText.EncodeChar` | lazyboy/columnfamily.py:63-64 | each code point encodes to one to four bytes, one byte exactly for ASCII, which encodes to itself |
| `PyText.Utf8` | lazyboy/columnfamily.py:63-64 | encoding a text yields a byte string |
| `PyText.Utf8OfAscii` | lazyboy/columnfamily.py:63-65 | ASCII text is unchanged by the encoding, so `str(u'...')` of ASCII text is the same text |
| `PyText.Utf8Length` | lazyboy/columnfamily.py:63-64 | the encoding is at least as long as the text and at most four times as long |
| `PyText.Digits` | lazyboy/columnfamily.py:65 | the decimal rendering of a natural number is a non-empty run of digits |
| `PyText.DigitsValueOfDigits` | lazyboy/columnfamily.py:65 | reading back the digits of `n` gives `n` |
| `PyText.Str` | lazyboy/columnfamily.py:63-65 | `str(value)` after the `unicode` check keeps a byte string as it is and turns a `unicode` text into bytes |
| `PyText.StripLeft` | lazyboy/connection.py:55 | stripping leading blanks leaves no blank at the front |
| `PyText.StripRight` | lazyboy/connection.py:55 | stripping trailing blanks leaves no blank at the end |
| `PyText.DecimalUnstripped` | lazyboy/connection.py:55 | a decimal rendering has no surrounding blanks |
| `PyText.ParseUnsigned` | lazyboy/connection.py:55 | `int()` of a run of digits is its value |
| `PyText.ParseMinus` | lazyboy/connection.py:55 | `int()` of a minus sign before digits is the negated value |
| `PyText.ParseSignBlanks` | lazyboy/connection.py:55 | `int()` skips any blanks between the sign and the digits, as Python 2 does: `int('- 9160') == -9160`, `int('+ 9160') == 9160` |
| `PyText.ParseNatural` | lazyboy/connection.py:55 | `int(str(i)) == i` for `i >= 0` |
| `PyText.ParseNegative` | lazyboy/connection.py:55 | `int(str(i)) == i` for `i < 0` |
| `PyText.DecimalRoundTrip` | lazyboy/connection.py:55 | `int(str(i)) == i` for every integer, so a numeric port survives the text of a server entry |
| `PrimaryKeys.Init` | lazyboy/primarykey.py:12-16 | construction succeeds iff the arguments name `table` and `key`, no unknown parameter, and not exactly one of `supercol`/`superkey` truthy; exactly one raises IncompleteKey; each attribute then reads back as passed and omitted ones are `None` |
| `PrimaryKeys.Key.Primary` | lazyboy/primarykey.py:12-16 | a new key without parent holding exactly the given attributes |
| `PrimaryKeys.Key.Decorated` | lazyboy/primarykey.py:46-49 | a new key whose parent is the given key and whose own attributes are exactly the overrides; no pairing check is made |
| `PrimaryKeys.Key.Repr` | lazyboy/primarykey.py:46-49 | the chain of a key holds the key and only well-formed keys no deeper than it |
| `PrimaryKeys.Key.Get` | lazyboy/primarykey.py:51-59 | an attribute the key holds itself is answered from its own attributes; failure is AttributeError for that name |
| `PrimaryKeys.GetKnown` | lazyboy/primarykey.py:51-59 | reading an attribute succeeds iff some key on the chain holds it; otherwise AttributeError |
| `PrimaryKeys.ReadsThrough` | lazyboy/primarykey.py:51-56 | an attribute not overridden below an ancestor reads the ancestor's value, through any depth of clones |
| `PrimaryKeys.Key.Clone` | lazyboy/primarykey.py:41-43 | `clone(**kw)` is a new decorated key whose parent is this key and whose own attributes are the overrides; the parent is unchanged |
| `PrimaryKeys.Key.IsSuper` | lazyboy/primarykey.py:18-21 | `is_super()` is truthy iff both `supercol` and `superkey` are truthy; its value is one of the two; AttributeError when one is unreadable |
| `PrimaryKeys.Key.Colspec` | lazyboy/primarykey.py:23-28 | `colspec()` is `family + ":"`, followed by `supercol + ":" + superkey` exactly when both are truthy |
| `Base.GenPk` | lazyboy/base.py:33-36 | `_gen_pk(key)` succeeds iff the template with `key` makes a valid key; every template attribute is copied, and `key` is the argument when truthy, else the fresh id, whatever the template says |
| `Base.GenSuperPk` | lazyboy/supercolumnfamily.py:18-22 | as `GenPk`, with `superkey` the argument when truthy, else the fresh id; it succeeds iff the template has a truthy `supercol` |
| `Base.SuperNeedsSupercol` | lazyboy/supercolumnfamily.py:18-22 | a super column family whose template lacks `supercol` always fails with IncompleteKey, because a superkey is always supplied |
| `Base.CassandraBase.constructor` | lazyboy/base.py:18-19 | a new object has no memoised client |
| `Base.CassandraBase.GetCas` | lazyboy/base.py:21-31 | UnknownTable when neither the argument nor `pk.table` names a table; an explicit table wins; a memoised client is returned without asking the pool; otherwise the pool's client is remembered, and a failure remembers nothing |
| `Tracking.SetSpec` | lazyboy/columnfamily.py:61-81 | after `self[k] = v` the mapping holds `str(v)`, `_columns[k]` is a record with that text and the time, `k` is modified and not deleted, other records are unchanged, and the invariant holds |
| `Tracking.Delete` | lazyboy/columnfamily.py:83-84 | deleting an absent name raises KeyError for that name, and only then |
| `Tracking.DeleteSpec` | lazyboy/columnfamily.py:83-87 | after `del self[k]` the name is gone from the mapping and `_columns`, is deleted and not modified, and the invariant holds |
| `Tracking.PendingDisjoint` | lazyboy/columnfamily.py:78-87 | no name is pending both as modified and as deleted |
| `Tracking.Restored` | lazyboy/columnfamily.py:125-127 | `revert`'s loop leaves `_original` and the pending sets alone |
| `Tracking.RevertSpec` | lazyboy/columnfamily.py:123-129 | after `revert()` each name of `_original` holds the value of its last record there and `_columns` holds that record; other names keep their values; nothing is pending |
| `Tracking.RevertKeepsEdits` | lazyboy/columnfamily.py:76-81 | a write to a loaded name after `revert` also changes the shared record of `_original`, so a second `revert` yields the written value |
| `Tracking.LastIndex` | lazyboy/columnfamily.py:125-127 | the record of a name that `revert` keeps is its last one in `_original` |
| `Tracking.Missing` | lazyboy/columnfamily.py:38-41 | `missing()` lists no more names than `_required`; it is all of `_required` when no required name holds a value, and empty when every one does |
| `Tracking.MissingSpec` | lazyboy/columnfamily.py:34-41 | a name is missing iff it is required and absent or `None`; `valid()` iff nothing is missing |
| `ColumnFamilies.ColumnFamily.Missing` | lazyboy/columnfamily.py:38-41 | a name is in `missing()` iff it is required and absent or `None` |
| `ColumnFamilies.ColumnFamily.IsValid` | lazyboy/columnfamily.py:34-36 | `valid()` iff every required name holds a value other than `None` |
| `Tracking.IsModified` | lazyboy/columnfamily.py:131-132 | `is_modified()` iff a write or a delete is pending |
| `ColumnFamilies.ColumnFamily.IsModified` | lazyboy/columnfamily.py:131-132 | `is_modified()` of an object iff a write or a delete is pending on it |
| `Tracking.ChangedSpec` | lazyboy/columnfamily.py:114-116 | the records sent are exactly those of the modified names, and none are sent iff nothing is modified |
| `Tracking.MarshalFailsSpec` | lazyboy/supercolumnfamily.py:37 | `_marshal` fails iff a delete is pending |
| `Tracking.AssignAllSpec` | lazyboy/columnfamily.py:50-59 | `update` equals the sequence of single writes when no name is protected; otherwise it raises InvalidField at the first protected name and keeps the writes before it |
| `Tracking.AssignAllInv` | lazyboy/columnfamily.py:50-59 | `update` keeps the invariant, whether it completes or stops |
| `Tracking.SetEachPresent` | lazyboy/columnfamily.py:141-144 | a sequence of writes removes no name and leaves every written name present |
| `Tracking.RemoveAllSpec` | lazyboy/columnfamily.py:45 | deleting each of the keys keeps the invariant, and succeeds, removing exactly those names, iff none is protected |
| `Tracking.RemoveAllFirstProtected` | lazyboy/columnfamily.py:45 | when deleting the keys fails, it is InvalidField at the first protected name |
| `Tracking.CleanSpec` | lazyboy/columnfamily.py:43-48 | `_clean()` empties the mapping, `_original`, `_columns` and both pending sets when no key is protected; otherwise it raises InvalidField |
| `Tracking.CleanProtected` | lazyboy/columnfamily.py:43-48 | after the fixed values of an immutable class are written, `_clean()` is refused iff there was one |
| `ColumnFamilies.DeleteEach` | lazyboy/columnfamily.py:45 | the loop `map(self.__delitem__, keys)` computes the sequence of deletions, stopping at the first exception |
| `ColumnFamilies.ColumnFamily.New` | lazyboy/columnfamily.py:23-32 | construction fails with the key error, or with the first refused write of `update`; otherwise the object is keyed by `_gen_pk()` and holds the writes of `update`, then (for an immutable class) its fixed values |
| `ColumnFamilies.ColumnFamily.Track` | lazyboy/columnfamily.py:61-81 | `ColumnFamily.__setitem__` performs `Tracking.Set` in place and keeps the object valid |
| `ColumnFamilies.ColumnFamily.TrackEach` | lazyboy/columnfamily.py:141-144 | the writes of the fixed values, one by one, in order |
| `ColumnFamilies.ColumnFamily.Set` | lazyboy/columnfamily.py:146-151 | a write is refused with InvalidField, changing nothing, iff the name is protected; otherwise it is a tracked write |
| `ColumnFamilies.ColumnFamily.Delete` | lazyboy/columnfamily.py:153-158 | a delete is refused with InvalidField for a protected name, KeyError for an absent one, and otherwise is `Tracking.Delete`; a refused delete changes nothing |
| `ColumnFamilies.ColumnFamily.Update` | lazyboy/columnfamily.py:50-59 | `update(arg, **kw)` performs the writes of `arg` then of `kw`, stopping at the first refused one |
| `ColumnFamilies.ColumnFamily.Revert` | lazyboy/columnfamily.py:123-129 | the loop of `revert()` reaches `Tracking.Revert` of the state before it |
| `ColumnFamilies.ColumnFamily.Clean` | lazyboy/columnfamily.py:43-48 | `_clean()` in place reaches `Tracking.Clean` of the state before it |
| `ColumnFamilies.ColumnFamily.Rekey` | lazyboy/columnfamily.py:90 | replacing `pk` changes nothing else |
| `ColumnFamilies.ColumnFamily.Reload` | lazyboy/columnfamily.py:93-97 | after the page is stored as `_original`, the state is the revert to that page |
| `ColumnFamilies.ColumnFamily.Load` | lazyboy/columnfamily.py:89-98 | `load(key)` cleans, takes a new key from `key` or a fresh id, makes exactly one request for the first 100 columns of its row, and reverts to the page; a refused clean or key makes no request; a super column family raises TypeError |
| `ColumnFamilies.ColumnFamily.LoadSuper` | lazyboy/supercolumnfamily.py:24-30 | `load(key, superkey, cols)` makes no request: a new key, and the revert to `cols`, so nothing is pending; TypeError for a class that is not a super column family |
| `ColumnFamilies.ColumnFamily.Marshal` | lazyboy/supercolumnfamily.py:32-39 | `_marshal()` is the bundle named `pk.superkey` holding exactly the records of the modified names; KeyError whenever a delete is pending |
| `ColumnFamilies.ColumnFamily.Save` | lazyboy/columnfamily.py:100-121 | an invalid object raises MissingField with `missing()` and makes no request; a valid one makes one `batch_insert` of the modified records under `pk.family`, or none when nothing is modified, and returns itself |
| `ColumnFamilies.ColumnFamily.SaveSuper` | lazyboy/supercolumnfamily.py:41-57 | no validity check; KeyError with no request when a delete is pending; otherwise one `batch_insert_superColumn` of the bundle under `pk.supercol` when it holds records, none otherwise |
| `Paging.Cap` | lazyboy/supercolumn.py:86-90 | counting from one, the limit is reached exactly from this count on; with `limit=None` that is the first item |
| `Paging.Receive` | lazyboy/supercolumn.py:79-85 | an empty page ends the scan; otherwise the loop starts on the page without its first `fudge` items; the invariant is kept |
| `Paging.Take` | lazyboy/supercolumn.py:85-90 | each yield counts one item, binds it as `scol`, and ends the scan iff the limit is reached |
| `Paging.EndPage` | lazyboy/supercolumn.py:91-93 | after a page, `start` is the last yielded name (UnboundLocalError if none ever was) and the scan ends iff the page is shorter than `chunk_size` |
| `Paging.Pump` | lazyboy/supercolumn.py:78-93 | running without yielding keeps the count and the invariant, and fails only with UnboundLocalError |
| `Paging.Yielding` | lazyboy/supercolumn.py:85-88 | a `next()` that yields counts one more item and leaves it bound as `scol` |
| `Paging.RequestsNone` | lazyboy/supercolumn.py:80-82 | without a page the scan makes no request |
| `Paging.PumpAppend` | lazyboy/supercolumn.py:78-93 | a scan that needs a page makes exactly one more request, from where it stood, asking for `chunk_size + fudge` |
| `Paging.DefaultLimitYieldsOne` | lazyboy/supercolumn.py:75-90 | with `limit=None` the scan is over once it has yielded one item |
| `Paging.ResumesAtLastYielded` | lazyboy/supercolumn.py:79-91 | every request after the first starts at the last yielded name, asks for one more than `chunk_size` and drops the first item |
| `SuperColumns.PayloadCache.constructor` | lazyboy/supercolumn.py:17 | the cache starts empty |
| `SuperColumns.SuperColumn.New` | lazyboy/supercolumn.py:19-21 | an empty container keyed by `_gen_pk()`, or the key's error; a class without `_key`, `SuperColumn` itself among them, raises AttributeError |
| `SuperColumns.SuperColumn.SetItem` | lazyboy/supercolumn.py:33-34 | `sc[x] = y` raises NotSupported and changes nothing |
| `SuperColumns.SuperColumn.Build` | lazyboy/supercolumn.py:51 | `family().load(key, superkey, cols)` succeeds iff the family is a super column family whose key can be made, and holds `cols` with nothing pending |
| `SuperColumns.SuperColumn.ClonedInstance` | lazyboy/supercolumn.py:52 | a child re-keyed by the clone reads the container's table, key and family, this super column and its own superkey |
| `SuperColumns.SuperColumn.Instantiate` | lazyboy/supercolumn.py:49-53 | `_instantiate(sk, cols)` is a new child whose key names the container's table and row, this super column and `sk`, and whose `_original` is `cols` |
| `SuperColumns.SuperColumn.LoadOne` | lazyboy/supercolumn.py:36-47 | a cache hit makes no request; a miss makes exactly one `get_superColumn` and caches its answer under `colspec():superkey`; the child is built from that payload |
| `SuperColumns.SuperColumn.GetItem` | lazyboy/supercolumn.py:55-61 | a stored child is returned with no request and nothing changed; a `None` superkey raises TypeError; otherwise `_load_one` runs: on a cache hit with no request and the cache unchanged, on a miss with exactly one `get_superColumn` request for `supercol:superkey`, whose reply becomes the one new cache entry; its child, if it can be built, is stored and returned, so the next read returns the same object |
| `SuperColumns.SuperColumn.File` | lazyboy/supercolumn.py:59 | the child is filed under its superkey and the container stays valid |
| `SuperColumns.SuperColumn.Adopt` | lazyboy/supercolumn.py:29-30 | the child built from an item is filed under its name, replacing any child there |
| `SuperColumns.SuperColumn.CountRemote` | lazyboy/supercolumn.py:63-66 | `__len_db__` is one `get_column_count` request for this super column |
| `SuperColumns.SuperColumn.NextColumn` | lazyboy/supercolumn.py:75-93 | one `next()` of `_iter_columns` makes the requests of `Paging.Requests` and returns `Paging.Outcome`; the item it yields, and only that, is cached under its superkey |
| `SuperColumns.SuperColumn.LoadNext` | lazyboy/supercolumn.py:28-30 | one pass of `load_all` makes the scan's requests and caches the item it yields, and only that item; it raises the scan's error, ends when the scan ends, and otherwise builds an instance of this container from the item's name and columns, filed under that name in place of any child there, which succeeds iff the child can be built (with `_instantiate`'s error otherwise); nothing else is filed |
| `SuperColumns.SuperColumn.LoadAll` | lazyboy/supercolumn.py:26-31 | `load_all()` keeps every child and adds at most one, because the scan runs with `limit=None` |
| `SuperColumns.SuperColumn.NextChild` | lazyboy/supercolumn.py:106-113 | each item of `__iter__` is the child already filed under its name, or a new child built from it, which is then filed; the scan's requests are the only ones, and the yielded item, and only it, is cached |
| `SuperColumns.SuperColumn.NextKey` | lazyboy/supercolumn.py:95-96 | each item of `iterkeys` is the name of the next item of the scan; no child is stored; the yielded item, and only it, is cached |
| `SuperColumns.SuperColumn.NextValue` | lazyboy/supercolumn.py:98-99 | each item of `itervalues` is `self[name]`; the scan has just cached the payload, so the only requests are the scan's, and the yielded item, and only it, is cached |
| `SuperColumns.SuperColumn.NextItem` | lazyboy/supercolumn.py:101-103 | one `next()` of `iteritems` makes the scan's requests; it raises the scan's error, ends when the scan ends, and otherwise yields the next name with `self[name]`: the stored child without a build, or a new child of this container, filed under the name, which succeeds iff the child can be built; the yielded item, and only it, is cached |
| `SuperColumns.SuperColumn.Append` | lazyboy/supercolumn.py:115-127 | `append(cf)` re-keys `cf` with a clone naming this super column and `cf`'s own superkey, files it there, and grows the container by one for a new superkey |
| `SuperColumns.SuperColumn.Missing` | lazyboy/supercolumn.py:132-134 | `missing()` maps only invalid children, each to its non-empty `missing()` |
| `SuperColumns.SuperColumn.NothingMissing` | lazyboy/supercolumn.py:129-134 | `valid()` iff `missing()` is empty, so an empty container is valid |
| `SuperColumns.SuperColumn.IsValid` | lazyboy/supercolumn.py:129-130 | the container's `valid()` iff every required name of every child holds a value other than `None`; an empty container is valid |
| `SuperColumns.SuperColumn.KidsMembers` | lazyboy/supercolumn.py:139-141 | every child iterated is well formed and names this super column |
| `SuperColumns.SuperColumn.OneSupercol` | lazyboy/supercolumn.py:139 | the children name one `supercol` between them: the container's name |
| `SuperColumns.SuperColumn.EmptyLists` | lazyboy/supercolumn.py:138-139 | `save()`'s map has one empty list, under the container's name, iff there is a child |
| `SuperColumns.SuperColumn.Save` | lazyboy/supercolumn.py:136-156 | `save()` succeeds iff no modified child lacks `_marshal` (is not a super column family) or has a pending delete; then it makes exactly one `batch_insert_super_Column` of the bundles of the modified children, in order, iff there is a child, and returns itself; a failure makes no request |
| `SuperColumns.Write` | lazyboy/supercolumn.py:141-155 | the loop, then one batch of the whole map iff there is a child; nothing is sent when a child refuses |
| `SuperColumns.AcceptsEach` | lazyboy/supercolumn.py:141-145 | the loop goes through iff no child makes `_marshal` raise |
| `SuperColumns.Refused` | lazyboy/supercolumn.py:141-145 | one child that makes `_marshal` raise stops every longer loop |
| `SuperColumns.Step` | lazyboy/supercolumn.py:142-145 | one pass appends a modified child's bundle to the list of its super column, or raises |
| `SuperColumns.Collect` | lazyboy/supercolumn.py:141-145 | the loop appends the bundle of each modified child, in order, to the list of the super column, and raises iff some modified child lacks `_marshal` or has a pending delete |
| `SuperColumns.Advance` | lazyboy/supercolumn.py:78-93 | the requests a scan makes up to its next yield are `Paging.Requests`, one per page, and the state it reaches is `Paging.Pump` |
| `Connection.Split` | lazyboy/connection.py:48 | `split(":")` gives at least one piece, none holding a colon |
| `Connection.JoinSplit` | lazyboy/connection.py:48 | splitting loses nothing: joining the pieces gives the entry back |
| `Connection.Addresses` | lazyboy/connection.py:45-51 | a client keeps at most one server per entry |
| `Connection.AddressesStep` | lazyboy/connection.py:47-49 | each entry adds its server, or nothing when its port does not convert |
| `Connection.AddressesOfNumericPorts` | lazyboy/connection.py:45-63 | when every port is numeric, each entry gives its server, in order |
| `Connection.ThriftText` | lazyboy/connection.py:88-91 | the message of a Thrift error, or "Transport error, reconnect" when it has none |
| `Connection.ProxyOutcomes` | lazyboy/connection.py:79-117 | only a reply leaves the transport open; an open transport is used without an open attempt; every failure closes it; a call returns `None` iff the open failed with a non-Thrift error |
| `Connection.Pick` | lazyboy/connection.py:71 | the cursor selects a valid server index |
| `Connection.Rotation` | lazyboy/connection.py:71-72 | successive calls select the cursor modulo the server count, one after the other |
| `Connection.RoundRobin` | lazyboy/connection.py:67-74 | any `n` successive calls among `n` servers select each server exactly once |
| `Connection.AddressesOf` | lazyboy/connection.py:76-77 | the addresses of a client's servers, in order |
| `Connection.Endpoint.constructor` | lazyboy/connection.py:55-60 | a server's transport starts closed |
| `Connection.Client.Empty` | lazyboy/connection.py:46 | a client starts with no servers and the cursor at 0 |
| `Connection.Client.New` | lazyboy/connection.py:45-51 | `Client(entries)` raises ValueError iff some entry does not split into exactly two parts; otherwise its servers are `Addresses(entries)`, all closed, and the cursor is 0 |
| `Connection.Client.AddServer` | lazyboy/connection.py:53-65 | a server is appended iff its port converts with Python 2's `int()` (blanks around the number and after its sign allowed); a failure is swallowed |
| `Connection.Client.Select` | lazyboy/connection.py:67-74 | `_getServer` returns the server at the cursor modulo the count and advances the cursor by one; with no servers it divides by zero |
| `Connection.Client.Connect` | lazyboy/connection.py:79-97 | `_connect`: true with no attempt when open; true when the open succeeds; a Thrift error closes and raises its message; any other error closes and returns false |
| `Connection.Client.Invoke` | lazyboy/connection.py:99-117 | a proxied call advances the cursor exactly once, changes only the selected server's transport, and ends as `Connection.Proxy` says, with no retry |
| `Connection.Pools.constructor` | lazyboy/connection.py:23-24 | both registries start empty |
| `Connection.Pools.AddPool` | lazyboy/connection.py:27-29 | `add_pool` replaces the server list of the name and leaves cached clients alone |
| `Connection.Pools.GetPool` | lazyboy/connection.py:32-41 | a cached client is returned unchanged; otherwise a new client is built and cached iff the name is registered and its entries are well formed; any failure is ClientNotFound and caches nothing |
| `Views.New` | lazyboy/view.py:19-23 | the view is keyed by `_gen_pk()` with a fresh id and keeps the four arguments; a class without `_key` raises AttributeError |
| `Views.CurrentKey` | lazyboy/view.py:29-38 | `current_key()` is the first partition key; with none, IndexError for a sequence and StopIteration for a generator |
| `Views.NoCurrentKey` | lazyboy/view.py:25-33 | with the default `view_keys()` the IndexError propagates |
| `Views.ScannedPrefix` | lazyboy/view.py:44-52 | the values of the pages so far lead the values of the whole scan |
| `Views.ScannedAt` | lazyboy/view.py:49 | column `j` of page `i` is yielded at the position after all earlier pages' values |
| `Views.BoundaryTwice` | lazyboy/view.py:43-50 | when a page starts with the column the previous page ended with, its value is yielded twice in a row |
| `Views.ScanPartition` | lazyboy/view.py:40-52 | the scan asks for 100 columns per page, each page from the last column name; it ends after an empty or short page, yielding every value of every page in order |
| `Views.ScanKeys` | lazyboy/view.py:54-60 | `_iter_keys` is the scans of the partitions, in `view_keys()` order, chained; with no partition it yields nothing and makes no request |
| `Views.ChainedPrefix` | lazyboy/view.py:56-58 | the keys of the first partitions lead the keys of all |
| `Views.ChainedEmpty` | lazyboy/view.py:56-58 | partitions whose first page is empty contribute no key |
| `Views.EmptyFirstPage` | lazyboy/view.py:48 | a scan whose first page is empty yields nothing |
| `Views.ProbesStartScans` | lazyboy/view.py:45-47 | the first request of each partition in a fresh iteration is the first request of its full scan |
| `Views.ChainedHead` | lazyboy/view.py:56-58 | the first key of the view comes from the first partition whose first page is not empty |
| `Views.ChainedLast` | lazyboy/view.py:56-58 | after partitions that yielded nothing, the next partition's scan leads the chain |
| `Views.ScannedHead` | lazyboy/view.py:49 | a scan whose first page is not empty yields that page's first value first |
| `Views.FirstIsHead` | lazyboy/view.py:54-64 | a fresh iteration yields a key iff the full chain is not empty, and that key is the chain's first |
| `Views.FirstKey` | lazyboy/view.py:54-60 | the first `next()` of `_iter_keys` asks each partition for its first page until one is not empty, and yields its first value, or raises StopIteration |
| `Views.Enumerate` | lazyboy/columnfamily.py:45 | `keys()` lists each key of the mapping once |
| `Views.Materialize` | lazyboy/view.py:64 | `family().load(key)`: a plain family loads with one request; a super column family raises TypeError; an immutable family loads iff it has no fixed values, and otherwise raises InvalidField; a failure makes no request |
| `Views.First` | lazyboy/view.py:62-64 | `self.__iter__().next()` is the first key of a fresh iteration, loaded |
| `Views.GetItem` | lazyboy/view.py:76-82 | `view[n]` makes `max(n, 0) + 1` fresh starts, each probing from the first partition and loading the first key; it returns the first object whatever `n` is; an empty view raises StopIteration at the first start |
| `Views.EachLoadedAt` | lazyboy/view.py:64 | the objects of a run are, one by one, the objects loaded for the keys at the same place |
| `Views.LoadNext` | lazyboy/view.py:64 | the next object of `__iter__` is `family().load` of the next key, by its own request |
| `Views.LoadEach` | lazyboy/view.py:62-64 | each key gives, in order, the object loaded for it by one request; the first failure stops the run |
| `Views.Iterate` | lazyboy/view.py:54-64 | `list(view)`: when every partition scan ends, one object per chained key, loaded for that key, in order |

## Left out

- Thrift sockets, transports and protocols (lazyboy/connection.py:53-61, 81-95). A server's transport is an open flag, and each open attempt and each proxied call is answered by an outcome parameter.
- Backend semantics. `Store.Cassandra` answers reads from oracle functions fixed at construction and records every call in a ghost log. Nothing is said about what the store keeps.
- `uuid4` ids and `time.time()`. Each operation takes one opaque 32-character id, used for every draw it makes, and one integer time. Nothing is claimed about uniqueness or monotonicity.
- Process and thread identity in the pool key (lazyboy/connection.py:33). It is an opaque string parameter, and concurrency is not modelled.
- `_get_cas` inside the entities. Column families, containers and views take the client it returns as a parameter. `Base.CassandraBase.GetCas` models the memo on its own.
- `PrimaryKeys.Key`: attributes are constants. Nothing in the library assigns a key attribute after construction. A clone reads its parent's attributes (`PrimaryKeys.ReadsThrough`), but a parent attribute assigned after cloning (tests/test_primarykey.py:79-86) cannot be expressed, so a snapshot copy would satisfy the same contracts.
- `PrimaryKeys.Init`: the attribute `self` that `vars()` also copies into the object (lazyboy/primarykey.py:16) is not an attribute of the model; no key field is named `self`, so nothing reads it.
- `__str__`, `__unicode__` and `__repr__` of keys (lazyboy/primarykey.py:30-39) are Python dictionary formatting and are not modelled. `__hasattr__` (lazyboy/primarykey.py:61-62) is `GetKnown`'s condition.
- `_iter_time`, `_iter_days` and `View.append` (lazyboy/view.py:66-74, 84-90) use calendar arithmetic, `strftime`, md5 and float time. They are not modelled.
- `view_keys()` of a subclass is given as its list of keys, with a flag saying whether it is indexable. Closing the generator in `current_key` has no visible effect here.
- `SuperColumn.load` (lazyboy/supercolumn.py:23-24) returns `self` and `__len_loaded__` (lazyboy/supercolumn.py:68-73) is `len(dict)`; the model has no member for either.
- Dictionary iteration order. Payloads whose order the code does not fix (the changed records of a save, a bundle's columns) are sets. Where order matters (`_clean`'s deletions, the container's `values()`), the order is a parameter.
- The removal calls of both `save` methods are never reached: see "Behaviour as written". The model has no `remove` call.
- `SuperColumns.SuperColumn.NextColumn` and the other cursor steps take a `fuel` bound on the requests of one `next()`. A scan whose pages hold only the boundary item loops forever; past `fuel` requests the step returns `Exhausted`, which the library never raises. `Views.ScanPartition`, `Views.ScanKeys` and `Views.Iterate` take the same bound per partition.
- `SuperColumns.SuperColumn.LoadAll`: does not state which child is added. It states only that the old children remain and at most one is added.
- `Views.Iterate`: does all the scans first and the loads after, while the generators interleave a load after each key. When every load succeeds the log holds the same requests in another order; when a load fails, the source stops at that key while the model has already scanned every partition, so the model's log holds more requests. Since `Store.Cassandra` answers by arrival order, the replies the model assigns to later requests can also differ from the source's.
- `Views.LoadEach`: does not state that each object returned is newly allocated.
- `Views.Iterate`: does not state that the objects returned are newly allocated.
- Unbound names. Several modules use a name they never bind: `PrimaryKey` at lazyboy/supercolumnfamily.py:21 (the module imports only `CassandraBase` and the names of `lazyboy.columnfamily`, which has none by that name); `cassandra` at lazyboy/supercolumnfamily.py:38,47,55, lazyboy/supercolumn.py:66,138,150 and lazyboy/view.py:46,88 (`from cassandra.ttypes import ...` binds the imported names, not the package); `ErrorThriftMessage` at lazyboy/connection.py:93,112, defined nowhere in the library. As written each of these raises NameError when reached, so `SuperColumnFamily()` never constructs, `_marshal` raises whenever no delete is pending, the container's `save` and `__len_db__` always raise, the view's partition scan raises before its first request, and a Thrift error surfaces as NameError. The model assumes these names are bound to what they evidently mean: the key class, the Thrift types module and the mapper's Thrift message exception (`ThriftMessage`). The members below are the ones whose path reaches such a use.
- `Base.GenSuperPk`: assumes `PrimaryKey` is bound at lazyboy/supercolumnfamily.py:21; as written every call raises NameError.
- `Base.SuperNeedsSupercol`: states IncompleteKey for a template without `supercol`; as written the unbound `PrimaryKey` raises NameError first.
- `ColumnFamilies.ColumnFamily.Marshal`: assumes `cassandra.SuperColumn` is bound at lazyboy/supercolumnfamily.py:38; as written `_marshal` raises NameError whenever no delete is pending (KeyError when one is).
- `ColumnFamilies.ColumnFamily.SaveSuper`: assumes `cassandra` is bound at lazyboy/supercolumnfamily.py:38,47,55; as written it raises NameError through `_marshal` whenever no delete is pending.
- `ColumnFamilies.ColumnFamily.New`: for the `Super` kind, assumes `PrimaryKey` is bound; as written `SuperColumnFamily()` raises NameError, and so do `SuperColumns.SuperColumn.Build` and every member that builds a child through it (`Instantiate`, `LoadOne`, `GetItem`, `Adopt`, `LoadNext`, `LoadAll`, `NextChild`, `NextValue`, `NextItem`).
- `SuperColumns.SuperColumn.CountRemote`: assumes `cassandra.ColumnParent` is bound at lazyboy/supercolumn.py:66; as written `__len_db__` raises NameError before any request.
- `SuperColumns.SuperColumn.Save`: assumes `cassandra.BatchMutationSuper` is bound at lazyboy/supercolumn.py:138; as written `save()` raises NameError before its loop and makes no request.
- `Views.ScanPartition`: assumes `cassandra.ColumnParent` is bound at lazyboy/view.py:46; as written the scan raises NameError before its first request, and so do `Views.ScanKeys`, `Views.FirstKey`, `Views.First`, `Views.GetItem` and `Views.Iterate` once a partition is scanned.
- `Connection.Client.Connect`: raises `ThriftMessage` where lazyboy/connection.py:93 names the undefined `ErrorThriftMessage`; as written a Thrift error on open surfaces as NameError.
- `Connection.Client.Invoke`: returns `ThriftMessage` where lazyboy/connection.py:112 names the undefined `ErrorThriftMessage`; as written a Thrift error in a call surfaces as NameError.
- `SuperColumns.PayloadCache`: holds payloads as values. In the source the cache holds the Thrift record itself, `_instantiate` hands its column list to the child as `_original` (lazyboy/supercolumn.py:47,30,111 with lazyboy/supercolumnfamily.py:28), `revert` files those same `Column` objects in `_columns` (lazyboy/columnfamily.py:127) and `__setitem__` changes them in place (lazyboy/columnfamily.py:81). A write to a loaded name of a child therefore also rewrites the cache entry, and a later cache hit for that key, from any container or row (the cache key omits the row), builds its child from the edited values. The model does not capture this aliasing.
- `SuperColumns.SuperColumn.LoadOne`: the child's records are copies of the cached payload, not the cached objects themselves (see `SuperColumns.PayloadCache` above); the same holds for `NextChild`, `NextValue`, `LoadAll` and `Adopt`. Nor does the model force every container to share one cache, as the single class attribute at lazyboy/supercolumn.py:17 does: the cache is a constructor argument.
- `Store.Cassandra`: its calls never fail. In the source a backend exception propagates out of `load`, `_load_one`, `save` and the scans (lazyboy/connection.py:113-115 re-raises it after closing the transport); the model's entities never see such a failure. `Connection.Client.Invoke` models the failing call on its own. Nor do they see the `None` a proxied call returns when `_connect` swallows a non-Thrift failure to open (lazyboy/connection.py:94-97 with :103). As written that reply makes `load` store `_original = None`, so `revert` raises TypeError (lazyboy/columnfamily.py:94-97,125). It makes `_iter_columns` end silently at `if not scols` (lazyboy/supercolumn.py:83). It makes `_load_one` cache `None` and raise AttributeError at `scol.columns`, and every later hit on that cache key does the same (lazyboy/supercolumn.py:40-47). And it makes the view scan raise TypeError at `len(cols)` (lazyboy/view.py:48). The store's replies are always well formed.
- `Connection.Client.AddServer`: a `unicode` server entry whose port is written in non-ASCII decimal digits, which Python 2's `int()` converts, is treated as a port that does not convert; ports are read as ASCII text.
- `PyText.PyValue`: holds byte strings, `unicode` texts, integers, booleans and `None`. `str(value)` at lazyboy/columnfamily.py:65 accepts any Python value, and floats and arbitrary objects, whose `str()` is their own `__str__`, are not modelled.
- The older copy of the library under `src/` (`object.py`, `cassandra.py`) repeats this code line for line and is not part of this model.
