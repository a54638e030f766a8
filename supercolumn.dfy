/**
 * The super column container (lazyboy/supercolumn.py): a dictionary from superkey to a
 * child super column family, loaded lazily from one super column of one row, a payload
 * cache shared by every container class, and the paging scan over the row's super
 * columns.
 */
module SuperColumns {
  import opened Common
  import opened Store
  import opened PrimaryKeys
  import opened Base
  import opened Paging
  import T = Tracking
  import CF = ColumnFamilies

  /**
   * `SuperColumn.__cache`: one dictionary created with the class and written through
   * `self.__class__`, so every container class shares it. Its keys name the family, super
   * column and superkey, never the table or the row.
   */
  class PayloadCache {
    var entries: map<string, SuperCol>

    constructor ()
      ensures entries == map[]
    {
      entries := map[];
    }
  }

  /** `order` lists every key of a dictionary once, as iterating over it does. */
  predicate Enumerates(order: seq<PyStr>, keys: set<PyStr>) {
    && (forall i, j :: 0 <= i < j < |order| ==> order[i] != order[j])
    && (forall i :: 0 <= i < |order| ==> order[i] in keys)
    && (forall k :: k in keys ==> k in order)
  }

  /** A child whose `save` step raises: it has pending changes and `_marshal` fails on it. */
  predicate Refuses(c: CF.ColumnFamily)
    reads c
  {
    c.IsModified() && !(c.cls.kind.Super? && c.deleted == {})
  }

  /** The bundle `_marshal()['changed']` of a child that marshals. */
  function BundleOf(c: CF.ColumnFamily): Bundle
    requires c.Valid()
    reads c
  {
    Bundle(c.Attr("superkey"), T.Changed(c.Tracked()))
  }

  class SuperColumn {
    /** The class attribute `name`: the super column this container maps. */
    const name: string
    /** The class attribute `family`: the class of every child it builds. */
    const family: CF.EntityClass
    /** The class attribute `_key`. */
    const template: Fields
    const cache: PayloadCache
    var pk: Key
    /** The dictionary itself. */
    var children: map<PyStr, CF.ColumnFamily>

    /** `pk` is a well-formed chain of keys that names every key attribute. */
    ghost predicate Keyed()
      reads this`pk
    {
      pk.Valid() && KeyFields <= pk.Known()
    }

    /** A child filed under `k` belongs to this container's super column and has `k` as its superkey. */
    ghost predicate Holds(k: PyStr, c: CF.ColumnFamily)
      reads c
    {
      c.Valid() && c.Attr("supercol") == Some(name) && c.Attr("superkey") == k
    }

    ghost predicate Valid()
      reads this, children.Values
    {
      Keyed() && forall k :: k in children ==> Holds(k, children[k])
    }

    /** `self.pk.<n>` for a key attribute. */
    function Attr(n: string): PyStr
      requires Keyed() && n in KeyFields
      reads this`pk
    {
      GetKnown(pk, n);
      pk.Get(n).value
    }

    /** `self.pk.colspec() + ':' + superkey`, the cache key of one child's payload. */
    function CacheKey(superkey: string): string
      requires Keyed()
      reads this`pk
    {
      GetKnown(pk, "family");
      GetKnown(pk, "supercol");
      GetKnown(pk, "superkey");
      pk.Colspec().value + ":" + superkey
    }

    /**
     * `c` is what `_instantiate(superkey, cols)` returns: an object of the family, keyed
     * by a clone of the container's key that names this super column and `superkey`,
     * holding `cols` as loaded and nothing pending.
     */
    ghost predicate Instance(c: CF.ColumnFamily, superkey: string, cols: seq<Column>)
      requires Keyed()
      reads this`pk, c
    {
      && Holds(Some(superkey), c)
      && c.cls == family && c.pk.parent == pk
      && c.pk.attrs == map["supercol" := Some(name), "superkey" := Some(superkey)]
      && (forall n :: n in KeyFields && n != "supercol" && n != "superkey" ==> c.Attr(n) == Attr(n))
      && c.Tracked() == T.Revert(T.Empty.(original := cols))
    }

    /** Whether `family()` followed by its three-argument `load` succeeds for this draw of ids. */
    predicate Builds(uuid: Uuid) {
      family.kind.Super? && CF.KeyOf(family, None, None, uuid).Ok?
    }

    /** The exception `_instantiate` raises when `Builds` fails. */
    function BuildError(uuid: Uuid): Error {
      if CF.KeyOf(family, None, None, uuid).Err? then CF.KeyOf(family, None, None, uuid).error
      else TypeError
    }

    constructor Blank(name: string, family: CF.EntityClass, template: Fields, cache: PayloadCache, key: Key)
      requires key.Valid() && KeyFields <= key.Known()
      ensures Valid() && children == map[] && pk == key
      ensures this.name == name && this.family == family && this.template == template && this.cache == cache
    {
      this.name, this.family, this.template, this.cache := name, family, template, cache;
      pk := key;
      children := map[];
    }

    /**
     * `SuperColumn()`: an empty container keyed by `_gen_pk()`, the template with a fresh
     * key. `SuperColumn` itself defines no `_key`, so a class that does not define one
     * (`template` is `None`) raises AttributeError in `_gen_pk`.
     */
    static method New(name: string, family: CF.EntityClass, template: Option<Fields>, cache: PayloadCache, uuid: Uuid)
      returns (r: Result<SuperColumn>)
      ensures template.None? ==> r == Err(AttributeError("_key"))
      ensures template.Some? ==> (r.Ok? <==> GenPk(template.value, None, uuid).Ok?)
      ensures template.Some? && r.Err? ==> r.error == GenPk(template.value, None, uuid).error
      ensures r.Ok? ==>
        && fresh(r.value) && r.value.Valid() && r.value.children == map[]
        && r.value.pk.parent == null && r.value.pk.attrs == GenPk(template.value, None, uuid).value
        && r.value.name == name && r.value.family == family && r.value.cache == cache
        && r.value.template == template.value
    {
      if template.None? {
        return Err(AttributeError("_key"));
      }
      var fields :- GenPk(template.value, None, uuid);
      var key := new Key.Primary(fields);
      var sc := new SuperColumn.Blank(name, family, template.value, cache, key);
      return Ok(sc);
    }

    /** `sc[x] = y` is refused whatever the arguments. */
    method SetItem(superkey: PyStr, c: CF.ColumnFamily) returns (r: Result<()>)
      ensures r == Err(NotSupported)
    {
      return Err(NotSupported);
    }

    /**
     * `family().load(self.pk.key, superkey, columns)`: `family()` draws its ids first, and
     * only a super column family's `load` accepts three arguments.
     */
    method Build(superkey: string, cols: seq<Column>, uuid: Uuid) returns (r: Result<CF.ColumnFamily>)
      requires Keyed()
      ensures r.Ok? <==> Builds(uuid)
      ensures r.Err? ==> r.error == BuildError(uuid)
      ensures r.Ok? ==>
        && fresh(r.value) && r.value.Valid() && r.value.cls == family
        && r.value.Tracked() == T.Revert(T.Empty.(original := cols))
    {
      var made :- CF.ColumnFamily.New(family, [], [], uuid, 0);
      if !family.kind.Super? {
        return Err(TypeError);
      }
      assert made.items.Keys == {};
      var loaded := made.LoadSuper(Attr("key"), Some(superkey), cols, uuid, []);
      return Ok(made);
    }

    /** A child re-keyed with the clone `_instantiate` makes is an instance of this container. */
    lemma ClonedInstance(c: CF.ColumnFamily, superkey: string, cols: seq<Column>)
      requires Keyed() && c.Valid() && c.cls == family && c.pk.parent == pk
      requires c.pk.attrs == map["supercol" := Some(name), "superkey" := Some(superkey)]
      requires c.Tracked() == T.Revert(T.Empty.(original := cols))
      ensures Instance(c, superkey, cols)
    {
      forall n | n in KeyFields && n != "supercol" && n != "superkey"
        ensures c.Attr(n) == Attr(n)
      {
        assert c.pk.Get(n) == pk.Get(n);
      }
    }

    /** `_instantiate(superkey, columns)`: `Build`, then `pk` replaced with a clone of the container's key. */
    method Instantiate(superkey: string, cols: seq<Column>, uuid: Uuid) returns (r: Result<CF.ColumnFamily>)
      requires Keyed()
      ensures r.Ok? <==> Builds(uuid)
      ensures r.Err? ==> r.error == BuildError(uuid)
      ensures r.Ok? ==> fresh(r.value) && fresh(r.value.pk) && Instance(r.value, superkey, cols)
    {
      var made :- Build(superkey, cols, uuid);
      var key := pk.Clone(map["supercol" := Some(name), "superkey" := Some(superkey)]);
      made.Rekey(key);
      ClonedInstance(made, superkey, cols);
      return Ok(made);
    }

    /**
     * `_load_one(superkey)`: the payload from the cache when it holds one, and otherwise
     * from one `get_superColumn` request, which is then cached; then `_instantiate`.
     */
    method LoadOne(superkey: string, cas: Cassandra, uuid: Uuid) returns (r: Result<CF.ColumnFamily>)
      requires Keyed()
      modifies cas, cache
      ensures CacheKey(superkey) in cache.entries
      ensures old(CacheKey(superkey) in cache.entries) ==>
        cache.entries == old(cache.entries) && cas.log == old(cas.log)
      ensures old(CacheKey(superkey) !in cache.entries) ==>
        && cache.entries == old(cache.entries)[CacheKey(superkey) := cache.entries[CacheKey(superkey)]]
        && cas.log == old(cas.log) + [Call.GetSuperColumn(Attr("table"), Attr("key"), name + ":" + superkey,
                                                         cache.entries[CacheKey(superkey)])]
      ensures r.Ok? <==> Builds(uuid)
      ensures r.Err? ==> r.error == BuildError(uuid)
      ensures r.Ok? ==>
        fresh(r.value) && Instance(r.value, superkey, cache.entries[CacheKey(superkey)].columns)
    {
      var spec := CacheKey(superkey);
      var scol;
      if spec !in cache.entries {
        scol := cas.GetSuperColumn(Attr("table"), Attr("key"), name + ":" + superkey);
        cache.entries := cache.entries[spec := scol];
      } else {
        scol := cache.entries[spec];
      }
      r := Instantiate(superkey, scol.columns, uuid);
    }

    /**
     * `sc[superkey]`: the stored child, without I/O, when there is one; otherwise
     * `_load_one`, whose result is stored. Building the cache key of a `None` superkey
     * is a TypeError.
     */
    method GetItem(superkey: PyStr, cas: Cassandra, uuid: Uuid) returns (r: Result<CF.ColumnFamily>)
      requires Valid()
      modifies this`children, cas, cache
      ensures Valid()
      ensures superkey in old(children) ==>
        && r == Ok(old(children)[superkey]) && children == old(children)
        && cas.log == old(cas.log) && cache.entries == old(cache.entries)
      ensures superkey !in old(children) && superkey.None? ==>
        r == Err(TypeError) && children == old(children)
        && cas.log == old(cas.log) && cache.entries == old(cache.entries)
      ensures superkey !in old(children) && superkey.Some? ==> CacheKey(superkey.value) in cache.entries
      ensures superkey !in old(children) && superkey.Some? ==>
        && (old(CacheKey(superkey.value) in cache.entries) ==>
              cache.entries == old(cache.entries) && cas.log == old(cas.log))
        && (old(CacheKey(superkey.value) !in cache.entries) ==>
              && cache.entries == old(cache.entries)[CacheKey(superkey.value) := cache.entries[CacheKey(superkey.value)]]
              && cas.log == old(cas.log) + [Call.GetSuperColumn(Attr("table"), Attr("key"), name + ":" + superkey.value,
                                                               cache.entries[CacheKey(superkey.value)])])
        && (r.Ok? <==> Builds(uuid))
        && (r.Err? ==> r.error == BuildError(uuid) && children == old(children))
        && (r.Ok? ==> children == old(children)[superkey := r.value] && fresh(r.value)
                      && Instance(r.value, superkey.value, cache.entries[CacheKey(superkey.value)].columns))
    {
      if superkey in children {
        return Ok(children[superkey]);
      }
      if superkey.None? {
        return Err(TypeError);
      }
      var c :- LoadOne(superkey.value, cas, uuid);
      File(superkey, c);
      return Ok(c);
    }

    /** `dict.__setitem__(self, k, c)`: the child filed under `k`. */
    method File(k: PyStr, c: CF.ColumnFamily)
      requires Valid() && Holds(k, c)
      modifies this`children
      ensures Valid() && children == old(children)[k := c]
    {
      children := children[k := c];
    }

    /** `dict.__setitem__(self, superkey, self._instantiate(superkey, cols))`. */
    method Adopt(superkey: string, cols: seq<Column>, uuid: Uuid) returns (r: Result<CF.ColumnFamily>)
      requires Valid()
      modifies this`children
      ensures Valid()
      ensures r.Ok? <==> Builds(uuid)
      ensures r.Err? ==> r.error == BuildError(uuid) && children == old(children)
      ensures r.Ok? ==>
        && children == old(children)[Some(superkey) := r.value]
        && fresh(r.value) && Instance(r.value, superkey, cols)
    {
      r := Instantiate(superkey, cols, uuid);
      if r.Ok? {
        File(Some(superkey), r.value);
      }
    }

    /** `__len_db__()`: the backend's count of super columns under this container's name. */
    method CountRemote(cas: Cassandra) returns (n: int)
      requires Keyed()
      modifies cas
      ensures cas.log == old(cas.log) + [Call.GetColumnCount(Attr("table"), Attr("key"), name, n)]
    {
      n := cas.GetColumnCount(Attr("table"), Attr("key"), name);
    }

    /**
     * One `next()` of `_iter_columns`: the scan moves on to its next item, asking for
     * pages as it needs them, and writes the item it yields to the payload cache under
     * its superkey. `pages` are the answers it received.
     */
    method NextColumn(p: Pager, cas: Cassandra, fuel: nat)
      returns (r: Result<Option<SuperCol>>, q: Pager, ghost pages: seq<seq<SuperCol>>)
      requires Keyed() && Inv(p)
      modifies cas, cache
      ensures |pages| <= fuel
      ensures cas.log == old(cas.log) + Requests(Attr("table"), Attr("key"), name, p, pages)
      ensures |Requests(Attr("table"), Attr("key"), name, p, pages)| == |pages|
      ensures r == Outcome(p, pages) && q == After(p, pages)
      ensures r == Err(Exhausted) ==> |pages| == fuel
      ensures r.Ok? && r.value.Some? ==>
        cache.entries == old(cache.entries)[CacheKey(r.value.value.name) := r.value.value]
      ensures !(r.Ok? && r.value.Some?) ==> cache.entries == old(cache.entries)
    {
      var e;
      e, pages := Advance(p, cas, Attr("table"), Attr("key"), name, fuel);
      if e.Err? {
        return Err(e.error), p, pages;
      }
      var cur := e.value;
      if cur.phase == Request {
        return Err(Exhausted), cur, pages;
      }
      if cur.phase == Finished {
        return Ok(None), cur, pages;
      }
      var scol := cur.rest[0];
      cache.entries := cache.entries[CacheKey(scol.name) := scol];
      return Ok(Some(scol)), Take(cur), pages;
    }

    /**
     * One pass of the loop in `load_all()`: the next item of the scan, built and filed
     * under its name in place of any child already there; `None` when the scan is over.
     */
    method LoadNext(p: Pager, cas: Cassandra, uuid: Uuid, fuel: nat)
      returns (r: Result<Option<CF.ColumnFamily>>, q: Pager, ghost pages: seq<seq<SuperCol>>)
      requires Valid() && Inv(p)
      modifies this`children, cas, cache
      ensures Valid() && Inv(q) && q.limit == p.limit
      ensures q == After(p, pages) && |pages| <= fuel
      ensures cas.log == old(cas.log) + Requests(Attr("table"), Attr("key"), name, p, pages)
      ensures Outcome(p, pages).Ok? && Outcome(p, pages).value.Some? ==>
        cache.entries == old(cache.entries)[CacheKey(Outcome(p, pages).value.value.name) := Outcome(p, pages).value.value]
      ensures !(Outcome(p, pages).Ok? && Outcome(p, pages).value.Some?) ==> cache.entries == old(cache.entries)
      ensures Outcome(p, pages).Err? ==> r.Err? && r.error == Outcome(p, pages).error
      ensures Outcome(p, pages) == Ok(None) ==> r == Ok(None)
      ensures Outcome(p, pages).Ok? && Outcome(p, pages).value.Some? ==>
        var scol := Outcome(p, pages).value.value;
        && q.returned == p.returned + 1 && q.last == Some(scol)
        && (r.Ok? <==> Builds(uuid))
        && (r.Err? ==> r.error == BuildError(uuid))
        && (r.Ok? ==> r.value.Some? && fresh(r.value.value) && Instance(r.value.value, scol.name, scol.columns))
      ensures r.Ok? && r.value.Some? ==>
        && q.returned == p.returned + 1 && q.last.Some? && fresh(r.value.value)
        && children == old(children)[Some(q.last.value.name) := r.value.value]
      ensures !(r.Ok? && r.value.Some?) ==> children == old(children)
    {
      var next;
      next, q, pages := NextColumn(p, cas, fuel);
      Yielding(p, pages);
      if next.Err? {
        return Err(next.error), q, pages;
      }
      if next.value.None? {
        return Ok(None), q, pages;
      }
      var scol := next.value.value;
      var c := Adopt(scol.name, scol.columns, uuid);
      if c.Err? {
        return Err(c.error), q, pages;
      }
      return Ok(Some(c.value)), q, pages;
    }

    /** `LoadNext` as `load_all()` needs it: the scan moves on, and at most the yielded item is filed. */
    method Pass(p: Pager, cas: Cassandra, uuid: Uuid, fuel: nat)
      returns (r: Result<Option<CF.ColumnFamily>>, q: Pager)
      requires Valid() && Inv(p)
      modifies this`children, cas, cache
      ensures Valid() && Inv(q) && q.limit == p.limit
      ensures r.Ok? && r.value.Some? ==> q.returned == p.returned + 1
      ensures old(children).Keys <= children.Keys
      ensures |children| <= |old(children)| + (if r.Ok? && r.value.Some? then 1 else 0)
    {
      ghost var pages;
      r, q, pages := LoadNext(p, cas, uuid, fuel);
    }

    /**
     * `load_all()`: each item of `_iter_columns('', chunk_size=2**30)` built and filed
     * under its name. `limit` is left as `None`, so the scan ends after its first item:
     * at most one child is added.
     */
    method LoadAll(cas: Cassandra, uuid: Uuid, fuel: nat) returns (r: Result<SuperColumn>)
      requires Valid()
      modifies this`children, cas, cache
      ensures Valid()
      ensures r.Ok? ==> r.value == this
      ensures old(children).Keys <= children.Keys
      ensures |children| <= |old(children)| + 1
    {
      var p := Start("", None, 0x4000_0000);
      while true
        invariant Valid() && Inv(p) && p.limit.None?
        invariant old(children).Keys <= children.Keys
        invariant |children| <= |old(children)| + p.returned
        decreases Cap(p.limit) - p.returned
      {
        DefaultLimitYieldsOne(p);
        var next;
        next, p := Pass(p, cas, uuid, fuel);
        if next.Err? {
          return Err(next.error);
        }
        if next.value.None? {
          return Ok(this);
        }
      }
    }

    /**
     * One `next()` of `__iter__`: the next item of `_iter_columns()` gives the child
     * already filed under its name, or a child built from it, which is then filed.
     */
    method NextChild(p: Pager, cas: Cassandra, uuid: Uuid, fuel: nat)
      returns (r: Result<Option<CF.ColumnFamily>>, q: Pager, ghost pages: seq<seq<SuperCol>>)
      requires Valid() && Inv(p)
      modifies this`children, cas, cache
      ensures Valid() && q == After(p, pages) && |pages| <= fuel
      ensures cas.log == old(cas.log) + Requests(Attr("table"), Attr("key"), name, p, pages)
      ensures Outcome(p, pages).Ok? && Outcome(p, pages).value.Some? ==>
        cache.entries == old(cache.entries)[CacheKey(Outcome(p, pages).value.value.name) := Outcome(p, pages).value.value]
      ensures !(Outcome(p, pages).Ok? && Outcome(p, pages).value.Some?) ==> cache.entries == old(cache.entries)
      ensures Outcome(p, pages).Err? ==> r.Err? && r.error == Outcome(p, pages).error && children == old(children)
      ensures Outcome(p, pages) == Ok(None) ==> r == Ok(None) && children == old(children)
      ensures Outcome(p, pages).Ok? && Outcome(p, pages).value.Some? ==>
        var scol := Outcome(p, pages).value.value;
        && (Some(scol.name) in old(children) ==>
              r == Ok(Some(old(children)[Some(scol.name)])) && children == old(children))
        && (Some(scol.name) !in old(children) ==>
              && (r.Ok? <==> Builds(uuid))
              && (r.Err? ==> r.error == BuildError(uuid) && children == old(children))
              && (r.Ok? ==> r.value.Some? && children == old(children)[Some(scol.name) := r.value.value]
                            && fresh(r.value.value) && Instance(r.value.value, scol.name, scol.columns)))
    {
      var next;
      next, q, pages := NextColumn(p, cas, fuel);
      if next.Err? {
        return Err(next.error), q, pages;
      }
      if next.value.None? {
        return Ok(None), q, pages;
      }
      var scol := next.value.value;
      if Some(scol.name) in children {
        return Ok(Some(children[Some(scol.name)])), q, pages;
      }
      var c := Adopt(scol.name, scol.columns, uuid);
      if c.Err? {
        return Err(c.error), q, pages;
      }
      return Ok(Some(c.value)), q, pages;
    }

    /** One `next()` of `iterkeys(...)`: the name of the next item of the scan. */
    method NextKey(p: Pager, cas: Cassandra, fuel: nat)
      returns (r: Result<Option<string>>, q: Pager, ghost pages: seq<seq<SuperCol>>)
      requires Keyed() && Inv(p)
      modifies cas, cache
      ensures q == After(p, pages) && |pages| <= fuel
      ensures cas.log == old(cas.log) + Requests(Attr("table"), Attr("key"), name, p, pages)
      ensures Outcome(p, pages).Ok? && Outcome(p, pages).value.Some? ==>
        cache.entries == old(cache.entries)[CacheKey(Outcome(p, pages).value.value.name) := Outcome(p, pages).value.value]
      ensures !(Outcome(p, pages).Ok? && Outcome(p, pages).value.Some?) ==> cache.entries == old(cache.entries)
      ensures r.Ok? <==> Outcome(p, pages).Ok?
      ensures r.Err? ==> r.error == Outcome(p, pages).error
      ensures r.Ok? ==> (r.value.Some? <==> Outcome(p, pages).value.Some?)
      ensures r.Ok? && r.value.Some? ==> r.value.value == Outcome(p, pages).value.value.name
    {
      var next;
      next, q, pages := NextColumn(p, cas, fuel);
      if next.Err? {
        return Err(next.error), q, pages;
      }
      if next.value.None? {
        return Ok(None), q, pages;
      }
      return Ok(Some(next.value.value.name)), q, pages;
    }

    /**
     * One `next()` of `itervalues(...)`: `self[scol.name]` for the next item of the scan.
     * The scan has just cached that item under the key `_load_one` looks up, so no
     * super column is ever requested by name: the only requests are the scan's.
     */
    method NextValue(p: Pager, cas: Cassandra, uuid: Uuid, fuel: nat)
      returns (r: Result<Option<CF.ColumnFamily>>, q: Pager, ghost pages: seq<seq<SuperCol>>)
      requires Valid() && Inv(p)
      modifies this`children, cas, cache
      ensures Valid() && q == After(p, pages) && |pages| <= fuel
      ensures cas.log == old(cas.log) + Requests(Attr("table"), Attr("key"), name, p, pages)
      ensures Outcome(p, pages).Ok? && Outcome(p, pages).value.Some? ==>
        cache.entries == old(cache.entries)[CacheKey(Outcome(p, pages).value.value.name) := Outcome(p, pages).value.value]
      ensures !(Outcome(p, pages).Ok? && Outcome(p, pages).value.Some?) ==> cache.entries == old(cache.entries)
      ensures Outcome(p, pages).Err? ==> r.Err? && r.error == Outcome(p, pages).error && children == old(children)
      ensures Outcome(p, pages) == Ok(None) ==> r == Ok(None) && children == old(children)
      ensures Outcome(p, pages).Ok? && Outcome(p, pages).value.Some? ==>
        var scol := Outcome(p, pages).value.value;
        && (Some(scol.name) in old(children) ==>
              r == Ok(Some(old(children)[Some(scol.name)])) && children == old(children))
        && (Some(scol.name) !in old(children) ==>
              && (r.Ok? <==> Builds(uuid))
              && (r.Err? ==> r.error == BuildError(uuid) && children == old(children))
              && (r.Ok? ==> r.value.Some? && children == old(children)[Some(scol.name) := r.value.value]
                            && fresh(r.value.value) && Instance(r.value.value, scol.name, scol.columns)))
    {
      var next;
      next, q, pages := NextColumn(p, cas, fuel);
      if next.Err? {
        return Err(next.error), q, pages;
      }
      if next.value.None? {
        return Ok(None), q, pages;
      }
      var scol := next.value.value;
      var c := GetItem(Some(scol.name), cas, uuid);
      if c.Err? {
        return Err(c.error), q, pages;
      }
      return Ok(Some(c.value)), q, pages;
    }

    /** One `next()` of `iteritems(...)`: the name of the next item, with `self[name]`. */
    method NextItem(p: Pager, cas: Cassandra, uuid: Uuid, fuel: nat)
      returns (r: Result<Option<(string, CF.ColumnFamily)>>, q: Pager, ghost pages: seq<seq<SuperCol>>)
      requires Valid() && Inv(p)
      modifies this`children, cas, cache
      ensures Valid() && q == After(p, pages) && |pages| <= fuel
      ensures cas.log == old(cas.log) + Requests(Attr("table"), Attr("key"), name, p, pages)
      ensures Outcome(p, pages).Ok? && Outcome(p, pages).value.Some? ==>
        cache.entries == old(cache.entries)[CacheKey(Outcome(p, pages).value.value.name) := Outcome(p, pages).value.value]
      ensures !(Outcome(p, pages).Ok? && Outcome(p, pages).value.Some?) ==> cache.entries == old(cache.entries)
      ensures Outcome(p, pages).Err? ==> r.Err? && r.error == Outcome(p, pages).error && children == old(children)
      ensures Outcome(p, pages) == Ok(None) ==> r == Ok(None) && children == old(children)
      ensures Outcome(p, pages).Ok? && Outcome(p, pages).value.Some? ==>
        var scol := Outcome(p, pages).value.value;
        && (Some(scol.name) in old(children) ==>
              r == Ok(Some((scol.name, old(children)[Some(scol.name)]))) && children == old(children))
        && (Some(scol.name) !in old(children) ==>
              && (r.Ok? <==> Builds(uuid))
              && (r.Err? ==> r.error == BuildError(uuid) && children == old(children))
              && (r.Ok? ==> r.value.Some? && r.value.value.0 == scol.name
                            && children == old(children)[Some(scol.name) := r.value.value.1]
                            && fresh(r.value.value.1) && Instance(r.value.value.1, scol.name, scol.columns)))
    {
      var v;
      v, q, pages := NextValue(p, cas, uuid, fuel);
      if v.Err? {
        return Err(v.error), q, pages;
      }
      if v.value.None? {
        return Ok(None), q, pages;
      }
      Yielding(p, pages);
      return Ok(Some((q.last.value.name, v.value.value))), q, pages;
    }

    /**
     * `append(cf)`: `cf.pk` becomes a clone of the container's key naming this super
     * column and `cf`'s own superkey, and `cf` is filed under that superkey.
     */
    method Append(cf: CF.ColumnFamily)
      requires Valid() && cf.Valid()
      modifies this`children, cf
      ensures Valid() && cf.Valid()
      ensures fresh(cf.pk) && cf.pk.parent == pk
      ensures cf.pk.attrs == map["supercol" := Some(name), "superkey" := old(cf.Attr("superkey"))]
      ensures cf.Tracked() == old(cf.Tracked())
      ensures children == old(children)[old(cf.Attr("superkey")) := cf]
      ensures |children| == |old(children)| + (if old(cf.Attr("superkey")) in old(children) then 0 else 1)
    {
      var superkey := cf.Attr("superkey");
      var key := pk.Clone(map["supercol" := Some(name), "superkey" := superkey]);
      cf.Rekey(key);
      File(superkey, cf);
    }

    /** `valid()`: every child is valid; an empty container is. */
    predicate IsValid()
      reads this, children.Values
      ensures IsValid() <==> forall k, f :: k in children && f in children[k].cls.required ==>
        f in children[k].items && children[k].items[f] != None
    {
      forall k :: k in children ==> children[k].IsValid()
    }

    /** `missing()`: the superkey of each invalid child, with that child's `missing()`. */
    function Missing(): (m: map<PyStr, seq<string>>)
      reads this, children.Values
      ensures forall k :: k in m ==> k in children && m[k] != []
    {
      map k | k in children && !children[k].IsValid() :: children[k].Missing()
    }

    /** The container is valid exactly when nothing is missing from any child. */
    lemma NothingMissing()
      ensures IsValid() <==> Missing() == map[]
    {
      if !IsValid() {
        var k :| k in children && !children[k].IsValid();
        assert k in Missing();
      }
    }

    /** The children listed in `order` are all present. */
    predicate Lists(order: seq<PyStr>)
      reads this
    {
      forall i :: 0 <= i < |order| ==> order[i] in children
    }

    /** The children listed in `order`, in that order. */
    function Kids(order: seq<PyStr>): (kids: seq<CF.ColumnFamily>)
      requires Lists(order)
      reads this
      ensures |kids| == |order| && forall i :: 0 <= i < |order| ==> kids[i] == children[order[i]]
    {
      seq(|order|, i requires 0 <= i < |order| && order[i] in children reads this => children[order[i]])
    }

    /** The children listed in `order` are well formed and name this super column. */
    lemma KidsMembers(order: seq<PyStr>)
      requires Valid() && Lists(order)
      ensures Members(Kids(order), name)
    {
      var kids := Kids(order);
      forall i | 0 <= i < |kids| ensures kids[i].Valid() && kids[i].Attr("supercol") == Some(name) {
        assert Holds(order[i], kids[i]);
      }
    }

    /** Every child names this container's super column, so the children name one `supercol` between them. */
    lemma OneSupercol()
      requires Valid()
      ensures (set k | k in children :: children[k].Attr("supercol")) ==
        (if children == map[] then {} else {Some(name)})
    {
      if children != map[] {
        var k :| k in children;
        assert children[k].Attr("supercol") in (set k | k in children :: children[k].Attr("supercol"));
      }
    }

    /** The map `save()` starts from: an empty list for each children's `pk.supercol`. */
    function EmptyLists(): (cfmap: map<PyStr, seq<Bundle>>)
      requires Valid()
      reads this, children.Values
      ensures cfmap.Keys == if children == map[] then {} else {Some(name)}
      ensures children != map[] ==> cfmap[Some(name)] == []
    {
      OneSupercol();
      var supercols := set k | k in children :: children[k].Attr("supercol");
      map s | s in supercols :: []
    }

    /**
     * `save()`: the map of empty lists, the bundles of the modified children in `order`
     * appended to it by `Collect`, then one `batch_insert_super_Column` of the map when it
     * has a key, that is, whenever there is a child. Since `_marshal` raises whenever a
     * delete is pending, the removal of deleted columns is never reached.
     */
    method Save(cas: Cassandra, order: seq<PyStr>) returns (r: Result<SuperColumn>)
      requires Valid() && Enumerates(order, children.Keys)
      modifies cas
      ensures r.Ok? <==> old(Accepts(Kids(order), |order|))
      ensures r.Ok? ==> r.value == this
      ensures r.Err? || children == map[] ==> cas.log == old(cas.log)
      ensures r.Ok? && children != map[] ==>
        cas.log == old(cas.log +
          [Call.BatchInsertSuperMap(Attr("table"), Attr("key"), map[Some(name) := Bundles(Kids(order), |order|)])])
    {
      KidsMembers(order);
      Listed(order, children);
      var done := Write(cas, Attr("table"), Attr("key"), name, Kids(order), EmptyLists());
      if done.Err? {
        return Err(done.error);
      }
      return Ok(this);
    }
  }

  /** A listing of every key of `m` is empty exactly when `m` is. */
  lemma Listed<V>(order: seq<PyStr>, m: map<PyStr, V>)
    requires Enumerates(order, m.Keys)
    ensures m == map[] <==> order == []
  {
    if order != [] {
      assert order[0] in m;
    }
  }

  /**
   * The body of `save()` once the map of empty lists is built: `Collect`, then one
   * `batch_insert_super_Column` of the map in row `key` of `table` when it has a key.
   */
  method Write(cas: Cassandra, table: PyStr, key: PyStr, name: string,
               kids: seq<CF.ColumnFamily>, cfmap: map<PyStr, seq<Bundle>>)
    returns (r: Result<()>)
    requires Members(kids, name)
    requires cfmap.Keys == if kids == [] then {} else {Some(name)}
    requires kids != [] ==> cfmap[Some(name)] == []
    modifies cas
    ensures r.Ok? <==> old(Accepts(kids, |kids|))
    ensures r.Err? || kids == [] ==> cas.log == old(cas.log)
    ensures r.Ok? && kids != [] ==>
      cas.log == old(cas.log + [Call.BatchInsertSuperMap(table, key, map[Some(name) := Bundles(kids, |kids|)])])
  {
    var built :- Collect(kids, name, cfmap);
    if built != map[] {
      assert built == map[Some(name) := Bundles(kids, |kids|)];
      cas.BatchInsertSuperMap(table, key, built);
    }
    return Ok(());
  }

  /** What `save()` appends for one child: its bundle when it is modified, nothing otherwise. */
  function Contribution(c: CF.ColumnFamily): seq<Bundle>
    requires c.Valid()
    reads c
  {
    if c.IsModified() then [BundleOf(c)] else []
  }

  /** Every child in `kids` is well formed and names the super column `name`. */
  ghost predicate Members(kids: seq<CF.ColumnFamily>, name: string)
    reads kids
  {
    forall i :: 0 <= i < |kids| ==> kids[i].Valid() && kids[i].Attr("supercol") == Some(name)
  }

  /** The bundles of the modified children among the first `n` of `kids`, in that order. */
  function Bundles(kids: seq<CF.ColumnFamily>, n: nat): seq<Bundle>
    requires n <= |kids| && forall i :: 0 <= i < |kids| ==> kids[i].Valid()
    reads kids
  {
    if n == 0 then [] else Bundles(kids, n - 1) + Contribution(kids[n - 1])
  }

  /** None of the first `n` of `kids` makes `save()` raise. */
  predicate Accepts(kids: seq<CF.ColumnFamily>, n: nat)
    requires n <= |kids|
    reads kids
  {
    n == 0 || (Accepts(kids, n - 1) && !Refuses(kids[n - 1]))
  }

  /** `Accepts` checks the children one by one. */
  lemma {:induction false} AcceptsEach(kids: seq<CF.ColumnFamily>, n: nat)
    requires n <= |kids|
    ensures Accepts(kids, n) <==> forall j :: 0 <= j < n ==> !Refuses(kids[j])
  {
    if n > 0 {
      AcceptsEach(kids, n - 1);
    }
  }

  /** A child that makes `save()` raise fails every longer prefix that holds it. */
  lemma {:induction false} Refused(kids: seq<CF.ColumnFamily>, i: nat, n: nat)
    requires i < n <= |kids|
    ensures Refuses(kids[i]) ==> !Accepts(kids, n)
  {
    if i < n - 1 {
      Refused(kids, i, n - 1);
    }
  }

  /**
   * One pass of `save()`'s loop, on `kids[i]`: a modified child's `_marshal()['changed']`
   * is appended to the list of its `pk.supercol`; a child whose `_marshal` raises ends
   * the loop with that exception.
   */
  method Step(kids: seq<CF.ColumnFamily>, name: string, i: nat, cfmap: map<PyStr, seq<Bundle>>)
    returns (r: Result<map<PyStr, seq<Bundle>>>)
    requires Members(kids, name) && i < |kids| && Accepts(kids, i)
    requires cfmap.Keys == {Some(name)} && cfmap[Some(name)] == Bundles(kids, i)
    ensures r.Ok? <==> Accepts(kids, i + 1)
    ensures r.Err? ==> !Accepts(kids, |kids|)
    ensures r.Ok? ==> r.value.Keys == {Some(name)} && r.value[Some(name)] == Bundles(kids, i + 1)
  {
    var c := kids[i];
    r := Ok(cfmap);
    if c.IsModified() {
      var b := c.Marshal();
      if b.Err? {
        Refused(kids, i, |kids|);
        r := Err(b.error);
      } else {
        T.ChangedSpec(c.Tracked());
        assert b.value == BundleOf(c) && c.Attr("supercol") == Some(name);
        // `changes['changed']` is a record, so the test on it always passes.
        r := Ok(cfmap[c.Attr("supercol") := cfmap[c.Attr("supercol")] + [b.value]]);
      }
    }
  }

  /**
   * The loop of `save()` over `kids`, from the map `cfmap` of empty lists: the bundle of
   * each modified child, in order, appended to the list of super column `name`. A child
   * whose `_marshal` raises ends it with that exception.
   */
  method Collect(kids: seq<CF.ColumnFamily>, name: string, cfmap: map<PyStr, seq<Bundle>>)
    returns (r: Result<map<PyStr, seq<Bundle>>>)
    requires Members(kids, name)
    requires cfmap.Keys == if kids == [] then {} else {Some(name)}
    requires kids != [] ==> cfmap[Some(name)] == []
    ensures r.Ok? <==> Accepts(kids, |kids|)
    ensures r.Ok? ==> r.value.Keys == cfmap.Keys
    ensures r.Ok? && kids != [] ==> r.value[Some(name)] == Bundles(kids, |kids|)
  {
    r := Ok(cfmap);
    var i := 0;
    while i < |kids| && r.Ok?
      invariant 0 <= i <= |kids|
      invariant r.Ok? ==> Accepts(kids, i) && r.value.Keys == cfmap.Keys
      invariant r.Ok? && kids != [] ==> r.value[Some(name)] == Bundles(kids, i)
      invariant r.Err? ==> !Accepts(kids, |kids|)
    {
      r := Step(kids, name, i, r.value);
      i := i + 1;
    }
  }

  /**
   * The part of one `next()` of `_iter_columns` that needs no cache: from `p`, request
   * pages of super column `name` in row `key` of `table` until the scan reaches a yield,
   * ends, or has made `fuel` requests.
   */
  method Advance(p: Pager, cas: Cassandra, table: PyStr, key: PyStr, name: string, fuel: nat)
    returns (r: Result<Pager>, ghost pages: seq<seq<SuperCol>>)
    requires Inv(p)
    modifies cas
    ensures |pages| <= fuel
    ensures r == Pump(p, pages)
    ensures r.Ok? && r.value.phase == Request ==> |pages| == fuel
    ensures cas.log == old(cas.log) + Requests(table, key, name, p, pages)
    ensures |Requests(table, key, name, p, pages)| == |pages|
  {
    pages := [];
    var cur := p;
    if cur.phase == Draining && cur.rest == [] {
      var e := EndPage(cur);
      if e.Err? {
        return e, pages;
      }
      cur := e.value;
    }
    var f := fuel;
    while cur.phase == Request && f > 0
      invariant Pump(p, pages) == Ok(cur) && Inv(cur) && |pages| + f == fuel
      invariant cas.log == old(cas.log) + Requests(table, key, name, p, pages)
      invariant |Requests(table, key, name, p, pages)| == |pages|
      decreases f
    {
      var scols := cas.GetSliceSuper(table, key, name, cur.start, "", true, 0, Count(cur));
      PumpAppend(table, key, name, p, pages, scols);
      pages := pages + [scols];
      cur := Receive(cur, scols);
      if cur.phase == Draining && cur.rest == [] {
        var e := EndPage(cur);
        if e.Err? {
          return e, pages;
        }
        cur := e.value;
      }
      f := f - 1;
    }
    return Ok(cur), pages;
  }
}
