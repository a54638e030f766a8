/**
 * What every mapped object inherits from `CassandraBase` (lazyboy/base.py): building its
 * primary key from the class's key template, and finding the pool client for a table,
 * one per table per object.
 */
module Base {
  import opened Common
  import opened PrimaryKeys
  import Connection

  /** `uuid.uuid4().hex`: 32 hexadecimal digits. Which ones is not modelled. */
  type Uuid = s: string | |s| == 32 witness "00000000000000000000000000000000"

  /** Whether `PrimaryKey(**args)` accepts the template once `key` is supplied. */
  predicate AcceptsKey(template: Fields) {
    (template.Keys + {"key"}) <= KeyFields && "table" in template
  }

  /** `dict(self._key.items() + [['key', key or uuid]])`. */
  function PkArgs(template: Fields, key: PyStr, uuid: Uuid): Fields {
    template["key" := Or(key, Some(uuid))]
  }

  /**
   * `CassandraBase._gen_pk(key)`: the template's fields, with `key` taken from the
   * argument when it is set and from a fresh id otherwise.
   */
  function GenPk(template: Fields, key: PyStr, uuid: Uuid): (r: Result<Fields>)
    ensures r.Ok? <==>
      (AcceptsKey(template) && !HalfSuper(Arg(template, "supercol"), Arg(template, "superkey")))
    ensures r.Err? && AcceptsKey(template) ==> r.error == IncompleteKey
    ensures r.Ok? ==>
      (r.value.Keys == KeyFields
       && r.value["key"] == (if Truthy(key) then key else Some(uuid))
       && forall n :: n in KeyFields && n != "key" ==> r.value[n] == Arg(template, n))
  {
    var args := PkArgs(template, key, uuid);
    assert Arg(args, "supercol") == Arg(template, "supercol");
    assert Arg(args, "superkey") == Arg(template, "superkey");
    Init(args)
  }

  /** `SuperColumnFamily._gen_pk(key, superkey)`: as `GenPk`, and `superkey` likewise. */
  function GenSuperPk(template: Fields, key: PyStr, superkey: PyStr, uuid: Uuid): (r: Result<Fields>)
    ensures r.Ok? <==> (AcceptsKey(template) && Truthy(Arg(template, "supercol")))
    ensures r.Err? && AcceptsKey(template) ==> r.error == IncompleteKey
    ensures r.Ok? ==>
      (r.value.Keys == KeyFields
       && r.value["key"] == (if Truthy(key) then key else Some(uuid))
       && r.value["superkey"] == (if Truthy(superkey) then superkey else Some(uuid))
       && forall n :: n in KeyFields && n != "key" && n != "superkey" ==> r.value[n] == Arg(template, n))
  {
    var args := PkArgs(template, key, uuid)["superkey" := Or(superkey, Some(uuid))];
    assert Arg(args, "supercol") == Arg(template, "supercol");
    assert Truthy(Arg(args, "superkey"));
    Init(args)
  }

  /**
   * A super column family whose template has no `supercol` cannot be built: the generated
   * superkey is always set, so the pairing check fails.
   */
  lemma SuperNeedsSupercol(template: Fields, key: PyStr, superkey: PyStr, uuid: Uuid)
    requires AcceptsKey(template) && !Truthy(Arg(template, "supercol"))
    ensures GenSuperPk(template, key, superkey, uuid) == Err(IncompleteKey)
  {
  }

  /** The `_clients` memo of one object, and the `pk` it may or may not have. */
  class CassandraBase {
    var clients: map<PyStr, Connection.Client>
    var pk: Key?

    constructor ()
      ensures clients == map[] && pk == null
    {
      clients := map[];
      pk := null;
    }

    /** Whether `_get_cas(table)` can name a table: an argument, or a `table` attribute of `pk`. */
    predicate Resolvable(table: PyStr)
      requires pk != null ==> pk.Valid()
      reads this
    {
      Truthy(table) || (pk != null && pk.Get("table").Ok?)
    }

    /** The table `_get_cas(table)` looks up: `table or self.pk.table`. */
    function Table(table: PyStr): PyStr
      requires pk != null ==> pk.Valid()
      requires Resolvable(table)
      reads this
    {
      if Truthy(table) then table else pk.Get("table").value
    }

    /**
     * `_get_cas(table)` in the process and thread named by `ident`: UnknownTable when no
     * table can be named; the memoised client when there is one, without consulting the
     * pool; otherwise `get_pool`'s answer, remembered only when it is a client.
     */
    method GetCas(table: PyStr, pools: Connection.Pools, ident: string) returns (r: Result<Connection.Client>)
      requires pk != null ==> pk.Valid()
      modifies this, pools
      ensures pk == old(pk)
      ensures !old(Resolvable(table)) ==>
        r == Err(UnknownTable) && clients == old(clients) && unchanged(pools)
      ensures old(Resolvable(table)) && old(Table(table)) in old(clients) ==>
        r == Ok(old(clients)[old(Table(table))]) && clients == old(clients) && unchanged(pools)
      ensures old(Resolvable(table)) && old(Table(table)) !in old(clients) ==>
        && pools.servers == old(pools.servers)
        && (old(Table(table)).None? ==> r == Err(TypeError))
        && (r.Ok? ==>
              (var name := ident + old(Table(table)).value;
               && name in pools.clients && r.value == pools.clients[name]
               && (name in old(pools.clients) ==> r.value == old(pools.clients)[name])))
        && (r.Ok? ==> clients == old(clients)[old(Table(table)) := r.value])
        && (r.Err? ==> clients == old(clients))
    {
      if !Truthy(table) && (pk == null || pk.Get("table").Err?) {
        return Err(UnknownTable);
      }
      var name := Table(table);
      if name in clients {
        return Ok(clients[name]);
      }
      r := pools.GetPool(ident, name);
      if r.Ok? {
        clients := clients[name := r.value];
      }
    }
  }
}
