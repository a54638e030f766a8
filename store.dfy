/**
 * The storage backend as the mapper sees it: the Thrift records it exchanges and an
 * abstract client that answers every call from a fixed table of replies and records the
 * call, with the reply it gave, in a ghost log. What the backend stores is not modelled;
 * statements about the mapper's traffic are statements about the log.
 */
module Store {
  import opened Common

  /** `cassandra.ttypes.Column`. */
  datatype Column = Column(name: string, value: PyStr, timestamp: int)

  /** `cassandra.ttypes.SuperColumn` as the backend returns it. */
  datatype SuperCol = SuperCol(name: string, columns: seq<Column>)

  /**
   * A super column the mapper builds for writing (`_marshal()['changed']`). Its name is a
   * key attribute, so it may be `None`; its columns come from a dict and carry no order.
   */
  datatype Bundle = Bundle(name: PyStr, columns: set<Column>)

  /**
   * One backend call, with its arguments and the reply the mapper received. `flag` is the
   * boolean the mapper passes positionally (always `True`); its meaning is the backend's.
   */
  datatype Call =
    | GetSlice(table: PyStr, key: PyStr, family: PyStr, start: string, finish: string,
               flag: bool, count: int, page: seq<Column>)
    | GetSuperColumn(table: PyStr, key: PyStr, path: string, found: SuperCol)
    | GetSliceSuper(table: PyStr, key: PyStr, name: string, start: string, finish: string,
                    flag: bool, offset: int, count: int, scols: seq<SuperCol>)
    | GetColumnCount(table: PyStr, key: PyStr, name: string, total: int)
      /** `batch_insert(table, BatchMutation(key, {family: columns}), 0)`. */
    | BatchInsert(table: PyStr, key: PyStr, family: PyStr, columns: set<Column>)
      /** `batch_insert_superColumn(table, BatchMutationSuper(key, {supercol: [bundle]}), 0)`. */
    | BatchInsertSuperColumn(table: PyStr, key: PyStr, supercol: PyStr, bundle: Bundle)
      /** `batch_insert_super_Column(table, BatchMutationSuper(key, cfmap), 0)`. */
    | BatchInsertSuperMap(table: PyStr, key: PyStr, cfmap: map<PyStr, seq<Bundle>>)

  /** Whether a call writes to the backend. */
  predicate IsWrite(c: Call) {
    c.BatchInsert? || c.BatchInsertSuperColumn? || c.BatchInsertSuperMap?
  }

  /**
   * The client `_get_cas()` hands out. Reads are answered from the reply tables in the
   * order the calls arrive; writes always succeed.
   */
  class Cassandra {
    ghost var log: seq<Call>
    /** How many reads have been answered. */
    var served: nat
    const slices: nat -> seq<Column>
    const superColumns: nat -> SuperCol
    const superSlices: nat -> seq<SuperCol>
    const counts: nat -> int

    constructor (slices: nat -> seq<Column>, superColumns: nat -> SuperCol,
                 superSlices: nat -> seq<SuperCol>, counts: nat -> int)
      ensures log == [] && served == 0
      ensures this.slices == slices && this.superColumns == superColumns
      ensures this.superSlices == superSlices && this.counts == counts
    {
      log := [];
      served := 0;
      this.slices := slices;
      this.superColumns := superColumns;
      this.superSlices := superSlices;
      this.counts := counts;
    }

    method GetSlice(table: PyStr, key: PyStr, family: PyStr, start: string, finish: string,
                    flag: bool, count: int) returns (page: seq<Column>)
      modifies this
      ensures log == old(log) + [Call.GetSlice(table, key, family, start, finish, flag, count, page)]
    {
      page := slices(served);
      served := served + 1;
      log := log + [Call.GetSlice(table, key, family, start, finish, flag, count, page)];
    }

    method GetSuperColumn(table: PyStr, key: PyStr, path: string) returns (found: SuperCol)
      modifies this
      ensures log == old(log) + [Call.GetSuperColumn(table, key, path, found)]
    {
      found := superColumns(served);
      served := served + 1;
      log := log + [Call.GetSuperColumn(table, key, path, found)];
    }

    method GetSliceSuper(table: PyStr, key: PyStr, name: string, start: string, finish: string,
                         flag: bool, offset: int, count: int) returns (scols: seq<SuperCol>)
      modifies this
      ensures log == old(log) + [Call.GetSliceSuper(table, key, name, start, finish, flag, offset, count, scols)]
    {
      scols := superSlices(served);
      served := served + 1;
      log := log + [Call.GetSliceSuper(table, key, name, start, finish, flag, offset, count, scols)];
    }

    method GetColumnCount(table: PyStr, key: PyStr, name: string) returns (total: int)
      modifies this
      ensures log == old(log) + [Call.GetColumnCount(table, key, name, total)]
    {
      total := counts(served);
      served := served + 1;
      log := log + [Call.GetColumnCount(table, key, name, total)];
    }

    method BatchInsert(table: PyStr, key: PyStr, family: PyStr, columns: set<Column>)
      modifies this
      ensures log == old(log) + [Call.BatchInsert(table, key, family, columns)]
      ensures served == old(served)
    {
      log := log + [Call.BatchInsert(table, key, family, columns)];
    }

    method BatchInsertSuperColumn(table: PyStr, key: PyStr, supercol: PyStr, bundle: Bundle)
      modifies this
      ensures log == old(log) + [Call.BatchInsertSuperColumn(table, key, supercol, bundle)]
      ensures served == old(served)
    {
      log := log + [Call.BatchInsertSuperColumn(table, key, supercol, bundle)];
    }

    method BatchInsertSuperMap(table: PyStr, key: PyStr, cfmap: map<PyStr, seq<Bundle>>)
      modifies this
      ensures log == old(log) + [Call.BatchInsertSuperMap(table, key, cfmap)]
      ensures served == old(served)
    {
      log := log + [Call.BatchInsertSuperMap(table, key, cfmap)];
    }
  }
}
