/**
 * Views (lazyboy/view.py): a list of object keys kept as the column values of one or more
 * partition rows. A view scans each partition a page at a time, chains the partitions in
 * the order `view_keys()` gives, and loads one object of its family per key.
 *
 * The generators are modelled by what they do when run: a full scan of a partition and of
 * the whole view (`list(...)`), and the first `next()` of a fresh iterator, which is what
 * `view[n]` takes. A view's attributes are set by its constructor and never assigned
 * again, so a view is a value here.
 */
module Views {
  import opened Common
  import opened Store
  import opened PrimaryKeys
  import opened Base
  import CF = ColumnFamilies
  import T = Tracking

  /** The page length `_iter_partition_keys` asks for; the view's own `limit` is not consulted. */
  const PageSize: nat := 100

  /** What `view_keys()` returns: a tuple or list, or a generator. */
  datatype Partitions = Indexable(keys: seq<PyStr>) | Generator(keys: seq<PyStr>)

  /** `View.view_keys()`: the empty tuple, until a subclass says otherwise. */
  const NoPartitions: Partitions := Indexable([])

  /**
   * A view: the class attributes `family` and `view_keys()`, the primary key built by
   * `_gen_pk()`, and the four constructor arguments.
   */
  datatype View = View(family: CF.EntityClass, partitions: Partitions, pk: Fields,
                       start: string, stop: string, offset: int, limit: int)

  /** The key names every key attribute, as a key built by `_gen_pk()` does. */
  predicate Keyed(v: View) {
    v.pk.Keys == KeyFields
  }

  /**
   * `View(start, stop, offset, limit)` on a class whose key template is `template`
   * (`None` when the class defines no `_key`, as `View` itself does not).
   */
  function New(template: Option<Fields>, family: CF.EntityClass, partitions: Partitions, uuid: Uuid,
               start: string := "", stop: string := "", offset: int := 0, limit: int := 100)
    : (r: Result<View>)
    ensures template.None? ==> r == Err(AttributeError("_key"))
    ensures template.Some? ==> (r.Ok? <==> GenPk(template.value, None, uuid).Ok?)
    ensures template.Some? && r.Err? ==> r.error == GenPk(template.value, None, uuid).error
    ensures r.Ok? ==> Keyed(r.value) && r.value.pk["key"] == Some(uuid)
    ensures r.Ok? ==> forall n :: n in KeyFields && n != "key" ==> r.value.pk[n] == Arg(template.value, n)
    ensures r.Ok? ==> r.value.family == family && r.value.partitions == partitions
    ensures r.Ok? ==>
      r.value.start == start && r.value.stop == stop && r.value.offset == offset && r.value.limit == limit
  {
    if template.None? then Err(AttributeError("_key"))
    else
      var pk :- GenPk(template.value, None, uuid);
      Ok(View(family, partitions, pk, start, stop, offset, limit))
  }

  /**
   * `current_key()`: element 0 of what `view_keys()` returns; a generator cannot be
   * indexed, so its first item is taken instead (and the generator closed).
   */
  function CurrentKey(v: View): (r: Result<PyStr>)
    ensures r.Ok? <==> v.partitions.keys != []
    ensures r.Ok? ==> r.value == v.partitions.keys[0]
    ensures r.Err? ==> r.error == (if v.partitions.Indexable? then IndexError else StopIteration)
  {
    var keys := v.partitions.keys;
    if keys == [] then
      if v.partitions.Indexable? then Err(IndexError) else Err(StopIteration)
    else Ok(keys[0])
  }

  /** With the default `view_keys()` there is no current key: the index error propagates. */
  lemma NoCurrentKey(v: View)
    requires v.partitions == NoPartitions
    ensures CurrentKey(v) == Err(IndexError)
  {
  }

  // ---------------------------------------------------------------------------------------
  // One partition

  /** `col.value` of each column of a page, in order. */
  function Values(cols: seq<Column>): (vs: seq<PyStr>)
    ensures |vs| == |cols| && forall i :: 0 <= i < |cols| ==> vs[i] == cols[i].value
  {
    seq(|cols|, i requires 0 <= i < |cols| => cols[i].value)
  }

  /** The scan stops after a page that is empty or shorter than `PageSize`. */
  predicate Ends(cols: seq<Column>) {
    |cols| < PageSize
  }

  /** The scan has received `pages` and goes on: none of them ended it. */
  predicate Going(pages: seq<seq<Column>>) {
    forall i :: 0 <= i < |pages| ==> !Ends(pages[i])
  }

  /** The scan has received `pages` and stopped after the last. */
  predicate Finished(pages: seq<seq<Column>>) {
    && pages != []
    && (forall i :: 0 <= i < |pages| - 1 ==> !Ends(pages[i]))
    && Ends(pages[|pages| - 1])
  }

  /**
   * `last_col` when the scan sends its request number `i`: `''` first, then the name of
   * the last column of the page before. (A scan never asks again after an empty page.)
   */
  function From(pages: seq<seq<Column>>, i: nat): string
    requires i <= |pages|
  {
    if i == 0 || pages[i - 1] == [] then "" else pages[i - 1][|pages[i - 1]| - 1].name
  }

  /** What the scan yields from `pages`: the value of every column of every page, in order. */
  function Scanned(pages: seq<seq<Column>>): seq<PyStr> {
    if pages == [] then [] else Scanned(pages[..|pages| - 1]) + Values(pages[|pages| - 1])
  }

  /**
   * The requests a scan of `partition` sends, answered with `pages`: each asks for
   * `PageSize` columns, whatever the view's `limit`; the first starts at `''` and each
   * later one at the name of the last column of the page before.
   */
  function ScanRequests(table: PyStr, family: PyStr, partition: PyStr, pages: seq<seq<Column>>): seq<Call> {
    seq(|pages|, i requires 0 <= i < |pages| =>
      Call.GetSlice(table, partition, family, From(pages, i), "", true, PageSize, pages[i]))
  }

  /** One more page received: one more request, from where the pages so far left off. */
  lemma ScanLogged(log: seq<Call>, table: PyStr, family: PyStr, partition: PyStr,
                   pages: seq<seq<Column>>, cols: seq<Column>)
    ensures log + ScanRequests(table, family, partition, pages + [cols])
         == log + ScanRequests(table, family, partition, pages)
            + [Call.GetSlice(table, partition, family, From(pages, |pages|), "", true, PageSize, cols)]
  {
    var longer := ScanRequests(table, family, partition, pages + [cols]);
    var shorter := ScanRequests(table, family, partition, pages);
    assert forall i :: 0 <= i < |pages| ==> longer[i] == shorter[i];
    assert longer == shorter + [longer[|pages|]];
  }

  /** The values of the pages before page `k`, then those of page `k`, lead the whole scan. */
  lemma {:induction false} ScannedPrefix(pages: seq<seq<Column>>, k: nat)
    requires k < |pages|
    ensures Scanned(pages[..k + 1]) == Scanned(pages[..k]) + Values(pages[k])
    ensures Scanned(pages[..k + 1]) <= Scanned(pages)
    decreases |pages|
  {
    assert pages[..k + 1][..k] == pages[..k];
    if k + 1 < |pages| {
      var n := |pages| - 1;
      assert pages[..n][..k + 1] == pages[..k + 1] && pages[..n][..k] == pages[..k];
      ScannedPrefix(pages[..n], k);
    } else {
      assert pages[..k + 1] == pages;
    }
  }

  /**
   * Nothing is skipped: column `j` of page `i` is yielded at the place that follows all
   * the columns of the pages before it.
   */
  lemma ScannedAt(pages: seq<seq<Column>>, i: nat, j: nat)
    requires i < |pages| && j < |pages[i]|
    ensures |Scanned(pages[..i])| + j < |Scanned(pages)|
    ensures Scanned(pages)[|Scanned(pages[..i])| + j] == pages[i][j].value
  {
    ScannedPrefix(pages, i);
  }

  /**
   * Each request starts at the column the page before ended with, and that column is not
   * dropped: when the backend begins a slice with the column it is asked to start from,
   * the boundary column's value is yielded twice in a row.
   */
  lemma BoundaryTwice(pages: seq<seq<Column>>, i: nat)
    requires i + 1 < |pages| && pages[i] != [] && pages[i + 1] != []
    requires pages[i + 1][0].name == From(pages, i + 1)
    requires pages[i + 1][0] == pages[i][|pages[i]| - 1]
    ensures 0 < |Scanned(pages[..i + 1])| < |Scanned(pages)|
    ensures Scanned(pages)[|Scanned(pages[..i + 1])| - 1] == Scanned(pages)[|Scanned(pages[..i + 1])|]
  {
    ScannedPrefix(pages, i);
    ScannedAt(pages, i, |pages[i]| - 1);
    ScannedAt(pages, i + 1, 0);
  }

  /**
   * `list(self._iter_partition_keys(partition))`: request pages, each from the last column
   * name of the page before, yield every value, and stop after an empty or short page.
   * `fuel` bounds the number of pages.
   */
  method ScanPartition(v: View, partition: PyStr, cas: Cassandra, fuel: nat)
    returns (r: Result<seq<PyStr>>, ghost pages: seq<seq<Column>>)
    requires Keyed(v)
    modifies cas
    ensures |pages| <= fuel
    ensures cas.log == old(cas.log) + ScanRequests(v.pk["table"], v.pk["family"], partition, pages)
    ensures r.Ok? <==> Finished(pages)
    ensures r.Ok? ==> r.value == Scanned(pages)
    ensures r.Err? ==> r.error == Exhausted && |pages| == fuel && Going(pages)
  {
    var table, family := v.pk["table"], v.pk["family"];
    var lastCol, out, more, asked := "", [], true, 0;
    pages := [];
    while more && asked < fuel
      invariant asked == |pages| <= fuel
      invariant more ==> Going(pages) && lastCol == From(pages, |pages|)
      invariant !more ==> Finished(pages)
      invariant out == Scanned(pages)
      invariant cas.log == old(cas.log) + ScanRequests(table, family, partition, pages)
    {
      var cols := cas.GetSlice(table, partition, family, lastCol, "", true, PageSize);
      ScanLogged(old(cas.log), table, family, partition, pages, cols);
      ghost var before := pages;
      pages, asked := pages + [cols], asked + 1;
      assert pages[..|pages| - 1] == before;
      if cols == [] {
        more := false;
      } else {
        out := out + Values(cols);
        // `offset, last_col = 1, col.name`: `offset` is never read.
        lastCol := cols[|cols| - 1].name;
        more := !Ends(cols);
      }
    }
    r := if more then Err(Exhausted) else Ok(out);
  }

  // ---------------------------------------------------------------------------------------
  // The whole view

  /** The partitions' scans one after the other. */
  function Chained(scans: seq<seq<seq<Column>>>): seq<PyStr> {
    if scans == [] then [] else Chained(scans[..|scans| - 1]) + Scanned(scans[|scans| - 1])
  }

  /** The requests of the partitions' scans one after the other. */
  function ChainRequests(table: PyStr, family: PyStr, parts: seq<PyStr>, scans: seq<seq<seq<Column>>>)
    : seq<Call>
    requires |scans| <= |parts|
  {
    if scans == [] then []
    else
      var n := |scans| - 1;
      ChainRequests(table, family, parts, scans[..n]) + ScanRequests(table, family, parts[n], scans[n])
  }

  /** One more partition scanned: its requests follow those of the partitions before it. */
  lemma ChainLogged(log: seq<Call>, table: PyStr, family: PyStr, parts: seq<PyStr>,
                    scans: seq<seq<seq<Column>>>, pages: seq<seq<Column>>)
    requires |scans| < |parts|
    ensures log + ChainRequests(table, family, parts, scans + [pages])
         == log + ChainRequests(table, family, parts, scans) + ScanRequests(table, family, parts[|scans|], pages)
  {
    assert (scans + [pages])[..|scans|] == scans;
  }

  /**
   * `list(self._iter_keys())`: every partition `view_keys()` names, in order, scanned to
   * its end. With the default `view_keys()` it yields nothing and asks nothing.
   */
  method ScanKeys(v: View, cas: Cassandra, fuel: nat)
    returns (r: Result<seq<PyStr>>, ghost scans: seq<seq<seq<Column>>>)
    requires Keyed(v)
    modifies cas
    ensures |scans| <= |v.partitions.keys|
    ensures cas.log == old(cas.log) + ChainRequests(v.pk["table"], v.pk["family"], v.partitions.keys, scans)
    ensures r.Ok? ==>
      && |scans| == |v.partitions.keys|
      && (forall i :: 0 <= i < |scans| ==> Finished(scans[i]))
      && r.value == Chained(scans)
    ensures r.Err? ==>
      r.error == Exhausted && scans != [] && Going(scans[|scans| - 1]) && |scans[|scans| - 1]| == fuel
    ensures v.partitions.keys == [] ==> r == Ok([]) && cas.log == old(cas.log)
  {
    var parts := v.partitions.keys;
    var out: seq<PyStr> := [];
    var i := 0;
    var failed := false;
    scans := [];
    while i < |parts| && !failed
      invariant i <= |parts| && |scans| == i
      invariant cas.log == old(cas.log) + ChainRequests(v.pk["table"], v.pk["family"], parts, scans)
      invariant !failed ==> (forall j :: 0 <= j < i ==> Finished(scans[j])) && out == Chained(scans)
      invariant failed ==> scans != [] && Going(scans[i - 1]) && |scans[i - 1]| == fuel
    {
      var keys, pages := ScanPartition(v, parts[i], cas, fuel);
      ChainLogged(old(cas.log), v.pk["table"], v.pk["family"], parts, scans, pages);
      ghost var before := scans;
      scans := scans + [pages];
      assert scans[..i] == before;
      if keys.Err? {
        failed := true;
      } else {
        out := out + keys.value;
      }
      i := i + 1;
    }
    r := if failed then Err(Exhausted) else Ok(out);
  }

  /** The chained scans of the first `m` partitions lead the chained scans of all. */
  lemma {:induction false} ChainedPrefix(scans: seq<seq<seq<Column>>>, m: nat)
    requires m <= |scans|
    ensures Chained(scans[..m]) <= Chained(scans)
    decreases |scans|
  {
    if m < |scans| {
      var n := |scans| - 1;
      assert scans[..n][..m] == scans[..m];
      ChainedPrefix(scans[..n], m);
    } else {
      assert scans[..m] == scans;
    }
  }

  /** Partitions whose first page is empty contribute nothing. */
  lemma {:induction false} ChainedEmpty(scans: seq<seq<seq<Column>>>, m: nat)
    requires m <= |scans|
    requires forall j :: 0 <= j < m ==> Finished(scans[j]) && scans[j][0] == []
    ensures Chained(scans[..m]) == []
  {
    if m > 0 {
      assert scans[..m][..m - 1] == scans[..m - 1];
      ChainedEmpty(scans, m - 1);
      EmptyFirstPage(scans[m - 1]);
    }
  }

  /** A scan whose first page is empty ends there, having yielded nothing. */
  lemma EmptyFirstPage(pages: seq<seq<Column>>)
    requires Finished(pages) && pages[0] == []
    ensures Scanned(pages) == []
  {
    assert |pages| == 1;
    assert pages[..0] == [];
  }

  // ---------------------------------------------------------------------------------------
  // The first `next()` of a fresh iterator

  /** The first page a fresh iteration asked for was not empty. */
  predicate Found(firsts: seq<seq<Column>>) {
    firsts != [] && firsts[|firsts| - 1] != []
  }

  /** The key that page yields first. */
  function Head(firsts: seq<seq<Column>>): PyStr
    requires Found(firsts)
  {
    firsts[|firsts| - 1][0].value
  }

  /**
   * The first `next()` of a fresh `_iter_keys()` asked each partition in turn for its
   * first page, and stopped at the first that was not empty or when none was left.
   */
  predicate Probed(parts: seq<PyStr>, firsts: seq<seq<Column>>) {
    && |firsts| <= |parts|
    && (forall j :: 0 <= j < |firsts| - 1 ==> firsts[j] == [])
    && (|firsts| < |parts| ==> Found(firsts))
  }

  /** The requests of that `next()`: each partition's first page, from `''`. */
  function Probes(table: PyStr, family: PyStr, parts: seq<PyStr>, firsts: seq<seq<Column>>): seq<Call>
    requires |firsts| <= |parts|
  {
    seq(|firsts|, j requires 0 <= j < |firsts| =>
      Call.GetSlice(table, parts[j], family, "", "", true, PageSize, firsts[j]))
  }

  /**
   * The requests of the first `next()` of a fresh iteration are the first request of each
   * partition's scan, when the backend answers them the same.
   */
  lemma ProbesStartScans(table: PyStr, family: PyStr, parts: seq<PyStr>,
                         scans: seq<seq<seq<Column>>>, firsts: seq<seq<Column>>)
    requires |firsts| <= |scans| == |parts|
    requires forall j :: 0 <= j < |firsts| ==> scans[j] != [] && firsts[j] == scans[j][0]
    ensures forall j :: 0 <= j < |firsts| ==>
      Probes(table, family, parts, firsts)[j] == ScanRequests(table, family, parts[j], scans[j])[0]
  {
  }

  /**
   * When the first partition with a non-empty first page is number `k - 1`, the chained
   * scans begin with the first column of that page.
   */
  lemma ChainedHead(scans: seq<seq<seq<Column>>>, k: nat)
    requires 1 <= k <= |scans|
    requires forall j :: 0 <= j < k - 1 ==> Finished(scans[j]) && scans[j][0] == []
    requires scans[k - 1] != [] && scans[k - 1][0] != []
    ensures Chained(scans) != [] && Chained(scans)[0] == scans[k - 1][0][0].value
  {
    ChainedEmpty(scans, k - 1);
    ChainedLast(scans, k);
    ScannedHead(scans[k - 1]);
    ChainedPrefix(scans, k);
  }

  /** With nothing before it, the chain of the first `k` scans is scan `k - 1`. */
  lemma ChainedLast(scans: seq<seq<seq<Column>>>, k: nat)
    requires 1 <= k <= |scans| && Chained(scans[..k - 1]) == []
    ensures Chained(scans[..k]) == Scanned(scans[k - 1])
  {
    assert scans[..k][..k - 1] == scans[..k - 1];
  }

  /** A scan whose first page is not empty yields that page's first value first. */
  lemma ScannedHead(pages: seq<seq<Column>>)
    requires pages != [] && pages[0] != []
    ensures Scanned(pages) != [] && Scanned(pages)[0] == pages[0][0].value
  {
    ScannedPrefix(pages, 0);
    assert pages[..1][..0] == [];
  }

  /**
   * When the backend answers the same, the first `next()` of a fresh iteration finds a key
   * exactly when the full iteration yields one, and that key is the first the full
   * iteration yields.
   */
  lemma FirstIsHead(parts: seq<PyStr>, scans: seq<seq<seq<Column>>>, firsts: seq<seq<Column>>)
    requires |scans| == |parts| && forall j :: 0 <= j < |scans| ==> Finished(scans[j])
    requires Probed(parts, firsts) && |firsts| <= |scans|
    requires forall j :: 0 <= j < |firsts| ==> scans[j] != [] && firsts[j] == scans[j][0]
    ensures Found(firsts) <==> Chained(scans) != []
    ensures Found(firsts) ==> Chained(scans)[0] == Head(firsts)
  {
    var k := |firsts|;
    if Found(firsts) {
      ChainedHead(scans, k);
    } else {
      ChainedEmpty(scans, k);
      assert scans[..k] == scans;
    }
  }

  /**
   * The first `next()` of a fresh `_iter_keys()`: partitions whose first page is empty end
   * at once and the next is asked; the first column of a non-empty page is the key.
   */
  method FirstKey(v: View, cas: Cassandra) returns (r: Result<PyStr>, ghost firsts: seq<seq<Column>>)
    requires Keyed(v)
    modifies cas
    ensures Probed(v.partitions.keys, firsts)
    ensures cas.log == old(cas.log) + Probes(v.pk["table"], v.pk["family"], v.partitions.keys, firsts)
    ensures r == if Found(firsts) then Ok(Head(firsts)) else Err(StopIteration)
  {
    var parts := v.partitions.keys;
    var i := 0;
    firsts := [];
    r := Err(StopIteration);
    while i < |parts| && r.Err?
      invariant i <= |parts| && |firsts| == i
      invariant forall j :: 0 <= j < i - 1 ==> firsts[j] == []
      invariant r == if Found(firsts) then Ok(Head(firsts)) else Err(StopIteration)
      invariant cas.log == old(cas.log) + Probes(v.pk["table"], v.pk["family"], parts, firsts)
    {
      var cols := cas.GetSlice(v.pk["table"], parts[i], v.pk["family"], "", "", true, PageSize);
      ghost var before := firsts;
      firsts := firsts + [cols];
      assert firsts[..i] == before;
      if cols != [] {
        r := Ok(cols[0].value);
      }
      i := i + 1;
    }
  }

  // ---------------------------------------------------------------------------------------
  // Objects

  /**
   * `c` is what `cls().load(key)` returns: an object of the class keyed by `key` (or by
   * the fresh id when `key` is false), holding the first `PageSize` columns of that row,
   * which the one request in `loads` fetched.
   */
  ghost predicate Loaded(cls: CF.EntityClass, key: PyStr, uuid: Uuid, loads: seq<Call>, c: CF.ColumnFamily)
    reads c
  {
    && GenPk(cls.template, key, uuid).Ok?
    && c.Valid() && c.cls == cls && c.pk.parent == null
    && c.pk.attrs == GenPk(cls.template, key, uuid).value
    && |loads| == 1 && loads[0].GetSlice?
    && loads[0] == Call.GetSlice(Arg(cls.template, "table"), if Truthy(key) then key else Some(uuid),
                                 Arg(cls.template, "family"), "", "", true, PageSize, loads[0].page)
    && c.Tracked() == T.Revert(T.Empty.(original := loads[0].page))
  }

  /**
   * The outcome of `cls().load(key)`: building the object fails when its key cannot be
   * made; a super column family's `load` takes more arguments; a plain family always
   * loads; an immutable family loads only when it has no immutable names, since its
   * constructor writes them and `_clean` may not delete them. Every failure comes before
   * the request.
   */
  ghost predicate Made(cls: CF.EntityClass, key: PyStr, uuid: Uuid, loads: seq<Call>, r: Result<CF.ColumnFamily>)
    reads if r.Ok? then {r.value} else {}
  {
    && (CF.KeyOf(cls, None, None, uuid).Err? ==> r == Err(CF.KeyOf(cls, None, None, uuid).error))
    && (CF.KeyOf(cls, None, None, uuid).Ok? && cls.kind.Super? ==> r == Err(TypeError))
    && (CF.KeyOf(cls, None, None, uuid).Ok? && cls.kind.Plain? ==> r.Ok?)
    && (CF.KeyOf(cls, None, None, uuid).Ok? && cls.kind.Immutable? ==>
          (r.Ok? <==> cls.kind.fixed == []) && (r.Err? ==> r.error.InvalidField?))
    && (r.Err? ==> loads == [])
    && (r.Ok? ==> Loaded(cls, key, uuid, loads, r.value))
  }

  /** `keys()` of a fresh object, in some order. */
  method Enumerate(s: set<string>) returns (names: seq<string>)
    ensures T.Lists(names, s)
  {
    names := [];
    var left := s;
    while left != {}
      invariant left <= s
      invariant (set n | n in names) == s - left
      invariant forall i, j :: 0 <= i < j < |names| ==> names[i] != names[j]
      decreases left
    {
      var n :| n in left;
      assert (set m | m in names + [n]) == (set m | m in names) + {n};
      names := names + [n];
      left := left - {n};
    }
  }

  /** `self.family().load(key)`. */
  method Materialize(cls: CF.EntityClass, key: PyStr, uuid: Uuid, now: int, cas: Cassandra)
    returns (r: Result<CF.ColumnFamily>, ghost loads: seq<Call>)
    modifies cas
    ensures cas.log == old(cas.log) + loads
    ensures Made(cls, key, uuid, loads, r)
    ensures r.Ok? ==> fresh(r.value)
  {
    loads := [];
    var made :- CF.ColumnFamily.New(cls, [], [], uuid, now);
    var names := Enumerate(made.items.Keys);
    ghost var logged := cas.log;
    if cls.kind.Plain? {
      assert made.Tracked() == T.Empty;
      T.CleanSpec({}, made.Tracked(), names);
    } else if cls.kind.Immutable? {
      assert T.AssignAll(CF.Protected(cls.kind), T.Empty, [] + [], now).state == T.Empty;
      T.CleanProtected(CF.Protected(cls.kind), made.Tracked(), names, cls.kind.fixed, now);
    }
    r := made.Load(key, uuid, names, cas);
    loads := cas.log[|logged|..];
    assert cas.log == logged + loads;
  }

  /** What one fresh start of `view[n]` did: the first pages it received and its load. */
  datatype Start = Start(firsts: seq<seq<Column>>, loads: seq<Call>)

  /** What `self.__iter__().next()` returned after the start `s`. */
  ghost predicate Answered(v: View, uuid: Uuid, s: Start, r: Result<CF.ColumnFamily>)
    reads if r.Ok? then {r.value} else {}
  {
    && (!Found(s.firsts) ==> r == Err(StopIteration) && s.loads == [])
    && (Found(s.firsts) ==> Made(v.family, Head(s.firsts), uuid, s.loads, r))
  }

  /** `self.__iter__().next()`: the first key of a fresh iteration, loaded. */
  method First(v: View, uuid: Uuid, now: int, cas: Cassandra)
    returns (r: Result<CF.ColumnFamily>, ghost firsts: seq<seq<Column>>, ghost loads: seq<Call>)
    requires Keyed(v)
    modifies cas
    ensures Probed(v.partitions.keys, firsts)
    ensures cas.log == old(cas.log) + Probes(v.pk["table"], v.pk["family"], v.partitions.keys, firsts) + loads
    ensures Answered(v, uuid, Start(firsts, loads), r)
    ensures r.Ok? ==> fresh(r.value)
  {
    var key;
    key, firsts := FirstKey(v, cas);
    loads := [];
    if key.Err? {
      r := Err(key.error);
    } else {
      r, loads := Materialize(v.family, key.value, uuid, now, cas);
    }
  }

  /** The requests of several fresh starts, one after the other. */
  function Trace(table: PyStr, family: PyStr, parts: seq<PyStr>, runs: seq<Start>): seq<Call>
    requires forall j :: 0 <= j < |runs| ==> Probed(parts, runs[j].firsts)
  {
    if runs == [] then []
    else
      var n := |runs| - 1;
      assert Probed(parts, runs[n].firsts);
      Trace(table, family, parts, runs[..n]) + Probes(table, family, parts, runs[n].firsts) + runs[n].loads
  }

  /** Requests logged after requests already logged. */
  lemma Logged(log: seq<Call>, earlier: seq<Call>, probes: seq<Call>, loads: seq<Call>)
    ensures log + earlier + probes + loads == log + (earlier + probes + loads)
  {
  }

  /** One more start adds its probes and its load to the requests. */
  lemma TraceSnoc(table: PyStr, family: PyStr, parts: seq<PyStr>, runs: seq<Start>, s: Start)
    requires forall j :: 0 <= j < |runs| ==> Probed(parts, runs[j].firsts)
    requires Probed(parts, s.firsts)
    ensures forall j :: 0 <= j < |runs + [s]| ==> Probed(parts, (runs + [s])[j].firsts)
    ensures Trace(table, family, parts, runs + [s])
         == Trace(table, family, parts, runs) + Probes(table, family, parts, s.firsts) + s.loads
  {
    assert (runs + [s])[..|runs|] == runs;
  }

  /**
   * `view[item]`: `item` times a fresh iterator is made and advanced once, then once more
   * and that item returned; so whatever `item` is, the answer is the first object of a
   * fresh iteration, after `max(item, 0) + 1` starts. An empty view raises StopIteration
   * at the first start.
   */
  method GetItem(v: View, item: int, uuid: Uuid, now: int, cas: Cassandra)
    returns (r: Result<CF.ColumnFamily>, ghost runs: seq<Start>)
    requires Keyed(v)
    modifies cas
    ensures 1 <= |runs| <= (if item > 0 then item else 0) + 1
    ensures forall j :: 0 <= j < |runs| ==> Probed(v.partitions.keys, runs[j].firsts)
    ensures cas.log == old(cas.log) + Trace(v.pk["table"], v.pk["family"], v.partitions.keys, runs)
    ensures forall j :: 0 <= j < |runs| - 1 ==> Found(runs[j].firsts) && |runs[j].loads| == 1
    ensures Answered(v, uuid, runs[|runs| - 1], r)
    ensures r.Ok? ==> |runs| == (if item > 0 then item else 0) + 1 && fresh(r.value)
  {
    var parts := v.partitions.keys;
    var n := if item > 0 then item else 0;
    var i := 0;
    runs := [];
    r := Err(StopIteration);
    while i <= n && (i == 0 || r.Ok?)
      invariant i <= n + 1 && i == |runs|
      invariant forall j :: 0 <= j < |runs| ==> Probed(parts, runs[j].firsts)
      invariant cas.log == old(cas.log) + Trace(v.pk["table"], v.pk["family"], parts, runs)
      invariant forall j :: 0 <= j < |runs| - 1 ==> Found(runs[j].firsts) && |runs[j].loads| == 1
      invariant runs != [] ==> Answered(v, uuid, runs[|runs| - 1], r)
      invariant r.Ok? ==> fresh(r.value)
    {
      assert runs != [] ==> Found(runs[|runs| - 1].firsts) && |runs[|runs| - 1].loads| == 1;
      ghost var firsts, loads;
      r, firsts, loads := First(v, uuid, now, cas);
      TraceSnoc(v.pk["table"], v.pk["family"], parts, runs, Start(firsts, loads));
      Logged(old(cas.log), Trace(v.pk["table"], v.pk["family"], parts, runs),
             Probes(v.pk["table"], v.pk["family"], parts, firsts), loads);
      runs := runs + [Start(firsts, loads)];
      i := i + 1;
    }
  }

  /** The loads of several objects, one after the other. */
  function Joined(loads: seq<seq<Call>>): seq<Call> {
    if loads == [] then [] else Joined(loads[..|loads| - 1]) + loads[|loads| - 1]
  }

  /** One more load adds its requests after the others. */
  lemma JoinedSnoc(log: seq<Call>, loads: seq<seq<Call>>, calls: seq<Call>)
    ensures log + Joined(loads + [calls]) == log + Joined(loads) + calls
  {
    assert (loads + [calls])[..|loads|] == loads;
  }

  /** Each of `objs` is the object loaded for the key at the same place, by its own requests. */
  ghost predicate EachLoaded(cls: CF.EntityClass, keys: seq<PyStr>, uuid: Uuid, loads: seq<seq<Call>>,
                             objs: seq<CF.ColumnFamily>)
    reads objs
    decreases |objs|
  {
    && |keys| == |loads| == |objs|
    && (objs != [] ==>
          var n := |objs| - 1;
          && EachLoaded(cls, keys[..n], uuid, loads[..n], objs[..n])
          && Loaded(cls, keys[n], uuid, loads[n], objs[n]))
  }

  /** Read object by object. */
  lemma {:induction false} EachLoadedAt(cls: CF.EntityClass, keys: seq<PyStr>, uuid: Uuid,
                                        loads: seq<seq<Call>>, objs: seq<CF.ColumnFamily>)
    requires EachLoaded(cls, keys, uuid, loads, objs)
    ensures |keys| == |loads| == |objs|
    ensures forall i :: 0 <= i < |objs| ==> Loaded(cls, keys[i], uuid, loads[i], objs[i])
    decreases |objs|
  {
    if objs != [] {
      var n := |objs| - 1;
      EachLoadedAt(cls, keys[..n], uuid, loads[..n], objs[..n]);
      forall i | 0 <= i < |objs|
        ensures Loaded(cls, keys[i], uuid, loads[i], objs[i])
      {
        if i < n {
          assert Loaded(cls, keys[..n][i], uuid, loads[..n][i], objs[..n][i]);
        }
      }
    }
  }

  /** One more object, loaded for the next key. */
  lemma EachLoadedSnoc(cls: CF.EntityClass, keys: seq<PyStr>, i: nat, uuid: Uuid, loads: seq<seq<Call>>,
                       objs: seq<CF.ColumnFamily>, calls: seq<Call>, c: CF.ColumnFamily)
    requires i < |keys| && EachLoaded(cls, keys[..i], uuid, loads, objs)
    requires Loaded(cls, keys[i], uuid, calls, c)
    ensures EachLoaded(cls, keys[..i + 1], uuid, loads + [calls], objs + [c])
  {
    assert keys[..i + 1][..i] == keys[..i] && (loads + [calls])[..i] == loads && (objs + [c])[..i] == objs;
  }

  /** The next pass of that comprehension: `self.family().load(keys[i])`. */
  method LoadNext(cls: CF.EntityClass, keys: seq<PyStr>, i: nat, uuid: Uuid, now: int, cas: Cassandra,
                  ghost loads: seq<seq<Call>>, objs: seq<CF.ColumnFamily>)
    returns (c: Result<CF.ColumnFamily>, ghost calls: seq<Call>)
    requires i < |keys| && EachLoaded(cls, keys[..i], uuid, loads, objs)
    modifies cas
    ensures cas.log == old(cas.log) + calls
    ensures c.Ok? ==> EachLoaded(cls, keys[..i + 1], uuid, loads + [calls], objs + [c.value])
    ensures c.Err? ==> Made(cls, keys[i], uuid, calls, Err(c.error))
  {
    c, calls := Materialize(cls, keys[i], uuid, now, cas);
    if c.Ok? {
      assert EachLoaded(cls, keys[..i], uuid, loads, objs);
      EachLoadedSnoc(cls, keys, i, uuid, loads, objs, calls, c.value);
    }
  }

  /** `[self.family().load(key) for key in keys]`, stopping at the first exception. */
  method LoadEach(cls: CF.EntityClass, keys: seq<PyStr>, uuid: Uuid, now: int, cas: Cassandra)
    returns (r: Result<seq<CF.ColumnFamily>>, ghost loads: seq<seq<Call>>)
    modifies cas
    ensures |loads| <= |keys|
    ensures cas.log == old(cas.log) + Joined(loads)
    ensures r.Ok? ==> |loads| == |keys| && EachLoaded(cls, keys, uuid, loads, r.value)
    ensures r.Err? ==> loads != [] && Made(cls, keys[|loads| - 1], uuid, loads[|loads| - 1], Err(r.error))
  {
    var objs: seq<CF.ColumnFamily> := [];
    var i := 0;
    loads := [];
    r := Ok([]);
    while i < |keys|
      invariant i <= |keys| && |loads| == i
      invariant cas.log == old(cas.log) + Joined(loads)
      invariant EachLoaded(cls, keys[..i], uuid, loads, objs)
    {
      var c, calls := LoadNext(cls, keys, i, uuid, now, cas, loads, objs);
      JoinedSnoc(old(cas.log), loads, calls);
      if c.Err? {
        loads := loads + [calls];
        r := Err(c.error);
        break;
      }
      objs := objs + [c.value];
      loads := loads + [calls];
      i := i + 1;
    }
    if r.Ok? {
      assert keys[..i] == keys;
      r := Ok(objs);
    }
  }

  /**
   * `list(view)`: the keys of every partition, then one object loaded per key, in order.
   * (The generators interleave the loads with the page requests; here the requests come
   * first.)
   */
  method Iterate(v: View, uuid: Uuid, now: int, cas: Cassandra, fuel: nat)
    returns (r: Result<seq<CF.ColumnFamily>>, ghost scans: seq<seq<seq<Column>>>, ghost loads: seq<seq<Call>>)
    requires Keyed(v)
    modifies cas
    ensures |scans| <= |v.partitions.keys|
    ensures cas.log ==
      old(cas.log) + ChainRequests(v.pk["table"], v.pk["family"], v.partitions.keys, scans) + Joined(loads)
    ensures r.Ok? ==>
      && |scans| == |v.partitions.keys|
      && (forall i :: 0 <= i < |scans| ==> Finished(scans[i]))
      && EachLoaded(v.family, Chained(scans), uuid, loads, r.value)
  {
    var keys;
    loads := [];
    keys, scans := ScanKeys(v, cas, fuel);
    if keys.Err? {
      r := Err(keys.error);
    } else {
      r, loads := LoadEach(v.family, keys.value, uuid, now, cas);
    }
  }
}
