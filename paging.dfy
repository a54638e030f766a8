/**
 * The generator `SuperColumn._iter_columns(start, limit, chunk_size)` (lazyboy/supercolumn.py)
 * as a cursor: the generator's local variables between two `next()` calls, and the steps
 * that move it on without yielding. Asking the backend for a page and writing the payload
 * cache belong to the container; here a page is an argument.
 */
module Paging {
  import opened Common
  import opened Store

  /** `returned >= limit` under Python 2, where `None` compares below every number. */
  predicate Reached(returned: int, limit: Option<int>) {
    limit.None? || returned >= limit.value
  }

  /**
   * The most items one scan yields: counting from one, the limit is reached exactly from
   * this count on. With `limit=None`, or any limit below 2, that is a single item.
   */
  function Cap(limit: Option<int>): (r: nat)
    ensures r >= 1
    ensures forall n :: n >= 1 ==> (Reached(n, limit) <==> n >= r)
  {
    if limit.None? || limit.value <= 1 then 1 else limit.value
  }

  /** Where the generator stands: before a request, inside a page's `for` loop, or finished. */
  datatype Phase = Request | Draining | Finished

  /**
   * The generator's frame: `start`, `limit`, `chunk_size`, `returned`, the page `scols`
   * last received, what is left of `scols[fudge:]`, and `scol`, the item last yielded,
   * which stays bound from one page to the next and is unbound before the first.
   */
  datatype Pager = Pager(start: string, limit: Option<int>, chunk: int, returned: nat,
                         page: seq<SuperCol>, rest: seq<SuperCol>, last: Option<SuperCol>,
                         phase: Phase)

  /** `_iter_columns(start, limit, chunk_size)` before its first `next()`. */
  function Start(start: string, limit: Option<int>, chunk: int): Pager {
    Pager(start, limit, chunk, 0, [], [], None, Request)
  }

  /** `fudge = int(bool(start))`. */
  function Fudge(p: Pager): nat {
    if p.start != "" then 1 else 0
  }

  /** The count requested: `chunk_size + fudge`. */
  function Count(p: Pager): int {
    p.chunk + Fudge(p)
  }

  /** What holds between two `next()` calls. */
  ghost predicate Inv(p: Pager) {
    && p.returned <= Cap(p.limit)
    && (p.phase != Finished ==> p.returned < Cap(p.limit))
    && (p.returned > 0 <==> p.last.Some?)
    && (p.phase == Request && p.last.Some? ==> p.start == p.last.value.name)
  }

  /**
   * A page arrives: an empty one ends the scan; otherwise the `for` loop starts on
   * `scols[fudge:]`, so a resumed scan drops the boundary item it has already yielded.
   */
  function Receive(p: Pager, scols: seq<SuperCol>): (r: Pager)
    requires p.phase == Request
    ensures Inv(p) ==> Inv(r)
    ensures r.phase == Finished <==> scols == []
    ensures scols != [] ==> r.page == scols && r.rest == scols[Fudge(p)..]
    ensures r.returned == p.returned && r.last == p.last && r.limit == p.limit
  {
    if scols == [] then p.(phase := Finished)
    else p.(page := scols, rest := scols[Fudge(p)..], phase := Draining)
  }

  /**
   * One pass of the `for` body: the item is counted and becomes `scol`. The limit test
   * after the `yield` has no effect but ending the scan, so it is taken here.
   */
  function Take(p: Pager): (r: Pager)
    requires p.phase == Draining && p.rest != []
    ensures Inv(p) ==> Inv(r)
    ensures r.returned == p.returned + 1 && r.last == Some(p.rest[0]) && r.limit == p.limit
    ensures r.phase == Finished <==> Reached(r.returned, p.limit)
  {
    p.(returned := p.returned + 1, rest := p.rest[1..], last := Some(p.rest[0]),
       phase := if Reached(p.returned + 1, p.limit) then Finished else Draining)
  }

  /**
   * The end of a page: `start = scol.name` (an UnboundLocalError when no item was ever
   * yielded), then the short-page test, which compares with `chunk_size`, not with the
   * count requested.
   */
  function EndPage(p: Pager): (r: Result<Pager>)
    requires p.phase == Draining && p.rest == []
    ensures Inv(p) && r.Ok? ==> Inv(r.value)
    ensures r.Err? <==> p.last.None?
    ensures r.Err? ==> r.error == UnboundLocalError
    ensures r.Ok? ==> r.value.start == p.last.value.name
    ensures r.Ok? ==> (r.value.phase == Finished <==> |p.page| < p.chunk)
    ensures r.Ok? ==> r.value.phase != Draining && r.value.returned == p.returned && r.value.limit == p.limit
  {
    if p.last.None? then Err(UnboundLocalError)
    else
      var q := p.(start := p.last.value.name);
      Ok(q.(phase := if |p.page| < p.chunk then Finished else Request))
  }

  /** The generator is at a yield, before a request, or finished. */
  predicate Settled(p: Pager) {
    p.phase == Draining ==> p.rest != []
  }

  /** Decreases with each step that needs no page. */
  function Rank(p: Pager): nat {
    if p.phase == Request then 1 else if p.phase == Draining && p.rest == [] then 2 else 0
  }

  /**
   * The generator run from `p` without yielding, the backend answering with `pages` in
   * order, until it reaches its next yield, ends, or needs a page beyond `pages`.
   */
  function Pump(p: Pager, pages: seq<seq<SuperCol>>): (r: Result<Pager>)
    ensures r.Ok? ==> Settled(r.value)
    ensures r.Ok? ==> r.value.returned == p.returned && r.value.limit == p.limit
    ensures r.Ok? && Inv(p) ==> Inv(r.value)
    ensures r.Err? ==> r.error == UnboundLocalError
    decreases |pages|, Rank(p)
  {
    if p.phase == Request then
      if pages == [] then Ok(p) else Pump(Receive(p, pages[0]), pages[1..])
    else if p.phase == Draining && p.rest == [] then
      match EndPage(p)
      case Err(e) => Err(e)
      case Ok(q) => Pump(q, pages)
    else Ok(p)
  }

  /** What one `next()` returns after a run on `pages`: the next item, the end, or an exception. */
  function Outcome(p: Pager, pages: seq<seq<SuperCol>>): Result<Option<SuperCol>> {
    match Pump(p, pages)
    case Err(e) => Err(e)
    case Ok(s) =>
      if s.phase == Request then Err(Exhausted)
      else if s.phase == Finished then Ok(None)
      else Ok(Some(s.rest[0]))
  }

  /** Where the generator stands after that `next()`. */
  function After(p: Pager, pages: seq<seq<SuperCol>>): Pager {
    match Pump(p, pages)
    case Err(_) => p
    case Ok(s) => if s.phase == Draining then Take(s) else s
  }

  /** A `next()` that yields moves the count on by one and leaves the item as `scol`. */
  lemma Yielding(p: Pager, pages: seq<seq<SuperCol>>)
    requires Inv(p)
    ensures Inv(After(p, pages))
    ensures Outcome(p, pages).Ok? && Outcome(p, pages).value.Some? ==>
      && After(p, pages).returned == p.returned + 1
      && After(p, pages).last == Outcome(p, pages).value
  {
  }

  /** The requests the same run makes: one `get_slice_super` per page, from `start`. */
  function Requests(table: PyStr, key: PyStr, name: string, p: Pager, pages: seq<seq<SuperCol>>): seq<Call>
    decreases |pages|, Rank(p)
  {
    if p.phase == Request then
      if pages == [] then []
      else [Call.GetSliceSuper(table, key, name, p.start, "", true, 0, Count(p), pages[0])]
           + Requests(table, key, name, Receive(p, pages[0]), pages[1..])
    else if p.phase == Draining && p.rest == [] then
      match EndPage(p)
      case Err(_) => []
      case Ok(q) => Requests(table, key, name, q, pages)
    else []
  }

  /** Without pages the run makes no request. */
  lemma {:induction false} RequestsNone(table: PyStr, key: PyStr, name: string, p: Pager)
    ensures Requests(table, key, name, p, []) == []
    decreases Rank(p)
  {
    if p.phase == Draining && p.rest == [] && EndPage(p).Ok? {
      RequestsNone(table, key, name, EndPage(p).value);
    }
  }

  /**
   * A run that stops for want of a page goes on, given one more, exactly as a run started
   * where it stopped: one more request, from where the first run stood.
   */
  lemma {:induction false} PumpAppend(table: PyStr, key: PyStr, name: string, p: Pager,
                                      pages: seq<seq<SuperCol>>, scols: seq<SuperCol>)
    requires Pump(p, pages).Ok? && Pump(p, pages).value.phase == Request
    ensures Pump(p, pages + [scols]) == Pump(Receive(Pump(p, pages).value, scols), [])
    ensures Requests(table, key, name, p, pages + [scols]) ==
      Requests(table, key, name, p, pages)
      + [Call.GetSliceSuper(table, key, name, Pump(p, pages).value.start, "", true, 0,
                            Count(Pump(p, pages).value), scols)]
    decreases |pages|, Rank(p)
  {
    if p.phase == Request {
      if pages == [] {
        RequestsNone(table, key, name, Receive(p, scols));
        assert pages + [scols] == [scols] && [scols][1..] == [];
      } else {
        assert (pages + [scols])[1..] == pages[1..] + [scols];
        PumpAppend(table, key, name, Receive(p, pages[0]), pages[1..], scols);
      }
    } else {
      assert p.phase == Draining && p.rest == [];
      PumpAppend(table, key, name, EndPage(p).value, pages, scols);
    }
  }

  /** With the default `limit=None` a scan is over once it has yielded one item. */
  lemma DefaultLimitYieldsOne(p: Pager)
    requires Inv(p) && p.limit.None?
    ensures p.returned <= 1
    ensures p.returned == 1 ==> p.phase == Finished
  {
  }

  /**
   * Before each request after the first, the scan stands at the name of the item it
   * yielded last; when that name is not empty it asks for one more than `chunk_size`
   * and drops the first item of the page.
   */
  lemma ResumesAtLastYielded(p: Pager, scols: seq<SuperCol>)
    requires Inv(p) && p.phase == Request && p.returned > 0
    ensures p.start == p.last.value.name
    ensures p.start != "" ==> Count(p) == p.chunk + 1
    ensures p.start != "" && scols != [] ==> Receive(p, scols).rest == scols[1..]
  {
  }
}
