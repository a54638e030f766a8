/**
 * The connection pool (lazyboy/connection.py): a registry of server lists by pool name,
 * a cache of clients by process, thread and pool name, and a client that proxies every
 * backend call to its servers in round-robin order, opening a server's transport on
 * demand and closing it when something goes wrong. What a transport does on the wire is
 * not modelled: each open attempt and each proxied call is answered by an outcome
 * parameter.
 */
module Connection {
  import opened Common
  import opened PyText

  /** `s.split(sep)`: the pieces between separators, empty pieces included. */
  function Split(s: string, sep: char): (r: seq<string>)
    ensures |r| >= 1
    ensures forall i :: 0 <= i < |r| ==> sep !in r[i]
    decreases |s|
  {
    if s == [] then [""]
    else
      var rest := Split(s[1..], sep);
      if s[0] == sep then [""] + rest
      else [[s[0]] + rest[0]] + rest[1..]
  }

  /** `sep.join(parts)`. */
  function Join(parts: seq<string>, sep: char): string
    requires |parts| >= 1
  {
    if |parts| == 1 then parts[0] else parts[0] + [sep] + Join(parts[1..], sep)
  }

  /** Splitting loses nothing: joining the pieces with the separator gives the text back. */
  lemma {:induction false} JoinSplit(s: string, sep: char)
    ensures Join(Split(s, sep), sep) == s
    decreases |s|
  {
    if s != [] {
      JoinSplit(s[1..], sep);
      var rest := Split(s[1..], sep);
      if s[0] == sep {
        assert Split(s, sep)[1..] == rest;
      } else {
        var r := Split(s, sep);
        if |rest| == 1 {
          assert r == [[s[0]] + rest[0]];
        } else {
          assert r[1..] == rest[1..];
        }
      }
    }
  }

  /** A server entry splits into exactly a host and a port, or unpacking raises ValueError. */
  predicate WellFormed(entries: seq<string>) {
    forall i :: 0 <= i < |entries| ==> |Split(entries[i], ':')| == 2
  }

  /**
   * The servers a client built from `entries` ends up with: one per entry whose port
   * converts with `int()`, in order; the others are dropped without a word.
   */
  function Addresses(entries: seq<string>): (r: seq<(string, int)>)
    requires WellFormed(entries)
    ensures |r| <= |entries|
  {
    if entries == [] then []
    else
      var prev := Addresses(entries[..|entries| - 1]);
      var parts := Split(entries[|entries| - 1], ':');
      match ParseInt(parts[1])
      case Some(port) => prev + [(parts[0], port)]
      case None => prev
  }

  /** The server `_addServer(host, port)` adds: none when `int(port)` raises. */
  function Added(host: string, port: string): seq<(string, int)> {
    match ParseInt(port)
    case Some(p) => [(host, p)]
    case None => []
  }

  lemma AddressesStep(entries: seq<string>, i: nat)
    requires i < |entries| && WellFormed(entries[..i]) && |Split(entries[i], ':')| == 2
    ensures WellFormed(entries[..i + 1])
    ensures Addresses(entries[..i + 1]) ==
      Addresses(entries[..i]) + Added(Split(entries[i], ':')[0], Split(entries[i], ':')[1])
  {
    var pre := entries[..i + 1];
    assert pre[..i] == entries[..i];
    assert pre[i] == entries[i];
  }

  /** Entries whose ports are decimal numbers all make it into the client, in order. */
  lemma {:induction false} AddressesOfNumericPorts(entries: seq<string>)
    requires WellFormed(entries)
    requires forall i :: 0 <= i < |entries| ==> ParseInt(Split(entries[i], ':')[1]).Some?
    ensures |Addresses(entries)| == |entries|
    ensures forall i :: 0 <= i < |entries| ==>
      Addresses(entries)[i] == (Split(entries[i], ':')[0], ParseInt(Split(entries[i], ':')[1]).value)
  {
    if entries != [] {
      var init := entries[..|entries| - 1];
      NumericPrefix(entries, init);
      AddressesOfNumericPorts(init);
      assert forall i :: 0 <= i < |init| ==> Addresses(entries)[i] == Addresses(init)[i] && init[i] == entries[i];
    }
  }

  /** Dropping the last entry keeps the entries well formed and their ports numeric; the last one adds its server. */
  lemma NumericPrefix(entries: seq<string>, init: seq<string>)
    requires entries != [] && WellFormed(entries) && init == entries[..|entries| - 1]
    requires forall i :: 0 <= i < |entries| ==> ParseInt(Split(entries[i], ':')[1]).Some?
    ensures WellFormed(init)
    ensures forall i :: 0 <= i < |init| ==> ParseInt(Split(init[i], ':')[1]).Some?
    ensures
      var parts := Split(entries[|entries| - 1], ':');
      Addresses(entries) == Addresses(init) + [(parts[0], ParseInt(parts[1]).value)]
  {
    assert forall i :: 0 <= i < |init| ==> init[i] == entries[i];
  }

  /** How `transport.open()` ends. */
  datatype OpenOutcome =
    | Opened
    | OpenThriftError(message: PyStr)   // a `Thrift.ErrorT`, with its message
    | OpenFailed                        // any other exception

  /** How the proxied backend call ends. */
  datatype CallOutcome =
    | Replied
    | CallThriftError(message: PyStr)
    | CallRaised(reason: string)

  /** What the proxy function returns: the backend's reply, or `None` when the server could not be reached. */
  datatype Proxied = Returned | NoConnection

  /** The message of the `ErrorThriftMessage` raised for a Thrift error. */
  function ThriftText(message: PyStr): (r: string)
    ensures r != ""
    ensures Truthy(message) ==> r == message.value
  {
    if Truthy(message) then message.value else "Transport error, reconnect"
  }

  /** `_connect`: the result and whether the transport is open afterwards. */
  function Connected(wasOpen: bool, attempt: OpenOutcome): (Result<bool>, bool) {
    if wasOpen then (Ok(true), true)
    else match attempt
      case Opened => (Ok(true), true)
      case OpenThriftError(m) => (Err(ThriftMessage(ThriftText(m))), false)
      case OpenFailed => (Ok(false), false)
  }

  /** One proxied call on the selected server: the result and whether its transport is open afterwards. */
  function Proxy(wasOpen: bool, attempt: OpenOutcome, reply: CallOutcome): (Result<Proxied>, bool) {
    var (connected, open) := Connected(wasOpen, attempt);
    match connected
    case Err(e) => (Err(e), open)
    case Ok(false) => (Ok(NoConnection), open)
    case Ok(true) =>
      match reply
      case Replied => (Ok(Returned), true)
      case CallThriftError(m) => (Err(ThriftMessage(ThriftText(m))), false)
      case CallRaised(reason) => (Err(CallFailed(reason)), false)
  }

  /**
   * The transport state machine around a call: only a reply leaves the transport open,
   * a server that was open is used without an open attempt, every failure closes it,
   * and a failed open that is not a Thrift error makes the call return `None`.
   */
  lemma ProxyOutcomes(wasOpen: bool, attempt: OpenOutcome, reply: CallOutcome)
    ensures Proxy(wasOpen, attempt, reply).1 <==> Proxy(wasOpen, attempt, reply).0 == Ok(Returned)
    ensures wasOpen ==> Proxy(wasOpen, attempt, reply) == Proxy(wasOpen, Opened, reply)
    ensures Proxy(wasOpen, attempt, reply).0 == Ok(NoConnection) <==> !wasOpen && attempt == OpenFailed
    ensures Proxy(wasOpen, attempt, reply).0.Err? ==>
      Proxy(wasOpen, attempt, reply).0.error.ThriftMessage? || Proxy(wasOpen, attempt, reply).0.error.CallFailed?
  {
  }

  /** The server a cursor value selects among `n` servers. */
  function Pick(cursor: nat, n: nat): (i: nat)
    requires n > 0
    ensures i < n
  {
    cursor % n
  }

  /** The servers chosen by `count` successive calls starting at `cursor`. */
  function Rotation(cursor: nat, count: nat, n: nat): (r: seq<nat>)
    requires n > 0
    ensures |r| == count
    ensures forall k :: 0 <= k < count ==> r[k] == Pick(cursor + k, n)
    decreases count
  {
    if count == 0 then [] else [Pick(cursor, n)] + Rotation(cursor + 1, count - 1, n)
  }

  lemma MulAtLeast(d: int, n: int)
    requires d >= 1 && n > 0
    ensures d * n >= n
  {
    assert d * n == (d - 1) * n + n;
    assert (d - 1) * n >= 0;
  }

  /** Euclidean division leaves one remainder only. */
  lemma ModUnique(x: int, n: int, q: int, r: int)
    requires n > 0 && 0 <= r < n && x == q * n + r
    ensures x % n == r
  {
    var q', r' := x / n, x % n;
    assert x == q' * n + r';
    assert (q - q') * n == r' - r;
    if q > q' {
      MulAtLeast(q - q', n);
    } else if q < q' {
      MulAtLeast(q' - q, n);
    }
  }

  /** Every server is picked within `n` calls of any cursor. */
  lemma PickReaches(cursor: nat, n: nat, j: nat) returns (k: nat)
    requires 0 <= j < n
    ensures k < n && Pick(cursor + k, n) == j
  {
    var q, s := cursor / n, cursor % n;
    assert cursor == q * n + s;
    k := if j >= s then j - s else j - s + n;
    var m := if j >= s then q else q + 1;
    assert cursor + k == m * n + j;
    ModUnique(cursor + k, n, m, j);
  }

  /** Fewer than `n` calls apart, two calls pick different servers. */
  lemma PickDistinct(cursor: nat, n: nat, k1: nat, k2: nat)
    requires k1 < k2 < n
    ensures Pick(cursor + k1, n) != Pick(cursor + k2, n)
  {
    var a, b := cursor + k1, cursor + k2;
    var qa, qb := a / n, b / n;
    assert a == qa * n + a % n && b == qb * n + b % n;
    if a % n == b % n {
      assert b - a == (qb - qa) * n;
      if qb > qa {
        MulAtLeast(qb - qa, n);
      } else if qb < qa {
        MulAtLeast(qa - qb, n);
      }
    }
  }

  /** Round robin is fair: any `n` successive calls among `n` servers choose each server exactly once. */
  lemma RoundRobin(cursor: nat, n: nat)
    requires n > 0
    ensures forall k1, k2 :: 0 <= k1 < k2 < n ==> Rotation(cursor, n, n)[k1] != Rotation(cursor, n, n)[k2]
    ensures forall j :: 0 <= j < n ==> j in Rotation(cursor, n, n)
  {
    var rot := Rotation(cursor, n, n);
    forall j | 0 <= j < n ensures j in rot {
      var k := PickReaches(cursor, n, j);
      assert rot[k] == j;
    }
    forall k1, k2 | 0 <= k1 < k2 < n ensures rot[k1] != rot[k2] {
      PickDistinct(cursor, n, k1, k2);
    }
  }

  /** One server's transport. */
  class Endpoint {
    const host: string
    const port: int
    var isOpen: bool

    constructor (host: string, port: int)
      ensures this.host == host && this.port == port && !isOpen
    {
      this.host := host;
      this.port := port;
      isOpen := false;
    }
  }

  /** The addresses of a client's servers. */
  function AddressesOf(servers: seq<Endpoint>): (r: seq<(string, int)>)
    ensures |r| == |servers|
    ensures forall i :: 0 <= i < |servers| ==> r[i] == (servers[i].host, servers[i].port)
  {
    if servers == [] then [] else AddressesOf(servers[..|servers| - 1]) + [(servers[|servers| - 1].host, servers[|servers| - 1].port)]
  }

  /** `connection.Client`. */
  class Client {
    var servers: seq<Endpoint>
    /** `_current_server`. */
    var current: nat

    constructor Empty()
      ensures servers == [] && current == 0
    {
      servers := [];
      current := 0;
    }

    /**
     * `Client(entries)`: a malformed entry raises ValueError, which abandons the client;
     * an entry whose port does not convert is left out.
     */
    static method New(entries: seq<string>) returns (r: Result<Client>)
      ensures r.Ok? <==> WellFormed(entries)
      ensures r.Err? ==> r.error == ValueError
      ensures r.Ok? ==>
        (fresh(r.value) && r.value.current == 0
         && AddressesOf(r.value.servers) == Addresses(entries)
         && forall e :: e in r.value.servers ==> fresh(e) && !e.isOpen)
    {
      var c := new Client.Empty();
      var i := 0;
      while i < |entries|
        invariant 0 <= i <= |entries|
        invariant fresh(c) && c.current == 0
        invariant WellFormed(entries[..i])
        invariant AddressesOf(c.servers) == Addresses(entries[..i])
        invariant forall e :: e in c.servers ==> fresh(e) && !e.isOpen
      {
        var parts := Split(entries[i], ':');
        if |parts| != 2 {
          return Err(ValueError);
        }
        c.AddServer(parts[0], parts[1]);
        AddressesStep(entries, i);
        i := i + 1;
      }
      assert entries[..i] == entries;
      return Ok(c);
    }

    /** `_addServer(host, port)`: a port `int()` rejects is swallowed by the `finally`. */
    method AddServer(host: string, port: string)
      modifies this
      ensures current == old(current)
      ensures AddressesOf(servers) == AddressesOf(old(servers)) + Added(host, port)
      ensures forall e :: e in servers ==> e in old(servers) || (fresh(e) && !e.isOpen)
    {
      match ParseInt(port)
      case Some(p) =>
        var e := new Endpoint(host, p);
        servers := servers + [e];
        assert servers[..|servers| - 1] == old(servers);
      case None =>
    }

    /** `_getServer`: the next server in turn; with no servers the modulo divides by zero. */
    method Select() returns (r: Result<Endpoint>)
      modifies this
      ensures servers == old(servers)
      ensures |servers| == 0 ==> r == Err(ZeroDivisionError) && current == old(current)
      ensures |servers| > 0 ==> r == Ok(servers[Pick(old(current), |servers|)]) && current == old(current) + 1
    {
      if |servers| == 0 {
        return Err(ZeroDivisionError);
      }
      var next := Pick(current, |servers|);
      current := current + 1;
      return Ok(servers[next]);
    }

    /** `_connect(e)`, the open attempt ending as `attempt`. */
    method Connect(e: Endpoint, attempt: OpenOutcome) returns (r: Result<bool>)
      modifies e
      ensures (r, e.isOpen) == Connected(old(e.isOpen), attempt)
    {
      if e.isOpen {
        return Ok(true);
      }
      match attempt
      case Opened =>
        e.isOpen := true;
        r := Ok(true);
      case OpenThriftError(m) =>
        e.isOpen := false;
        r := Err(ThriftMessage(ThriftText(m)));
      case OpenFailed =>
        e.isOpen := false;
        r := Ok(false);
    }

    /**
     * A proxied call (`__getattr__`'s `func`): select a server, connect, call. The cursor
     * moves exactly once, only the selected server's transport changes, and a failure is
     * re-raised without trying another server.
     */
    method Invoke(attempt: OpenOutcome, reply: CallOutcome) returns (r: Result<Proxied>)
      modifies this, servers
      ensures servers == old(servers)
      ensures |servers| == 0 ==> r == Err(ZeroDivisionError) && current == old(current)
      ensures |servers| > 0 ==>
        var e := servers[Pick(old(current), |servers|)];
        && current == old(current) + 1
        && (r, e.isOpen) == Proxy(old(e.isOpen), attempt, reply)
        && forall d :: d in servers && d != e ==> d.isOpen == old(d.isOpen)
    {
      var selected := Select();
      if selected.Err? {
        return Err(selected.error);
      }
      var e := selected.value;
      var connected := Connect(e, attempt);
      match connected
      case Err(err) =>
        r := Err(err);
      case Ok(false) =>
        r := Ok(NoConnection);
      case Ok(true) =>
        match reply
        case Replied =>
          r := Ok(Returned);
        case CallThriftError(m) =>
          e.isOpen := false;
          r := Err(ThriftMessage(ThriftText(m)));
        case CallRaised(reason) =>
          e.isOpen := false;
          r := Err(CallFailed(reason));
    }
  }

  /** The module-level registries `_SERVERS` and `_CLIENTS`. */
  class Pools {
    var servers: map<string, seq<string>>
    var clients: map<string, Client>

    constructor ()
      ensures servers == map[] && clients == map[]
    {
      servers := map[];
      clients := map[];
    }

    /** `add_pool(name, entries)`: replaces the list; clients already built keep their servers. */
    method AddPool(name: string, entries: seq<string>)
      modifies this
      ensures servers == old(servers)[name := entries]
      ensures clients == old(clients)
    {
      servers := servers[name := entries];
    }

    /**
     * `get_pool(name)` in the process and thread named by `ident`: a cached client is
     * returned as is; otherwise a new client is built and cached, and any failure to
     * build one (unknown name, malformed entry) becomes ClientNotFound with nothing cached.
     * A `None` name cannot be concatenated into the cache key.
     */
    method GetPool(ident: string, name: PyStr) returns (r: Result<Client>)
      modifies this
      ensures servers == old(servers)
      ensures name.None? ==> r == Err(TypeError) && clients == old(clients)
      ensures name.Some? && ident + name.value in old(clients) ==>
        r == Ok(old(clients)[ident + name.value]) && clients == old(clients)
      ensures name.Some? && ident + name.value !in old(clients) ==>
        && (r.Ok? <==> name.value in servers && WellFormed(servers[name.value]))
        && (r.Err? ==> r.error == ClientNotFound && clients == old(clients))
        && (r.Ok? ==>
              (fresh(r.value) && clients == old(clients)[ident + name.value := r.value]
               && r.value.current == 0 && AddressesOf(r.value.servers) == Addresses(servers[name.value])))
    {
      if name.None? {
        return Err(TypeError);
      }
      var key := ident + name.value;
      if key in clients {
        return Ok(clients[key]);
      }
      if name.value !in servers {
        return Err(ClientNotFound);
      }
      var built := Client.New(servers[name.value]);
      if built.Err? {
        return Err(ClientNotFound);
      }
      clients := clients[key := built.value];
      return Ok(built.value);
    }
  }
}
