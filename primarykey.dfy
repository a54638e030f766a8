/**
 * Composite keys (lazyboy/primarykey.py). A `PrimaryKey` holds the five key attributes
 * itself; a clone (`DecoratedPrimaryKey`) holds only its overrides and answers every
 * other attribute by asking its parent at the moment of the read.
 */
module PrimaryKeys {
  import opened Common

  /** The attributes an object holds in its own `__dict__`. */
  type Fields = map<string, PyStr>

  /** The parameters of `PrimaryKey.__init__`, which its constructor stores as attributes. */
  const KeyFields: set<string> := {"table", "key", "family", "supercol", "superkey"}

  /** The keyword argument `name`, or its default `None`. */
  function Arg(args: Fields, name: string): PyStr {
    if name in args then args[name] else None
  }

  /** Exactly one of `supercol` and `superkey` is set (by truthiness). */
  predicate HalfSuper(supercol: PyStr, superkey: PyStr) {
    Truthy(supercol) != Truthy(superkey)
  }

  /**
   * `PrimaryKey(**args)`: binding the keyword arguments (an unknown name, or a missing
   * `table` or `key`, is a TypeError), then the pairing check, then one attribute per
   * parameter.
   */
  function Init(args: Fields): (r: Result<Fields>)
    ensures r.Ok? <==>
      (args.Keys <= KeyFields && "table" in args && "key" in args
       && !HalfSuper(Arg(args, "supercol"), Arg(args, "superkey")))
    ensures (args.Keys <= KeyFields && "table" in args && "key" in args
             && HalfSuper(Arg(args, "supercol"), Arg(args, "superkey"))) ==> r == Err(IncompleteKey)
    ensures r.Ok? ==>
      (r.value.Keys == KeyFields
       && (forall k :: k in args ==> r.value[k] == args[k])
       && (forall k :: k in KeyFields && k !in args ==> r.value[k] == None))
  {
    if !(args.Keys <= KeyFields && "table" in args && "key" in args) then Err(TypeError)
    else if HalfSuper(Arg(args, "supercol"), Arg(args, "superkey")) then Err(IncompleteKey)
    else Ok(map k | k in KeyFields :: Arg(args, k))
  }

  class Key {
    /**
     * The key's own attributes (for a clone, its overrides). They are set by the
     * constructor and nothing in the library assigns them afterwards.
     */
    const attrs: Fields
    /** `parent_key` of a `DecoratedPrimaryKey`; null for a `PrimaryKey`. */
    const parent: Key?
    ghost const depth: nat

    ghost predicate Valid()
      decreases depth
    {
      (parent == null ==> depth == 0) &&
      (parent != null ==> parent.depth < depth && parent.Valid())
    }

    /** The key and all its ancestors. */
    ghost function Repr(): (r: set<Key>)
      ensures this in r
      ensures Valid() ==> forall k :: k in r ==> k.Valid() && k.depth <= depth
      decreases depth
    {
      if parent == null || parent.depth >= depth then {this} else {this} + parent.Repr()
    }

    /** The attribute names some key on the chain holds. */
    ghost function Known(): set<string>
      requires Valid()
      decreases depth
    {
      if parent == null then attrs.Keys else attrs.Keys + parent.Known()
    }

    /** `PrimaryKey.__init__` once `Init` has accepted the arguments. */
    constructor Primary(fields: Fields)
      ensures Valid() && parent == null && attrs == fields && Repr() == {this}
    {
      attrs := fields;
      parent := null;
      depth := 0;
    }

    /** `DecoratedPrimaryKey.__init__(parent_key, **overrides)`: no pairing check is made. */
    constructor Decorated(parentKey: Key, overrides: Fields)
      requires parentKey.Valid()
      ensures Valid() && parent == parentKey && attrs == overrides
      ensures Repr() == {this} + parentKey.Repr() && this !in parentKey.Repr()
    {
      attrs := overrides;
      parent := parentKey;
      depth := parentKey.depth + 1;
    }

    /** Reading attribute `name`: own attributes first, then the parent's. */
    function Get(name: string): (r: Result<PyStr>)
      requires Valid()
      ensures r.Err? ==> r.error == AttributeError(name)
      ensures name in attrs ==> r == Ok(attrs[name])
      decreases depth
    {
      if name in attrs then Ok(attrs[name])
      else if parent == null then Err(AttributeError(name))
      else parent.Get(name)
    }

    /** `clone(**overrides)`: a new key whose parent is this one. */
    method Clone(overrides: Fields) returns (c: Key)
      requires Valid()
      ensures fresh(c) && c.Valid() && c.parent == this && c.attrs == overrides
      ensures c.Repr() == {c} + Repr()
    {
      c := new Key.Decorated(this, overrides);
    }

    /**
     * `is_super()`: returns `(supercol or superkey) and (supercol and superkey)`, reading
     * `supercol` first; both attributes are read on every path.
     */
    function IsSuper(): (r: Result<PyStr>)
      requires Valid()
      ensures r.Ok? <==> Get("supercol").Ok? && Get("superkey").Ok?
      ensures r.Err? ==> r.error == AttributeError(if Get("supercol").Err? then "supercol" else "superkey")
      ensures r.Ok? ==> r.value in {Get("supercol").value, Get("superkey").value}
      ensures r.Ok? ==>
        (Truthy(r.value) <==> Truthy(Get("supercol").value) && Truthy(Get("superkey").value))
    {
      var supercol :- Get("supercol");
      var superkey :- Get("superkey");
      var either := Or(supercol, superkey);
      if !Truthy(either) then Ok(either)
      else if Truthy(supercol) then Ok(superkey)
      else Ok(supercol)
    }

    /**
     * `colspec()`: `'<family>:'`, followed by `'<supercol>:<superkey>'` when both are set;
     * `superkey` is read only when `supercol` is set.
     */
    function Colspec(): (r: Result<string>)
      requires Valid()
      ensures r.Ok? <==>
        (Get("family").Ok? && Get("supercol").Ok?
         && (Truthy(Get("supercol").value) ==> Get("superkey").Ok?))
      ensures r.Ok? ==> Render(Get("family").value) + ":" <= r.value
      ensures r.Ok? ==>
        (|r.value| > |Render(Get("family").value) + ":"| <==>
           Truthy(Get("supercol").value) && Truthy(Get("superkey").value))
      ensures r.Ok? && |r.value| > |Render(Get("family").value) + ":"| ==>
        r.value[|Render(Get("family").value) + ":"|..]
          == Get("supercol").value.value + ":" + Get("superkey").value.value
    {
      var family :- Get("family");
      var supercol :- Get("supercol");
      if !Truthy(supercol) then Ok(Render(family) + ":")
      else
        var superkey :- Get("superkey");
        if Truthy(superkey) then Ok(Render(family) + ":" + (supercol.value + ":" + superkey.value))
        else Ok(Render(family) + ":")
    }
  }

  /** An attribute read succeeds exactly when some key on the chain holds the name. */
  lemma {:induction false} GetKnown(k: Key, name: string)
    requires k.Valid()
    ensures k.Get(name).Ok? <==> name in k.Known()
    decreases k.depth
  {
    if name !in k.attrs && k.parent != null {
      GetKnown(k.parent, name);
    }
  }

  /**
   * A read through a chain of clones reaches ancestor `a` unchanged when no key between
   * them overrides `name`: every such descendant answers what `a` holds.
   */
  lemma {:induction false} ReadsThrough(k: Key, a: Key, name: string)
    requires k.Valid() && a in k.Repr()
    requires forall d :: d in k.Repr() && d.depth > a.depth ==> name !in d.attrs
    ensures k.Get(name) == a.Get(name)
    decreases k.depth
  {
    if k != a {
      assert k.parent != null && a in k.parent.Repr();
      assert k.depth > a.depth;
      ReadsThrough(k.parent, a, name);
    }
  }
}
