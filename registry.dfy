/**
 * The typed, name-keyed data-exchange registry of an operator.
 *
 * Every operator owns a map from string ids to type-tagged boxes. Publishing
 * stores a box locally and in the direct parent; `GetOutput` looks only in the
 * local map; `GetInput` looks locally first and climbs the parent chain only
 * while the key is absent. A box holds a borrowed reference: the registry never
 * owns or copies the published object.
 */
module Registry {

  /** The runtime type a box was published with (the template argument of `CIO<_T>`). */
  type TypeTag = string

  /** A type-tagged box around a borrowed reference (`CIO<_T>`); the reference may be null. */
  datatype Box = Box(tag: TypeTag, ref: object?)

  class Operator {
    /** The operator's name (the node name used by `getChild`). */
    const name: string
    /** The direct parent, or null at the root. */
    const parent: Operator?
    /** Number of ancestors: bounds every upward search. */
    ghost const depth: nat
    /** All proper ancestors of this operator. */
    ghost const Ancestors: set<Operator>

    /** The ordered children. */
    var children: seq<Operator>
    /** The id -> box map (`m_ios`). */
    var ios: map<string, Box>

    /** The parent chain is well founded: each parent is one level shallower. */
    ghost predicate Valid()
      decreases depth
    {
      if parent == null then depth == 0 && Ancestors == {}
      else
        && depth == parent.depth + 1
        && Ancestors == {parent} + parent.Ancestors
        && parent.Valid()
    }

    /** A new operator with an empty map and no children, hanging under `parent`. */
    constructor (parent: Operator? := null, name: string := "Unnamed Operator")
      requires parent != null ==> parent.Valid()
      ensures Valid()
      ensures this.parent == parent && this.name == name
      ensures ios == map[] && children == []
    {
      this.name := name;
      this.parent := parent;
      depth := if parent == null then 0 else parent.depth + 1;
      Ancestors := if parent == null then {} else {parent} + parent.Ancestors;
      children := [];
      ios := map[];
    }

    /** Every ancestor is strictly shallower, so the chain has no cycle. */
    lemma {:induction false} AncestorsShallower()
      requires Valid()
      ensures forall a :: a in Ancestors ==> a.depth < depth
      ensures this !in Ancestors
      decreases depth
    {
      if parent != null {
        parent.AncestorsShallower();
      }
    }

    /** The operators a lookup may visit, from this one up to the root. */
    function Chain(): (c: seq<Operator>)
      requires Valid()
      ensures |c| == depth + 1 && c[0] == this
      ensures forall i :: 0 < i < |c| ==> c[i] == c[i - 1].parent && c[i] in Ancestors
      ensures c[|c| - 1].parent == null
      decreases depth
    {
      if parent == null then [this] else [this] + parent.Chain()
    }

    // ---------------------------------------------------------------- publishing

    /** Stores `box` under `id` in `op`'s own map, replacing any box already there. */
    static method Store(op: Operator, id: string, box: Box)
      modifies op
      ensures op.ios == old(op.ios)[id := box]
      ensures op.children == old(op.children)
    {
      // An old box under `id` is released and replaced; otherwise the entry is added.
      op.ios := op.ios[id := box];
    }

    /** Publishes `ref` under `id` here and, when there is a parent, in the parent: one level, never further. */
    method RegisterOutput(id: string, tag: TypeTag, ref: object?)
      requires Valid()
      modifies this, parent
      ensures ios == old(ios)[id := Box(tag, ref)]
      ensures id in old(ios) ==> ios.Keys == old(ios).Keys
      ensures id !in old(ios) ==> ios.Keys == old(ios).Keys + {id}
      ensures forall k :: k in old(ios) && k != id ==> k in ios && ios[k] == old(ios)[k]
      ensures GetOutput(id, tag) == ref
      ensures parent != null ==> parent.ios == old(parent.ios)[id := Box(tag, ref)]
      ensures parent != null ==> parent.GetOutput(id, tag) == ref && parent.GetInput(id, tag) == ref
      ensures parent != null && parent.parent != null ==> parent.parent.ios == old(parent.parent.ios)
      ensures children == old(children)
      ensures parent != null ==> parent.children == old(parent.children)
    {
      AncestorsShallower();
      Store(this, id, Box(tag, ref));
      if parent != null {
        parent.AncestorsShallower();
        Store(parent, id, Box(tag, ref));
      }
    }

    // ---------------------------------------------------------------- lookups

    /** The local entry for `id` if it has type `tag`; null when absent or of another type. */
    function GetOutput(id: string, tag: TypeTag): (r: object?)
      reads this
      ensures id !in ios ==> r == null
      ensures id in ios && ios[id].tag != tag ==> r == null
      ensures id in ios && ios[id].tag == tag ==> r == ios[id].ref
    {
      if id !in ios then null
      else if ios[id].tag == tag then ios[id].ref
      else null
    }

    /**
     * The input `id` of type `tag`: the local entry when the key is present here
     * (null if its type differs), otherwise the parent's answer; null at the root.
     */
    function GetInput(id: string, tag: TypeTag): (r: object?)
      requires Valid()
      reads this, Ancestors
      ensures id in ios ==> r == GetOutput(id, tag)
      ensures id !in ios && parent == null ==> r == null
      ensures r != null ==>
        exists o :: o in Chain() && id in o.ios && o.ios[id] == Box(tag, r)
      decreases depth
    {
      if id in ios then
        if ios[id].tag == tag then ios[id].ref else null
      else if parent != null then
        parent.GetInput(id, tag)
      else
        null
    }

    /** As `GetInput`, but answers `default` wherever `GetInput` answers for a missing or mistyped entry. */
    function GetInputOr(id: string, tag: TypeTag, default: object?): (r: object?)
      requires Valid()
      reads this, Ancestors
      ensures id in ios && ios[id].tag == tag ==> r == ios[id].ref
      ensures id in ios && ios[id].tag != tag ==> r == default
      ensures id !in ios && parent == null ==> r == default
      decreases depth
    {
      if id in ios then
        if ios[id].tag == tag then ios[id].ref else default
      else if parent != null then
        parent.GetInputOr(id, tag, default)
      else
        default
    }

    // ---------------------------------------------------------------- children

    /** The first child, in order, named `childName`; null if none is. */
    method GetChildByName(childName: string) returns (c: Operator?)
      ensures c == null <==> forall i :: 0 <= i < |children| ==> children[i].name != childName
      ensures c != null ==>
        exists k :: 0 <= k < |children| && children[k] == c && c.name == childName &&
          forall j :: 0 <= j < k ==> children[j].name != childName
    {
      var i := 0;
      while i < |children|
        invariant 0 <= i <= |children|
        invariant forall j :: 0 <= j < i ==> children[j].name != childName
      {
        if children[i].name == childName {
          return children[i];
        }
        i := i + 1;
      }
      return null;
    }

    /**
     * The child at `idx`; null when `idx` is not below the child count. The
     * source compares a signed index with an unsigned size, so a negative
     * index also yields null.
     */
    function GetChildAt(idx: int): (c: Operator?)
      reads this
      ensures c != null <==> 0 <= idx < |children|
      ensures c != null ==> c == children[idx]
    {
      if 0 <= idx < |children| then children[idx] else null
    }
  }

  // ------------------------------------------------------------------ reference view

  /** No operator of `c` holds `id`. */
  ghost predicate NoHolder(c: seq<Operator>, id: string)
    reads set i | 0 <= i < |c| :: c[i]
  {
    forall j :: 0 <= j < |c| ==> id !in c[j].ios
  }

  /** `c[k]` is the first operator of `c` holding `id`. */
  ghost predicate FirstHolder(c: seq<Operator>, k: nat, id: string)
    reads set i | 0 <= i < |c| :: c[i]
  {
    k < |c| && id in c[k].ios && forall j :: 0 <= j < k ==> id !in c[j].ios
  }

  /**
   * The search up the chain, stated without recursion: with no holder on the
   * chain, `GetInput` is null and `GetInputOr` the default; otherwise both are
   * decided by the first holder alone, and a mistyped first holder is a
   * failure that does not consult anything above it.
   */
  lemma {:induction false} InputIsDecidedByFirstHolder(op: Operator, id: string, tag: TypeTag, default: object?)
    requires op.Valid()
    ensures NoHolder(op.Chain(), id) ==>
      op.GetInput(id, tag) == null && op.GetInputOr(id, tag, default) == default
    ensures forall k: nat :: FirstHolder(op.Chain(), k, id) ==>
      var b := op.Chain()[k].ios[id];
      && op.GetInput(id, tag) == (if b.tag == tag then b.ref else null)
      && op.GetInputOr(id, tag, default) == (if b.tag == tag then b.ref else default)
    decreases op.depth
  {
    var c := op.Chain();
    if op.parent != null {
      var pc := op.parent.Chain();
      assert c == [op] + pc;
      InputIsDecidedByFirstHolder(op.parent, id, tag, default);
      if NoHolder(c, id) {
        assert forall j :: 0 <= j < |pc| ==> pc[j] == c[j + 1];
      }
      forall k: nat | FirstHolder(c, k, id)
        ensures var b := c[k].ios[id];
          && op.GetInput(id, tag) == (if b.tag == tag then b.ref else null)
          && op.GetInputOr(id, tag, default) == (if b.tag == tag then b.ref else default)
      {
        if k > 0 {
          assert id !in op.ios by { assert c[0] == op; }
          assert FirstHolder(pc, k - 1, id) by {
            forall j | 0 <= j < k - 1 ensures id !in pc[j].ios {
              assert pc[j] == c[j + 1];
            }
          }
        }
      }
    }
  }

  /**
   * A key absent from an operator and all its ancestors is missing: `GetInput`
   * is null and `GetInputOr` is the default.
   */
  lemma {:induction false} AbsentEverywhereIsMissing(op: Operator, id: string, tag: TypeTag, default: object?)
    requires op.Valid()
    requires id !in op.ios
    requires forall a :: a in op.Ancestors ==> id !in a.ios
    ensures op.GetInput(id, tag) == null
    ensures op.GetInputOr(id, tag, default) == default
    decreases op.depth
  {
    if op.parent != null {
      AbsentEverywhereIsMissing(op.parent, id, tag, default);
    }
  }

  /** Publishing in a grandchild leaves the grandparent's map as it was: the root does not see it. */
  method GrandchildPublishStaysBelowRoot(id: string, tag: TypeTag, ref: object?) returns (seen: object?)
    requires ref != null
    ensures seen == null
  {
    var root := new Operator(null, "Outer");
    var middle := new Operator(root, "Middle");
    var inner := new Operator(middle, "Inner");
    inner.RegisterOutput(id, tag, ref);
    assert middle.GetInput(id, tag) == ref;
    seen := root.GetInput(id, tag);
  }

  /** A child's publish is visible to its parent's lookups: propagation is one level up. */
  method ChildPublishReachesParent(id: string, tag: TypeTag, ref: object?) returns (seen: object?)
    ensures seen == ref
  {
    var stereo := new Operator(null, "Stereo");
    var scaler := new Operator(stereo, "Scaler");
    stereo.children := [scaler];
    scaler.RegisterOutput(id, tag, ref);
    seen := stereo.GetInput(id, tag);
  }
}
