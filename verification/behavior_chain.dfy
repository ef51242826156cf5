/**
 A model of a behavior chain: the ordered pipeline of behavior nodes (action
 calls, the output node, wrappers) executed for one route.
 */
module BehaviorChains {
  import opened Wrappers

  /** The type an action returns: an AJAX continuation or some other resource. */
  datatype ResourceType = AjaxContinuation | OtherResource(name: string)

  datatype NodeKind =
    | ActionCall(returnType: ResourceType)
    | OutputNode
    | Wrapper(name: string)

  /** A behavior node; nodes are compared by identity, as the chain moves objects and never copies them. */
  class BehaviorNode {
    const kind: NodeKind

    constructor (kind: NodeKind)
      ensures this.kind == kind
    {
      this.kind := kind;
    }
  }

  /** No node occurs twice. */
  predicate Distinct(s: seq<BehaviorNode>)
  {
    forall i, j :: 0 <= i < j < |s| ==> s[i] != s[j]
  }

  /** The nodes of `s` other than `n`, in their order in `s`. */
  function Without(s: seq<BehaviorNode>, n: BehaviorNode): seq<BehaviorNode>
  {
    if s == [] then []
    else (if s[0] == n then [] else [s[0]]) + Without(s[1..], n)
  }

  /** Exactly the nodes of `s` other than `n` remain. */
  lemma {:induction false} WithoutMembers(s: seq<BehaviorNode>, n: BehaviorNode, x: BehaviorNode)
    ensures x in Without(s, n) <==> x in s && x != n
  {
    if s != [] {
      WithoutMembers(s[1..], n, x);
      assert x in s <==> x == s[0] || x in s[1..];
    }
  }

  /** The position of the first action call, if the chain has one. */
  function FirstCallIndex(s: seq<BehaviorNode>): (r: Option<nat>)
    ensures r.None? <==> forall i :: 0 <= i < |s| ==> !s[i].kind.ActionCall?
    ensures r.Some? ==> r.value < |s| && s[r.value].kind.ActionCall?
    ensures r.Some? ==> forall i :: 0 <= i < r.value ==> !s[i].kind.ActionCall?
  {
    if s == [] then None
    else if s[0].kind.ActionCall? then Some(0)
    else match FirstCallIndex(s[1..])
      case None => None
      case Some(i) => Some(i + 1)
  }

  lemma {:induction false} WithoutAbsent(s: seq<BehaviorNode>, n: BehaviorNode)
    requires n !in s
    ensures Without(s, n) == s
  {
    if s != [] {
      WithoutAbsent(s[1..], n);
    }
  }

  lemma {:induction false} WithoutConcat(a: seq<BehaviorNode>, b: seq<BehaviorNode>, n: BehaviorNode)
    ensures Without(a + b, n) == Without(a, n) + Without(b, n)
  {
    if a == [] {
      assert a + b == b;
    } else {
      var head := if a[0] == n then [] else [a[0]];
      calc {
        Without(a + b, n);
        { assert a + b != [] && (a + b)[0] == a[0] && (a + b)[1..] == a[1..] + b; }
        head + Without(a[1..] + b, n);
        { WithoutConcat(a[1..], b, n); }
        head + (Without(a[1..], n) + Without(b, n));
        (head + Without(a[1..], n)) + Without(b, n);
      }
    }
  }

  /** Inserting a node that is not yet in a duplicate-free sequence keeps it duplicate-free. */
  lemma InsertKeepsDistinct(s: seq<BehaviorNode>, i: nat, x: BehaviorNode)
    requires Distinct(s) && x !in s && i <= |s|
    ensures Distinct(s[..i] + [x] + s[i..])
  {
    var r := s[..i] + [x] + s[i..];
    forall a, b | 0 <= a < b < |r| ensures r[a] != r[b] {
      if b < i {
        assert r[a] == s[a] && r[b] == s[b];
      } else if b == i {
        assert r[a] == s[a] && r[b] == x;
      } else if a < i {
        assert r[a] == s[a] && r[b] == s[b - 1];
      } else if a == i {
        assert r[a] == x && r[b] == s[b - 1];
      } else {
        assert r[a] == s[a - 1] && r[b] == s[b - 1];
      }
    }
  }

  /** Removing a node that is absent from both parts around it leaves exactly those parts. */
  lemma WithoutInserted(s: seq<BehaviorNode>, i: nat, x: BehaviorNode)
    requires x !in s && i <= |s|
    ensures Without(s[..i] + [x] + s[i..], x) == s
  {
    var a, b := s[..i], s[i..];
    assert x !in a && x !in b by {
      assert forall y :: y in a ==> y in s;
      assert forall y :: y in b ==> y in s;
    }
    WithoutConcat(a + [x], b, x);
    WithoutConcat(a, [x], x);
    WithoutAbsent(a, x);
    WithoutAbsent(b, x);
    assert Without([x], x) == [] by {
      assert [x][1..] == [];
    }
    assert a + b == s;
  }

  /** Removing a node removes every copy of it and keeps the multiplicity of every other node. */
  lemma {:induction false} WithoutMultiset(s: seq<BehaviorNode>, n: BehaviorNode)
    ensures multiset(Without(s, n)) == multiset(s)[n := 0]
  {
    if s != [] {
      WithoutMultiset(s[1..], n);
      assert s == [s[0]] + s[1..];
    }
  }

  lemma {:induction false} WithoutDistinct(s: seq<BehaviorNode>, n: BehaviorNode)
    requires Distinct(s)
    ensures Distinct(Without(s, n))
  {
    if s != [] {
      WithoutDistinct(s[1..], n);
      WithoutMembers(s[1..], n, s[0]);
      var t := Without(s[1..], n);
      if s[0] != n {
        forall a, b | 0 <= a < b < |[s[0]] + t| ensures ([s[0]] + t)[a] != ([s[0]] + t)[b] {
          if a == 0 {
            assert ([s[0]] + t)[b] == t[b - 1] && t[b - 1] in t;
          }
        }
      }
    }
  }

  class BehaviorChain {
    /** The chain's own output node; it exists before it is added to the chain. */
    const Output: BehaviorNode
    var nodes: seq<BehaviorNode>

    ghost predicate Valid()
      reads this
    {
      Distinct(nodes) && Output.kind == OutputNode
    }

    constructor ()
      ensures Valid() && nodes == [] && fresh(Output)
    {
      Output := new BehaviorNode(OutputNode);
      nodes := [];
    }

    /** Appends `node`, detaching it first if it already is in the chain (a node has one position). */
    method AddToEnd(node: BehaviorNode)
      requires Valid()
      modifies this
      ensures Valid()
      ensures nodes == Without(old(nodes), node) + [node]
      ensures Last() == Some(node)
    {
      WithoutDistinct(nodes, node);
      WithoutMembers(nodes, node, node);
      var rest := Without(nodes, node);
      InsertKeepsDistinct(rest, |rest|, node);
      assert rest[..|rest|] + [node] + rest[|rest|..] == rest + [node];
      nodes := rest + [node];
    }

    /** The first node; `None` stands for the error an empty chain raises. */
    function First(): (r: Option<BehaviorNode>)
      reads this
      ensures r.None? <==> nodes == []
      ensures r.Some? ==> nodes == [r.value] + nodes[1..]
    {
      if nodes == [] then None else Some(nodes[0])
    }

    /** The last node; `None` stands for the error an empty chain raises. */
    function Last(): (r: Option<BehaviorNode>)
      reads this
      ensures r.None? <==> nodes == []
      ensures r.Some? ==> nodes == nodes[..|nodes| - 1] + [r.value]
    {
      if nodes == [] then None else Some(nodes[|nodes| - 1])
    }
  }
}
