/**
 The output-before-AJAX-continuation policy: in a chain whose action returns an
 AJAX continuation, the chain's output node is moved in front of the first
 action call, so that the output wraps the action.
 */
module AjaxContinuationPolicy {
  import opened Wrappers
  import opened BehaviorChains

  /**
   The node order after Modify: `output` is detached and put immediately
   before the first action call; a chain without an action call is unchanged.
   */
  function OutputBeforeFirstCall(s: seq<BehaviorNode>, output: BehaviorNode): seq<BehaviorNode>
  {
    var rest := Without(s, output);
    match FirstCallIndex(rest)
    case None => s
    case Some(i) => rest[..i] + [output] + rest[i..]
  }

  /** Inserting a node that is not an action call just before the first action call shifts that call by one. */
  lemma InsertShiftsFirstCall(rest: seq<BehaviorNode>, i: nat, x: BehaviorNode)
    requires FirstCallIndex(rest) == Some(i) && !x.kind.ActionCall?
    ensures FirstCallIndex(rest[..i] + [x] + rest[i..]) == Some(i + 1)
  {
    var r := rest[..i] + [x] + rest[i..];
    assert r[i + 1] == rest[i];
    forall j | 0 <= j < i + 1 ensures !r[j].kind.ActionCall? {
      if j < i {
        assert r[j] == rest[j];
      }
    }
    var k := FirstCallIndex(r).value;
    assert !(k < i + 1) && !(i + 1 < k);
  }

  /**
   After Modify the output node stands immediately before the first action
   call, and every other node keeps its relative order.
   */
  lemma OutputPrecedesFirstCall(s: seq<BehaviorNode>, output: BehaviorNode)
    requires output.kind == OutputNode
    requires FirstCallIndex(s).Some?
    ensures var r := OutputBeforeFirstCall(s, output);
      && FirstCallIndex(r).Some?
      && var i := FirstCallIndex(r).value;
      && 0 < i && r[i - 1] == output
      && Without(r, output) == Without(s, output)
  {
    var rest := Without(s, output);
    var k := FirstCallIndex(s).value;
    WithoutMembers(s, output, s[k]);
    assert s[k] in rest;
    var i := FirstCallIndex(rest).value;
    InsertShiftsFirstCall(rest, i, output);
    WithoutMembers(s, output, output);
    WithoutInserted(rest, i, output);
  }

  /** A chain without an action call is left exactly as it was. */
  lemma NoCallNoChange(s: seq<BehaviorNode>, output: BehaviorNode)
    requires FirstCallIndex(s).None?
    ensures OutputBeforeFirstCall(s, output) == s
  {
    var rest := Without(s, output);
    if FirstCallIndex(rest).Some? {
      WithoutMembers(s, output, rest[FirstCallIndex(rest).value]);
      assert false;
    }
  }

  /** A node that occurs once in a sequence has multiplicity one. */
  lemma OccursOnce(s: seq<BehaviorNode>, x: BehaviorNode)
    requires Distinct(s) && x in s
    ensures multiset(s)[x] == 1
  {
    var k :| 0 <= k < |s| && s[k] == x;
    assert s == s[..k] + [x] + s[k + 1..];
    assert x !in s[..k] && x !in s[k + 1..] by {
      forall j | 0 <= j < |s| && j != k ensures s[j] != x { }
    }
  }

  /**
   When the output node already is in a chain of distinct nodes, Modify only
   moves nodes: the result is a permutation of the same node objects, again
   without duplicates.
   */
  lemma ModifyPermutes(s: seq<BehaviorNode>, output: BehaviorNode)
    requires Distinct(s) && output in s
    ensures multiset(OutputBeforeFirstCall(s, output)) == multiset(s)
    ensures Distinct(OutputBeforeFirstCall(s, output))
  {
    var rest := Without(s, output);
    match FirstCallIndex(rest)
    case None =>
    case Some(i) =>
      WithoutMultiset(s, output);
      WithoutDistinct(s, output);
      WithoutMembers(s, output, output);
      OccursOnce(s, output);
      assert multiset(rest[..i] + [output] + rest[i..]) == multiset(rest) + multiset{output} by {
        assert rest[..i] + rest[i..] == rest;
      }
      InsertKeepsDistinct(rest, i, output);
  }

  /** On the chain [action, output] Modify gives [output, action]. */
  lemma ActionThenOutputIsSwapped(action: BehaviorNode, output: BehaviorNode)
    requires action.kind.ActionCall? && output.kind == OutputNode
    ensures OutputBeforeFirstCall([action, output], output) == [output, action]
  {
    assert action != output;
    assert Without([output], output) == [] by {
      assert [output][1..] == [];
    }
    assert Without([action, output], output) == [action] + Without([output], output) by {
      assert [action, output][1..] == [output];
    }
  }

  /** Applying Modify a second time changes nothing. */
  lemma ModifyIdempotent(s: seq<BehaviorNode>, output: BehaviorNode)
    requires output.kind == OutputNode
    ensures var r := OutputBeforeFirstCall(s, output);
      OutputBeforeFirstCall(r, output) == r
  {
    if FirstCallIndex(s).Some? {
      OutputPrecedesFirstCall(s, output);
      var r := OutputBeforeFirstCall(s, output);
      var rest := Without(s, output);
      var k := FirstCallIndex(s).value;
      WithoutMembers(s, output, s[k]);
      var i := FirstCallIndex(rest).value;
      assert r == rest[..i] + [output] + rest[i..];
      assert Without(r, output) == rest;
    } else {
      NoCallNoChange(s, output);
    }
  }

  /** Moves the chain's output node before its first action call. */
  method Modify(chain: BehaviorChain)
    requires chain.Valid()
    modifies chain
    ensures chain.Valid()
    ensures chain.nodes == OutputBeforeFirstCall(old(chain.nodes), chain.Output)
  {
    var rest := Without(chain.nodes, chain.Output);
    WithoutDistinct(chain.nodes, chain.Output);
    match FirstCallIndex(rest)
    case None =>
    case Some(i) =>
      WithoutMembers(chain.nodes, chain.Output, chain.Output);
      InsertKeepsDistinct(rest, i, chain.Output);
      chain.nodes := rest[..i] + [chain.Output] + rest[i..];
  }

  /** The type the chain's action returns: that of its first action call, if any. */
  function ChainResourceType(s: seq<BehaviorNode>): (r: Option<ResourceType>)
    ensures r.None? <==> forall i :: 0 <= i < |s| ==> !s[i].kind.ActionCall?
    ensures r.Some? ==>
      exists i :: 0 <= i < |s| && s[i].kind == ActionCall(r.value) && (forall j :: 0 <= j < i ==> !s[j].kind.ActionCall?)
  {
    match FirstCallIndex(s)
    case None => None
    case Some(i) => Some(s[i].kind.returnType)
  }

  /** The policy as the graph applies it: only a chain whose action returns an AJAX continuation is rewritten. */
  method Apply(chain: BehaviorChain)
    requires chain.Valid()
    modifies chain
    ensures chain.Valid()
    ensures ChainResourceType(old(chain.nodes)) == Some(AjaxContinuation) ==>
      chain.nodes == OutputBeforeFirstCall(old(chain.nodes), chain.Output)
    ensures ChainResourceType(old(chain.nodes)) != Some(AjaxContinuation) ==> chain.nodes == old(chain.nodes)
  {
    if ChainResourceType(chain.nodes) == Some(AjaxContinuation) {
      Modify(chain);
    }
  }

  /**
   The chain the graph builds for one action: the action call, then the
   chain's output node, then the policy. For an action returning an AJAX
   continuation the finished chain starts with the output node and ends with
   the action call; any other action keeps the order [action, output].
   */
  method BuildChainFor(action: BehaviorNode) returns (chain: BehaviorChain)
    requires action.kind.ActionCall?
    ensures chain.Valid()
    ensures action.kind.returnType == AjaxContinuation ==>
      && chain.nodes == [chain.Output, action]
      && chain.First().Some? && chain.First().value.kind == OutputNode
      && chain.Last().Some? && chain.Last().value.kind.ActionCall?
    ensures action.kind.returnType != AjaxContinuation ==> chain.nodes == [action, chain.Output]
  {
    chain := new BehaviorChain();
    chain.AddToEnd(action);
    assert chain.nodes == [action];
    chain.AddToEnd(chain.Output);
    assert chain.nodes == [action, chain.Output] by {
      assert chain.Output != action;
      assert Without([action], chain.Output) == [action] by {
        assert [action][1..] == [];
      }
    }
    assert ChainResourceType(chain.nodes) == Some(action.kind.returnType);
    ActionThenOutputIsSwapped(action, chain.Output);
    Apply(chain);
  }

  /** Adding the action and then the chain's output, Modify makes the output first and the action last. */
  method ModifiesAChain(theAction: BehaviorNode) returns (chain: BehaviorChain)
    requires theAction.kind.ActionCall?
    ensures chain.Valid()
    ensures chain.First() == Some(chain.Output)
    ensures chain.Last() == Some(theAction)
  {
    chain := new BehaviorChain();
    chain.AddToEnd(theAction);
    assert chain.nodes == [theAction];
    chain.AddToEnd(chain.Output);
    assert chain.nodes == [theAction, chain.Output] by {
      assert chain.Output != theAction;
      assert Without([theAction], chain.Output) == [theAction] by {
        assert [theAction][1..] == [];
      }
    }
    ActionThenOutputIsSwapped(theAction, chain.Output);
    Modify(chain);
  }
}
