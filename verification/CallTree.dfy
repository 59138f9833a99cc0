/** client/types.go: the EVM call tree, its in-place initialisation and its flattening. */
module CallTree {
  import opened Prelude

  /** A 20-byte account address; String() is injective on these, so an address stands for its text. */
  type Address = nat

  /** The operation type strings of mapper/types.go; a trace may also name types the mapper does not know. */
  datatype OpKind =
    | OpCall | OpFee | OpCreate | OpCreate2 | OpSelfDestruct | OpCallCode | OpDelegateCall | OpStaticCall
    | OpDestruct | OpImport | OpExport | OpErc20Transfer | OpErc20Mint | OpErc20Burn
    | OpErc721TransferSender | OpErc721TransferReceive | OpErc721Mint | OpErc721Burn
    | OpOther(name: string)

  datatype FlatCall = FlatCall(kind: OpKind, from: Address, to: Address, value: nat, gasUsed: nat,
                               revert: bool, error: string)

  /** The value held by a call object together with the objects below it. */
  datatype Tree = Node(kind: OpKind, from: Address, to: Address, value: Option<nat>, gasUsed: Option<nat>,
                       revert: bool, error: string, calls: seq<Tree>)

  // ---------------------------------------------------------------- specification

  function OrZero(n: Option<nat>): nat {
    if n.Some? then n.value else 0
  }

  /** The error text of a call whose parent ended with the pair (parentRevert, parentError). */
  function EffectiveError(t: Tree, parentRevert: bool, parentError: string): string {
    if parentRevert && t.error == "" then parentError else t.error
  }

  function EffectiveRevert(t: Tree, parentRevert: bool, parentError: string): bool {
    t.revert || parentRevert || EffectiveError(t, parentRevert, parentError) != ""
  }

  function Propagate(t: Tree, parentRevert: bool, parentError: string): Tree
    decreases t
  {
    var error := EffectiveError(t, parentRevert, parentError);
    var revert := EffectiveRevert(t, parentRevert, parentError);
    Node(t.kind, t.from, t.to, Some(OrZero(t.value)), Some(OrZero(t.gasUsed)), revert, error,
         PropagateAll(t.calls, revert, error))
  }

  function PropagateAll(ts: seq<Tree>, parentRevert: bool, parentError: string): (r: seq<Tree>)
    ensures |r| == |ts|
    decreases ts
  {
    if ts == [] then []
    else PropagateAll(ts[..|ts| - 1], parentRevert, parentError)
         + [Propagate(ts[|ts| - 1], parentRevert, parentError)]
  }

  function Flat(t: Tree): FlatCall {
    FlatCall(t.kind, t.from, t.to, OrZero(t.value), OrZero(t.gasUsed), t.revert, t.error)
  }

  function Preorder(t: Tree): seq<FlatCall>
    decreases t
  {
    [Flat(t)] + PreorderAll(t.calls)
  }

  function PreorderAll(ts: seq<Tree>): seq<FlatCall>
    decreases ts
  {
    if ts == [] then [] else PreorderAll(ts[..|ts| - 1]) + Preorder(ts[|ts| - 1])
  }

  /** A call after its own missing amounts and its own error have been dealt with. */
  function Settled(t: Tree): Tree {
    t.(value := Some(OrZero(t.value)), gasUsed := Some(OrZero(t.gasUsed)), revert := t.revert || t.error != "")
  }

  /** A child after its parent has written Revert and Error into it. */
  function Marked(t: Tree, parentRevert: bool, parentError: string): Tree {
    t.(revert := t.revert || parentRevert, error := EffectiveError(t, parentRevert, parentError))
  }

  lemma PropagateMarked(t: Tree, parentRevert: bool, parentError: string)
    ensures Propagate(Marked(t, parentRevert, parentError), false, "") == Propagate(t, parentRevert, parentError)
  {
  }

  lemma {:induction false} PropagateAllAt(ts: seq<Tree>, revert: bool, error: string, i: nat)
    requires i < |ts|
    ensures PropagateAll(ts, revert, error)[i] == Propagate(ts[i], revert, error)
    decreases |ts|
  {
    if i < |ts| - 1 { PropagateAllAt(ts[..|ts| - 1], revert, error, i); }
  }

  lemma PreorderAllStep(ts: seq<Tree>, i: nat, t: Tree)
    requires i < |ts|
    ensures PreorderAll(ts[i := t][..i + 1]) == PreorderAll(ts[..i]) + Preorder(t)
  {
    assert ts[i := t][..i + 1] == ts[..i] + [t];
    assert (ts[..i] + [t])[..i] == ts[..i];
  }

  /** The call t when its first i children have been initialised. */
  function Partly(t: Tree, i: nat): Tree
    requires i <= |t.calls|
  {
    t.(calls := PropagateAll(t.calls, t.revert, t.error)[..i] + t.calls[i..])
  }

  lemma PartlyEnds(t: Tree)
    ensures Partly(t, 0) == t
    ensures Partly(t, |t.calls|) == t.(calls := PropagateAll(t.calls, t.revert, t.error))
    ensures PreorderAll([]) == []
  {
  }

  lemma PartlyStep(t: Tree, i: nat)
    requires i < |t.calls|
    ensures var p := Partly(t, i);
            Partly(t, i + 1) == p.(calls := p.calls[i := Propagate(p.calls[i], t.revert, t.error)])
  {
    PropagateAllAt(t.calls, t.revert, t.error, i);
    assert Partly(t, i).calls[i] == t.calls[i];
  }

  // ---------------------------------------------------------------- what initialisation achieves

  /** A node is addressed by the child numbers leading to it from the root. */
  type Path = seq<nat>

  ghost predicate ValidPath(t: Tree, p: Path)
    decreases t
  {
    p == [] || (p[0] < |t.calls| && ValidPath(t.calls[p[0]], p[1..]))
  }

  ghost function At(t: Tree, p: Path): Tree
    requires ValidPath(t, p)
    decreases t
  {
    if p == [] then t else At(t.calls[p[0]], p[1..])
  }

  ghost predicate Failed(t: Tree) {
    t.revert || t.error != ""
  }

  /** The node p, or one of the calls it was made from, reverted by itself. */
  ghost predicate FailedOnPath(t: Tree, p: Path)
    requires ValidPath(t, p)
  {
    exists k {:trigger p[..k]} :: 0 <= k <= |p| && ValidPath(t, p[..k]) && Failed(At(t, p[..k]))
  }

  lemma FailedOnPathStep(t: Tree, p: Path)
    requires ValidPath(t, p) && p != []
    ensures FailedOnPath(t, p) <==> Failed(t) || FailedOnPath(t.calls[p[0]], p[1..])
  {
    var c, q := t.calls[p[0]], p[1..];
    if Failed(t) { assert p[..0] == [] && Failed(At(t, p[..0])); }
    if FailedOnPath(c, q) {
      var k :| 0 <= k <= |q| && ValidPath(c, q[..k]) && Failed(At(c, q[..k]));
      assert p[..k + 1][1..] == q[..k];
      assert ValidPath(t, p[..k + 1]);
    }
    if FailedOnPath(t, p) && !Failed(t) {
      var k :| 0 <= k <= |p| && ValidPath(t, p[..k]) && Failed(At(t, p[..k]));
      assert p[..k][1..] == q[..k - 1];
    }
  }

  /** The error text closest to the node p on its path from the root, or fallback when there is none. */
  ghost function NearestError(t: Tree, p: Path, fallback: string): string
    requires ValidPath(t, p)
    decreases t
  {
    var own := if t.error == "" then fallback else t.error;
    if p == [] then own else NearestError(t.calls[p[0]], p[1..], own)
  }

  lemma {:induction false} PropagatedNode(t: Tree, revert: bool, error: string, p: Path)
    requires ValidPath(t, p)
    requires error != "" ==> revert
    ensures ValidPath(Propagate(t, revert, error), p)
    ensures var n := At(Propagate(t, revert, error), p);
            && n.revert == (revert || FailedOnPath(t, p))
            && n.error == NearestError(t, p, error)
            && n.value == Some(OrZero(At(t, p).value)) && n.gasUsed == Some(OrZero(At(t, p).gasUsed))
            && n.kind == At(t, p).kind && n.from == At(t, p).from && n.to == At(t, p).to
            && |n.calls| == |At(t, p).calls|
    decreases t
  {
    var e, r := EffectiveError(t, revert, error), EffectiveRevert(t, revert, error);
    if p == [] {
      assert p[..0] == [];
      assert FailedOnPath(t, p) <==> Failed(t);
    } else {
      PropagateAllAt(t.calls, r, e, p[0]);
      PropagatedNode(t.calls[p[0]], r, e, p[1..]);
      FailedOnPathStep(t, p);
    }
  }

  lemma {:induction false} UnpropagatedPath(t: Tree, revert: bool, error: string, p: Path)
    requires ValidPath(Propagate(t, revert, error), p)
    ensures ValidPath(t, p)
    decreases t
  {
    if p != [] {
      var e, r := EffectiveError(t, revert, error), EffectiveRevert(t, revert, error);
      PropagateAllAt(t.calls, r, e, p[0]);
      UnpropagatedPath(t.calls[p[0]], r, e, p[1..]);
    }
  }

  /** After Init a call is reverted exactly if it or a call above it failed by itself; the shape is kept
      and every node carries the nearest error text found on its way up. */
  lemma InitMarksExactlyFailedSubtrees(t: Tree, p: Path)
    ensures ValidPath(t, p) <==> ValidPath(Propagate(t, false, ""), p)
    ensures ValidPath(t, p) ==>
              var n := At(Propagate(t, false, ""), p);
              (n.revert <==> FailedOnPath(t, p)) && n.error == NearestError(t, p, "")
  {
    if ValidPath(t, p) {
      PropagatedNode(t, false, "", p);
    } else if ValidPath(Propagate(t, false, ""), p) {
      UnpropagatedPath(t, false, "", p);
    }
  }

  lemma {:induction false} PropagateTwice(t: Tree, revert: bool, error: string)
    requires error != "" ==> revert
    ensures Propagate(Propagate(t, revert, error), revert, error) == Propagate(t, revert, error)
    decreases t
  {
    var e, r := EffectiveError(t, revert, error), EffectiveRevert(t, revert, error);
    var once := PropagateAll(t.calls, r, e);
    forall i | 0 <= i < |t.calls|
      ensures PropagateAll(once, r, e)[i] == once[i]
    {
      PropagateAllAt(t.calls, r, e, i);
      PropagateAllAt(once, r, e, i);
      PropagateTwice(t.calls[i], r, e);
    }
    assert PropagateAll(once, r, e) == once;
  }

  /** Initialising a tree a second time changes nothing. */
  lemma InitIsIdempotent(t: Tree)
    ensures var once := Propagate(t, false, "");
            Propagate(once, false, "") == once && Preorder(Propagate(once, false, "")) == Preorder(once)
  {
    PropagateTwice(t, false, "");
  }

  // ---------------------------------------------------------------- the list is the pre-order of the tree

  ghost function Size(t: Tree): nat
    decreases t
  {
    1 + SizeAll(t.calls)
  }

  ghost function SizeAll(ts: seq<Tree>): nat
    decreases ts
  {
    if ts == [] then 0 else SizeAll(ts[..|ts| - 1]) + Size(ts[|ts| - 1])
  }

  /** Where the node p stands in the pre-order list: each step into child k skips the node and children 0..k-1. */
  ghost function Position(t: Tree, p: Path): nat
    requires ValidPath(t, p)
    decreases t
  {
    if p == [] then 0 else 1 + SizeAll(t.calls[..p[0]]) + Position(t.calls[p[0]], p[1..])
  }

  lemma {:induction false} PreorderLength(t: Tree)
    ensures |Preorder(t)| == Size(t)
    decreases t
  {
    PreorderAllLength(t.calls);
  }

  lemma {:induction false} PreorderAllLength(ts: seq<Tree>)
    ensures |PreorderAll(ts)| == SizeAll(ts)
    decreases ts
  {
    if ts != [] {
      PreorderAllLength(ts[..|ts| - 1]);
      PreorderLength(ts[|ts| - 1]);
    }
  }

  lemma {:induction false} PreorderAllSlice(ts: seq<Tree>, k: nat)
    requires k < |ts|
    ensures SizeAll(ts[..k]) + Size(ts[k]) <= |PreorderAll(ts)|
    ensures PreorderAll(ts)[SizeAll(ts[..k])..SizeAll(ts[..k]) + Size(ts[k])] == Preorder(ts[k])
    decreases |ts|
  {
    var init := ts[..|ts| - 1];
    PreorderAllLength(init);
    PreorderLength(ts[|ts| - 1]);
    if k < |ts| - 1 {
      PreorderAllSlice(init, k);
      assert init[..k] == ts[..k];
    }
  }

  /** The node p is the entry Position(t, p) of the list, and the entries are numbered without gaps. */
  lemma {:induction false} PreorderAtPosition(t: Tree, p: Path)
    requires ValidPath(t, p)
    ensures |Preorder(t)| == Size(t)
    ensures Position(t, p) + Size(At(t, p)) <= Size(t)
    ensures Preorder(t)[Position(t, p)] == Flat(At(t, p))
    decreases t
  {
    PreorderLength(t);
    if p != [] {
      var k := p[0];
      PreorderAllSlice(t.calls, k);
      PreorderAtPosition(t.calls[k], p[1..]);
      PreorderLength(t.calls[k]);
    }
  }

  /** At its position in the list, after Init, a call has its own kind, addresses and amounts, zero for missing ones; it
      is reverted exactly if it or a call above it failed, and has the nearest error text. */
  lemma CallIsListed(t: Tree, p: Path)
    requires ValidPath(t, p)
    ensures var marked := Propagate(t, false, "");
            && ValidPath(marked, p) && Position(marked, p) < |Preorder(marked)|
            && var c, n := Preorder(marked)[Position(marked, p)], At(t, p);
               && c.kind == n.kind && c.from == n.from && c.to == n.to
               && c.value == (match n.value case None => 0 case Some(v) => v)
               && c.gasUsed == (match n.gasUsed case None => 0 case Some(v) => v)
               && (c.revert <==> FailedOnPath(t, p)) && c.error == NearestError(t, p, "")
  {
    hide Propagate, Preorder, Position, FailedOnPath, NearestError, Size;
    PropagatedNode(t, false, "", p);
    PreorderAtPosition(Propagate(t, false, ""), p);
    NodeHasSize(At(Propagate(t, false, ""), p));
  }

  lemma NodeHasSize(t: Tree)
    ensures Size(t) > 0
  {
  }

  /** Every entry of the list is one node of the tree: Position is onto. */
  lemma {:induction false} PositionIsOnto(t: Tree, n: nat) returns (p: Path)
    requires n < Size(t)
    ensures ValidPath(t, p) && Position(t, p) == n
    decreases t
  {
    if n == 0 {
      p := [];
    } else {
      var k := 0;
      while SizeAll(t.calls[..k + 1]) <= n - 1
        invariant k < |t.calls| && SizeAll(t.calls[..k]) <= n - 1
        decreases |t.calls| - k
      {
        assert t.calls[..|t.calls|] == t.calls;
        k := k + 1;
      }
      assert t.calls[..k + 1][..k] == t.calls[..k];
      var q := PositionIsOnto(t.calls[k], n - 1 - SizeAll(t.calls[..k]));
      p := [k] + q;
    }
  }

  /** Parents come before their children and siblings in order: positions follow the order of paths. */
  ghost predicate PathBefore(p: Path, q: Path)
    decreases |p|
  {
    q != [] && (p == [] || p[0] < q[0] || (p[0] == q[0] && PathBefore(p[1..], q[1..])))
  }

  lemma {:induction false} SizeAllMonotone(ts: seq<Tree>, i: nat, j: nat)
    requires i < j <= |ts|
    ensures SizeAll(ts[..i]) + Size(ts[i]) <= SizeAll(ts[..j])
    decreases j
  {
    assert ts[..j][..j - 1] == ts[..j - 1];
    if i < j - 1 { SizeAllMonotone(ts, i, j - 1); }
  }

  lemma {:induction false} PositionFollowsPathOrder(t: Tree, p: Path, q: Path)
    requires ValidPath(t, p) && ValidPath(t, q) && PathBefore(p, q)
    ensures Position(t, p) < Position(t, q)
    decreases t
  {
    if p != [] {
      if p[0] < q[0] {
        SizeAllMonotone(t.calls, p[0], q[0]);
        PreorderAtPosition(t.calls[p[0]], p[1..]);
      } else {
        PositionFollowsPathOrder(t.calls[p[0]], p[1..], q[1..]);
      }
    }
  }

  // ---------------------------------------------------------------- the mutable object

  class Call {
    var kind: OpKind
    var from: Address
    var to: Address
    var value: Option<nat>
    var gasUsed: Option<nat>
    var revert: bool
    var error: string
    var calls: seq<Call>
    ghost var Repr: set<object>
    ghost var Contents: Tree  // the fields of this call and, in Contents.calls, those of the calls below

    ghost predicate Valid()
      reads this, Repr
      decreases Repr, 1
    {
      && this in Repr
      && Contents == Node(kind, from, to, value, gasUsed, revert, error, Contents.calls)
      && |Contents.calls| == |calls| && ChildrenAre(Contents.calls)
    }

    /** The calls below are valid, apart from each other, and hold these trees. */
    ghost predicate ChildrenAre(trees: seq<Tree>)
      requires this in Repr && |trees| == |calls|
      reads this`calls, this`Repr, Repr - {this}
      decreases Repr, 0
    {
      && (forall i :: 0 <= i < |calls| ==>
            && calls[i] in Repr && calls[i].Repr <= Repr && this !in calls[i].Repr
            && calls[i].Valid()
            && calls[i].Contents == trees[i])
      && (forall i, j :: 0 <= i < j < |calls| ==> calls[i].Repr !! calls[j].Repr)
    }

    /** The assignments a parent makes to a child before initialising it. */
    method InheritFrom(parentRevert: bool, parentError: string)
      requires Valid()
      modifies this`revert, this`error, this`Contents
      ensures Valid() && Repr == old(Repr)
      ensures Contents == Marked(old(Contents), parentRevert, parentError)
    {
      hide ChildrenAre;
      if parentRevert {
        revert := true;
        if |error| == 0 { error := parentError; }
      }
      Contents := Contents.(revert := revert, error := error);
    }

    /** Missing amounts become zero and a decoder error means the call reverted. */
    method Settle()
      requires Valid()
      modifies this`value, this`gasUsed, this`revert, this`Contents
      ensures Valid() && Repr == old(Repr)
      ensures Contents == Settled(old(Contents))
    {
      hide ChildrenAre;
      if value.None? { value := Some(0); }
      if gasUsed.None? { gasUsed := Some(0); }
      if |error| > 0 { revert := true; }
      Contents := Contents.(value := value, gasUsed := gasUsed, revert := revert);
    }

    /** One round of the loop of Call.init: the i-th child inherits and is initialised, its siblings keep their
        value. */
    method InitChild(i: nat) returns (results: seq<FlatCall>)
      requires Valid() && i < |calls|
      modifies this`Contents, calls[i].Repr
      ensures Valid() && Repr == old(Repr)
      ensures Contents ==
              var t := old(Contents); t.(calls := t.calls[i := Propagate(t.calls[i], t.revert, t.error)])
      ensures results == Preorder(Contents.calls[i])
      decreases Repr, 0, 0
    {
      hide Propagate, PropagateAll, Preorder, PreorderAll, Marked;
      ghost var trees := Contents.calls;
      assert ChildrenAre(trees);
      PropagateMarked(trees[i], revert, error);
      calls[i].InheritFrom(revert, error);
      results := calls[i].Init();
      assert forall j :: 0 <= j < |calls| && j != i ==> calls[j].Valid() && calls[j].Contents == trees[j];
      trees := trees[i := calls[i].Contents];
      assert ChildrenAre(trees);
      hide ChildrenAre;
      Contents := Contents.(calls := trees);
    }

    /** The loop of Call.init over the children. */
    method InitChildren() returns (results: seq<FlatCall>)
      requires Valid()
      modifies this`Contents, Repr - {this}
      ensures Valid() && Repr == old(Repr)
      ensures Contents == var t := old(Contents); t.(calls := PropagateAll(t.calls, t.revert, t.error))
      ensures results == PreorderAll(Contents.calls)
      decreases Repr, 0, 1
    {
      ghost var t := Contents;
      results := [];
      var i := 0;
      PartlyEnds(t);
      hide Partly, PropagateAll, Propagate, PreorderAll, Preorder;
      while i < |calls|
        invariant 0 <= i <= |calls| == |t.calls| && Valid() && Repr == old(Repr)
        invariant Contents == Partly(t, i)
        invariant results == PreorderAll(Contents.calls[..i])
      {
        PartlyStep(t, i);
        PreorderAllStep(Contents.calls, i, Propagate(Contents.calls[i], t.revert, t.error));
        var children := InitChild(i);
        results := results + children;
        i := i + 1;
      }
      assert Contents.calls[..i] == Contents.calls;
    }

    /** Call.init: marks reverted subtrees in place and lists the calls in pre-order. */
    method Init() returns (results: seq<FlatCall>)
      requires Valid()
      modifies Repr
      ensures Valid() && Repr == old(Repr)
      ensures Contents == Propagate(old(Contents), false, "")
      ensures results == Preorder(Contents)
      decreases Repr, 1, 0
    {
      Settle();
      results := [FlatCall(kind, from, to, value.value, gasUsed.value, revert, error)];
      var children := InitChildren();
      results := results + children;
    }
  }
}
