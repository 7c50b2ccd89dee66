/** list.c on real nodes: doubly linked lists whose last node points to itself. */
module LinkedLists {
  import opened ListModel

  /** struct LIST; `entry` is what list_entry computes, the structure the link is embedded in. */
  class Node {
    var prev: Node
    var next: Node
    const entry: Entry

    constructor (entry: Entry)
      ensures this.entry == entry && next == prev == this
    {
      this.entry := entry;
      prev, next := this, this;
    }
  }

  /** s[0] is a list head and the rest its members: prev undoes next, no node repeats, the last one loops to itself. */
  ghost predicate Chain(s: seq<Node>)
    reads s
  {
    && |s| > 0 && NoDup(s)
    && (forall i | 0 <= i < |s| - 1 :: s[i].next == s[i + 1] && s[i + 1].prev == s[i])
    && s[|s| - 1].next == s[|s| - 1]
  }

  method ListInit(head: Node)
    modifies head
    ensures Chain([head])
  {
    head.next := head;
    head.prev := head;
  }

  predicate IsListLast(node: Node)
    reads node
  {
    node.next == node
  }

  /** In a well-formed list only the last node is its own successor. */
  lemma LastIsLast(s: seq<Node>, k: nat)
    requires Chain(s) && k < |s|
    ensures IsListLast(s[k]) <==> k == |s| - 1
  {
    if k < |s| - 1 {
      assert s[k].next == s[k + 1];
    }
  }

  method ListInsert(head: Node, node: Node, ghost s: seq<Node>)
    requires Chain(s) && s[|s| - 1] == head && node !in s
    modifies head, node
    ensures Chain(s + [node])
  {
    node.next := node;
    node.prev := head;
    head.next := node;
  }

  method ListInsertSpec(head: Node, node: Node, ghost s: seq<Node>)
    requires Chain(s) && s[0] == head && node !in s
    modifies head, node, s[if |s| > 1 then 1 else 0]
    ensures Chain([head, node] + s[1..])
  {
    LastIsLast(s, 0);
    if IsListLast(head) {
      ListInsert(head, node, s);
      assert [head, node] + s[1..] == s + [node];
      return;
    }
    assert s[0].next == s[1];
    ghost var s' := [head, node] + s[1..];
    assert forall i | 2 <= i < |s'| :: s'[i] == s[i - 1];
    node.next := head.next;
    node.prev := head;
    head.next.prev := node;
    head.next := node;
  }

  method ListDelete(node: Node, ghost s: seq<Node>, ghost k: nat)
    requires Chain(s) && 1 <= k < |s| && s[k] == node
    modifies s[k - 1], s[if k + 1 < |s| then k + 1 else k - 1]
    ensures Chain(s[..k] + s[k + 1..])
    ensures unchanged(node)
  {
    LastIsLast(s, k);
    ghost var s' := s[..k] + s[k + 1..];
    assert s[k - 1].next == node && node.prev == s[k - 1];
    if IsListLast(node) {
      node.prev.next := node.prev;
      return;
    }
    assert node.next == s[k + 1];
    assert forall i | k <= i < |s'| :: s'[i] == s[i + 1];
    node.prev.next := node.next;
    node.next.prev := node.prev;
  }

  method ListInsertBehind(head: Node, node: Node, ghost s: seq<Node>)
    requires Chain(s) && s[0] == head && node !in s
    modifies s[|s| - 1], node
    ensures Chain(s + [node])
  {
    var list := head;
    ghost var k := 0;
    LastIsLast(s, 0);
    while !IsListLast(list)
      invariant 0 <= k < |s| && list == s[k] && Chain(s)
      decreases |s| - k
    {
      LastIsLast(s, k);
      list := list.next;
      k := k + 1;
    }
    LastIsLast(s, k);
    ListInsert(list, node, s);
  }

  /**
    All links of the kernel: a head for every list, a node for every embedded link, and the invariant that the heap
    holds exactly the lists `v` describes.
   */
  class ListHeap {
    const heads: map<ListId, Node>
    const nodes: map<Entry, Node>
    ghost const objects: set<Node>
    ghost var v: Lists
    ghost var chains: map<ListId, seq<Node>>

    /** Every node knows what it is embedded in, which keeps all of them apart. */
    ghost predicate Named() {
      && (forall l | l in heads :: heads[l].entry == Head(l) && heads[l] in objects)
      && (forall e | e in nodes :: nodes[e].entry == e && !e.Head? && nodes[e] in objects)
    }

    /** The nodes `s` are list `l` with contents `q`: its head, then the links embedded in the entries of `q`. */
    ghost predicate Holds(s: seq<Node>, l: ListId, q: seq<Entry>) {
      && l in heads && |s| == |q| + 1 && s[0] == heads[l]
      && (forall i | 0 <= i < |q| :: q[i] in nodes && s[i + 1] == nodes[q[i]])
      && (forall n | n in s :: n in objects)
    }

    ghost predicate Valid()
      reads this, objects
    {
      && Named() && Ok(v) && v.q.Keys == heads.Keys == chains.Keys && v.at.Keys <= nodes.Keys
      && (forall l | l in chains :: Holds(chains[l], l, v.q[l]))
      && (forall l | l in chains :: Chain(chains[l]))
    }

    lemma HoldsNames(s: seq<Node>, l: ListId, q: seq<Entry>)
      requires Named() && Holds(s, l, q)
      ensures forall n | n in s :: n in objects && ((n.entry == Head(l) && n == heads[l]) || n.entry in q)
    {
      forall n | n in s
        ensures n in objects && ((n.entry == Head(l) && n == heads[l]) || n.entry in q)
      {
        var i :| 0 <= i < |s| && s[i] == n;
        assert i > 0 ==> n == nodes[q[i - 1]];
      }
    }

    /** list_init on every head */
    constructor (heads: map<ListId, Node>, nodes: map<Entry, Node>)
      requires forall l | l in heads :: heads[l].entry == Head(l)
      requires forall e | e in nodes :: nodes[e].entry == e && !e.Head?
      modifies heads.Values
      ensures Valid() && this.heads == heads && this.nodes == nodes && objects == heads.Values + nodes.Values
      ensures v == Lists(map l | l in heads :: [], map[])
    {
      hide Ok, Chain;
      this.heads, this.nodes, objects := heads, nodes, heads.Values + nodes.Values;
      v := Lists(map l | l in heads :: [], map[]);
      chains := map l | l in heads :: [heads[l]];
      new;
      assert v.q.Keys == heads.Keys == chains.Keys;
      EmptyOk(v);
      InitAll(heads);
    }

    static method InitAll(heads: map<ListId, Node>)
      requires forall l | l in heads :: heads[l].entry == Head(l)
      modifies heads.Values
      ensures forall l | l in heads :: Chain([heads[l]])
    {
      var todo := heads.Keys;
      while todo != {}
        invariant todo <= heads.Keys
        invariant forall l | l in heads && l !in todo :: heads[l].next == heads[l]
        decreases |todo|
      {
        var l :| l in todo;
        ListInit(heads[l]);
        todo := todo - {l};
      }
    }

    /** No node of another list, and no link outside the list, is a node of list `l`. */
    lemma Apart(l: ListId)
      requires Valid() && l in v.q
      ensures forall x | x in nodes && x !in v.q[l] :: nodes[x] !in chains[l]
      ensures forall l', n | l' in chains && l' != l && n in chains[l'] :: n !in chains[l]
    {
      HoldsNames(chains[l], l, v.q[l]);
      forall l' | l' in chains && l' != l
        ensures forall n | n in chains[l'] :: n !in chains[l]
      {
        ListsApart(l, l');
      }
    }

    /** Entries of different lists differ, so their nodes do. */
    lemma ListsApart(l: ListId, l': ListId)
      requires Valid() && l in v.q && l' in v.q && l != l'
      ensures forall n | n in chains[l'] :: n !in chains[l]
    {
      hide Chain;
      HoldsNames(chains[l], l, v.q[l]);
      HoldsNames(chains[l'], l', v.q[l']);
      OkApart(v, l, l');
      OkHeads(l);
      OkHeads(l');
    }

    lemma OkHeads(l: ListId)
      requires Valid() && l in v.q
      ensures forall e | e in v.q[l] :: !e.Head?
    {
    }

    lemma LinkedEntry(e: Entry)
      requires Valid() && e in v.at
      ensures e in nodes && v.at[e] in v.q && e in v.q[v.at[e]]
    {
    }

    lemma OffLists(e: Entry)
      requires Valid() && e !in v.at
      ensures forall l | l in v.q :: e !in v.q[l]
    {
      OkOff(v, e);
    }

    lemma NamedEntries(l: ListId)
      requires Valid() && l in v.q
      ensures l in heads && heads[l].entry == Head(l)
      ensures forall e | e in v.q[l] :: e in nodes && nodes[e].entry == e && !e.Head?
    {
    }

    /** Where the next pointers of a list lead. */
    lemma Successors(l: ListId)
      requires Valid() && l in v.q
      ensures l in heads && forall i | 0 <= i < |v.q[l]| :: v.q[l][i] in nodes
      ensures heads[l].next == if v.q[l] == [] then heads[l] else nodes[v.q[l][0]]
      ensures forall i | 0 <= i < |v.q[l]| ::
                nodes[v.q[l][i]].next == nodes[v.q[l][if i + 1 < |v.q[l]| then i + 1 else i]]
    {
    }

    /** is_list_last on a list head */
    method IsEmpty(l: ListId) returns (empty: bool)
      requires Valid() && l in v.q
      ensures empty == (v.q[l] == [])
    {
      LastIsLast(chains[l], 0);
      empty := IsListLast(heads[l]);
    }

    /** list_entry of the first node */
    method First(l: ListId) returns (e: Entry)
      requires Valid() && l in v.q && v.q[l] != []
      ensures e == v.q[l][0]
    {
      assert chains[l][0].next == chains[l][1];
      e := heads[l].next.entry;
    }

    /** is_list_last on a member */
    method IsLast(e: Entry) returns (last: bool)
      requires Valid() && e in v.at
      ensures last == (v.q[v.at[e]][|v.q[v.at[e]]| - 1] == e)
    {
      ghost var q := v.q[v.at[e]];
      ghost var k :| 0 <= k < |q| && q[k] == e;
      LastIsLast(chains[v.at[e]], k + 1);
      last := IsListLast(nodes[e]);
    }

    lemma OffAll(e: Entry)
      requires Valid() && e in nodes && e !in v.at
      ensures forall l | l in chains :: nodes[e] !in chains[l] && e !in v.q[l]
      ensures forall x | x in nodes && x != e :: nodes[x] != nodes[e]
    {
      hide Chain;
      forall l | l in chains
        ensures nodes[e] !in chains[l] && e !in v.q[l]
      {
        HoldsNames(chains[l], l, v.q[l]);
        OkAt(v, l, e);
      }
    }

    /** Validity once list `l` changed from the valid state `w`, `before`, while all other lists are chains still. */
    lemma Composed(l: ListId, e: Entry, w: Lists, before: map<ListId, seq<Node>>, s: seq<Node>, q: seq<Entry>)
      requires Named() && e in nodes && Ok(v) && Changes(w, v, l, e, q) && chains == before[l := s]
      requires l in before && w.q.Keys == heads.Keys == before.Keys && w.at.Keys <= nodes.Keys
      requires forall l' | l' in before && l' != l :: Holds(before[l'], l', w.q[l']) && Chain(before[l'])
      requires Holds(s, l, q) && Chain(s)
      ensures Valid()
    {
      hide Ok, Holds, Chain;
      assert v.q.Keys == w.q.Keys && chains.Keys == before.Keys;
    }

    /** How the nodes follow the contents when an entry comes or goes. */
    lemma HoldsAfter(s: seq<Node>, l: ListId, q: seq<Entry>, e: Entry)
      requires Named() && Holds(s, l, q) && e in nodes
      ensures |s| == |q| + 1 && s[0] == heads[l] && s[0] in s && s[|s| - 1] in s && (|s| > 1 ==> s[1] in s)
      ensures forall n | n in s + [nodes[e]] :: n in objects
      ensures Holds(s + [nodes[e]], l, q + [e])
      ensures Holds([heads[l], nodes[e]] + s[1..], l, [e] + q)
    {
    }

    lemma HoldsWithout(s: seq<Node>, l: ListId, q: seq<Entry>, k: nat)
      requires Named() && Holds(s, l, q) && k < |q|
      ensures |s| == |q| + 1 && q[k] in nodes && s[k + 1] == nodes[q[k]] && s[k] in s && (k + 2 < |s| ==> s[k + 2] in s)
      ensures forall n | n in s :: n in objects
      ensures Holds(s[..k + 1] + s[k + 2..], l, q[..k] + q[k + 1..])
    {
    }

    /** list_insert_behind */
    method InsertBehind(l: ListId, e: Entry)
      requires Valid() && l in v.q && e in nodes && e !in v.at
      modifies this`v, this`chains, objects
      ensures Valid() && v == InsertTail(old(v), l, e) && v.q.Keys == old(v.q.Keys)
      ensures forall x | x in nodes && x != e && x !in old(v.q)[l] :: unchanged(nodes[x])
    {
      hide Chain, Holds, Ok, InsertTail, Changes, Named;
      ghost var s, w, before := chains[l], v, chains;
      Apart(l);
      InsertTailOk(v, l, e);
      OffAll(e);
      HoldsAfter(s, l, v.q[l], e);
      ghost var last := s[|s| - 1];
      ListInsertBehind(heads[l], nodes[e], s);
      forall l' | l' in before && l' != l
        ensures Chain(before[l'])
      {
        assert last !in before[l'] && nodes[e] !in before[l'];
        assert old(Chain(before[l']));
      }
      v := InsertTail(w, l, e);
      chains := before[l := s + [nodes[e]]];
      Composed(l, e, w, before, s + [nodes[e]], w.q[l] + [e]);
    }

    /** list_insert_spec */
    method InsertSpec(l: ListId, e: Entry)
      requires Valid() && l in v.q && e in nodes && e !in v.at
      modifies this`v, this`chains, objects
      ensures Valid() && v == InsertHead(old(v), l, e) && v.q.Keys == old(v.q.Keys)
      ensures forall x | x in nodes && x != e && x !in old(v.q)[l] :: unchanged(nodes[x])
    {
      hide Chain, Holds, Ok, InsertHead, Changes, Named;
      ghost var s, w, before := chains[l], v, chains;
      Apart(l);
      InsertHeadOk(v, l, e);
      OffAll(e);
      HoldsAfter(s, l, v.q[l], e);
      ghost var second := s[if |s| > 1 then 1 else 0];
      ListInsertSpec(heads[l], nodes[e], s);
      forall l' | l' in before && l' != l
        ensures Chain(before[l'])
      {
        assert heads[l] !in before[l'] && second !in before[l'] && nodes[e] !in before[l'];
        assert old(Chain(before[l']));
      }
      v := InsertHead(w, l, e);
      chains := before[l := [heads[l], nodes[e]] + s[1..]];
      Composed(l, e, w, before, [heads[l], nodes[e]] + s[1..], [e] + w.q[l]);
    }

    lemma Find(e: Entry) returns (k: nat)
      requires Valid() && e in v.at
      ensures v.at[e] in v.q && k < |v.q[v.at[e]]| && v.q[v.at[e]][k] == e
      ensures Without(v.q[v.at[e]], e) == v.q[v.at[e]][..k] + v.q[v.at[e]][k + 1..]
    {
      var q := v.q[v.at[e]];
      k :| 0 <= k < |q| && q[k] == e;
      WithoutMeaning(q, e, k);
    }

    /** list_delete; the removed node keeps its own links. */
    method Remove(e: Entry)
      requires Valid() && e in v.at
      modifies this`v, this`chains, objects
      ensures Valid() && v == Delete(old(v), e) && v.q.Keys == old(v.q.Keys)
      ensures forall x | x in nodes && (x == e || x !in old(v.q)[old(v.at)[e]]) :: unchanged(nodes[x])
    {
      hide Chain, Holds, Ok, Delete, Changes, Without, Named;
      ghost var k := Find(e);
      ghost var l := v.at[e];
      ghost var s, w, before := chains[l], v, chains;
      Apart(l);
      DeleteOk(v, e);
      HoldsWithout(s, l, v.q[l], k);
      ghost var left, right := s[k], s[if k + 2 < |s| then k + 2 else k];
      assert left in s && right in s;
      ListDelete(nodes[e], s, k + 1);
      forall l' | l' in before && l' != l
        ensures Chain(before[l'])
      {
        assert left !in before[l'] && right !in before[l'];
        assert old(Chain(before[l']));
      }
      v := Delete(w, e);
      chains := before[l := s[..k + 1] + s[k + 2..]];
      Composed(l, e, w, before, s[..k + 1] + s[k + 2..], Without(w.q[l], e));
    }
  }
}
