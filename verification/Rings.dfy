/** Intrusive circular doubly linked lists: a head node and the entries threaded through it. */
module Rings {

  class Node {
    var next: Node
    var prev: Node

    // list_head_init
    constructor ()
      ensures next == this && prev == this
    {
      next := this;
      prev := this;
    }
  }

  // Consecutive nodes point at each other.
  ghost predicate Links(c: seq<Node>)
    reads c
  {
    forall i, j :: 0 <= i < j < |c| && j == i + 1 ==> c[i].next == c[j] && c[j].prev == c[i]
  }

  ghost predicate Apart(h: Node, s: seq<Node>)
  {
    && h !in s
    && (forall i, j :: 0 <= i < j < |s| ==> s[i] != s[j])
  }

  // All the way round: from the head through the entries back to the head.
  ghost function Cycle(h: Node, s: seq<Node>): seq<Node>
  {
    [h] + s + [h]
  }

  /** From head h the entries are s, in both directions. */
  ghost predicate Ring(h: Node, s: seq<Node>)
    reads h, s
  {
    Apart(h, s) && Links(Cycle(h, s))
  }

  lemma RingEnds(h: Node, s: seq<Node>)
    requires Ring(h, s)
    ensures s == [] ==> h.next == h && h.prev == h
    ensures s != [] ==> h.next == s[0] && s[0].prev == h && h.prev == s[|s| - 1] && s[|s| - 1].next == h
  {
    var c := Cycle(h, s);
    assert c[0].next == c[1] && c[1].prev == c[0];
    assert c[|s|].next == c[|s| + 1] && c[|s| + 1].prev == c[|s|];
  }

  method ListHeadInit(h: Node)
    modifies h
    ensures Ring(h, [])
  {
    h.next := h;
    h.prev := h;
  }

  // list_empty
  method ListEmpty(h: Node, ghost s: seq<Node>) returns (r: bool)
    requires Ring(h, s)
    ensures r <==> s == []
  {
    RingEnds(h, s);
    r := h.next == h;
  }

  // list_add
  method ListAdd(h: Node, n: Node, ghost s: seq<Node>)
    requires Ring(h, s) && n != h && n !in s
    modifies h`next, h.next`prev, n
    ensures Ring(h, [n] + s)
  {
    RingEnds(h, s);
    ghost var c := Cycle(h, s);
    n.next := h.next;
    n.prev := h;
    h.next.prev := n;
    h.next := n;
    ghost var d := Cycle(h, [n] + s);
    assert forall i :: 2 <= i < |d| ==> d[i] == c[i - 1];
  }

  // list_add_tail
  method ListAddTail(h: Node, n: Node, ghost s: seq<Node>)
    requires Ring(h, s) && n != h && n !in s
    modifies h`prev, h.prev`next, n
    ensures Ring(h, s + [n])
  {
    RingEnds(h, s);
    ghost var c := Cycle(h, s);
    n.next := h;
    n.prev := h.prev;
    h.prev.next := n;
    h.prev := n;
    ghost var d := Cycle(h, s + [n]);
    assert forall i :: 0 <= i <= |s| ==> d[i] == c[i];
  }

  // list_del: the entry is unthreaded and keeps its own links.
  method ListDel(n: Node, ghost h: Node, ghost s: seq<Node>, ghost k: nat)
    requires Ring(h, s) && k < |s| && n == s[k]
    modifies n.next`prev, n.prev`next
    ensures Ring(h, s[..k] + s[k + 1..])
    ensures n.next == old(n.next) && n.prev == old(n.prev)
  {
    ghost var c := Cycle(h, s);
    assert c[k + 1] == n && n.next == c[k + 2] && n.prev == c[k];
    n.next.prev := n.prev;
    n.prev.next := n.next;
    ghost var d := Cycle(h, s[..k] + s[k + 1..]);
    assert forall i :: 0 <= i <= k ==> d[i] == c[i];
    assert forall i :: k < i < |d| ==> d[i] == c[i + 1];
  }

  // list_pop_
  method ListPop(h: Node, ghost s: seq<Node>) returns (n: Node?)
    requires Ring(h, s)
    modifies h, h.next, h.next.next
    ensures s == [] ==> n == null && Ring(h, s)
    ensures s != [] ==> n == s[0] && Ring(h, s[1..])
  {
    hide Ring;
    RingEnds(h, s);
    if h.next == h {
      FirstApart(h, s);
      return null;
    }
    n := h.next;
    assert n.prev == h;
    ListDel(n, h, s, 0);
    assert s[..0] + s[1..] == s[1..];
  }

  lemma FirstApart(h: Node, s: seq<Node>)
    requires Ring(h, s)
    ensures s != [] ==> s[0] != h
  {
  }

  ghost predicate Disjoint(g: Node, s: seq<Node>, h: Node, t: seq<Node>)
  {
    g != h && g !in t && h !in s && forall i :: 0 <= i < |s| ==> s[i] !in t
  }

  lemma SewnApart(g: Node, s: seq<Node>, h: Node, t: seq<Node>)
    requires Apart(g, s) && Apart(h, t) && Disjoint(g, s, h, t)
    ensures Apart(g, s + [h] + t) && Apart(g, [h] + t + s)
  {
  }

  // Rewiring x.next and y.prev leaves chain k intact.
  ghost predicate Spared(k: seq<Node>, x: Node, y: Node)
  {
    && (forall i :: 0 <= i < |k| - 1 ==> k[i] != x)
    && (forall i :: 1 <= i < |k| ==> k[i] != y)
  }

  // One pair of stores: the last node of chain a and the first of chain b point at each other.
  method Connect(x: Node, y: Node, ghost a: seq<Node>, ghost b: seq<Node>, ghost k: seq<Node>)
    requires a != [] && b != [] && Links(a) && Links(b) && Links(k)
    requires x == a[|a| - 1] && y == b[0]
    requires Spared(a, x, y) && Spared(b, x, y) && Spared(k, x, y)
    modifies x`next, y`prev
    ensures x.next == y && y.prev == x
    ensures Links(a + b) && Links(k)
  {
    x.next := y;
    y.prev := x;
  }

  // The two open chains of a ring: without the closing head, and without the opening one.
  lemma OpenChains(h: Node, s: seq<Node>)
    requires Ring(h, s)
    ensures Links([h] + s) && Links(s + [h])
  {
    var c := Cycle(h, s);
    assert [h] + s == c[..|s| + 1] && s + [h] == c[1..];
  }

  // Sewing the ring of `from`, head and all, in behind the last entry of `to`.
  method SewBehind(to: Node, from: Node, ghost s: seq<Node>, ghost t: seq<Node>)
    requires Ring(to, s) && Ring(from, t) && Disjoint(to, s, from, t)
    modifies to`prev, from, to.prev`next, from.prev`next
    ensures Links(Cycle(to, s + [from] + t))
    ensures from.prev == old(to.prev) && from.next == if t == [] then to else old(from.next)
  {
    hide Links;
    RingEnds(to, s);
    RingEnds(from, t);
    OpenChains(to, s);
    OpenChains(from, t);
    var fromTail := from.prev;
    var toTail := to.prev;
    ghost var a, b := [to] + s, [from] + t;
    Single(to);
    Connect(fromTail, to, b, [to], a);
    Connect(toTail, from, a, b + [to], []);
    assert Cycle(to, s + [from] + t) == a + (b + [to]);
  }

  // The same in front of the first entry.
  method SewBefore(to: Node, from: Node, ghost s: seq<Node>, ghost t: seq<Node>)
    requires Ring(to, s) && Ring(from, t) && Disjoint(to, s, from, t)
    modifies to`next, from, to.next`prev, from.prev`next
    ensures Links(Cycle(to, [from] + t + s))
    ensures from.prev == to && from.next == if t == [] then old(to.next) else old(from.next)
  {
    hide Links;
    RingEnds(to, s);
    RingEnds(from, t);
    OpenChains(to, s);
    OpenChains(from, t);
    var fromTail := from.prev;
    var toHead := to.next;
    ghost var a, b := s + [to], [from] + t;
    Single(to);
    Connect(to, from, [to], b, a);
    Connect(fromTail, toHead, [to] + b, a, []);
    assert Cycle(to, [from] + t + s) == ([to] + b) + a;
  }

  lemma Single(n: Node)
    ensures Links([n]) && Links([])
  {
  }

  /** list_append_list: the second ring is sewn in behind the first and then its head is cut out
      again.  Either list may be empty. */
  method ListAppendList(to: Node, from: Node, ghost s: seq<Node>, ghost t: seq<Node>)
    requires Ring(to, s) && Ring(from, t) && Disjoint(to, s, from, t)
    modifies to, from, to.prev, from.prev, from.next
    ensures Ring(to, s + t) && Ring(from, [])
  {
    hide Links, Apart;
    SewBehind(to, from, s, t);
    SewnApart(to, s, from, t);
    ghost var all := s + [from] + t;
    HeadsApart(to, all, |s|);
    ListDel(from, to, all, |s|);
    assert all[..|s|] + all[|s| + 1..] == s + t;
    ListHeadInit(from);
  }

  /** list_prepend_list: the same surgery at the front. */
  method ListPrependList(to: Node, from: Node, ghost s: seq<Node>, ghost t: seq<Node>)
    requires Ring(to, s) && Ring(from, t) && Disjoint(to, s, from, t)
    modifies to, from, to.next, from.prev, from.next
    ensures Ring(to, t + s) && Ring(from, [])
  {
    hide Links, Apart;
    SewBefore(to, from, s, t);
    SewnApart(to, s, from, t);
    ghost var all := [from] + t + s;
    HeadsApart(to, all, 0);
    ListDel(from, to, all, 0);
    assert all[..0] + all[1..] == t + s;
    ListHeadInit(from);
  }

  lemma HeadsApart(h: Node, s: seq<Node>, k: nat)
    requires Ring(h, s) && k < |s|
    ensures s[k] != h && s[k] !in s[..k] + s[k + 1..]
  {
  }
}
