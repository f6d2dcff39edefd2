/** Singly linked lists, spliced in place, proved against the sequence of their data; one alone, and
    many in one heap. */
module LinkedLists {
  import opened Collections

  class Node<T(==)> {
    var next: Node?<T>
    const data: T

    constructor (data: T)
      ensures this.data == data && next == null
    {
      this.data, next := data, null;
    }
  }

  /** The cell that a `device_list_t *` or `client_list_t *` variable occupies. */
  class LinkedList<T(==)> {
    var head: Node?<T>
    ghost var contents: seq<T>
    ghost var spine: seq<Node<T>>
    ghost var Repr: set<object>

    ghost function At(i: nat): Node?<T>
      requires i <= |spine|
      reads this
    {
      NodeAt(spine, i)
    }

    ghost predicate Valid()
      reads this, Repr
      ensures Valid() ==> this in Repr && |contents| == |spine|
    {
      && this in Repr
      && head == At(0)
      && NoDup(spine)
      && |contents| == |spine|
      && forall i :: 0 <= i < |spine| ==> spine[i] in Repr && spine[i].data == contents[i] && spine[i].next == At(i + 1)
    }

    constructor ()
      ensures Valid() && contents == [] && spine == [] && Repr == {this}
    {
      head, spine, contents, Repr := null, [], [], {this};
    }

    /** add_*, after its search by name or address has failed: walk to the last entry and link
        a new one behind it.  The walk looks for `x` itself in every entry but the last. */
    method Append(x: T) returns (ok: bool)
      requires Valid()
      modifies Repr
      ensures Valid() && old(Repr) <= Repr && fresh(Repr - old(Repr))
      ensures ok <==> old(contents) == [] || x !in old(contents)[..|old(contents)| - 1]
      ensures contents == if ok then old(contents) + [x] else old(contents)
      ensures old(spine) <= spine
    {
      var entry := new Node(x);
      if head == null {
        head, spine, contents, Repr := entry, [entry], [x], Repr + {entry};
        return true;
      }
      var pos := head;
      ghost var i := 0;
      while pos.next != null
        invariant 0 <= i < |spine| && pos == spine[i]
        invariant x !in contents[..i]
        decreases |spine| - i
      {
        if pos.data == x {
          assert contents[..|spine| - 1][i] == x;
          return false;
        }
        pos, i := pos.next, i + 1;
      }
      assert i == |spine| - 1;
      pos.next := entry;
      spine, contents, Repr := spine + [entry], contents + [x], Repr + {entry};
      ok := true;
    }

    /** Unlink the entry at position `i`, which is `pos`, behind `prev`. */
    method Splice(prev: Node<T>, pos: Node<T>, ghost i: nat)
      requires Valid() && 1 <= i < |spine| && prev == spine[i - 1] && pos == spine[i]
      modifies Repr
      ensures Valid() && Repr == old(Repr)
      ensures spine == old(spine)[..i] + old(spine)[i + 1..]
      ensures contents == old(contents)[..i] + old(contents)[i + 1..]
    {
      ghost var (s, c) := (spine, contents);
      NoDupSplice(s, i);
      assert forall j :: 0 <= j < |s| && j != i - 1 ==> s[j] != prev;
      hide NoDup;
      prev.next := pos.next;
      Spliced(s, c, i, Repr);
      assert NodeAt(s[..i] + s[i + 1..], 0) == NodeAt(s, 0);
      spine, contents := s[..i] + s[i + 1..], c[..i] + c[i + 1..];
    }

    /** rm_*: unlink the first entry that holds `x`, which stood at position `at`; false when
        there is none. */
    method Remove(x: T) returns (ok: bool, ghost at: nat)
      requires Valid()
      modifies Repr
      ensures Valid() && Repr == old(Repr)
      ensures ok <==> x in old(contents)
      ensures contents == Without(old(contents), x)
      ensures !ok ==> spine == old(spine)
      ensures ok ==> at < |old(spine)| && old(contents)[at] == x && x !in old(contents)[..at]
      ensures ok ==> spine == old(spine)[..at] + old(spine)[at + 1..]
    {
      if head == null {
        return false, 0;
      }
      at := 0;
      if head.data == x {
        WithoutAt(contents, x, 0);
        head := head.next;
        spine, contents := spine[1..], contents[1..];
        return true, at;
      }
      var prev, pos := head, head.next;
      at := 1;
      while pos != null
        invariant 1 <= at <= |spine| && prev == spine[at - 1] && pos == At(at)
        invariant x !in contents[..at]
        invariant pos != null ==> at < |spine|
        decreases |spine| - at
      {
        if pos.data == x {
          break;
        }
        prev, pos, at := pos, pos.next, at + 1;
      }
      if pos == null {
        assert contents[..at] == contents;
        return false, at;
      }
      WithoutAt(contents, x, at);
      Splice(prev, pos, at);
      ok := true;
    }

    /** get_*: the first entry whose data has the key that `found` looks for. */
    method Find(found: T -> bool) returns (r: Option<T>)
      requires Valid()
      ensures r.None? ==> forall x :: x in contents ==> !found(x)
      ensures r.Some? ==> found(r.value) && exists i ::
                0 <= i < |contents| && contents[i] == r.value && forall j :: 0 <= j < i ==> !found(contents[j])
    {
      var pos := head;
      ghost var i := 0;
      while pos != null
        invariant 0 <= i <= |spine| && pos == At(i)
        invariant forall j :: 0 <= j < i ==> !found(contents[j])
        decreases |spine| - i
      {
        if found(pos.data) {
          assert contents[i] == pos.data;
          return Some(pos.data);
        }
        pos, i := pos.next, i + 1;
      }
      r := None;
    }

    /** add_*: refuse an entry whose key is in the list, else append it; the walk's own look for
        the entry then never succeeds. */
    method Add(x: T, same: T -> bool) returns (ok: bool)
      requires Valid() && same(x)
      modifies Repr
      ensures Valid() && old(Repr) <= Repr && fresh(Repr - old(Repr))
      ensures ok <==> forall y :: y in old(contents) ==> !same(y)
      ensures contents == if ok then old(contents) + [x] else old(contents)
      ensures old(spine) <= spine
    {
      var known := Find(same);
      if known.Some? {
        return false;
      }
      assert x !in contents;
      ok := Append(x);
    }

    lemma EntryAt(k: nat)
      requires Valid() && k <= |spine|
      ensures |spine| == |contents| && head == At(0) && (k == |spine| <==> At(k) == null)
      ensures k < |spine| ==> spine[k] == At(k) && spine[k].data == contents[k] && spine[k].next == At(k + 1)
    {
    }

    /** Unlink and free the nodes one by one, from the head; each is freed once. */
    method Drain() returns (ghost freed: seq<Node<T>>)
      requires Valid()
      modifies Repr
      ensures Valid() && spine == [] && contents == [] && Repr == old(Repr)
      ensures freed == old(spine)
    {
      freed := [];
      while head != null
        invariant Valid() && Repr == old(Repr) && freed + spine == old(spine)
        decreases |spine|
      {
        ghost var (s, c) := (spine, contents);
        EntryAt(0);
        var next := head.next;
        var ok, at := Remove(head.data);
        Leading(s, c, at);
        EntryAt(0);
        head, freed := next, freed + [s[0]];
      }
    }

    /** remove_all_clients_from_device: detach the whole chain and drain it from a local cell. */
    method Clear() returns (ghost freed: seq<Node<T>>)
      requires Valid()
      modifies Repr
      ensures Valid() && spine == [] && contents == [] && Repr == old(Repr)
      ensures freed == old(spine)
    {
      var rest := new LinkedList<T>();
      ghost var nodes: set<object> := set n: Node<T> | n in spine;
      rest.head, rest.spine, rest.contents, rest.Repr := head, spine, contents, nodes + {rest};
      head, spine, contents := null, [], [];
      freed := rest.Drain();
    }
  }

  /** The first entry that equals the first one is the first one. */
  lemma Leading<T, N>(s: seq<N>, c: seq<T>, at: nat)
    requires |s| == |c| && at < |s| && c[at] == c[0] && c[0] !in c[..at]
    ensures at == 0 && s[..at] + s[at + 1..] == s[1..] && s == [s[0]] + s[1..]
  {
  }

  // ---------- Many lists in one heap ----------

  /** What a list holds, and its nodes. */
  datatype Chain<T> = Chain(items: seq<T>, nodes: seq<Node<T>>)

  ghost function Items<T>(pool: map<LinkedList<T>, Chain<T>>, l: LinkedList<T>): seq<T> {
    if l in pool then pool[l].items else []
  }

  ghost function Nodes<T>(pool: map<LinkedList<T>, Chain<T>>, l: LinkedList<T>): seq<Node<T>> {
    if l in pool then pool[l].nodes else []
  }

  /** The lists hold what the map says, and no two of them share a cell or a node; all of these are
      in `foot`. */
  ghost predicate Pool<T>(pool: map<LinkedList<T>, Chain<T>>, foot: set<object>)
    reads pool.Keys, foot
  {
    && (forall l :: l in pool ==>
         l in foot && l.Repr <= foot && l.Valid() && l.contents == pool[l].items && l.spine == pool[l].nodes)
    && (forall l, m :: l in pool && m in pool && l != m ==> l.Repr !! m.Repr)
  }

  lemma InPool<T>(l: LinkedList<T>, pool: map<LinkedList<T>, Chain<T>>, foot: set<object>)
    requires Pool(pool, foot) && l in pool
    ensures l.Valid() && l in l.Repr && l.Repr <= foot && l.contents == pool[l].items && l.spine == pool[l].nodes
  {
  }

  /** A walk over one of the lists: where it starts, and where it goes from position `i`. */
  lemma WalkAt<T>(l: LinkedList<T>, pool: map<LinkedList<T>, Chain<T>>, foot: set<object>, i: nat)
    requires Pool(pool, foot) && l in pool && i <= |pool[l].nodes|
    ensures l.head == NodeAt(pool[l].nodes, 0) && |pool[l].nodes| == |pool[l].items|
    ensures i < |pool[l].nodes| ==>
              pool[l].nodes[i].data == pool[l].items[i] && pool[l].nodes[i].next == NodeAt(pool[l].nodes, i + 1)
  {
  }

  lemma NewPool<T>(l: LinkedList<T>)
    requires l.Valid() && l.Repr == {l} && l.contents == []
    ensures Pool(map[l := Chain([], [])], {l})
  {
  }

  /** One more list, which is empty. */
  lemma MorePool<T>(l: LinkedList<T>, pool: map<LinkedList<T>, Chain<T>>, foot: set<object>)
    requires Pool(pool, foot) && l !in foot
    requires l.Valid() && l.Repr == {l} && l.contents == []
    ensures Pool(pool[l := Chain([], [])], foot + {l})
  {
  }

  lemma InFoot<T>(pool: map<LinkedList<T>, Chain<T>>, foot: set<object>)
    requires Pool(pool, foot)
    ensures forall l :: l in pool ==> l in foot
  {
  }

  /** add_* on one of the lists: the others do not change. */
  method AddIn<T>(l: LinkedList<T>, x: T, same: T -> bool, ghost pool: map<LinkedList<T>, Chain<T>>,
                  ghost foot: set<object>)
    returns (ok: bool, ghost nodes: seq<Node<T>>, ghost after: map<LinkedList<T>, Chain<T>>, ghost more: set<object>)
    requires Pool(pool, foot) && l in pool && same(x)
    modifies foot
    ensures Pool(after, more) && foot <= more && fresh(more - foot)
    ensures ok <==> forall y :: y in pool[l].items ==> !same(y)
    ensures after == pool[l := Chain(if ok then pool[l].items + [x] else pool[l].items, nodes)]
  {
    ok := l.Add(x, same);
    nodes, more := l.spine, foot + l.Repr;
    after := pool[l := Chain(l.contents, l.spine)];
    ghost var added := l.Repr - old(l.Repr);
    forall m | m in pool && m != l ensures m.Repr == old(m.Repr) && m.Repr !! l.Repr {
      assert m.Repr !! added;
    }
  }

  /** The nodes that are left when the first one that holds `x`, at position `at`, is unlinked. */
  ghost predicate Unlinks<T>(chain: Chain<T>, x: T, at: nat, nodes: seq<Node<T>>) {
    && at < |chain.nodes| == |chain.items| && chain.items[at] == x && x !in chain.items[..at]
    && nodes == chain.nodes[..at] + chain.nodes[at + 1..]
  }

  /** rm_* on one of the lists. */
  method RemoveIn<T>(l: LinkedList<T>, x: T, ghost pool: map<LinkedList<T>, Chain<T>>, ghost foot: set<object>)
    returns (ok: bool, ghost at: nat, ghost nodes: seq<Node<T>>, ghost after: map<LinkedList<T>, Chain<T>>)
    requires Pool(pool, foot) && l in pool
    modifies foot
    ensures Pool(after, foot)
    ensures ok <==> x in pool[l].items
    ensures after == pool[l := Chain(Without(pool[l].items, x), nodes)]
    ensures if ok then Unlinks(pool[l], x, at, nodes) else nodes == pool[l].nodes
  {
    ok, at := l.Remove(x);
    nodes := l.spine;
    after := pool[l := Chain(l.contents, l.spine)];
  }

  /** remove_all_clients_from_device on one of the lists: each of its nodes is freed once. */
  method ClearIn<T>(l: LinkedList<T>, ghost pool: map<LinkedList<T>, Chain<T>>, ghost foot: set<object>)
    returns (ghost freed: seq<Node<T>>, ghost after: map<LinkedList<T>, Chain<T>>)
    requires Pool(pool, foot) && l in pool
    modifies foot
    ensures Pool(after, foot) && after == pool[l := Chain([], [])] && freed == pool[l].nodes
  {
    freed := l.Clear();
    after := pool[l := Chain([], [])];
  }

  /** The node at a position; null behind the last one. */
  ghost function NodeAt<T>(s: seq<Node<T>>, i: nat): Node?<T> {
    if i < |s| then s[i] else null
  }

  /** A chain in which the node before position `i` skips the one at `i`. */
  lemma Spliced<T>(s: seq<Node<T>>, c: seq<T>, i: nat, nodes: set<object>)
    requires forall j :: 0 <= j < |s| ==> s[j] in nodes
    requires |c| == |s| && 1 <= i < |s|
    requires forall j :: 0 <= j < |s| ==> s[j].data == c[j]
    requires forall j :: 0 <= j < |s| && j != i - 1 ==> s[j].next == NodeAt(s, j + 1)
    requires s[i - 1].next == NodeAt(s, i + 1)
    ensures var t: seq<Node<T>>, d := s[..i] + s[i + 1..], c[..i] + c[i + 1..];
      forall j :: 0 <= j < |t| ==> t[j] in nodes && t[j].data == d[j] && t[j].next == NodeAt(t, j + 1)
  {
    var t: seq<Node<T>>, d := s[..i] + s[i + 1..], c[..i] + c[i + 1..];
    forall j | 0 <= j < |t| ensures t[j] in nodes && t[j].data == d[j] && t[j].next == NodeAt(t, j + 1) {
      var k := if j < i then j else j + 1;
      assert t[j] == s[k] && d[j] == c[k];
      assert NodeAt(t, j + 1) == NodeAt(s, if j + 1 < i then j + 1 else j + 2);
    }
  }

  /** Two sequences with a common tail: keeping or dropping its first entry. */
  lemma TailStep<T>(s: seq<T>, k: nat, t: seq<T>, i: nat)
    requires k < |s| && i <= |t| && s[k..] == t[i..]
    ensures i < |t| && s[k] == t[i] && s[k + 1..] == t[i + 1..] && s[..k + 1] == s[..k] + [t[i]]
    ensures var d := s[..k] + s[k + 1..]; d[..k] == s[..k] && d[k..] == t[i + 1..]
  {
    assert |s[k..]| == |t[i..]| && s[k..][0] == t[i..][0];
    assert s[k..][1..] == s[k + 1..] && t[i..][1..] == t[i + 1..];
  }

  lemma NoDupSplice<T>(s: seq<T>, i: nat)
    requires NoDup(s) && i < |s|
    ensures NoDup(s[..i] + s[i + 1..])
  {
  }
}
