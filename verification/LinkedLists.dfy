/** Linked lists kept in an arena that only grows: a pointer is an index. */
module LinkedLists {
  const NULL: int := -1

  datatype Node<T> = Node(next: int, load: T)

  /** Following the links from "head" visits exactly "items". */
  ghost predicate Chained<T>(arena: seq<Node<T>>, head: int, items: seq<nat>)
    decreases |items|
  {
    if items == [] then head == NULL
    else head == items[0] < |arena| && Chained(arena, arena[head].next, items[1..])
  }

  /** Nodes outside a list do not matter to it. */
  lemma {:induction false} ChainedFrame<T>(arena: seq<Node<T>>, arena': seq<Node<T>>, head: int, items: seq<nat>)
    requires Chained(arena, head, items) && |arena| <= |arena'|
    requires forall e :: e in items && e < |arena| ==> arena'[e].next == arena[e].next
    ensures Chained(arena', head, items)
    decreases |items|
  {
    if items != [] {
      ChainedFrame(arena, arena', arena[head].next, items[1..]);
    }
  }

  ghost predicate NoDup<T>(s: seq<T>) {
    forall i, j :: 0 <= i < j < |s| ==> s[i] != s[j]
  }

  /** All numbers below "n", the newest last. */
  function Upto(n: nat): (s: seq<nat>)
    ensures |s| == n
  {
    if n == 0 then [] else Upto(n - 1) + [n - 1]
  }

  lemma {:induction false} UptoOnce(n: nat, x: nat)
    ensures multiset(Upto(n))[x] == if x < n then 1 else 0
  {
    if n > 0 {
      UptoOnce(n - 1, x);
    }
  }

  lemma TwiceIn<T>(t: seq<T>, i: nat, j: nat)
    requires i < j < |t|
    ensures t[i] == t[j] ==> multiset(t)[t[i]] >= 2
  {
    assert t == t[..j] + [t[j]] + t[j + 1..];
    assert t[i] == t[..j][i] && t[i] in multiset(t[..j]);
  }
}
