/** Object headers, the shared gray queue and the tracers, as the objects that are updated in place. */
module HeapObjects {
  import opened Protocol

  /**
   * GcHeader together with the pointers its payload holds; `size` and `leaf` come from its vtable. `alive` turns
   * false when the object is freed: the memory then holds anything, and every access requires it to be alive.
   */
  class Node {
    var size: nat
    var leaf: bool
    var color: Color
    var rootCount: int
    var next: Node?
    var fields: seq<Option<Node>>
    ghost var alive: bool

    constructor (size: nat, leaf: bool, fields: seq<Option<Node>>)
      ensures this.size == size && this.leaf == leaf && this.fields == fields
      ensures color == White && rootCount == 1 && next == null && alive
    {
      this.size, this.leaf, this.fields := size, leaf, fields;
      color, rootCount, next, alive := White, 1, null, true;
    }

    function Next(): Node?
      requires alive
      reads this
    {
      next
    }

    function Size(): nat
      requires alive
      reads this
    {
      size
    }

    predicate IsLeaf()
      requires alive
      reads this
    {
      leaf
    }

    function Fields(): seq<Option<Node>>
      requires alive
      reads this
    {
      fields
    }

    method SetNext(n: Node?)
      requires alive
      modifies this`next
      ensures next == n
    {
      next := n;
    }

    method SetFields(fs: seq<Option<Node>>)
      requires alive
      modifies this`fields
      ensures fields == fs
    {
      fields := fs;
    }

    method IncRoot()
      requires alive
      modifies this`rootCount
      ensures rootCount == old(rootCount) + 1
    {
      rootCount := rootCount + 1;
    }

    method DecRoot()
      requires alive
      modifies this`rootCount
      ensures rootCount == old(rootCount) - 1
    {
      rootCount := rootCount - 1;
    }

    predicate IsRoot()
      requires alive
      reads this
    {
      rootCount > 0
    }

    /** The test of the sweep: neither marked nor rooted. */
    predicate IsWhite()
      requires alive
      reads this
    {
      color == White && !IsRoot()
    }

    /** The compare-exchange that is the only gate to the work lists. */
    method MarkWhiteToGray() returns (won: bool)
      requires alive
      modifies this`color
      ensures won <==> old(color) == White
      ensures color == if won then Gray else old(color)
    {
      won := color == White;
      if won {
        color := Gray;
      }
    }

    method MarkBlack()
      requires alive
      modifies this`color
      ensures color == Black
    {
      color := Black;
    }

    method ResetWhite()
      requires alive
      modifies this`color
      ensures color == White
    {
      color := White;
    }

    /** Box::from_raw: the object is gone, and nothing is known of what its memory holds. */
    method Free()
      requires alive
      modifies this
      ensures !alive
    {
      color, rootCount, next, fields, size, leaf := *, *, *, *, *, *;
      alive := false;
    }
  }

  class GrayQueue {
    var items: seq<Node>

    constructor ()
      ensures items == []
    {
      items := [];
    }
  }

  lemma ReverseStep(all: seq<Node>, n: nat)
    requires 0 < n <= |all|
    ensures Reverse(all[n - 1..]) == Reverse(all[n..]) + [all[n - 1]]
  {
    assert all[n - 1..][1..] == all[n..];
  }

  lemma NothingMoved(all: seq<Node>, mine: seq<Node>)
    ensures all == all[..|all|] && mine == mine + Reverse(all[|all|..])
  {
    assert all[|all|..] == [];
  }

  class Tracer {
    var items: seq<Node>

    constructor ()
      ensures items == []
    {
      items := [];
    }

    method AppendTo(dest: GrayQueue)
      modifies this, dest
      ensures dest.items == old(dest.items) + old(items) && items == []
    {
      dest.items := dest.items + items;
      items := [];
    }

    /** Moves up to `numItems` items, the last of `src` first. */
    method StealFrom(numItems: nat, src: GrayQueue) returns (stolen: bool)
      modifies this, src
      ensures stolen <==> old(src.items) != [] && numItems != 0
      ensures var moved := if |old(src.items)| < numItems then |old(src.items)| else numItems;
        && src.items == old(src.items)[..|old(src.items)| - moved]
        && items == old(items) + Reverse(old(src.items)[|old(src.items)| - moved..])
    {
      hide Reverse;
      ghost var all, mine, moved := src.items, items, 0;
      if |src.items| == 0 || numItems == 0 {
        NothingMoved(all, mine);
        return false;
      }
      var left := numItems;
      NothingMoved(all, mine);
      while left > 0
        invariant 0 <= left && moved + left == numItems && moved <= |all|
        invariant src.items == all[..|all| - moved]
        invariant items == mine + Reverse(all[|all| - moved..])
        decreases left
      {
        var n := |src.items|;
        if n > 0 {
          var item := src.items[n - 1];
          ReverseStep(all, n);
          src.items := src.items[..n - 1];
          items := items + [item];
          left, moved := left - 1, moved + 1;
        } else {
          break;
        }
      }
      assert moved == if |all| < numItems then |all| else numItems;
      return true;
    }

    method PopWork() returns (item: Option<Node>)
      modifies this
      ensures old(items) == [] ==> item == None && items == []
      ensures old(items) != [] ==>
        item == Some(old(items)[|old(items)| - 1]) && items == old(items)[..|old(items)| - 1]
    {
      var n := |items|;
      if n == 0 {
        item := None;
      } else {
        item := Some(items[n - 1]);
        items := items[..n - 1];
      }
    }

    method HasWork() returns (some: bool)
      ensures some <==> items != []
    {
      some := |items| > 0;
    }

    method MarkHeader(n: Node)
      requires n.alive
      modifies this, n`color
      ensures n.color == if old(n.color) == White then Gray else old(n.color)
      ensures items == old(items) + if old(n.color) == White then [n] else []
    {
      var won := n.MarkWhiteToGray();
      if won {
        items := items + [n];
      }
    }

    method Mark(n: Node)
      requires n.alive
      modifies this, n`color
      ensures n.color == if n.leaf then Black else if old(n.color) == White then Gray else old(n.color)
      ensures items == old(items) + if !n.leaf && old(n.color) == White then [n] else []
    {
      if n.IsLeaf() {
        n.MarkBlack();
      } else {
        MarkHeader(n);
      }
    }
  }

  // ----- What the objects show of an abstract heap -----

  ghost predicate Shows(n: Node, obj: Object<Node>)
    reads n`alive, n`color, n`rootCount, n`fields, n`size, n`leaf
  {
    && n.alive && n.color == obj.color && n.rootCount == obj.roots
    && n.leaf == obj.leaf && n.size == obj.size && n.fields == obj.fields
  }

  ghost predicate Shown(heap: map<Node, Object<Node>>)
    reads heap.Keys`alive, heap.Keys`color, heap.Keys`rootCount, heap.Keys`fields, heap.Keys`size, heap.Keys`leaf
  {
    forall n | n in heap :: Shows(n, heap[n])
  }

  ghost predicate ShownBut(heap: map<Node, Object<Node>>, except: Node)
    reads (heap.Keys - {except})`alive, (heap.Keys - {except})`color
    reads (heap.Keys - {except})`rootCount, (heap.Keys - {except})`fields
    reads (heap.Keys - {except})`size, (heap.Keys - {except})`leaf
  {
    forall n | n in heap.Keys - {except} :: Shows(n, heap[n])
  }

  ghost predicate ShowsAll(nodes: seq<Node>, heap: map<Node, Object<Node>>)
    reads (set n: Node | n in nodes)`alive, (set n: Node | n in nodes)`color
    reads (set n: Node | n in nodes)`rootCount, (set n: Node | n in nodes)`fields
    reads (set n: Node | n in nodes)`size, (set n: Node | n in nodes)`leaf
  {
    forall n | n in nodes :: n in heap && Shows(n, heap[n])
  }

  ghost predicate AllFreed(nodes: seq<Node>)
    reads (set n: Node | n in nodes)`alive
  {
    forall n | n in nodes :: !n.alive
  }

  ghost function Whitened(heap: map<Node, Object<Node>>): map<Node, Object<Node>> {
    map n | n in heap :: heap[n].(color := White)
  }

  ghost function After(list: seq<Node>, i: nat, tail: Node?): Node? {
    if i + 1 < |list| then list[i + 1] else tail
  }

  /** Following `next` from `head` visits exactly `list` and then comes to `tail`. */
  ghost predicate Linked(head: Node?, list: seq<Node>, tail: Node?)
    reads (set n: Node | n in list)`next
  {
    && head == (if list == [] then tail else list[0])
    && forall i | 0 <= i < |list| :: list[i].next == After(list, i, tail)
  }

  /** The intrusive list is exactly `list`, and ends. */
  ghost predicate Chain(head: Node?, list: seq<Node>)
    reads (set n: Node | n in list)`next
  {
    Linked(head, list, null)
  }

  /** The concrete heap, read as a state of the step system. */
  ghost predicate Represents(head: Node?, gray: GrayQueue, phase: Phase, bytes: int, busy: int, st: State<Node>)
    reads gray, st.heap.Keys, st.list
  {
    && Chain(head, st.list) && Shown(st.heap)
    && gray.items == st.shared && phase == st.phase && bytes == st.bytes && busy == st.busy
  }

  /** `tracer` is the local work list of thread `t`. */
  ghost predicate Works(tracer: Tracer, st: State<Node>, t: nat)
    reads tracer
  {
    t < |st.threads| && st.threads[t].local == tracer.items
  }
}
