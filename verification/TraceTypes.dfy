/** The Trace implementations: which types may skip tracing, and what tracing a value marks. */
module TraceTypes {
  import opened Protocol
  import opened Invariant
  import opened HeapObjects

  /**
   * Types with a Trace implementation. Numbers, strings and the like are Plain, an empty type is Never,
   * and a Struct lists its fields. A pointer's target type shows only in the target's own `leaf`.
   */
  datatype Type =
    | Plain
    | Never
    | Pointer
    | DerefOf(inner: Type)
    | IterableOf(inner: Type)
    | MapOf(key: Type, value: Type)
    | ResultOf(ok: Type, err: Type)
    | OptionOf(inner: Type)
    | CellOf(inner: Type)
    | Struct(fields: seq<Type>)

  datatype Value =
    | Atom
    | Ptr(node: Node)
    | Boxed(content: Value)
    | Items(items: seq<Value>)
    | Entries(entries: seq<Entry>)
    | Ok(value: Value)
    | Err(error: Value)
    | Nothing
    | Just(some: Value)
    | InCell(stored: Value)
    | Record(parts: seq<Value>)

  datatype Entry = Entry(key: Value, value: Value)

  /** NO_TRACE. A cell and a struct keep the trait's default. */
  predicate NoTrace(t: Type) {
    match t
    case Plain | Never => true
    case Pointer | CellOf(_) | Struct(_) => false
    case DerefOf(inner) => NoTrace(inner)
    case IterableOf(inner) => NoTrace(inner)
    case OptionOf(inner) => NoTrace(inner)
    case MapOf(key, value) => NoTrace(key) && NoTrace(value)
    case ResultOf(ok, err) => NoTrace(ok) && NoTrace(err)
  }

  ghost predicate HasType(v: Value, t: Type) {
    match t
    case Plain => v.Atom?
    case Never => false
    case Pointer => v.Ptr?
    case DerefOf(inner) => v.Boxed? && HasType(v.content, inner)
    case IterableOf(inner) => v.Items? && forall i | 0 <= i < |v.items| :: HasType(v.items[i], inner)
    case MapOf(key, value) =>
      v.Entries? && forall i | 0 <= i < |v.entries| :: HasType(v.entries[i].key, key) && HasType(v.entries[i].value, value)
    case ResultOf(ok, err) => (v.Ok? && HasType(v.value, ok)) || (v.Err? && HasType(v.error, err))
    case OptionOf(inner) => v.Nothing? || (v.Just? && HasType(v.some, inner))
    case CellOf(inner) => v.InCell? && HasType(v.stored, inner)
    case Struct(fields) =>
      v.Record? && |v.parts| == |fields| && forall i | 0 <= i < |fields| :: HasType(v.parts[i], fields[i])
  }

  /** The pointers in a value, in order. */
  ghost function Occurring(v: Value): seq<Node> {
    match v
    case Atom | Nothing => []
    case Ptr(node) => [node]
    case Boxed(content) => Occurring(content)
    case Items(items) => OccurringIn(items)
    case Entries(entries) => OccurringInMap(entries)
    case Ok(value) => Occurring(value)
    case Err(error) => Occurring(error)
    case Just(some) => Occurring(some)
    case InCell(stored) => Occurring(stored)
    case Record(parts) => OccurringIn(parts)
  }

  ghost function OccurringIn(vs: seq<Value>): seq<Node> {
    if vs == [] then [] else Occurring(vs[0]) + OccurringIn(vs[1..])
  }

  ghost function OccurringInMap(es: seq<Entry>): seq<Node> {
    if es == [] then [] else OccurringInEntry(es[0]) + OccurringInMap(es[1..])
  }

  ghost function OccurringInEntry(e: Entry): seq<Node> {
    Occurring(e.key) + Occurring(e.value)
  }

  /** The nodes a value holds, part by part: a collection holds what an item at some index holds. */
  ghost function PointersOf(v: Value): set<Node> {
    match v
    case Atom | Nothing => {}
    case Ptr(node) => {node}
    case Boxed(content) => PointersOf(content)
    case Items(items) => PointersOfAll(items)
    case Entries(entries) => PointersOfEntries(entries)
    case Ok(value) => PointersOf(value)
    case Err(error) => PointersOf(error)
    case Just(some) => PointersOf(some)
    case InCell(stored) => PointersOf(stored)
    case Record(parts) => PointersOfAll(parts)
  }

  ghost function PointersOfAll(vs: seq<Value>): set<Node> {
    set i, n | 0 <= i < |vs| && n in PointersOf(vs[i]) :: n
  }

  ghost function PointersOfEntries(es: seq<Entry>): set<Node> {
    set i, n | 0 <= i < |es| && n in PointersOfEntry(es[i]) :: n
  }

  ghost function PointersOfEntry(e: Entry): set<Node> {
    PointersOf(e.key) + PointersOf(e.value)
  }

  ghost function Nodes(ps: seq<Node>): set<Node> {
    set n | n in ps
  }

  /** What occurs in a value is exactly what its parts hold. */
  lemma {:induction false} OccurringIsHeld(v: Value)
    ensures Nodes(Occurring(v)) == PointersOf(v)
    decreases v, 0
  {
    match v
    case Atom | Nothing | Ptr(_) =>
    case Boxed(content) => OccurringIsHeld(content);
    case Items(items) => OccurringInIsHeld(items);
    case Entries(entries) => OccurringInMapIsHeld(entries);
    case Ok(value) => OccurringIsHeld(value);
    case Err(error) => OccurringIsHeld(error);
    case Just(some) => OccurringIsHeld(some);
    case InCell(stored) => OccurringIsHeld(stored);
    case Record(parts) => OccurringInIsHeld(parts);
  }

  lemma {:induction false} OccurringInIsHeld(vs: seq<Value>)
    ensures Nodes(OccurringIn(vs)) == PointersOfAll(vs)
    decreases vs, 1
  {
    if vs != [] {
      var tail := vs[1..];
      OccurringIsHeld(vs[0]);
      OccurringInIsHeld(tail);
      assert Nodes(OccurringIn(vs)) == Nodes(Occurring(vs[0])) + Nodes(OccurringIn(tail));
      assert forall i | 0 <= i < |tail| :: tail[i] == vs[i + 1];
      forall n | n in Nodes(OccurringIn(tail)) ensures exists i | 0 <= i < |vs| :: n in PointersOf(vs[i]) {
        assert n in PointersOfAll(tail);
        var i :| 0 <= i < |tail| && n in PointersOf(tail[i]);
        assert n in PointersOf(vs[i + 1]);
      }
      forall i, n | 0 <= i < |vs| && n in PointersOf(vs[i]) ensures n in Nodes(OccurringIn(vs)) {
        if i > 0 {
          assert n in PointersOf(tail[i - 1]) && n in PointersOfAll(tail);
        } else {
          assert n in Nodes(Occurring(vs[0]));
        }
      }
    }
  }

  lemma {:induction false} OccurringInMapIsHeld(es: seq<Entry>)
    ensures Nodes(OccurringInMap(es)) == PointersOfEntries(es)
    decreases es, 1
  {
    if es != [] {
      var tail := es[1..];
      EntryIsHeld(es[0]);
      OccurringInMapIsHeld(tail);
      assert Nodes(OccurringInMap(es)) == Nodes(OccurringInEntry(es[0])) + Nodes(OccurringInMap(tail));
      assert forall i | 0 <= i < |tail| :: tail[i] == es[i + 1];
      forall n | n in Nodes(OccurringInMap(tail)) ensures exists i | 0 <= i < |es| :: n in PointersOfEntry(es[i]) {
        assert n in PointersOfEntries(tail);
        var i :| 0 <= i < |tail| && n in PointersOfEntry(tail[i]);
        assert n in PointersOfEntry(es[i + 1]);
      }
      forall i, n | 0 <= i < |es| && n in PointersOfEntry(es[i]) ensures n in Nodes(OccurringInMap(es)) {
        if i > 0 {
          assert n in PointersOfEntry(tail[i - 1]) && n in PointersOfEntries(tail);
        } else {
          assert n in Nodes(OccurringInEntry(es[0]));
        }
      }
    }
  }

  lemma {:induction false} EntryIsHeld(e: Entry)
    ensures Nodes(OccurringInEntry(e)) == PointersOfEntry(e)
    decreases e, 1
  {
    OccurringIsHeld(e.key);
    OccurringIsHeld(e.value);
    assert Nodes(OccurringInEntry(e)) == Nodes(Occurring(e.key)) + Nodes(Occurring(e.value));
  }

  /** The pointers of a collection are those of its items, one item after the other. */
  lemma ItemsInOrder(a: seq<Value>, b: seq<Value>, v: Value)
    ensures Occurring(Items(a + [v] + b)) == Occurring(Items(a)) + Occurring(v) + Occurring(Items(b))
  {
    OccurringConcat(a + [v], b);
    OccurringSnoc(a, v);
  }

  /** Of a map entry the key comes first. */
  lemma EntriesInOrder(k: Value, v: Value, es: seq<Entry>)
    ensures Occurring(Entries([Entry(k, v)] + es)) == Occurring(k) + Occurring(v) + Occurring(Entries(es))
  {
    var all := [Entry(k, v)] + es;
    assert all[0] == Entry(k, v) && all[1..] == es;
    assert OccurringInMap(all) == OccurringInEntry(all[0]) + OccurringInMap(es);
    hide Occurring, OccurringInMap;
    assert OccurringInEntry(all[0]) == Occurring(k) + Occurring(v);
  }

  lemma {:induction false} OccurringConcat(a: seq<Value>, b: seq<Value>)
    ensures OccurringIn(a + b) == OccurringIn(a) + OccurringIn(b)
  {
    if a == [] {
      assert a + b == b;
    } else {
      assert (a + b)[1..] == a[1..] + b;
      OccurringConcat(a[1..], b);
    }
  }

  // ----- Prefixes of a list of values -----

  lemma {:induction false} OccurringSnoc(vs: seq<Value>, v: Value)
    ensures OccurringIn(vs + [v]) == OccurringIn(vs) + Occurring(v)
  {
    if vs == [] {
      assert vs + [v] == [v] && [v][1..] == [];
    } else {
      assert (vs + [v])[1..] == vs[1..] + [v];
      OccurringSnoc(vs[1..], v);
    }
  }

  lemma {:induction false} PrefixOccurs(vs: seq<Value>, i: nat)
    requires i < |vs|
    ensures OccurringIn(vs[..i + 1]) == OccurringIn(vs[..i]) + Occurring(vs[i])
    ensures forall n | n in Occurring(vs[i]) :: n in OccurringIn(vs)
    ensures forall n | n in OccurringIn(vs[..i]) :: n in OccurringIn(vs)
  {
    assert vs[..i + 1] == vs[..i] + [vs[i]];
    OccurringSnoc(vs[..i], vs[i]);
    PrefixWithin(vs, i);
    PrefixWithin(vs, i + 1);
  }

  lemma {:induction false} PrefixWithin(vs: seq<Value>, i: nat)
    requires i <= |vs|
    ensures forall n | n in OccurringIn(vs[..i]) :: n in OccurringIn(vs)
  {
    if i > 0 {
      assert vs[..i][1..] == vs[1..][..i - 1];
      PrefixWithin(vs[1..], i - 1);
    }
  }

  // ----- Which types hold no pointers -----

  /** A type has a value at all. */
  ghost predicate Inhabited(t: Type) {
    match t
    case Plain | Pointer | IterableOf(_) | OptionOf(_) | MapOf(_, _) => true
    case Never => false
    case DerefOf(inner) => Inhabited(inner)
    case CellOf(inner) => Inhabited(inner)
    case ResultOf(ok, err) => Inhabited(ok) || Inhabited(err)
    case Struct(fields) => forall i | 0 <= i < |fields| :: Inhabited(fields[i])
  }

  /** Some value of the type holds a pointer, read off the type's structure. */
  ghost predicate CanHold(t: Type) {
    match t
    case Plain | Never => false
    case Pointer => true
    case DerefOf(inner) => CanHold(inner)
    case IterableOf(inner) => CanHold(inner)
    case OptionOf(inner) => CanHold(inner)
    case CellOf(inner) => CanHold(inner)
    case MapOf(key, value) => (CanHold(key) && Inhabited(value)) || (Inhabited(key) && CanHold(value))
    case ResultOf(ok, err) => CanHold(ok) || CanHold(err)
    case Struct(fields) =>
      (forall i | 0 <= i < |fields| :: Inhabited(fields[i])) && exists i | 0 <= i < |fields| :: CanHold(fields[i])
  }

  lemma {:induction false} ValuesInhabit(v: Value, t: Type)
    requires HasType(v, t)
    ensures Inhabited(t)
    decreases t
  {
    match t
    case Plain | Never | Pointer | IterableOf(_) | OptionOf(_) | MapOf(_, _) =>
    case DerefOf(inner) => ValuesInhabit(v.content, inner);
    case CellOf(inner) => ValuesInhabit(v.stored, inner);
    case ResultOf(ok, err) =>
      if v.Ok? { ValuesInhabit(v.value, ok); } else { ValuesInhabit(v.error, err); }
    case Struct(fields) =>
      forall i | 0 <= i < |fields| ensures Inhabited(fields[i]) {
        ValuesInhabit(v.parts[i], fields[i]);
      }
  }

  lemma {:induction false} NoPointersUnlessCanHold(t: Type, v: Value)
    requires HasType(v, t) && !CanHold(t)
    ensures Occurring(v) == []
    decreases t
  {
    match t
    case Plain | Never | Pointer =>
    case DerefOf(inner) => NoPointersUnlessCanHold(inner, v.content);
    case CellOf(inner) => NoPointersUnlessCanHold(inner, v.stored);
    case OptionOf(inner) => if v.Just? { NoPointersUnlessCanHold(inner, v.some); }
    case ResultOf(ok, err) =>
      if v.Ok? { NoPointersUnlessCanHold(ok, v.value); } else { NoPointersUnlessCanHold(err, v.error); }
    case IterableOf(inner) =>
      forall i | 0 <= i < |v.items| ensures Occurring(v.items[i]) == [] {
        NoPointersUnlessCanHold(inner, v.items[i]);
      }
      AllEmpty(v.items);
    case MapOf(key, value) =>
      forall i | 0 <= i < |v.entries| ensures Occurring(v.entries[i].key) == [] && Occurring(v.entries[i].value) == [] {
        ValuesInhabit(v.entries[i].key, key);
        ValuesInhabit(v.entries[i].value, value);
        NoPointersUnlessCanHold(key, v.entries[i].key);
        NoPointersUnlessCanHold(value, v.entries[i].value);
      }
      AllEntriesEmpty(v.entries);
    case Struct(fields) =>
      forall i | 0 <= i < |fields| ensures Occurring(v.parts[i]) == [] {
        ValuesInhabit(v, t);
        NoPointersUnlessCanHold(fields[i], v.parts[i]);
      }
      AllEmpty(v.parts);
  }

  lemma {:induction false} AllEmpty(vs: seq<Value>)
    requires forall i | 0 <= i < |vs| :: Occurring(vs[i]) == []
    ensures OccurringIn(vs) == []
  {
    if vs != [] {
      AllEmpty(vs[1..]);
    }
  }

  lemma {:induction false} AllEntriesEmpty(es: seq<Entry>)
    requires forall i | 0 <= i < |es| :: Occurring(es[i].key) == [] && Occurring(es[i].value) == []
    ensures OccurringInMap(es) == []
  {
    if es != [] {
      AllEntriesEmpty(es[1..]);
    }
  }

  /** Some value of the type. Where it needs a pointer, `n` is used. */
  ghost function Anything(t: Type, n: Node): (v: Value)
    requires Inhabited(t)
    ensures HasType(v, t)
  {
    match t
    case Plain => Atom
    case Pointer => Ptr(n)
    case DerefOf(inner) => Boxed(Anything(inner, n))
    case IterableOf(inner) => Items([])
    case OptionOf(inner) => Nothing
    case CellOf(inner) => InCell(Anything(inner, n))
    case MapOf(key, value) => Entries([])
    case ResultOf(ok, err) => if Inhabited(ok) then Ok(Anything(ok, n)) else Err(Anything(err, n))
    case Struct(fields) => Record(AnyParts(fields, n))
  }

  ghost function AnyParts(fields: seq<Type>, n: Node): (vs: seq<Value>)
    requires forall i | 0 <= i < |fields| :: Inhabited(fields[i])
    ensures |vs| == |fields| && forall i | 0 <= i < |fields| :: HasType(vs[i], fields[i])
  {
    if fields == [] then [] else [Anything(fields[0], n)] + AnyParts(fields[1..], n)
  }

  /** A value of the type that holds `n`. */
  lemma {:induction false} Holding(t: Type, n: Node) returns (v: Value)
    requires CanHold(t)
    ensures HasType(v, t) && n in Occurring(v)
    decreases t
  {
    match t
    case Pointer => v := Ptr(n);
    case DerefOf(inner) =>
      var content := Holding(inner, n);
      v := Boxed(content);
    case IterableOf(inner) =>
      var item := Holding(inner, n);
      PrefixOccurs([item], 0);
      v := Items([item]);
    case OptionOf(inner) =>
      var some := Holding(inner, n);
      v := Just(some);
    case CellOf(inner) =>
      var stored := Holding(inner, n);
      v := InCell(stored);
    case MapOf(key, value) =>
      var entry;
      if CanHold(key) && Inhabited(value) {
        var k := Holding(key, n);
        entry := Entry(k, Anything(value, n));
      } else {
        var x := Holding(value, n);
        entry := Entry(Anything(key, n), x);
      }
      assert OccurringInMap([entry]) == OccurringInEntry(entry) + OccurringInMap([entry][1..]);
      v := Entries([entry]);
    case ResultOf(ok, err) =>
      if CanHold(ok) {
        var value := Holding(ok, n);
        v := Ok(value);
      } else {
        var error := Holding(err, n);
        v := Err(error);
      }
    case Struct(fields) =>
      var i :| 0 <= i < |fields| && CanHold(fields[i]);
      var part := Holding(fields[i], n);
      var parts := AnyParts(fields, n)[i := part];
      PrefixOccurs(parts, i);
      v := Record(parts);
  }

  /** `CanHold` says of every type, cells, structs and empty types included, whether a value of it can hold a pointer. */
  lemma CanHoldIff(t: Type, n: Node)
    ensures CanHold(t) <==> exists v :: HasType(v, t) && Occurring(v) != []
  {
    if CanHold(t) {
      var v := Holding(t, n);
      assert Occurring(v) != [];
    } else {
      forall v | HasType(v, t) ensures Occurring(v) == [] {
        NoPointersUnlessCanHold(t, v);
      }
    }
  }

  lemma {:induction false} NoTraceCannotHold(t: Type)
    requires NoTrace(t)
    ensures !CanHold(t)
    decreases t
  {
    match t
    case Plain | Never | Pointer | CellOf(_) | Struct(_) =>
    case DerefOf(inner) => NoTraceCannotHold(inner);
    case IterableOf(inner) => NoTraceCannotHold(inner);
    case OptionOf(inner) => NoTraceCannotHold(inner);
    case MapOf(key, value) =>
      NoTraceCannotHold(key);
      NoTraceCannotHold(value);
    case ResultOf(ok, err) =>
      NoTraceCannotHold(ok);
      NoTraceCannotHold(err);
  }

  /** A type with NO_TRACE has no value that holds a pointer. */
  lemma NoTraceMeansNoPointers(t: Type, v: Value)
    requires NoTrace(t) && HasType(v, t)
    ensures Occurring(v) == []
  {
    NoTraceCannotHold(t);
    NoPointersUnlessCanHold(t, v);
  }

  /** Where the constructor around a type loses the shortcut: a cell, a struct, or next to an empty type. */
  ghost predicate LosesShortcut(t: Type) {
    match t
    case Plain | Never | Pointer => false
    case CellOf(inner) => !CanHold(inner)
    case Struct(fields) => !CanHold(t)
    case DerefOf(inner) => LosesShortcut(inner)
    case IterableOf(inner) => LosesShortcut(inner)
    case OptionOf(inner) => LosesShortcut(inner)
    case ResultOf(ok, err) => !CanHold(t) && (LosesShortcut(ok) || LosesShortcut(err))
    case MapOf(key, value) =>
      !CanHold(t) && (LosesShortcut(key) || LosesShortcut(value) || CanHold(key) || CanHold(value))
  }

  lemma {:induction false} LosesShortcutIff(t: Type)
    ensures LosesShortcut(t) <==> !NoTrace(t) && !CanHold(t)
    decreases t
  {
    match t
    case Plain | Never | Pointer | CellOf(_) | Struct(_) =>
    case DerefOf(inner) => LosesShortcutIff(inner);
    case IterableOf(inner) => LosesShortcutIff(inner);
    case OptionOf(inner) => LosesShortcutIff(inner);
    case ResultOf(ok, err) =>
      LosesShortcutIff(ok);
      LosesShortcutIff(err);
      if NoTrace(t) { NoTraceCannotHold(t); }
    case MapOf(key, value) =>
      LosesShortcutIff(key);
      LosesShortcutIff(value);
      if NoTrace(key) { NoTraceCannotHold(key); }
      if NoTrace(value) { NoTraceCannotHold(value); }
  }

  /**
   * For every type: NO_TRACE holds just when no value holds a pointer, unless the type loses the shortcut, which is
   * then traced for nothing.
   */
  lemma NoTraceIff(t: Type, n: Node)
    ensures NoTrace(t) <==> !LosesShortcut(t) && forall v | HasType(v, t) :: Occurring(v) == []
  {
    LosesShortcutIff(t);
    CanHoldIff(t, n);
    if NoTrace(t) {
      NoTraceCannotHold(t);
    }
  }

  /** A cell misses the shortcut exactly when what it stores cannot hold a pointer, a cell of a plain type for one. */
  lemma CellsMissTheShortcut(inner: Type, n: Node)
    ensures !NoTrace(CellOf(inner))
    ensures (forall v | HasType(v, CellOf(inner)) :: Occurring(v) == []) <==> !CanHold(inner)
    ensures !CanHold(Plain)
  {
    CanHoldIff(CellOf(inner), n);
  }

  // ----- What tracing marks -----

  ghost function Marked(leaf: bool, before: Color): Color {
    if leaf then Black else if before == White then Gray else before
  }

  /** The nodes of `ps` that a mark would enqueue. */
  ghost function WhiteOf(ps: seq<Node>): set<Node>
    reads Nodes(ps)`color, Nodes(ps)`leaf
  {
    set n | n in ps && !n.leaf && n.color == White
  }

  /** The white nodes of `ps`, each once, at its first occurrence. */
  ghost function FirstOf(ps: seq<Node>, white: set<Node>): (r: seq<Node>)
    ensures forall n | n in r :: n in white
    ensures forall n | n in ps && n in white :: n in r
  {
    if ps == [] then []
    else if ps[0] in white then [ps[0]] + FirstOf(ps[1..], white - {ps[0]})
    else FirstOf(ps[1..], white)
  }

  lemma {:induction false} FirstOfConcat(a: seq<Node>, b: seq<Node>, white: set<Node>)
    ensures FirstOf(a + b, white) == FirstOf(a, white) + FirstOf(b, white - Nodes(a))
  {
    if a == [] {
      assert a + b == b && white - Nodes(a) == white;
    } else {
      assert (a + b)[1..] == a[1..] + b;
      if a[0] in white {
        FirstOfConcat(a[1..], b, white - {a[0]});
        assert white - {a[0]} - Nodes(a[1..]) == white - Nodes(a);
      } else {
        FirstOfConcat(a[1..], b, white);
        assert white - Nodes(a[1..]) == white - Nodes(a);
      }
    }
  }

  lemma {:induction false} FirstOfLocal(ps: seq<Node>, white: set<Node>, white': set<Node>)
    requires forall n | n in ps :: n in white <==> n in white'
    ensures FirstOf(ps, white) == FirstOf(ps, white')
  {
    if ps != [] {
      if ps[0] in white {
        FirstOfLocal(ps[1..], white - {ps[0]}, white' - {ps[0]});
      } else {
        FirstOfLocal(ps[1..], white, white');
      }
    }
  }

  lemma {:induction false} OccurringMapSnoc(es: seq<Entry>, e: Entry)
    ensures OccurringInMap(es + [e]) == OccurringInMap(es) + OccurringInEntry(e)
  {
    if es == [] {
      assert es + [e] == [e] && [e][1..] == [];
    } else {
      assert (es + [e])[1..] == es[1..] + [e];
      OccurringMapSnoc(es[1..], e);
    }
  }

  lemma {:induction false} PrefixOccursInMap(es: seq<Entry>, i: nat)
    requires i < |es|
    ensures OccurringInMap(es[..i + 1]) == OccurringInMap(es[..i]) + OccurringInEntry(es[i])
    ensures forall n | n in OccurringInEntry(es[i]) :: n in OccurringInMap(es)
    ensures forall n | n in OccurringInMap(es[..i]) :: n in OccurringInMap(es)
  {
    assert es[..i + 1] == es[..i] + [es[i]];
    OccurringMapSnoc(es[..i], es[i]);
    PrefixWithinMap(es, i);
    PrefixWithinMap(es, i + 1);
  }

  lemma {:induction false} PrefixWithinMap(es: seq<Entry>, i: nat)
    requires i <= |es|
    ensures forall n | n in OccurringInMap(es[..i]) :: n in OccurringInMap(es)
  {
    if i > 0 {
      assert es[..i][1..] == es[1..][..i - 1];
      PrefixWithinMap(es[1..], i - 1);
    }
  }

  lemma {:induction false} FirstOfDistinct(ps: seq<Node>, white: set<Node>)
    ensures NoDuplicates(FirstOf(ps, white))
  {
    if ps != [] {
      if ps[0] in white {
        FirstOfDistinct(ps[1..], white - {ps[0]});
        assert ps[0] !in FirstOf(ps[1..], white - {ps[0]});
      } else {
        FirstOfDistinct(ps[1..], white);
      }
    }
  }

  /** What marking `a` first and `b` then enqueues, by the colours before either. */
  lemma MarkedInTurn(a: seq<Node>, b: seq<Node>, whiteAll: set<Node>, whiteA: set<Node>, whiteB: set<Node>)
    requires forall n | n in a :: n in whiteAll <==> n in whiteA
    requires forall n | n in b :: n in whiteB <==> n in whiteAll && n !in a
    ensures FirstOf(a + b, whiteAll) == FirstOf(a, whiteA) + FirstOf(b, whiteB)
  {
    FirstOfConcat(a, b, whiteAll);
    FirstOfLocal(a, whiteAll, whiteA);
    FirstOfLocal(b, whiteB, whiteAll - Nodes(a));
  }

  /**
   * Tracing a value marks exactly the pointers its parts hold: each once-white node that is no leaf turns gray and is
   * enqueued once, in order of first occurrence, leaves turn black, and no other node changes.
   */
  method TraceValue(v: Value, tracer: Tracer)
    requires forall n | n in Occurring(v) :: n.alive
    modifies tracer, Nodes(Occurring(v))`color
    ensures forall n | n in Occurring(v) :: n.color == Marked(n.leaf, old(n.color))
    ensures tracer.items == old(tracer.items) + FirstOf(Occurring(v), old(WhiteOf(Occurring(v))))
    ensures Nodes(Occurring(v)) == PointersOf(v)
    ensures forall n | n in PointersOf(v) :: n.color == if n.leaf then Black else if old(n.color) == White then Gray else old(n.color)
    ensures forall n | n in PointersOf(v) && !n.leaf && old(n.color) == White :: n in tracer.items[|old(tracer.items)|..]
    ensures forall n | n in tracer.items[|old(tracer.items)|..] :: n in PointersOf(v) && !n.leaf && old(n.color) == White
    ensures tracer.items[..|old(tracer.items)|] == old(tracer.items) && NoDuplicates(tracer.items[|old(tracer.items)|..])
    decreases v, 0
  {
    hide OccurringIn, OccurringInMap, FirstOf, PointersOf, NoDuplicates;
    OccurringIsHeld(v);
    FirstOfDistinct(Occurring(v), WhiteOf(Occurring(v)));
    Appended(tracer.items, FirstOf(Occurring(v), WhiteOf(Occurring(v))));
    match v
    case Atom => NothingFirst();
    case Nothing => NothingFirst();
    case Ptr(node) =>
      OneFirst(node, WhiteOf([node]));
      tracer.Mark(node);
    case Boxed(content) => TraceValue(content, tracer);
    case Items(items) => TraceItems(items, tracer);
    case Entries(entries) => TraceEntries(entries, tracer);
    case Ok(value) => TraceValue(value, tracer);
    case Err(error) => TraceValue(error, tracer);
    case Just(some) => TraceValue(some, tracer);
    case InCell(stored) => TraceValue(stored, tracer);
    case Record(parts) => TraceItems(parts, tracer);
  }

  lemma NothingFirst()
    ensures forall white :: FirstOf([], white) == []
  {
  }

  lemma Appended(a: seq<Node>, b: seq<Node>)
    ensures (a + b)[..|a|] == a && (a + b)[|a|..] == b
  {
  }

  lemma OneFirst(n: Node, white: set<Node>)
    ensures FirstOf([n], white) == if n in white then [n] else []
  {
    assert [n][1..] == [];
  }

  method TraceItems(vs: seq<Value>, tracer: Tracer)
    requires forall n | n in OccurringIn(vs) :: n.alive
    modifies tracer, Nodes(OccurringIn(vs))`color
    ensures forall n | n in OccurringIn(vs) :: n.color == Marked(n.leaf, old(n.color))
    ensures tracer.items == old(tracer.items) + FirstOf(OccurringIn(vs), old(WhiteOf(OccurringIn(vs))))
    decreases vs, 1
  {
    hide Occurring, OccurringIn, FirstOf;
    ghost var white := WhiteOf(OccurringIn(vs));
    NoneYet();
    var i := 0;
    while i < |vs|
      invariant i <= |vs|
      invariant forall n | n in OccurringIn(vs) ::
        n.alive && n.color == if n in OccurringIn(vs[..i]) then Marked(n.leaf, old(n.color)) else old(n.color)
      invariant tracer.items == old(tracer.items) + FirstOf(OccurringIn(vs[..i]), white)
    {
      PrefixOccurs(vs, i);
      MarkedInTurn(OccurringIn(vs[..i]), Occurring(vs[i]), white, white, WhiteOf(Occurring(vs[i])));
      TraceValue(vs[i], tracer);
      i := i + 1;
    }
    assert vs[..i] == vs;
  }

  lemma NoneYet()
    ensures OccurringIn([]) == [] && OccurringInMap([]) == [] && forall white :: FirstOf([], white) == []
  {
  }

  method TraceEntries(es: seq<Entry>, tracer: Tracer)
    requires forall n | n in OccurringInMap(es) :: n.alive
    modifies tracer, Nodes(OccurringInMap(es))`color
    ensures forall n | n in OccurringInMap(es) :: n.color == Marked(n.leaf, old(n.color))
    ensures tracer.items == old(tracer.items) + FirstOf(OccurringInMap(es), old(WhiteOf(OccurringInMap(es))))
    decreases es, 1
  {
    hide OccurringInEntry, OccurringInMap, FirstOf;
    ghost var white := WhiteOf(OccurringInMap(es));
    NoneYet();
    var i := 0;
    while i < |es|
      invariant i <= |es|
      invariant forall n | n in OccurringInMap(es) ::
        n.alive && n.color == if n in OccurringInMap(es[..i]) then Marked(n.leaf, old(n.color)) else old(n.color)
      invariant tracer.items == old(tracer.items) + FirstOf(OccurringInMap(es[..i]), white)
    {
      PrefixOccursInMap(es, i);
      MarkedInTurn(OccurringInMap(es[..i]), OccurringInEntry(es[i]), white, white, WhiteOf(OccurringInEntry(es[i])));
      TraceEntry(es[i], tracer);
      i := i + 1;
    }
    assert es[..i] == es;
  }

  method TraceEntry(e: Entry, tracer: Tracer)
    requires forall n | n in OccurringInEntry(e) :: n.alive
    modifies tracer, Nodes(OccurringInEntry(e))`color
    ensures forall n | n in OccurringInEntry(e) :: n.color == Marked(n.leaf, old(n.color))
    ensures tracer.items == old(tracer.items) + FirstOf(OccurringInEntry(e), old(WhiteOf(OccurringInEntry(e))))
    decreases e, 1
  {
    hide Occurring, FirstOf;
    ghost var key, value := Occurring(e.key), Occurring(e.value);
    ghost var whiteBoth, whiteKey := WhiteOf(key + value), WhiteOf(key);
    assert forall n | n in key :: n in whiteBoth <==> n in whiteKey;
    assert OccurringInEntry(e) == key + value;
    assert forall n | n in value :: n in key + value && n.alive;
    TraceValue(e.key, tracer);
    forall n | n in value ensures n in WhiteOf(value) <==> n in whiteBoth && n !in key {
      assert n in key + value;
    }
    MarkedInTurn(key, value, whiteBoth, whiteKey, WhiteOf(value));
    TraceValue(e.value, tracer);
  }

  /**
   * The vtable has no trace function for a NO_TRACE type and the type's own for any other; either way the
   * pointers of the payload are marked.
   */
  method VtableTrace(v: Value, t: Type, tracer: Tracer)
    requires HasType(v, t) && forall n | n in Occurring(v) :: n.alive
    modifies tracer, Nodes(Occurring(v))`color
    ensures forall n | n in Occurring(v) :: n.color == Marked(n.leaf, old(n.color))
    ensures tracer.items == old(tracer.items) + FirstOf(Occurring(v), old(WhiteOf(Occurring(v))))
    ensures Nodes(Occurring(v)) == PointersOf(v)
    ensures forall n | n in PointersOf(v) :: n.color == if n.leaf then Black else if old(n.color) == White then Gray else old(n.color)
    ensures forall n | n in PointersOf(v) && !n.leaf && old(n.color) == White :: n in tracer.items[|old(tracer.items)|..]
    ensures forall n | n in tracer.items[|old(tracer.items)|..] :: n in PointersOf(v) && !n.leaf && old(n.color) == White
    ensures tracer.items[..|old(tracer.items)|] == old(tracer.items) && NoDuplicates(tracer.items[|old(tracer.items)|..])
  {
    hide FirstOf, PointersOf, Occurring;
    if NoTrace(t) {
      NoTraceMeansNoPointers(t, v);
      OccurringIsHeld(v);
      NothingFirst();
      FirstOfDistinct(Occurring(v), WhiteOf(Occurring(v)));
      Appended(tracer.items, []);
    } else {
      TraceValue(v, tracer);
    }
  }
}
