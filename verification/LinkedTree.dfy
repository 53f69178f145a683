/** Reparenting a node of a linked collection, and the searches it rests on. */
module LinkedTree {
  import opened Wrappers

  /** An object's identity, as against its id, which files may repeat. */
  type Ref = nat

  datatype Info = Info(ref: Ref, id: string, folder: bool)

  /** A child list: the first node with its own child list, then the rest. */
  datatype Forest = Empty | Cons(info: Info, children: Forest, rest: Forest)

  datatype Tree = Tree(info: Info, children: Forest)

  // ---- Searches ----

  /** Every node before its children, siblings in order. */
  function EnumerateNodes(f: Forest): seq<Info> {
    match f
    case Empty => []
    case Cons(info, children, rest) => [info] + EnumerateNodes(children) + EnumerateNodes(rest)
  }

  function FindNode(f: Forest, id: string): Option<Tree> {
    match f
    case Empty => None
    case Cons(info, children, rest) =>
      if info.id == id then Some(Tree(info, children))
      else
        var found := FindNode(children, id);
        if found.Some? then found else FindNode(rest, id)
  }

  /** Position i holds the first node of the list with the property. */
  predicate FirstWithId(list: seq<Info>, i: nat, id: string) {
    i < |list| && list[i].id == id && forall k :: 0 <= k < i ==> list[k].id != id
  }

  lemma {:induction false} FindNodeIsFirst(f: Forest, id: string)
    ensures FindNode(f, id).None? ==> forall i :: 0 <= i < |EnumerateNodes(f)| ==> EnumerateNodes(f)[i].id != id
    ensures FindNode(f, id).Some? ==>
      exists i: nat :: FirstWithId(EnumerateNodes(f), i, id) && EnumerateNodes(f)[i] == FindNode(f, id).value.info
  {
    match f
    case Empty =>
    case Cons(info, children, rest) =>
      var all, a, b := EnumerateNodes(f), EnumerateNodes(children), EnumerateNodes(rest);
      assert all == [info] + a + b;
      if info.id == id {
        assert FirstWithId(all, 0, id) && all[0] == info;
      } else {
        FindNodeIsFirst(children, id);
        FindNodeIsFirst(rest, id);
        if FindNode(children, id).Some? {
          var i: nat :| FirstWithId(a, i, id) && a[i] == FindNode(children, id).value.info;
          FirstInFront([info], a, b, i, id);
        } else if FindNode(rest, id).Some? {
          var i: nat :| FirstWithId(b, i, id) && b[i] == FindNode(rest, id).value.info;
          FirstBehind([info] + a, b, i, id);
        }
      }
  }

  lemma FirstInFront(x: seq<Info>, a: seq<Info>, b: seq<Info>, i: nat, id: string)
    requires FirstWithId(a, i, id) && forall k :: 0 <= k < |x| ==> x[k].id != id
    ensures FirstWithId(x + a + b, |x| + i, id) && (x + a + b)[|x| + i] == a[i]
  {
  }

  lemma FirstBehind(x: seq<Info>, b: seq<Info>, i: nat, id: string)
    requires FirstWithId(b, i, id) && forall k :: 0 <= k < |x| ==> x[k].id != id
    ensures FirstWithId(x + b, |x| + i, id) && (x + b)[|x| + i] == b[i]
  {
  }

  /** Position i holds the first folder of the list with the id. */
  predicate FolderAt(list: seq<Info>, i: nat, ref: Ref, id: string) {
    i < |list| && list[i] == Info(ref, id, true) && forall k :: 0 <= k < i ==> !(list[k].folder && list[k].id == id)
  }

  ghost predicate FirstFolder(f: Forest, ref: Ref, id: string) {
    exists i: nat :: FolderAt(EnumerateNodes(f), i, ref, id)
  }

  /** The first folder of the enumeration with the id. */
  method FindFolderNode(f: Forest, id: string) returns (found: Option<Ref>)
    ensures found.None? ==> forall i :: 0 <= i < |EnumerateNodes(f)| ==>
      !(EnumerateNodes(f)[i].folder && EnumerateNodes(f)[i].id == id)
    ensures found.Some? ==> FirstFolder(f, found.value, id)
  {
    var nodes := EnumerateNodes(f);
    for k := 0 to |nodes|
      invariant forall i :: 0 <= i < k ==> !(nodes[i].folder && nodes[i].id == id)
    {
      if nodes[k].folder && nodes[k].id == id {
        assert FolderAt(nodes, k, nodes[k].ref, id);
        return Some(nodes[k].ref);
      }
    }
    return None;
  }

  // ---- Object identity ----

  function Refs(f: Forest): set<Ref> {
    match f
    case Empty => {}
    case Cons(info, children, rest) => {info.ref} + Refs(children) + Refs(rest)
  }

  /** No object occurs twice. */
  predicate Unique(f: Forest) {
    match f
    case Empty => true
    case Cons(info, children, rest) =>
      && info.ref !in Refs(children) && info.ref !in Refs(rest) && Refs(children) !! Refs(rest)
      && Unique(children) && Unique(rest)
  }

  function Tops(f: Forest): seq<Ref> {
    match f
    case Empty => []
    case Cons(info, _, rest) => [info.ref] + Tops(rest)
  }

  /** The child list of an object. */
  function ListOf(f: Forest, parent: Ref): Option<seq<Ref>> {
    match f
    case Empty => None
    case Cons(info, children, rest) =>
      if info.ref == parent then Some(Tops(children))
      else if ListOf(children, parent).Some? then ListOf(children, parent)
      else ListOf(rest, parent)
  }

  function Subtree(f: Forest, ref: Ref): Option<Tree> {
    match f
    case Empty => None
    case Cons(info, children, rest) =>
      if info.ref == ref then Some(Tree(info, children))
      else if Subtree(children, ref).Some? then Subtree(children, ref)
      else Subtree(rest, ref)
  }

  function Nodes(f: Forest): multiset<Info> {
    match f
    case Empty => multiset{}
    case Cons(info, children, rest) => multiset{info} + Nodes(children) + Nodes(rest)
  }

  lemma {:induction false} NodesAreEnumerated(f: Forest)
    ensures Nodes(f) == multiset(EnumerateNodes(f))
  {
    match f
    case Empty =>
    case Cons(info, children, rest) =>
      NodesAreEnumerated(children);
      NodesAreEnumerated(rest);
  }

  // ---- The reparent ----

  predicate TopHas(f: Forest, ref: Ref) {
    f.Cons? && (f.info.ref == ref || TopHas(f.rest, ref))
  }

  function RemoveTop(f: Forest, ref: Ref): Forest {
    match f
    case Empty => Empty
    case Cons(info, children, rest) => if info.ref == ref then rest else Cons(info, children, RemoveTop(rest, ref))
  }

  /** The list that holds the object, looked for level by level, loses it. */
  function Detach(f: Forest, ref: Ref): Forest
    decreases f, 1
  {
    if TopHas(f, ref) then RemoveTop(f, ref) else DetachBelow(f, ref)
  }

  function DetachBelow(f: Forest, ref: Ref): Forest
    decreases f, 0
  {
    match f
    case Empty => Empty
    case Cons(info, children, rest) =>
      if ref in Refs(children) then Cons(info, Detach(children, ref), rest)
      else Cons(info, children, DetachBelow(rest, ref))
  }

  function AddLast(f: Forest, t: Tree): Forest {
    match f
    case Empty => Cons(t.info, t.children, Empty)
    case Cons(info, children, rest) => Cons(info, children, AddLast(rest, t))
  }

  /** The object's child list gains the node, wherever the object is; nothing if it is nowhere. */
  function AddUnder(f: Forest, parent: Ref, t: Tree): Forest {
    match f
    case Empty => Empty
    case Cons(info, children, rest) =>
      if info.ref == parent then Cons(info, AddLast(children, t), rest)
      else Cons(info, AddUnder(children, parent, t), AddUnder(rest, parent, t))
  }

  /** What the collection's top list holds after the node has been taken out and put last in the
      destination, the top list itself for None. */
  function Moved(f: Forest, t: Tree, destination: Option<Ref>): Forest {
    var without := Detach(f, t.info.ref);
    match destination
    case None => AddLast(without, t)
    case Some(parent) => AddUnder(without, parent, t)
  }

  function RefsOf(t: Tree): set<Ref> { {t.info.ref} + Refs(t.children) }

  function NodesOf(t: Tree): multiset<Info> { multiset{t.info} + Nodes(t.children) }

  /** The destination is the moved node or lies below it. */
  predicate IntoItself(t: Tree, destination: Option<Ref>) {
    destination.Some? && destination.value in RefsOf(t)
  }

  // ---- Taking out ----

  function Dropped(s: seq<Ref>, ref: Ref): seq<Ref> {
    if s == [] then [] else if s[0] == ref then s[1..] else [s[0]] + Dropped(s[1..], ref)
  }

  lemma {:induction false} SubtreeFound(f: Forest, ref: Ref)
    requires ref in Refs(f)
    ensures Subtree(f, ref).Some? && Subtree(f, ref).value.info.ref == ref
    ensures RefsOf(Subtree(f, ref).value) <= Refs(f)
  {
    var Cons(info, children, rest) := f;
    if info.ref != ref {
      if ref in Refs(children) {
        SubtreeFound(children, ref);
      } else {
        SubtreeAbsent(children, ref);
        SubtreeFound(rest, ref);
      }
    }
  }

  lemma {:induction false} SubtreeAbsent(f: Forest, ref: Ref)
    requires ref !in Refs(f)
    ensures Subtree(f, ref).None? && ListOf(f, ref).None? && !TopHas(f, ref)
  {
    if f.Cons? {
      SubtreeAbsent(f.children, ref);
      SubtreeAbsent(f.rest, ref);
    }
  }

  lemma {:induction false} TopIsInside(f: Forest, ref: Ref)
    requires TopHas(f, ref)
    ensures ref in Refs(f)
  {
    if f.info.ref != ref { TopIsInside(f.rest, ref); }
  }

  /** g is f without the subtree of one object. */
  predicate Takes(f: Forest, ref: Ref, g: Forest) {
    && Subtree(f, ref).Some? && Unique(g)
    && var t := Subtree(f, ref).value;
    && Nodes(f) == Nodes(g) + NodesOf(t)
    && Refs(g) == Refs(f) - RefsOf(t)
  }

  lemma BagAround(x: multiset<Info>, y: multiset<Info>, whole: multiset<Info>, part: multiset<Info>,
      more: multiset<Info>)
    requires whole == part + more
    ensures x + whole + y == (x + part + y) + more
    ensures x + y + whole == (x + y + part) + more
  {
  }

  lemma SetAround(x: set<Ref>, y: set<Ref>, whole: set<Ref>, part: set<Ref>, cut: set<Ref>)
    requires part == whole - cut && x !! cut && y !! cut
    ensures x + part + y == (x + whole + y) - cut && x + y + part == (x + y + whole) - cut
  {
  }

  lemma TakesFromChildren(info: Info, children: Forest, rest: Forest, ref: Ref, less: Forest)
    requires Unique(Cons(info, children, rest)) && ref in Refs(children) && Takes(children, ref, less)
    ensures Takes(Cons(info, children, rest), ref, Cons(info, less, rest))
  {
    SubtreeFound(children, ref);
    var t := Subtree(children, ref).value;
    assert Subtree(Cons(info, children, rest), ref) == Some(t);
    BagAround(multiset{info}, Nodes(rest), Nodes(children), Nodes(less), NodesOf(t));
    SetAround({info.ref}, Refs(rest), Refs(children), Refs(less), RefsOf(t));
    assert Refs(less) <= Refs(children);
    assert Unique(Cons(info, less, rest));
  }

  lemma TakesFromRest(info: Info, children: Forest, rest: Forest, ref: Ref, less: Forest)
    requires Unique(Cons(info, children, rest)) && ref in Refs(rest) && Takes(rest, ref, less)
    ensures Takes(Cons(info, children, rest), ref, Cons(info, children, less))
  {
    SubtreeFound(rest, ref);
    SubtreeAbsent(children, ref);
    var t := Subtree(rest, ref).value;
    assert Subtree(Cons(info, children, rest), ref) == Some(t);
    BagAround(multiset{info}, Nodes(children), Nodes(rest), Nodes(less), NodesOf(t));
    SetAround({info.ref}, Refs(children), Refs(rest), Refs(less), RefsOf(t));
    assert Refs(less) <= Refs(rest);
    assert Unique(Cons(info, children, less));
  }

  lemma {:induction false} RemoveTopTakes(f: Forest, ref: Ref)
    requires Unique(f) && TopHas(f, ref)
    ensures Takes(f, ref, RemoveTop(f, ref)) && Tops(RemoveTop(f, ref)) == Dropped(Tops(f), ref)
  {
    if f.info.ref == ref {
      assert Tops(f)[1..] == Tops(f.rest);
    } else {
      TopIsInside(f.rest, ref);
      RemoveTopTakes(f.rest, ref);
      TakesFromRest(f.info, f.children, f.rest, ref, RemoveTop(f.rest, ref));
      assert Tops(f)[1..] == Tops(f.rest);
    }
  }

  lemma {:induction false} DroppedAbsent(f: Forest, ref: Ref)
    requires !TopHas(f, ref)
    ensures Dropped(Tops(f), ref) == Tops(f)
  {
    if f.Cons? {
      DroppedAbsent(f.rest, ref);
      assert Tops(f)[1..] == Tops(f.rest);
    }
  }

  lemma {:induction false} DetachTakes(f: Forest, ref: Ref)
    requires Unique(f) && ref in Refs(f)
    ensures Takes(f, ref, Detach(f, ref)) && Tops(Detach(f, ref)) == Dropped(Tops(f), ref)
    decreases f, 1
  {
    if TopHas(f, ref) {
      RemoveTopTakes(f, ref);
    } else {
      DetachBelowTakes(f, ref);
      DroppedAbsent(f, ref);
    }
  }

  lemma {:induction false} DetachBelowTakes(f: Forest, ref: Ref)
    requires Unique(f) && ref in Refs(f) && !TopHas(f, ref)
    ensures Takes(f, ref, DetachBelow(f, ref)) && Tops(DetachBelow(f, ref)) == Tops(f)
    decreases f, 0
  {
    if ref in Refs(f.children) {
      DetachTakes(f.children, ref);
      TakesFromChildren(f.info, f.children, f.rest, ref, Detach(f.children, ref));
    } else {
      DetachBelowTakes(f.rest, ref);
      TakesFromRest(f.info, f.children, f.rest, ref, DetachBelow(f.rest, ref));
    }
  }

  // ---- Child lists after taking out ----

  lemma {:induction false} ListFound(f: Forest, p: Ref)
    requires p in Refs(f)
    ensures ListOf(f, p).Some?
  {
    if f.info.ref != p {
      if p in Refs(f.children) { ListFound(f.children, p); } else { ListFound(f.rest, p); }
    }
  }

  lemma {:induction false} RemoveTopLists(f: Forest, ref: Ref, p: Ref)
    requires Unique(f) && TopHas(f, ref) && p in Refs(RemoveTop(f, ref))
    ensures ListOf(RemoveTop(f, ref), p) == ListOf(f, p)
  {
    RemoveTopTakes(f, ref);
    if f.info.ref == ref {
      SubtreeAbsent(f.children, p);
    } else if f.info.ref != p {
      if p in Refs(f.children) {
        ListFound(f.children, p);
      } else {
        SubtreeAbsent(f.children, p);
        RemoveTopLists(f.rest, ref, p);
      }
    }
  }

  /** A list never holds an object the forest keeps elsewhere. */
  lemma {:induction false} ListInside(f: Forest, p: Ref, ref: Ref)
    requires ListOf(f, p).Some? && (ref !in Refs(f) || (TopHas(f, ref) && Unique(f)))
    ensures Dropped(ListOf(f, p).value, ref) == ListOf(f, p).value
  {
    if f.info.ref == p {
      if TopHas(f.children, ref) { TopIsInside(f.children, ref); TopInRest(f, ref); }
      DroppedAbsent(f.children, ref);
    } else if ListOf(f.children, p).Some? {
      if ref in Refs(f.children) { TopInRest(f, ref); }
      ListInside(f.children, p, ref);
    } else {
      if ref in Refs(f.rest) { TopInRest(f, ref); }
      ListInside(f.rest, p, ref);
    }
  }

  lemma TopInRest(f: Forest, ref: Ref)
    requires Unique(f) && TopHas(f, ref)
    ensures ref !in Refs(f.children)
    ensures ref in Refs(f.rest) ==> TopHas(f.rest, ref)
  {
    if f.info.ref != ref { TopIsInside(f.rest, ref); }
  }

  lemma {:induction false} DetachLists(f: Forest, ref: Ref, p: Ref)
    requires Unique(f) && ref in Refs(f) && p in Refs(Detach(f, ref))
    ensures ListOf(f, p).Some? && ListOf(Detach(f, ref), p) == Some(Dropped(ListOf(f, p).value, ref))
    decreases f, 1
  {
    DetachTakes(f, ref);
    ListFound(f, p);
    if TopHas(f, ref) {
      RemoveTopLists(f, ref, p);
      ListInside(f, p, ref);
    } else {
      DetachBelowLists(f, ref, p);
    }
  }

  lemma {:induction false} DetachBelowLists(f: Forest, ref: Ref, p: Ref)
    requires Unique(f) && ref in Refs(f) && !TopHas(f, ref) && p in Refs(DetachBelow(f, ref)) && ListOf(f, p).Some?
    ensures ListOf(DetachBelow(f, ref), p) == Some(Dropped(ListOf(f, p).value, ref))
    decreases f, 0
  {
    DetachBelowTakes(f, ref);
    if ref in Refs(f.children) {
      DetachTakes(f.children, ref);
      if p in Refs(Detach(f.children, ref)) {
        DetachLists(f.children, ref, p);
      } else if f.info.ref == p {
      } else {
        SubtreeAbsent(f.children, p);
        SubtreeAbsent(Detach(f.children, ref), p);
        ListInside(f.rest, p, ref);
      }
    } else if f.info.ref == p {
      if TopHas(f.children, ref) { TopIsInside(f.children, ref); }
      DroppedAbsent(f.children, ref);
    } else if p in Refs(f.children) {
      ListFound(f.children, p);
      ListInside(f.children, p, ref);
    } else {
      SubtreeAbsent(f.children, p);
      DetachBelowLists(f.rest, ref, p);
    }
  }

  // ---- Putting back ----

  /** r is g with the whole tree added. */
  predicate Gives(g: Forest, t: Tree, r: Forest) {
    && Unique(r) && Nodes(r) == Nodes(g) + NodesOf(t) && Refs(r) == Refs(g) + RefsOf(t)
    && Subtree(r, t.info.ref) == Some(t)
  }

  predicate Apart(g: Forest, t: Tree) {
    Unique(g) && t.info.ref !in Refs(t.children) && Unique(t.children) && RefsOf(t) !! Refs(g)
  }

  lemma GivesInChildren(info: Info, children: Forest, rest: Forest, t: Tree, more: Forest)
    requires Apart(Cons(info, children, rest), t) && Gives(children, t, more)
    ensures Gives(Cons(info, children, rest), t, Cons(info, more, rest))
  {
    BagAround(multiset{info}, Nodes(rest), Nodes(more), Nodes(children), NodesOf(t));
    assert t.info.ref in RefsOf(t) && t.info.ref != info.ref;
    assert Unique(Cons(info, more, rest));
    assert Refs(Cons(info, more, rest)) == Refs(Cons(info, children, rest)) + RefsOf(t);
  }

  lemma GivesInRest(info: Info, children: Forest, rest: Forest, t: Tree, more: Forest)
    requires Apart(Cons(info, children, rest), t) && Gives(rest, t, more)
    ensures Gives(Cons(info, children, rest), t, Cons(info, children, more))
  {
    BagAround(multiset{info}, Nodes(children), Nodes(more), Nodes(rest), NodesOf(t));
    assert t.info.ref in RefsOf(t) && t.info.ref != info.ref;
    assert t.info.ref !in Refs(children);
    SubtreeAbsent(children, t.info.ref);
    SetGrows(info.ref, Refs(children), Refs(rest), Refs(more), RefsOf(t));
  }

  lemma SetGrows(own: Ref, other: set<Ref>, part: set<Ref>, more: set<Ref>, added: set<Ref>)
    requires more == part + added && added !! ({own} + other + part) && own !in part && other !! part
    ensures {own} + other + more == ({own} + other + part) + added && own !in more && other !! more
  {
  }

  lemma {:induction false} AddLastGives(g: Forest, t: Tree)
    requires Apart(g, t)
    ensures Gives(g, t, AddLast(g, t)) && Tops(AddLast(g, t)) == Tops(g) + [t.info.ref]
  {
    if g.Cons? {
      AddLastGives(g.rest, t);
      GivesInRest(g.info, g.children, g.rest, t, AddLast(g.rest, t));
    }
  }

  lemma {:induction false} AddUnderAbsent(g: Forest, parent: Ref, t: Tree)
    requires parent !in Refs(g)
    ensures AddUnder(g, parent, t) == g
  {
    if g.Cons? {
      AddUnderAbsent(g.children, parent, t);
      AddUnderAbsent(g.rest, parent, t);
    }
  }

  lemma {:induction false} AddUnderGives(g: Forest, parent: Ref, t: Tree)
    requires Apart(g, t) && parent in Refs(g)
    ensures Gives(g, t, AddUnder(g, parent, t)) && Tops(AddUnder(g, parent, t)) == Tops(g)
  {
    var Cons(info, children, rest) := g;
    if info.ref == parent {
      AddLastGives(children, t);
      GivesInChildren(info, children, rest, t, AddLast(children, t));
    } else if parent in Refs(children) {
      AddUnderAbsent(rest, parent, t);
      AddUnderGives(children, parent, t);
      GivesInChildren(info, children, rest, t, AddUnder(children, parent, t));
    } else {
      AddUnderAbsent(children, parent, t);
      AddUnderGives(rest, parent, t);
      GivesInRest(info, children, rest, t, AddUnder(rest, parent, t));
    }
  }

  lemma {:induction false} AddLastLists(g: Forest, t: Tree, p: Ref)
    requires Apart(g, t) && p in Refs(g)
    ensures ListOf(AddLast(g, t), p) == ListOf(g, p)
  {
    if g.info.ref != p {
      if p in Refs(g.children) {
        ListFound(g.children, p);
      } else {
        SubtreeAbsent(g.children, p);
        AddLastLists(g.rest, t, p);
      }
    }
  }

  lemma {:induction false} AddUnderLists(g: Forest, parent: Ref, t: Tree, p: Ref)
    requires Apart(g, t) && parent in Refs(g) && p in Refs(g)
    ensures ListOf(g, p).Some?
    ensures ListOf(AddUnder(g, parent, t), p) == Some(ListOf(g, p).value + if p == parent then [t.info.ref] else [])
  {
    var Cons(info, children, rest) := g;
    ListFound(g, p);
    if info.ref == parent {
      AddLastGives(children, t);
      if p in Refs(children) {
        ListFound(children, p);
        AddLastLists(children, t, p);
        assert ListOf(g, p).value + [] == ListOf(g, p).value;
      } else if p != parent {
        SubtreeAbsent(children, p);
        SubtreeAbsent(AddLast(children, t), p);
      }
    } else if parent in Refs(children) {
      AddUnderAbsent(rest, parent, t);
      AddUnderGives(children, parent, t);
      if p in Refs(children) {
        AddUnderLists(children, parent, t, p);
      } else if p != info.ref {
        SubtreeAbsent(children, p);
        SubtreeAbsent(AddUnder(children, parent, t), p);
      }
    } else {
      AddUnderAbsent(children, parent, t);
      if p in Refs(children) {
        ListFound(children, p);
      } else if p != info.ref {
        SubtreeAbsent(children, p);
        AddUnderLists(rest, parent, t, p);
      } else {
        AddUnderGives(rest, parent, t);
      }
    }
  }

  /** A node put last is enumerated last, and its subtree right behind it. */
  lemma {:induction false} AddLastEnumerates(g: Forest, t: Tree)
    ensures EnumerateNodes(AddLast(g, t)) == EnumerateNodes(g) + [t.info] + EnumerateNodes(t.children)
  {
    match g
    case Empty =>
    case Cons(info, children, rest) =>
      AddLastEnumerates(rest, t);
  }

  // ---- The move ----

  lemma {:induction false} SubtreeUnique(f: Forest, ref: Ref)
    requires Unique(f) && Subtree(f, ref).Some?
    ensures var t := Subtree(f, ref).value; t.info.ref == ref && t.info.ref !in Refs(t.children) && Unique(t.children)
  {
    if f.info.ref != ref {
      if Subtree(f.children, ref).Some? { SubtreeUnique(f.children, ref); } else { SubtreeUnique(f.rest, ref); }
    }
  }

  lemma {:induction false} FoundIsSubtree(f: Forest, id: string)
    requires Unique(f) && FindNode(f, id).Some?
    ensures var t := FindNode(f, id).value;
      t.info.ref in Refs(f) && t.info.id == id && Subtree(f, t.info.ref) == Some(t)
  {
    if f.info.id != id {
      if FindNode(f.children, id).Some? {
        FoundIsSubtree(f.children, id);
      } else {
        FoundIsSubtree(f.rest, id);
        SubtreeAbsent(f.children, FindNode(f.rest, id).value.info.ref);
      }
    }
  }

  lemma {:induction false} EnumeratedIsInside(f: Forest, i: nat)
    requires i < |EnumerateNodes(f)|
    ensures EnumerateNodes(f)[i].ref in Refs(f)
  {
    var a := |EnumerateNodes(f.children)|;
    if i > a { EnumeratedIsInside(f.rest, i - 1 - a); } else if i > 0 { EnumeratedIsInside(f.children, i - 1); }
  }

  lemma DetachedApart(f: Forest, ref: Ref)
    requires Unique(f) && ref in Refs(f)
    ensures Takes(f, ref, Detach(f, ref)) && Apart(Detach(f, ref), Subtree(f, ref).value)
      && Subtree(f, ref).value.info.ref == ref
  {
    DetachTakes(f, ref);
    SubtreeUnique(f, ref);
  }

  /** A move keeps every node exactly when the destination does not lie in the moved subtree; otherwise
      the whole subtree drops out of the collection. */
  lemma MoveConservesIff(f: Forest, ref: Ref, destination: Option<Ref>)
    requires Unique(f) && ref in Refs(f) && (destination.Some? ==> destination.value in Refs(f))
    ensures Subtree(f, ref).Some?
    ensures var t := Subtree(f, ref).value;
      && (Nodes(Moved(f, t, destination)) == Nodes(f) <==> !IntoItself(t, destination))
      && (IntoItself(t, destination) ==> Nodes(f) == Nodes(Moved(f, t, destination)) + NodesOf(t))
      && Unique(Moved(f, t, destination))
  {
    DetachedApart(f, ref);
    var t := Subtree(f, ref).value;
    var without := Detach(f, ref);
    match destination
    case None => AddLastGives(without, t);
    case Some(parent) =>
      if parent in RefsOf(t) {
        AddUnderAbsent(without, parent, t);
        assert t.info in NodesOf(t);
        assert |Nodes(f)| == |Nodes(without)| + |NodesOf(t)|;
      } else {
        AddUnderGives(without, parent, t);
      }
  }

  /** What a list gains: the node, if the list is the destination's. */
  function Gained(destination: Option<Ref>, list: Option<Ref>, ref: Ref): seq<Ref> {
    if destination == list then [ref] else []
  }

  lemma MoveToTop(f: Forest, ref: Ref, p: Ref)
    requires Unique(f) && ref in Refs(f) && p in Refs(f) && Subtree(f, ref).Some? && ListOf(f, p).Some?
    ensures var t := Subtree(f, ref).value; var g := AddLast(Detach(f, ref), t);
      && Subtree(g, ref) == Some(t)
      && Tops(g) == Dropped(Tops(f), ref) + [ref]
      && (p !in RefsOf(t) ==> ListOf(g, p) == Some(Dropped(ListOf(f, p).value, ref)))
  {
    DetachedApart(f, ref);
    DetachTakes(f, ref);
    var t := Subtree(f, ref).value;
    AddLastGives(Detach(f, ref), t);
    if p !in RefsOf(t) {
      DetachLists(f, ref, p);
      AddLastLists(Detach(f, ref), t, p);
    }
  }

  lemma MoveToFolder(f: Forest, ref: Ref, parent: Ref, p: Ref)
    requires Unique(f) && ref in Refs(f) && p in Refs(f) && parent in Refs(f) && Subtree(f, ref).Some?
      && ListOf(f, p).Some?
    requires parent !in RefsOf(Subtree(f, ref).value)
    ensures var t := Subtree(f, ref).value; var g := AddUnder(Detach(f, ref), parent, t);
      && Subtree(g, ref) == Some(t)
      && Tops(g) == Dropped(Tops(f), ref) + []
      && (p !in RefsOf(t) ==>
           ListOf(g, p) == Some(Dropped(ListOf(f, p).value, ref) + if p == parent then [ref] else []))
  {
    DetachedApart(f, ref);
    DetachTakes(f, ref);
    var t := Subtree(f, ref).value;
    AddUnderGives(Detach(f, ref), parent, t);
    if p !in RefsOf(t) {
      DetachLists(f, ref, p);
      AddUnderLists(Detach(f, ref), parent, t, p);
    }
  }

  /** A legal move keeps the moved subtree whole; it takes the node out of the list that held it, puts it
      last in the destination's, and leaves every other list and the order within all of them alone. */
  lemma MoveKeepsOrder(f: Forest, ref: Ref, destination: Option<Ref>, p: Ref)
    requires Unique(f) && ref in Refs(f) && (destination.Some? ==> destination.value in Refs(f)) && p in Refs(f)
    requires Subtree(f, ref).Some? && !IntoItself(Subtree(f, ref).value, destination)
    ensures Subtree(f, ref).value.info.ref == ref && ListOf(f, p).Some?
    ensures var t := Subtree(f, ref).value; var g := Moved(f, t, destination);
      && Subtree(g, ref) == Some(t)
      && Tops(g) == Dropped(Tops(f), ref) + Gained(destination, None, ref)
      && (p !in RefsOf(t) ==>
           ListOf(g, p) == Some(Dropped(ListOf(f, p).value, ref) + Gained(destination, Some(p), ref)))
  {
    SubtreeUnique(f, ref);
    ListFound(f, p);
    match destination
    case None =>
      MoveToTop(f, ref, p);
      assert Dropped(ListOf(f, p).value, ref) + [] == Dropped(ListOf(f, p).value, ref);
    case Some(parent) => MoveToFolder(f, ref, parent, p);
  }

  // ---- The collection ----

  /** The destination a move resolves to: the top list, or the first folder with the id. */
  ghost predicate Resolves(f: Forest, parentFolderId: Option<string>, destination: Option<Ref>) {
    match parentFolderId
    case None => destination == None
    case Some(id) => destination.Some? && FirstFolder(f, destination.value, id)
  }

  /** A move by ids, end to end: the node is the first of the enumeration with its id, and the collection
      keeps its bag of nodes exactly when the resolved folder does not lie in that node's subtree; otherwise
      exactly the subtree is lost. */
  lemma MoveByIdConservesIff(f: Forest, nodeId: string, parentFolderId: Option<string>, destination: Option<Ref>)
    requires Unique(f) && FindNode(f, nodeId).Some? && Resolves(f, parentFolderId, destination)
    ensures var t := FindNode(f, nodeId).value;
      && (exists i: nat :: FirstWithId(EnumerateNodes(f), i, nodeId) && EnumerateNodes(f)[i] == t.info)
      && Unique(Moved(f, t, destination))
      && (Nodes(Moved(f, t, destination)) == Nodes(f) <==> !IntoItself(t, destination))
      && (IntoItself(t, destination) ==> Nodes(f) == Nodes(Moved(f, t, destination)) + NodesOf(t))
  {
    FindNodeIsFirst(f, nodeId);
    FoundIsSubtree(f, nodeId);
    if destination.Some? {
      var i: nat :| FolderAt(EnumerateNodes(f), i, destination.value, parentFolderId.value);
      EnumeratedIsInside(f, i);
    }
    MoveConservesIff(f, FindNode(f, nodeId).value.info.ref, destination);
  }

  /** Folder b inside folder a. */
  const TwoLevels: Forest := Cons(Info(1, "a", true), Cons(Info(2, "b", true), Empty, Empty), Empty)

  /** Moving a into b, which is inside a, leaves the collection empty. */
  lemma MoveIntoItselfLoses()
    ensures Unique(TwoLevels) && Resolves(TwoLevels, Some("b"), Some(2)) && FindNode(TwoLevels, "a").Some?
    ensures var t := FindNode(TwoLevels, "a").value; IntoItself(t, Some(2)) && Moved(TwoLevels, t, Some(2)) == Empty
  {
    var inner := Cons(Info(2, "b", true), Empty, Empty);
    assert TwoLevels == Cons(Info(1, "a", true), inner, Empty) && Refs(inner) == {2};
    assert EnumerateNodes(inner) == [Info(2, "b", true)];
    assert EnumerateNodes(TwoLevels) == [Info(1, "a", true), Info(2, "b", true)];
    assert "a"[0] != "b"[0];
    assert FolderAt(EnumerateNodes(TwoLevels), 1, 2, "b");
  }

  predicate HasFolder(f: Forest, id: string) {
    exists i :: 0 <= i < |EnumerateNodes(f)| && EnumerateNodes(f)[i].folder && EnumerateNodes(f)[i].id == id
  }

  class LinkedCollection {
    var nodes: Forest

    constructor (nodes: Forest)
      ensures this.nodes == nodes
    {
      this.nodes := nodes;
    }

    /** Finds node and destination folder by id and reparents in place; with either missing nothing changes. */
    method MoveNode(nodeId: string, parentFolderId: Option<string>)
      returns (moved: bool, ghost destination: Option<Ref>)
      modifies this
      ensures moved <==>
        FindNode(old(nodes), nodeId).Some? && (parentFolderId.Some? ==> HasFolder(old(nodes), parentFolderId.value))
      ensures !moved ==> nodes == old(nodes)
      ensures moved ==> nodes == Moved(old(nodes), FindNode(old(nodes), nodeId).value, destination)
      ensures moved ==> Resolves(old(nodes), parentFolderId, destination)
      ensures moved && Unique(old(nodes)) ==>
        (Nodes(nodes) == Nodes(old(nodes)) <==> !IntoItself(FindNode(old(nodes), nodeId).value, destination))
    {
      var node := FindNode(nodes, nodeId);
      if node.None? {
        return false, None;
      }
      var parentFolder: Option<Ref> := None;
      if parentFolderId.Some? {
        parentFolder := FindFolderNode(nodes, parentFolderId.value);
        if parentFolder.None? {
          return false, None;
        }
      }
      destination := parentFolder;
      if Unique(nodes) { MoveByIdConservesIff(nodes, nodeId, parentFolderId, destination); }
      nodes := Detach(nodes, node.value.info.ref);
      if parentFolder.None? {
        nodes := AddLast(nodes, node.value);
      } else {
        nodes := AddUnder(nodes, parentFolder.value, node.value);
      }
      moved := true;
    }
  }
}
