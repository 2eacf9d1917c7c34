/** gameobject.py: the scene graph. Objects and components live in a World keyed by identity;
    an object records its parent, its children in order and its components in order. Recursion
    over the graph carries a budget that stands for Python's recursion limit. */
module GameObject {
  import opened Wrappers
  import opened Py
  import opened MessageHandler
  import opened Component

  datatype GameObject = GameObject(name: string, filters: Filters, parent: Option<ObjId>,
                                   children: seq<ObjId>, components: seq<CompId>)

  datatype World = World(objects: map<ObjId, GameObject>, components: map<CompId, Component>)

  /** GameObject(name): no parent, no children, no components, fresh filters. */
  function NewGameObject(name: string): (r: GameObject)
    ensures r.parent.None? && r.children == [] && r.components == [] && r.filters == NewFilters()
  {
    GameObject(name, NewFilters(), None, [], [])
  }

  /** One object's references resolve against the given identities, and it lists no child and no
      component twice. */
  predicate ObjectOk(ids: set<ObjId>, compIds: set<CompId>, g: GameObject) {
    && (forall c :: c in g.children ==> c in ids)
    && (forall k :: k in g.components ==> k in compIds)
    && (g.parent.Some? ==> g.parent.value in ids)
    && NoDuplicates(g.children) && NoDuplicates(g.components)
  }

  /** Every reference in the world resolves, and no object lists a child or a component twice. */
  predicate Valid(w: World) {
    && (forall id :: id in w.objects ==> ObjectOk(w.objects.Keys, w.components.Keys, w.objects[id]))
    && (forall k :: k in w.components && w.components[k].owner.Some? ==> w.components[k].owner.value in w.objects)
  }

  /** The index of the first element satisfying p, if any. */
  function FirstIndex<T>(s: seq<T>, p: T -> bool): (r: Option<nat>)
    ensures r.Some? ==> r.value < |s| && p(s[r.value]) && forall j :: 0 <= j < r.value ==> !p(s[j])
    ensures r.None? ==> forall j :: 0 <= j < |s| ==> !p(s[j])
  {
    if |s| == 0 then None
    else if p(s[0]) then Some(0)
    else match FirstIndex(s[1..], p)
      case None => None
      case Some(i) => Some(i + 1)
  }

  /* ---------------- Children ---------------- */

  /** attach_child: a child already in the list is a ValueError; otherwise it is appended and its
      parent becomes this object. Its previous parent's list is not touched. */
  function AttachChild(w: World, p: ObjId, c: ObjId): (r: Result<World, Exc>)
    requires p in w.objects && c in w.objects
    ensures r.Err? <==> c in w.objects[p].children
    ensures r.Err? ==> r.error == ValueError
    ensures r.Ok? ==> r.value.objects.Keys == w.objects.Keys && r.value.components == w.components
    ensures r.Ok? ==> r.value.objects[p].children == w.objects[p].children + [c]
    ensures r.Ok? ==> r.value.objects[c].parent == Some(p)
    ensures r.Ok? ==> forall o :: o in w.objects && o != p && o != c ==> r.value.objects[o] == w.objects[o]
    ensures r.Ok? && Valid(w) ==> Valid(r.value)
  {
    var g := w.objects[p];
    if c in g.children then Err(ValueError)
    else
      var objects := w.objects[p := g.(children := g.children + [c])];
      var w' := w.(objects := objects[c := objects[c].(parent := Some(p))]);
      assert Valid(w) ==> NoDuplicates(g.children + [c]);
      Ok(w')
  }

  /** detach_child: a non-child is a ValueError; otherwise it leaves the list, the others keep
      their order, and its parent becomes None. */
  function DetachChild(w: World, p: ObjId, c: ObjId): (r: Result<World, Exc>)
    requires p in w.objects && c in w.objects
    ensures r.Err? <==> c !in w.objects[p].children
    ensures r.Err? ==> r.error == ValueError
    ensures r.Ok? ==> r.value.objects.Keys == w.objects.Keys && r.value.components == w.components
    ensures r.Ok? ==> r.value.objects[p].children == RemoveFirst(w.objects[p].children, c)
    ensures r.Ok? ==> r.value.objects[c].parent.None?
    ensures r.Ok? ==> forall o :: o in w.objects && o != p && o != c ==> r.value.objects[o] == w.objects[o]
    ensures r.Ok? && Valid(w) ==> Valid(r.value)
  {
    var g := w.objects[p];
    if c !in g.children then Err(ValueError)
    else
      var objects := w.objects[p := g.(children := RemoveFirst(g.children, c))];
      var w' := w.(objects := objects[c := objects[c].(parent := None)]);
      assert Valid(w) ==> ObjectOk(w.objects.Keys, w.components.Keys, objects[p]) by {
        if Valid(w) { RemoveKeepsDistinct(g.children, c); RemoveKeepsMembers(g.children, c); }
      }
      Ok(w')
  }

  /** What list.remove leaves was in the list. */
  lemma RemoveKeepsMembers<T>(s: seq<T>, x: T)
    requires x in s
    ensures forall y :: y in RemoveFirst(s, x) ==> y in s
  {
    forall y | y in RemoveFirst(s, x) ensures y in s {
      assert multiset(RemoveFirst(s, x))[y] > 0;
    }
  }

  /** No object below `p`, at any depth, has the name. */
  ghost predicate NoneBelow(w: World, p: ObjId, name: string) {
    forall x, d :: Below(w, p, x, d) ==> !HasName(w, x, name)
  }

  /** get_child_by_index: Python indexing, so negative indices count from the end and anything
      else out of range is an IndexError. */
  function GetChildByIndex(w: World, p: ObjId, index: int): (r: Result<ObjId, Exc>)
    requires p in w.objects
    ensures r.Ok? <==> -|w.objects[p].children| <= index < |w.objects[p].children|
    ensures r.Ok? ==> var cs := w.objects[p].children;
                      r.value == cs[if index < 0 then |cs| + index else index]
    ensures r.Err? ==> r.error == IndexError
  {
    PyIndex(w.objects[p].children, index)
  }

  /** The object `id` exists and is called `name`. */
  predicate HasName(w: World, id: ObjId, name: string) {
    id in w.objects && w.objects[id].name == name
  }

  /** The test get_child_by_name applies to one child. */
  function NamedIn(w: World, name: string): ObjId -> bool {
    (id: ObjId) => HasName(w, id, name)
  }

  /** `x` lies in the subtree below `p`, at most `depth` levels down: it is a child of `p`, or
      lies below one of p's children at most `depth - 1` levels down. */
  predicate Below(w: World, p: ObjId, x: ObjId, depth: nat)
    decreases depth
  {
    && p in w.objects && depth > 0
    && (x in w.objects[p].children || exists c :: c in w.objects[p].children && Below(w, c, x, depth - 1))
  }

  /** get_child_by_name: every direct child is checked, in order, before any is searched; with
      `searchChildren` the children are then searched depth first in order, each with
      `search_children` left at its default. */
  function GetChildByName(w: World, p: ObjId, name: string, searchChildren: bool, fuel: nat): (r: Result<Option<ObjId>, Exc>)
    requires Valid(w) && p in w.objects
    ensures r.Ok? && r.value.Some? ==> HasName(w, r.value.value, name) && Below(w, p, r.value.value, fuel)
    ensures r.Err? ==> r.error == RecursionError
    ensures fuel > 0 ==> match FirstIndex(w.objects[p].children, NamedIn(w, name))
                         case Some(i) => r == Ok(Some(w.objects[p].children[i]))
                         case None => !searchChildren ==> r == Ok(None)
    decreases fuel, 1, 0
  {
    if fuel == 0 then Err(RecursionError)
    else
      var kids := w.objects[p].children;
      match FirstIndex(kids, NamedIn(w, name))
      case Some(i) => Ok(Some(kids[i]))
      case None => if !searchChildren then Ok(None) else SearchChildren(w, kids, name, fuel - 1)
  }

  /** The depth-first part of get_child_by_name: the first child whose own search finds the name
      wins. */
  function SearchChildren(w: World, ids: seq<ObjId>, name: string, fuel: nat): (r: Result<Option<ObjId>, Exc>)
    requires Valid(w) && forall i :: i in ids ==> i in w.objects
    ensures r.Ok? && r.value.Some? ==> HasName(w, r.value.value, name)
    ensures r.Ok? && r.value.Some? ==> exists c :: c in ids && Below(w, c, r.value.value, fuel)
    ensures r.Err? ==> r.error == RecursionError
    decreases fuel, 2, |ids|
  {
    if |ids| == 0 then Ok(None)
    else
      var found :- GetChildByName(w, ids[0], name, true, fuel);
      if found.Some? then Ok(found) else SearchChildren(w, ids[1..], name, fuel)
  }

  /* ---------------- Components ---------------- */

  /** attach_component as intended: a component already attached is a ValueError; otherwise it is
      appended and its owner becomes this object. Nothing else changes. */
  function AttachComponent(w: World, g: ObjId, k: CompId): (r: Result<World, Exc>)
    requires g in w.objects && k in w.components
    ensures r.Err? <==> k in w.objects[g].components
    ensures r.Err? ==> r.error == ValueError
    ensures r.Ok? ==> r.value.objects.Keys == w.objects.Keys && r.value.components.Keys == w.components.Keys
    ensures r.Ok? ==> r.value.objects[g] == w.objects[g].(components := w.objects[g].components + [k])
    ensures r.Ok? ==> r.value.components[k] == w.components[k].(owner := Some(g))
    ensures r.Ok? ==> forall o :: o in w.objects && o != g ==> r.value.objects[o] == w.objects[o]
    ensures r.Ok? ==> forall j :: j in w.components && j != k ==> r.value.components[j] == w.components[j]
    ensures r.Ok? && Valid(w) ==> Valid(r.value)
  {
    var o := w.objects[g];
    if k in o.components then Err(ValueError)
    else
      assert Valid(w) ==> NoDuplicates(o.components + [k]);
      Ok(World(w.objects[g := o.(components := o.components + [k])],
               w.components[k := w.components[k].(owner := Some(g))]))
  }

  /** attach_component as written: the assignment goes to an attribute `owner` that the class
      never reads, so `_owner` keeps whatever it held. */
  function AttachComponentAsWritten(w: World, g: ObjId, k: CompId): (r: Result<World, Exc>)
    requires g in w.objects && k in w.components
    ensures r.Ok? ==> r.value.components == w.components
  {
    var o := w.objects[g];
    if k in o.components then Err(ValueError)
    else Ok(w.(objects := w.objects[g := o.(components := o.components + [k])]))
  }

  /** detach_component as intended: an absent component is a ValueError; otherwise its first
      occurrence leaves the list, the others keeping their order, and it loses its owner.
      Nothing else changes. */
  function DetachComponent(w: World, g: ObjId, k: CompId): (r: Result<World, Exc>)
    requires g in w.objects && k in w.components
    ensures r.Err? <==> k !in w.objects[g].components
    ensures r.Err? ==> r.error == ValueError
    ensures r.Ok? ==> r.value.objects.Keys == w.objects.Keys && r.value.components.Keys == w.components.Keys
    ensures r.Ok? ==> r.value.objects[g] == w.objects[g].(components := RemoveFirst(w.objects[g].components, k))
    ensures r.Ok? ==> r.value.components[k] == w.components[k].(owner := None)
    ensures r.Ok? ==> forall o :: o in w.objects && o != g ==> r.value.objects[o] == w.objects[o]
    ensures r.Ok? ==> forall j :: j in w.components && j != k ==> r.value.components[j] == w.components[j]
    ensures r.Ok? && Valid(w) ==> Valid(r.value)
  {
    var o := w.objects[g];
    if k !in o.components then Err(ValueError)
    else
      var objects := w.objects[g := o.(components := RemoveFirst(o.components, k))];
      assert Valid(w) ==> ObjectOk(w.objects.Keys, w.components.Keys, objects[g]) by {
        if Valid(w) { RemoveKeepsDistinct(o.components, k); RemoveKeepsMembers(o.components, k); }
      }
      Ok(World(objects, w.components[k := w.components[k].(owner := None)]))
  }

  /** detach_component as written: `owner = None` also lands in the unread attribute. */
  function DetachComponentAsWritten(w: World, g: ObjId, k: CompId): (r: Result<World, Exc>)
    requires g in w.objects && k in w.components
    ensures r.Ok? ==> r.value.components == w.components
  {
    var o := w.objects[g];
    if k !in o.components then Err(ValueError)
    else Ok(w.(objects := w.objects[g := o.(components := RemoveFirst(o.components, k))]))
  }

  /** The loop get_component_by_type and get_component_by_name share: the first attached
      component, in attach order, that passes `test`. */
  function FirstComponent(w: World, g: ObjId, test: Component -> bool): (r: Option<CompId>)
    requires Valid(w) && g in w.objects
    ensures var cs := w.objects[g].components;
            r.Some? ==> exists i :: 0 <= i < |cs| && cs[i] == r.value && test(w.components[cs[i]])
                                    && forall j :: 0 <= j < i ==> !test(w.components[cs[j]])
    ensures r.None? ==> forall k :: k in w.objects[g].components ==> !test(w.components[k])
  {
    var cs := w.objects[g].components;
    match FirstIndex(cs, k => k in w.components && test(w.components[k]))
    case Some(i) => Some(cs[i])
    case None => None
  }

  /** get_component_by_type: the first component whose class is exactly the one asked for. */
  function GetComponentByType(w: World, g: ObjId, typeName: string): (r: Option<CompId>)
    requires Valid(w) && g in w.objects
    ensures var cs := w.objects[g].components;
            r.Some? ==> exists i :: 0 <= i < |cs| && cs[i] == r.value && w.components[cs[i]].typeName == typeName
                                    && forall j :: 0 <= j < i ==> w.components[cs[j]].typeName != typeName
    ensures r.None? ==> forall k :: k in w.objects[g].components ==> w.components[k].typeName != typeName
  {
    FirstComponent(w, g, (c: Component) => c.typeName == typeName)
  }

  /** get_component_by_name: the first component with that name. */
  function GetComponentByName(w: World, g: ObjId, name: string): (r: Option<CompId>)
    requires Valid(w) && g in w.objects
    ensures var cs := w.objects[g].components;
            r.Some? ==> exists i :: 0 <= i < |cs| && cs[i] == r.value && w.components[cs[i]].name == name
                                    && forall j :: 0 <= j < i ==> w.components[cs[j]].name != name
    ensures r.None? ==> forall k :: k in w.objects[g].components ==> w.components[k].name != name
  {
    FirstComponent(w, g, (c: Component) => c.name == name)
  }

  /** get_component_by_index: Python indexing as in get_child_by_index, except that an index out
      of range gives None instead of an IndexError. */
  function GetComponentByIndex(w: World, g: ObjId, index: int): (r: Option<CompId>)
    requires g in w.objects
    ensures r.Some? <==> -|w.objects[g].components| <= index < |w.objects[g].components|
    ensures r.Some? ==> var cs := w.objects[g].components;
                        r.value == cs[if index < 0 then |cs| + index else index]
  {
    match PyIndex(w.objects[g].components, index)
    case Ok(k) => Some(k)
    case Err(_) => None
  }

  /* ---------------- Messages ---------------- */

  /** The calls the components listed make, in list order, for one message. */
  function ComponentCalls(w: World, ks: seq<CompId>, m: Message, dictKeys: DictOrder): (r: seq<HandlerCall>)
    requires forall k :: k in ks ==> k in w.components
    ensures forall c :: c in r ==> c.component in ks && ComponentAccepts(w.components[c.component], m)
                                   && c.handler == m.name
    ensures forall k :: k in ks && ComponentAccepts(w.components[k], m) ==>
              HandlerCall(k, m.name, UnpackArgs(m.data, dictKeys)) in r
  {
    if |ks| == 0 then []
    else
      var rest := ComponentCalls(w, ks[1..], m, dictKeys);
      assert forall k :: k in ks[1..] ==> k in ks;
      assert forall k :: k in ks ==> k == ks[0] || k in ks[1..];
      match ComponentReceive(ks[0], w.components[ks[0]], m, dictKeys)
      case Some(call) => [call] + rest
      case None => rest
  }

  /** receive_message as intended: a refused message does nothing; otherwise every component
      receives it in attach order and then, unless it does not propagate, every child receives
      the same message in child order. */
  function Receive(w: World, id: ObjId, m: Message, dictKeys: DictOrder, fuel: nat): (r: Result<seq<HandlerCall>, Exc>)
    requires Valid(w) && id in w.objects
    ensures r.Ok? ==> forall c :: c in r.value ==>
              c.component in w.components && ComponentAccepts(w.components[c.component], m) && c.handler == m.name
    ensures r.Err? ==> r.error == RecursionError
    ensures fuel > 0 && !FiltersAccept(w.objects[id].filters, m.name) ==> r == Ok([])
    ensures fuel > 0 && FiltersAccept(w.objects[id].filters, m.name) && !m.propagate
            ==> r == Ok(ComponentCalls(w, w.objects[id].components, m, dictKeys))
    decreases fuel, 1, 0
  {
    if fuel == 0 then Err(RecursionError)
    else
      var g := w.objects[id];
      if !FiltersAccept(g.filters, m.name) then Ok([])
      else
        var calls := ComponentCalls(w, g.components, m, dictKeys);
        if !m.propagate then Ok(calls)
        else
          var rest :- ReceiveAll(w, g.children, m, dictKeys, fuel - 1);
          Ok(calls + rest)
  }

  /** The children's share of a propagating message, in child order. */
  function ReceiveAll(w: World, ids: seq<ObjId>, m: Message, dictKeys: DictOrder, fuel: nat): (r: Result<seq<HandlerCall>, Exc>)
    requires Valid(w) && forall i :: i in ids ==> i in w.objects
    ensures r.Ok? ==> forall c :: c in r.value ==>
              c.component in w.components && ComponentAccepts(w.components[c.component], m) && c.handler == m.name
    ensures r.Err? ==> r.error == RecursionError
    decreases fuel, 2, |ids|
  {
    if |ids| == 0 then Ok([])
    else
      var first :- Receive(w, ids[0], m, dictKeys, fuel);
      var rest :- ReceiveAll(w, ids[1..], m, dictKeys, fuel);
      Ok(first + rest)
  }

  /** receive_message as written: each child is handed itself instead of the message. A child
      that accepts a message named like itself goes on to read `data` or `propagate` from a game
      object, which has neither, so the call raises AttributeError; a child that refuses it does
      nothing. */
  function ReceiveAsWritten(w: World, id: ObjId, m: Message, dictKeys: DictOrder): (r: Result<seq<HandlerCall>, Exc>)
    requires Valid(w) && id in w.objects
    ensures !FiltersAccept(w.objects[id].filters, m.name) ==> r == Ok([])
    ensures r.Err? <==> && FiltersAccept(w.objects[id].filters, m.name) && m.propagate
                        && exists c :: c in w.objects[id].children && FiltersAccept(w.objects[c].filters, w.objects[c].name)
    ensures r.Err? ==> r.error == AttributeError
    ensures r.Ok? && FiltersAccept(w.objects[id].filters, m.name)
            ==> r.value == ComponentCalls(w, w.objects[id].components, m, dictKeys)
  {
    var g := w.objects[id];
    if !FiltersAccept(g.filters, m.name) then Ok([])
    else
      var calls := ComponentCalls(w, g.components, m, dictKeys);
      if !m.propagate then Ok(calls)
      else if exists c :: c in g.children && FiltersAccept(w.objects[c].filters, w.objects[c].name) then Err(AttributeError)
      else Ok(calls)
  }

  /** The root above an object: the first ancestor without a parent. */
  function Root(w: World, id: ObjId, fuel: nat): (r: Result<ObjId, Exc>)
    requires Valid(w) && id in w.objects
    ensures r.Ok? ==> r.value in w.objects && w.objects[r.value].parent.None?
    ensures w.objects[id].parent.None? ==> r == Ok(id)
    ensures r.Err? ==> r.error == RecursionError
    decreases fuel
  {
    match w.objects[id].parent
    case None => Ok(id)
    case Some(p) => if fuel == 0 then Err(RecursionError) else Root(w, p, fuel - 1)
  }

  /** bubble_message: climb to the root, and only the root receives the message. */
  function Bubble(w: World, id: ObjId, m: Message, dictKeys: DictOrder, fuel: nat): (r: Result<seq<HandlerCall>, Exc>)
    requires Valid(w) && id in w.objects
    ensures Root(w, id, fuel).Ok? ==> r == Receive(w, Root(w, id, fuel).value, m, dictKeys, fuel)
    ensures Root(w, id, fuel).Err? ==> r == Err(RecursionError)
  {
    var root :- Root(w, id, fuel);
    Receive(w, root, m, dictKeys, fuel)
  }

  /** Component.bubble_message: nothing without an owner, the owner's bubble otherwise. */
  function ComponentBubble(w: World, k: CompId, m: Message, dictKeys: DictOrder, fuel: nat): (r: Result<seq<HandlerCall>, Exc>)
    requires Valid(w) && k in w.components
    ensures w.components[k].owner.None? ==> r == Ok([])
  {
    match w.components[k].owner
    case None => Ok([])
    case Some(g) => Bubble(w, g, m, dictKeys, fuel)
  }

  /* ---------------- Laws ---------------- */

  /** Attaching a parentless child and detaching it again gives back the same world. */
  lemma AttachThenDetach(w: World, p: ObjId, c: ObjId)
    requires p in w.objects && c in w.objects
    requires c !in w.objects[p].children && w.objects[c].parent.None?
    ensures AttachChild(w, p, c).Ok?
    ensures DetachChild(AttachChild(w, p, c).value, p, c) == Ok(w)
  {
    var w1 := AttachChild(w, p, c).value;
    RemoveAppended(w.objects[p].children, c);
    var w2 := DetachChild(w1, p, c).value;
    assert w2.objects[p] == w.objects[p];
    assert w2.objects[c] == w.objects[c];
    assert w2.objects == w.objects;
  }

  /** Bubbling from any object of a tree hands the message to the same root, so it reaches the
      same handlers as bubbling from the root itself. */
  lemma BubbleFromChild(w: World, p: ObjId, c: ObjId, m: Message, dictKeys: DictOrder, fuel: nat)
    requires Valid(w) && p in w.objects && c in w.objects && w.objects[c].parent == Some(p)
    requires w.objects[p].parent.None? && fuel > 0
    ensures Bubble(w, c, m, dictKeys, fuel) == Receive(w, p, m, dictKeys, fuel)
  {
  }

  /** With the owner set on attach, a component's bubble is its object's bubble; as written, a
      component that had no owner stays ownerless and its bubbled messages go nowhere. */
  lemma AttachedComponentBubbles(w: World, g: ObjId, k: CompId, m: Message, dictKeys: DictOrder, fuel: nat)
    requires Valid(w) && g in w.objects && k in w.components && k !in w.objects[g].components
    ensures AttachComponent(w, g, k).Ok?
    ensures ComponentBubble(AttachComponent(w, g, k).value, k, m, dictKeys, fuel)
         == Bubble(AttachComponent(w, g, k).value, g, m, dictKeys, fuel)
    ensures w.components[k].owner.None? ==>
              AttachComponentAsWritten(w, g, k).Ok? && Valid(AttachComponentAsWritten(w, g, k).value)
              && ComponentBubble(AttachComponentAsWritten(w, g, k).value, k, m, dictKeys, fuel) == Ok([])
  {
    var o := w.objects[g];
    assert NoDuplicates(o.components + [k]);
  }

  /** As written, a detached component keeps its owner and still bubbles into that object's
      tree; with the owner cleared, its bubble goes nowhere. */
  lemma DetachedComponentBubbles(w: World, g: ObjId, k: CompId, m: Message, dictKeys: DictOrder, fuel: nat)
    requires Valid(w) && g in w.objects && k in w.objects[g].components && w.components[k].owner == Some(g)
    ensures DetachComponentAsWritten(w, g, k).Ok? && DetachComponent(w, g, k).Ok?
    ensures DetachComponentAsWritten(w, g, k).value.components[k].owner == Some(g)
    ensures DetachComponent(w, g, k).value.components[k].owner.None?
  {
  }

  /** A two-object witness for the propagation fault: a parent with one child, both with fresh
      filters and no components. The intended delivery reaches the child and calls nothing; as
      written, the parent's receive raises AttributeError. */
  lemma PropagationWitness(dictKeys: DictOrder)
    ensures var w := World(map[0 := NewGameObject("root").(children := [1]),
                               1 := NewGameObject("leaf").(parent := Some(0))], map[]);
            Valid(w)
            && ReceiveAsWritten(w, 0, Message("update", NoneObj, true), dictKeys) == Err(AttributeError)
            && Receive(w, 0, Message("update", NoneObj, true), dictKeys, 2) == Ok([])
  {
    var w := World(map[0 := NewGameObject("root").(children := [1]),
                       1 := NewGameObject("leaf").(parent := Some(0))], map[]);
    assert w.objects[0].children == [1];
    assert 1 in w.objects[0].children && FiltersAccept(w.objects[1].filters, w.objects[1].name);
    assert ReceiveAll(w, [], Message("update", NoneObj, true), dictKeys, 0) == Ok([]);
    var m := Message("update", NoneObj, true);
    assert w.objects[1].children == [] && w.objects[1].components == [];
    assert FiltersAccept(w.objects[1].filters, m.name);
    assert ComponentCalls(w, [], m, dictKeys) == [];
    assert ReceiveAll(w, [], m, dictKeys, 0) == Ok([]);
    assert Valid(w);
    var g := w.objects[1];
    var calls := ComponentCalls(w, g.components, m, dictKeys);
    assert calls == [];
    assert ReceiveAll(w, g.children, m, dictKeys, 0) == Ok([]);
    assert !ReceiveAll(w, g.children, m, dictKeys, 0).IsFailure();
    assert ReceiveAll(w, g.children, m, dictKeys, 0).Extract() == [];
    assert calls + [] == [];
    assert Receive(w, 1, m, dictKeys, 1) == Ok(calls + ReceiveAll(w, g.children, m, dictKeys, 0).Extract());
    assert Receive(w, 1, m, dictKeys, 1) == Ok([]);
    assert ReceiveAll(w, [1], Message("update", NoneObj, true), dictKeys, 1) == Ok([]);
  }

  /* ---------------- Lookups ---------------- */

  /** What a search that comes back empty leaves out: nothing below `p`, at any depth, has the
      name. */
  lemma {:induction false} ChildByNameComplete(w: World, p: ObjId, name: string, fuel: nat, x: ObjId, d: nat)
    requires Valid(w) && p in w.objects
    requires GetChildByName(w, p, name, true, fuel) == Ok(None)
    requires Below(w, p, x, d)
    ensures !HasName(w, x, name)
    decreases d
  {
    var kids := w.objects[p].children;
    assert FirstIndex(kids, NamedIn(w, name)).None?;
    if x !in kids {
      var c :| c in kids && Below(w, c, x, d - 1);
      SearchChildrenNone(w, kids, name, fuel - 1, c);
      ChildByNameComplete(w, c, name, fuel - 1, x, d - 1);
    } else {
      var j :| 0 <= j < |kids| && kids[j] == x;
      assert !NamedIn(w, name)(kids[j]);
    }
  }

  /** When the depth-first part finds nothing, no child's own search found anything. */
  lemma {:induction false} SearchChildrenNone(w: World, ids: seq<ObjId>, name: string, fuel: nat, c: ObjId)
    requires Valid(w) && forall i :: i in ids ==> i in w.objects
    requires SearchChildren(w, ids, name, fuel) == Ok(None) && c in ids
    ensures GetChildByName(w, c, name, true, fuel) == Ok(None)
    decreases |ids|
  {
    if c != ids[0] {
      assert c in ids[1..];
      SearchChildrenNone(w, ids[1..], name, fuel, c);
    }
  }

  /** get_child_by_name with `search_children`, whenever it finishes: it finds nothing exactly when
      no object below `p`, at any depth, has the name; what it does find lies below `p`. */
  lemma ChildByNameExact(w: World, p: ObjId, name: string, fuel: nat)
    requires Valid(w) && p in w.objects
    ensures var r := GetChildByName(w, p, name, true, fuel);
            r.Ok? ==> (r.value.None? <==> NoneBelow(w, p, name))
  {
    var r := GetChildByName(w, p, name, true, fuel);
    if r == Ok(None) {
      forall x, d | Below(w, p, x, d) ensures !HasName(w, x, name) {
        ChildByNameComplete(w, p, name, fuel, x, d);
      }
    } else if r.Ok? {
      assert Below(w, p, r.value.value, fuel) && HasName(w, r.value.value, name);
    }
  }

  /** One step of the depth-first part: the first child's own search, then the rest. */
  lemma SearchChildrenUnfold(w: World, ids: seq<ObjId>, name: string, fuel: nat)
    requires Valid(w) && |ids| > 0 && forall i :: i in ids ==> i in w.objects
    ensures var first := GetChildByName(w, ids[0], name, true, fuel);
            first == Ok(None) ==> SearchChildren(w, ids, name, fuel) == SearchChildren(w, ids[1..], name, fuel)
    ensures var first := GetChildByName(w, ids[0], name, true, fuel);
            first.Ok? && first.value.Some? ==> SearchChildren(w, ids, name, fuel) == first
    ensures GetChildByName(w, ids[0], name, true, fuel).Err? ==> SearchChildren(w, ids, name, fuel).Err?
  {
  }

  /** An empty search below the first child, and none below the next `i` children, leave
      nothing below the first `i + 1`. */
  lemma NoneBelowPrefix(w: World, ids: seq<ObjId>, name: string, i: nat)
    requires 0 <= i < |ids| - 1 && NoneBelow(w, ids[0], name)
    requires forall j :: 0 <= j < i ==> NoneBelow(w, ids[1..][j], name)
    ensures forall j :: 0 <= j < i + 1 ==> NoneBelow(w, ids[j], name)
  {
    forall j | 0 <= j < i + 1 ensures NoneBelow(w, ids[j], name) {
      if j > 0 {
        assert ids[j] == ids[1..][j - 1];
      }
    }
  }

  /** The depth-first order: the hit is the own search result of the first child below which the
      name occurs at all; below every earlier child, at any depth, nothing has the name. */
  lemma {:induction false} SearchChildrenFirstHit(w: World, ids: seq<ObjId>, name: string, fuel: nat)
    requires Valid(w) && forall i :: i in ids ==> i in w.objects
    requires SearchChildren(w, ids, name, fuel).Ok? && SearchChildren(w, ids, name, fuel).value.Some?
    ensures exists i :: 0 <= i < |ids| && GetChildByName(w, ids[i], name, true, fuel) == SearchChildren(w, ids, name, fuel)
                        && forall j :: 0 <= j < i ==> NoneBelow(w, ids[j], name)
    decreases |ids|, 1
  {
    var first := GetChildByName(w, ids[0], name, true, fuel);
    SearchChildrenUnfold(w, ids, name, fuel);
    if first.Ok? && first.value.Some? {
      assert GetChildByName(w, ids[0], name, true, fuel) == SearchChildren(w, ids, name, fuel);
    } else {
      FirstHitAfterMiss(w, ids, name, fuel);
    }
  }

  /** The induction step of the depth-first order: the first child's search came back empty. */
  lemma {:induction false} FirstHitAfterMiss(w: World, ids: seq<ObjId>, name: string, fuel: nat)
    requires Valid(w) && |ids| > 0 && forall i :: i in ids ==> i in w.objects
    requires GetChildByName(w, ids[0], name, true, fuel) == Ok(None)
    requires SearchChildren(w, ids[1..], name, fuel).Ok? && SearchChildren(w, ids[1..], name, fuel).value.Some?
    ensures exists i :: 0 <= i < |ids| && GetChildByName(w, ids[i], name, true, fuel) == SearchChildren(w, ids[1..], name, fuel)
                        && forall j :: 0 <= j < i ==> NoneBelow(w, ids[j], name)
    decreases |ids|, 0
  {
    var r := SearchChildren(w, ids[1..], name, fuel);
    assert forall i :: i in ids[1..] ==> i in w.objects;
    SearchChildrenFirstHit(w, ids[1..], name, fuel);
    var i :| 0 <= i < |ids[1..]| && GetChildByName(w, ids[1..][i], name, true, fuel) == r
             && forall j :: 0 <= j < i ==> NoneBelow(w, ids[1..][j], name);
    assert NoneBelow(w, ids[0], name) by {
      forall y, d | Below(w, ids[0], y, d) ensures !HasName(w, y, name) {
        ChildByNameComplete(w, ids[0], name, fuel, y, d);
      }
    }
    NoneBelowPrefix(w, ids, name, i);
    assert ids[i + 1] == ids[1..][i];
  }

  /** Attaching a child makes it the last one, at index -1, and leaves every earlier index where
      it was. */
  lemma AttachThenIndex(w: World, p: ObjId, c: ObjId, index: int)
    requires p in w.objects && c in w.objects && c !in w.objects[p].children
    ensures AttachChild(w, p, c).Ok?
    ensures GetChildByIndex(AttachChild(w, p, c).value, p, -1) == Ok(c)
    ensures 0 <= index < |w.objects[p].children| ==>
              GetChildByIndex(AttachChild(w, p, c).value, p, index) == GetChildByIndex(w, p, index)
  {
  }

  /** Attaching a component makes it the last one, at index -1, and leaves every earlier index
      where it was. */
  lemma AttachComponentThenIndex(w: World, g: ObjId, k: CompId, index: int)
    requires g in w.objects && k in w.components && k !in w.objects[g].components
    ensures AttachComponent(w, g, k).Ok?
    ensures GetComponentByIndex(AttachComponent(w, g, k).value, g, -1) == Some(k)
    ensures 0 <= index < |w.objects[g].components| ==>
              GetComponentByIndex(AttachComponent(w, g, k).value, g, index) == GetComponentByIndex(w, g, index)
  {
  }

  /** Appending to a sequence changes its first match only when it had none. */
  lemma {:induction false} FirstIndexAppend<T>(s: seq<T>, x: T, p: T -> bool)
    ensures FirstIndex(s + [x], p) == if FirstIndex(s, p).Some? then FirstIndex(s, p)
                                      else if p(x) then Some(|s|) else None
  {
    if |s| == 0 {
      assert s + [x] == [x];
    } else {
      assert (s + [x])[1..] == s[1..] + [x];
      FirstIndexAppend(s[1..], x, p);
    }
  }

  /** Two tests that agree on every element have the same first match. */
  lemma {:induction false} FirstIndexSameOn<T>(s: seq<T>, p: T -> bool, q: T -> bool)
    requires forall i :: 0 <= i < |s| ==> p(s[i]) == q(s[i])
    ensures FirstIndex(s, p) == FirstIndex(s, q)
  {
    if |s| > 0 {
      FirstIndexSameOn(s[1..], p, q);
    }
  }

  /** After attaching `k`, the first component passing a test that ignores the owner is the one
      found before, or `k` itself when none was found and `k` passes. */
  lemma FirstComponentAfterAttach(w: World, g: ObjId, k: CompId, test: Component -> bool)
    requires Valid(w) && g in w.objects && k in w.components && k !in w.objects[g].components
    requires test(w.components[k].(owner := Some(g))) == test(w.components[k])
    ensures AttachComponent(w, g, k).Ok?
    ensures var before := FirstComponent(w, g, test);
            FirstComponent(AttachComponent(w, g, k).value, g, test)
              == if before.Some? then before else if test(w.components[k]) then Some(k) else None
  {
    var w' := AttachComponent(w, g, k).value;
    var cs := w.objects[g].components;
    var p := (j: CompId) => j in w.components && test(w.components[j]);
    var p' := (j: CompId) => j in w'.components && test(w'.components[j]);
    assert forall i :: 0 <= i < |cs| ==> cs[i] != k;
    FirstIndexSameOn(cs, p', p);
    FirstIndexAppend(cs, k, p');
    assert w'.objects[g].components == cs + [k];
  }

  /** After attaching `k`, a lookup by k's type finds what it found before, or `k` itself when no
      component attached earlier has that type. */
  lemma AttachThenFindByType(w: World, g: ObjId, k: CompId)
    requires Valid(w) && g in w.objects && k in w.components && k !in w.objects[g].components
    ensures AttachComponent(w, g, k).Ok?
    ensures var t := w.components[k].typeName;
            var before := GetComponentByType(w, g, t);
            GetComponentByType(AttachComponent(w, g, k).value, g, t) == if before.Some? then before else Some(k)
  {
    FirstComponentAfterAttach(w, g, k, (c: Component) => c.typeName == w.components[k].typeName);
  }

  /** After attaching `k`, a lookup by k's name finds what it found before, or `k` itself when no
      component attached earlier has that name. */
  lemma AttachThenFindByName(w: World, g: ObjId, k: CompId)
    requires Valid(w) && g in w.objects && k in w.components && k !in w.objects[g].components
    ensures AttachComponent(w, g, k).Ok?
    ensures var n := w.components[k].name;
            var before := GetComponentByName(w, g, n);
            GetComponentByName(AttachComponent(w, g, k).value, g, n) == if before.Some? then before else Some(k)
  {
    FirstComponentAfterAttach(w, g, k, (c: Component) => c.name == w.components[k].name);
  }

  /** Attaching an ownerless component and detaching it again gives back the same world. */
  lemma AttachComponentThenDetach(w: World, g: ObjId, k: CompId)
    requires g in w.objects && k in w.components
    requires k !in w.objects[g].components && w.components[k].owner.None?
    ensures AttachComponent(w, g, k).Ok?
    ensures DetachComponent(AttachComponent(w, g, k).value, g, k) == Ok(w)
  {
    var w1 := AttachComponent(w, g, k).value;
    RemoveAppended(w.objects[g].components, k);
    var w2 := DetachComponent(w1, g, k).value;
    assert w2.objects[g] == w.objects[g];
    assert w2.objects == w.objects;
    assert w2.components[k] == w.components[k];
    assert w2.components == w.components;
  }
}
