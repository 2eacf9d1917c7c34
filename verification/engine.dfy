/** engine.py: the registry of loaded scenes by root name and the active scene, and the messages
    that loading, unloading and activating send. Opening the descriptor and running the importer
    are outside the model: their outcome is a parameter. */
module Engine {
  import opened Wrappers
  import opened Py
  import opened Component
  import opened GameObject
  import opened ResourceImport

  datatype Engine = Engine(world: World, scenes: map<string, ObjId>, active: Option<ObjId>)

  /** The result of one engine call: the state afterwards, the handler calls made, and the
      exception that ended the call, if any. */
  datatype Step = Step(engine: Engine, calls: seq<HandlerCall>, error: Option<Exc>)

  predicate EngineValid(e: Engine) {
    && Valid(e.world)
    && (forall n :: n in e.scenes ==> e.scenes[n] in e.world.objects)
    && (e.active.Some? ==> e.active.value in e.world.objects)
  }

  /** The exceptions load_scene turns into SceneError. */
  predicate Wrapped(x: Exc) {
    x == OSError || x == ValueError || x == TypeError || x == KeyError
  }

  /** A message with no data that propagates, as engine.py builds them. */
  function Event(name: string): (m: Message)
    ensures m.name == name && m.data == NoneObj && m.propagate
  {
    Message(name, NoneObj, true)
  }

  /** The exception a lookup raised, if it raised one. */
  function Raised<F>(lookup: Result<F, Exc>): (x: Option<Exc>)
    ensures x.Some? <==> lookup.Err?
    ensures x.Some? ==> x.value == lookup.error
  {
    match lookup
    case Err(x) => Some(x)
    case Ok(_) => None
  }

  /** load_scene, from two outcomes: `lookupError` is what the importer lookup raised, which
      propagates as it is because the lookup comes before the try block; `imported` is what
      opening the descriptor and running the importer produced, a world holding the imported
      tree and its root. */
  function LoadScene(e: Engine, lookupError: Option<Exc>, imported: Result<(World, ObjId), Exc>, dictKeys: DictOrder, fuel: nat): (r: Step)
    requires imported.Ok? ==> Valid(imported.value.0) && imported.value.1 in imported.value.0.objects
    requires imported.Ok? ==> forall n :: n in e.scenes ==> e.scenes[n] in imported.value.0.objects
    requires imported.Ok? && e.active.Some? ==> e.active.value in imported.value.0.objects
    ensures lookupError.Some? ==> r == Step(e, [], lookupError)
    ensures lookupError.None? && imported.Err? ==>
              && r.engine == e && r.calls == []
              && r.error == Some(if Wrapped(imported.error) then SceneError else imported.error)
    ensures lookupError.None? && imported.Ok? && imported.value.0.objects[imported.value.1].name in e.scenes
            ==> r == Step(e, [], Some(SceneError))
    ensures lookupError.None? && imported.Ok? && imported.value.0.objects[imported.value.1].name !in e.scenes ==>
              var (w, root) := imported.value;
              && r.engine == Engine(w, e.scenes[w.objects[root].name := root], e.active)
              && (Receive(w, root, Event("loading"), dictKeys, fuel).Ok? ==>
                    r.calls == Receive(w, root, Event("loading"), dictKeys, fuel).value && r.error.None?)
              && (Receive(w, root, Event("loading"), dictKeys, fuel).Err? ==> r.error == Some(RecursionError))
    ensures EngineValid(e) ==> EngineValid(r.engine)
  {
    if lookupError.Some? then Step(e, [], lookupError)
    else match imported
    case Err(x) => Step(e, [], Some(if Wrapped(x) then SceneError else x))
    case Ok((w, root)) =>
      var name := w.objects[root].name;
      if name in e.scenes then Step(e, [], Some(SceneError))
      else
        var e' := Engine(w, e.scenes[name := root], e.active);
        match Receive(w, root, Event("loading"), dictKeys, fuel)
        case Ok(calls) => Step(e', calls, None)
        case Err(x) => Step(e', [], Some(x))
  }

  /** With GameObject missing from the importer registry, load_scene ends in the lookup's own
      ValueError, not in a SceneError, whatever the descriptor holds. */
  lemma LoadSceneUnregistered<K, F>(e: Engine, registry: Registry<K, F>, gameObjectType: K, hasNameAttr: K -> bool,
                                    imported: Result<(World, ObjId), Exc>, dictKeys: DictOrder, fuel: nat)
    requires gameObjectType !in registry && hasNameAttr(gameObjectType)
    requires imported.Ok? ==> Valid(imported.value.0) && imported.value.1 in imported.value.0.objects
    requires imported.Ok? ==> forall n :: n in e.scenes ==> e.scenes[n] in imported.value.0.objects
    requires imported.Ok? && e.active.Some? ==> e.active.value in imported.value.0.objects
    ensures var lookup := GetImporterAsWritten(registry, gameObjectType, hasNameAttr);
            LoadScene(e, Raised(lookup), imported, dictKeys, fuel) == Step(e, [], Some(ValueError))
  {
  }

  /** unload_scene: an unknown name is a SceneError; otherwise the scene receives 'unloading' and
      only then leaves the registry, so a failing delivery leaves it registered. */
  function UnloadScene(e: Engine, name: string, dictKeys: DictOrder, fuel: nat): (r: Step)
    requires EngineValid(e)
    ensures name !in e.scenes ==> r == Step(e, [], Some(SceneError))
    ensures name in e.scenes && Receive(e.world, e.scenes[name], Event("unloading"), dictKeys, fuel).Ok? ==>
              && r.engine == e.(scenes := e.scenes - {name})
              && r.calls == Receive(e.world, e.scenes[name], Event("unloading"), dictKeys, fuel).value
              && r.error.None?
    ensures name in e.scenes && Receive(e.world, e.scenes[name], Event("unloading"), dictKeys, fuel).Err? ==>
              r.engine == e && r.error == Some(RecursionError)
    ensures EngineValid(r.engine)
  {
    if name !in e.scenes then Step(e, [], Some(SceneError))
    else match Receive(e.world, e.scenes[name], Event("unloading"), dictKeys, fuel)
      case Ok(calls) => Step(e.(scenes := e.scenes - {name}), calls, None)
      case Err(x) => Step(e, [], Some(x))
  }

  /** activate_scene: the previous active scene, if any, receives 'deactivating', then the new
      one receives 'activating', and only then does it become active. */
  function ActivateScene(e: Engine, scene: ObjId, dictKeys: DictOrder, fuel: nat): (r: Step)
    requires EngineValid(e) && scene in e.world.objects
    ensures r.error.None? <==> (e.active.None? || Receive(e.world, e.active.value, Event("deactivating"), dictKeys, fuel).Ok?)
                               && Receive(e.world, scene, Event("activating"), dictKeys, fuel).Ok?
    ensures r.error.Some? ==> r.engine == e && r.error == Some(RecursionError)
    ensures r.error.None? ==> r.engine == e.(active := Some(scene))
    ensures e.active.None? && Receive(e.world, scene, Event("activating"), dictKeys, fuel).Ok? ==>
              r == Step(e.(active := Some(scene)), Receive(e.world, scene, Event("activating"), dictKeys, fuel).value, None)
    ensures EngineValid(r.engine)
  {
    var before: Result<seq<HandlerCall>, Exc> :=
      match e.active
      case None => Ok([])
      case Some(a) => Receive(e.world, a, Event("deactivating"), dictKeys, fuel);
    match before
    case Err(x) => Step(e, [], Some(x))
    case Ok(first) =>
      match Receive(e.world, scene, Event("activating"), dictKeys, fuel)
      case Err(x) => Step(e, first, Some(x))
      case Ok(second) => Step(e.(active := Some(scene)), first + second, None)
  }

  /* ---------------- Laws ---------------- */

  /** Loading a scene under a new name and unloading that name leaves the registry as it was. */
  lemma LoadThenUnload(e: Engine, w: World, root: ObjId, dictKeys: DictOrder, fuel: nat)
    requires EngineValid(e) && Valid(w) && root in w.objects
    requires forall n :: n in e.scenes ==> e.scenes[n] in w.objects
    requires e.active.Some? ==> e.active.value in w.objects
    requires w.objects[root].name !in e.scenes
    requires Receive(w, root, Event("loading"), dictKeys, fuel).Ok?
    requires Receive(w, root, Event("unloading"), dictKeys, fuel).Ok?
    ensures var loaded := LoadScene(e, None, Ok((w, root)), dictKeys, fuel);
            loaded.error.None?
            && UnloadScene(loaded.engine, w.objects[root].name, dictKeys, fuel).error.None?
            && UnloadScene(loaded.engine, w.objects[root].name, dictKeys, fuel).engine.scenes == e.scenes
  {
    var name := w.objects[root].name;
    var loaded := LoadScene(e, None, Ok((w, root)), dictKeys, fuel);
    assert loaded.engine.scenes == e.scenes[name := root];
    assert loaded.engine.scenes - {name} == e.scenes;
  }

  /** Loading the same scene twice: the second attempt fails with SceneError and changes nothing. */
  lemma LoadTwiceFails(e: Engine, w: World, root: ObjId, dictKeys: DictOrder, fuel: nat)
    requires EngineValid(e) && Valid(w) && root in w.objects
    requires forall n :: n in e.scenes ==> e.scenes[n] in w.objects
    requires e.active.Some? ==> e.active.value in w.objects
    requires w.objects[root].name !in e.scenes
    ensures var once := LoadScene(e, None, Ok((w, root)), dictKeys, fuel);
            LoadScene(once.engine, None, Ok((w, root)), dictKeys, fuel) == Step(once.engine, [], Some(SceneError))
  {
  }

  /** Activation calls only 'deactivating' and 'activating' handlers, and once an 'activating'
      handler has run no 'deactivating' one follows: the previous scene hears about it first. */
  lemma ActivationOrder(e: Engine, scene: ObjId, dictKeys: DictOrder, fuel: nat)
    requires EngineValid(e) && scene in e.world.objects
    ensures var r := ActivateScene(e, scene, dictKeys, fuel);
            && (forall i :: 0 <= i < |r.calls| ==> r.calls[i].handler == "deactivating" || r.calls[i].handler == "activating")
            && (forall i, j :: 0 <= i < j < |r.calls| && r.calls[i].handler == "activating" ==> r.calls[j].handler == "activating")
  {
    var r := ActivateScene(e, scene, dictKeys, fuel);
    var first: seq<HandlerCall> :=
      match e.active
      case None => []
      case Some(a) => if Receive(e.world, a, Event("deactivating"), dictKeys, fuel).Ok?
                      then Receive(e.world, a, Event("deactivating"), dictKeys, fuel).value else [];
    assert forall c :: c in first ==> c.handler == "deactivating";
    if r.error.None? {
      var second := Receive(e.world, scene, Event("activating"), dictKeys, fuel).value;
      assert r.calls == first + second;
      assert forall i :: 0 <= i < |first| ==> r.calls[i] in first;
      assert forall i :: |first| <= i < |r.calls| ==> r.calls[i] in second;
    } else {
      assert r.calls == [] || r.calls == first;
      assert forall i :: 0 <= i < |r.calls| ==> r.calls[i] in first;
    }
  }
}
