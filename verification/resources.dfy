/** resource_manager.py: a store of resources keyed by their names, which refuses a second
    resource under a name already taken. */
module ResourceManager {
  import opened Wrappers
  import opened Py

  type Store<R> = map<string, R>

  /** store_resource: a taken name is a ValueError; otherwise the resource goes in under its own
      name. */
  function StoreResource<R>(store: Store<R>, resource: R, nameOf: R -> string): (r: Result<Store<R>, Exc>)
    ensures r.Err? <==> nameOf(resource) in store
    ensures r.Err? ==> r.error == ValueError
    ensures r.Ok? ==> r.value.Keys == store.Keys + {nameOf(resource)}
    ensures r.Ok? ==> forall n :: n in store ==> r.value[n] == store[n]
  {
    var name := nameOf(resource);
    if name in store then Err(ValueError) else Ok(store[name := resource])
  }

  /** get_resource_by_name: a KeyError for a name never stored. */
  function GetResourceByName<R>(store: Store<R>, name: string): (r: Result<R, Exc>)
    ensures r.Err? <==> name !in store
    ensures r.Err? ==> r.error == KeyError
    ensures r.Ok? ==> name in store && r.value == store[name]
  {
    if name in store then Ok(store[name]) else Err(KeyError)
  }

  /** What is stored can be fetched back by its name, and every other name fetches what it did
      before. */
  lemma StoreThenGet<R>(store: Store<R>, resource: R, nameOf: R -> string, other: string)
    requires nameOf(resource) !in store
    ensures StoreResource(store, resource, nameOf).Ok?
    ensures GetResourceByName(StoreResource(store, resource, nameOf).value, nameOf(resource)) == Ok(resource)
    ensures other != nameOf(resource) ==>
              GetResourceByName(StoreResource(store, resource, nameOf).value, other) == GetResourceByName(store, other)
  {
  }
}

/** resource_import.py: the registry from object types to importer functions. Both error messages
    format the type's `__name__`; a key without one (a string, say) turns the ValueError into the
    AttributeError raised while the message is built. */
module ResourceImport {
  import opened Wrappers
  import opened Py

  type Registry<K, F> = map<K, F>

  /** The exception raised for a type the registry refuses: ValueError, unless formatting the
      message fails first because the key has no `__name__`. */
  function RefusalFor<K>(objType: K, hasNameAttr: K -> bool): (x: Exc)
    ensures hasNameAttr(objType) <==> x == ValueError
    ensures !hasNameAttr(objType) <==> x == AttributeError
  {
    if hasNameAttr(objType) then ValueError else AttributeError
  }

  /** register_importer: with either argument missing it hands back the function and leaves the
      registry alone; a type already registered is refused; otherwise the type maps to the
      function, which is handed back. */
  function RegisterImporter<K, F>(registry: Registry<K, F>, func: Option<F>, objType: Option<K>, hasNameAttr: K -> bool)
    : (r: Result<(Registry<K, F>, Option<F>), Exc>)
    ensures func.None? || objType.None? ==> r == Ok((registry, func))
    ensures func.Some? && objType.Some? ==> (r.Err? <==> objType.value in registry)
    ensures r.Err? ==> r.error == RefusalFor(objType.value, hasNameAttr)
    ensures func.Some? && objType.Some? && r.Ok? ==>
              r.value.1 == func && r.value.0 == registry[objType.value := func.value]
  {
    match (func, objType)
    case (Some(f), Some(k)) =>
      if k in registry then Err(RefusalFor(k, hasNameAttr)) else Ok((registry[k := f], func))
    case _ => Ok((registry, func))
  }

  /** get_importer as written: an unregistered type is refused, and a registered one gives None,
      because the function never returns what it looked up. */
  function GetImporterAsWritten<K, F>(registry: Registry<K, F>, objType: K, hasNameAttr: K -> bool)
    : (r: Result<Option<F>, Exc>)
    ensures r.Err? <==> objType !in registry
    ensures r.Err? ==> r.error == RefusalFor(objType, hasNameAttr)
    ensures r.Ok? ==> r.value == None
  {
    if objType !in registry then Err(RefusalFor(objType, hasNameAttr)) else Ok(None)
  }

  /** get_importer as intended: the registered function. */
  function GetImporter<K, F>(registry: Registry<K, F>, objType: K, hasNameAttr: K -> bool): (r: Result<F, Exc>)
    ensures r.Err? <==> objType !in registry
    ensures r.Err? ==> r.error == RefusalFor(objType, hasNameAttr)
    ensures r.Ok? ==> objType in registry && r.value == registry[objType]
  {
    if objType !in registry then Err(RefusalFor(objType, hasNameAttr)) else Ok(registry[objType])
  }

  /** After a registration, the intended lookup gives the registered function back, while the
      lookup as written gives None; registering the same type again is refused. */
  lemma RegisterThenGet<K, F>(registry: Registry<K, F>, func: F, objType: K, hasNameAttr: K -> bool)
    requires objType !in registry
    ensures RegisterImporter(registry, Some(func), Some(objType), hasNameAttr).Ok?
    ensures var reg := RegisterImporter(registry, Some(func), Some(objType), hasNameAttr).value.0;
            && GetImporter(reg, objType, hasNameAttr) == Ok(func)
            && GetImporterAsWritten(reg, objType, hasNameAttr) == Ok(None)
            && RegisterImporter(reg, Some(func), Some(objType), hasNameAttr)
               == Err(RefusalFor(objType, hasNameAttr))
  {
  }
}
