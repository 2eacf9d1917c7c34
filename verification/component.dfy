/** component.py (with message.py): a component accepts a message only when it has a handler
    named after it, and calls that handler with the message data unpacked into arguments. */
module Component {
  import opened Wrappers
  import opened Py
  import opened MessageHandler

  type ObjId = nat
  type CompId = nat

  /** A Message: its name, its data (None when absent) and whether it propagates to children. */
  datatype Message = Message(name: string, data: PyObj, propagate: bool)

  /** A component: `handlers` are the names of its callable attributes (what getattr and callable
      find), `typeName` its exact class, `owner` its `_owner` attribute. */
  datatype Component = Component(name: string, typeName: string, handlers: set<string>,
                                 filters: Filters, owner: Option<ObjId>)

  /** One handler invocation: which component, which method, with which arguments. */
  datatype HandlerCall = HandlerCall(component: CompId, handler: string, args: seq<PyObj>)

  /** The order in which iterating a dict yields its keys (insertion order in Python, which the
      model's maps do not record). */
  type DictOrder = map<string, PyObj> -> seq<string>

  /** Python's iteration protocol on the modelled values: None for an object that is not
      iterable. A string yields its characters as one-character strings. */
  function Iterate(o: PyObj, dictKeys: DictOrder): (r: Option<seq<PyObj>>)
    ensures o.List? || o.Tuple? ==> r == Some(o.items)
    ensures o.Str? ==> r.Some? && |r.value| == |o.s| && forall i :: 0 <= i < |o.s| ==> r.value[i] == Str([o.s[i]])
    ensures o.NoneObj? || o.Bool? || o.Int? || o.Float? ==> r.None?
  {
    match o
    case List(items) => Some(items)
    case Tuple(items) => Some(items)
    case Str(s) => Some(seq(|s|, i requires 0 <= i < |s| => Str([s[i]])))
    case Dict(d) => var ks := dictKeys(d); Some(seq(|ks|, i requires 0 <= i < |ks| => Str(ks[i])))
    case _ => None
  }

  /** The argument tuple receive_message builds: no arguments for None, the items of iterable
      data, and the data itself as the single argument otherwise. */
  function UnpackArgs(data: PyObj, dictKeys: DictOrder): (r: seq<PyObj>)
    ensures data.NoneObj? ==> r == []
    ensures data.List? || data.Tuple? ==> r == data.items
    ensures !data.NoneObj? && Iterate(data, dictKeys).None? ==> r == [data]
  {
    if data.NoneObj? then []
    else match Iterate(data, dictKeys)
      case Some(items) => items
      case None => [data]
  }

  /** accept_message: without a handler of the message's name the answer is no, whatever the
      lists say; otherwise the shared white list / black list / default rule decides. */
  predicate ComponentAccepts(c: Component, m: Message) {
    m.name in c.handlers && FiltersAccept(c.filters, m.name)
  }

  /** receive_message: a refused message calls nothing; an accepted one calls the handler named
      after it with the unpacked data. */
  function ComponentReceive(id: CompId, c: Component, m: Message, dictKeys: DictOrder): (r: Option<HandlerCall>)
    ensures r.Some? <==> ComponentAccepts(c, m)
    ensures r.Some? ==> r.value.component == id && r.value.handler == m.name && r.value.handler in c.handlers
    ensures r.Some? ==> r.value.args == UnpackArgs(m.data, dictKeys)
  {
    if !ComponentAccepts(c, m) then None
    else Some(HandlerCall(id, m.name, UnpackArgs(m.data, dictKeys)))
  }

  /** A component's acceptance in full: no handler means no, and with a handler the white list
      beats the black list, which beats the default. */
  lemma ComponentAcceptance(c: Component, m: Message)
    ensures m.name !in c.handlers ==> !ComponentAccepts(c, m)
    ensures m.name in c.handlers && m.name in c.filters.whiteList ==> ComponentAccepts(c, m)
    ensures m.name in c.handlers && m.name !in c.filters.whiteList && m.name in c.filters.blackList
            ==> !ComponentAccepts(c, m)
    ensures m.name in c.handlers && m.name !in c.filters.whiteList && m.name !in c.filters.blackList
            ==> (ComponentAccepts(c, m) <==> c.filters.acceptByDefault)
  {
  }

  /** Unpacking examples: a tuple spreads into arguments, a number is one argument, a string
      spreads into its characters. */
  lemma UnpackExamples(dictKeys: DictOrder)
    ensures UnpackArgs(Tuple([Int(1), Int(2)]), dictKeys) == [Int(1), Int(2)]
    ensures UnpackArgs(Float(2.5), dictKeys) == [Float(2.5)]
    ensures UnpackArgs(Str("ab"), dictKeys) == [Str("a"), Str("b")]
    ensures UnpackArgs(NoneObj, dictKeys) == []
  {
  }
}
