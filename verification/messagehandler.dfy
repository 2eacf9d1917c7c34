/** message_handler.py: the white list, black list and accept-by-default flag that game objects
    and components share, and the rule that combines them. Message types are message names. */
module MessageHandler {
  import opened Wrappers
  import opened Py

  datatype Filters = Filters(whiteList: seq<string>, blackList: seq<string>, acceptByDefault: bool)

  /** A fresh handler: both lists empty and messages accepted by default. */
  function NewFilters(): (r: Filters)
    ensures r.whiteList == [] && r.blackList == [] && r.acceptByDefault
  {
    Filters([], [], true)
  }

  predicate NoDuplicates<T(==)>(s: seq<T>) {
    forall i, j :: 0 <= i < j < |s| ==> s[i] != s[j]
  }

  /** Python's list.remove: the first occurrence goes. */
  function RemoveFirst<T(==)>(s: seq<T>, x: T): (r: seq<T>)
    requires x in s
    ensures |r| == |s| - 1
    ensures multiset(r) == multiset(s) - multiset{x}
    decreases |s|
  {
    assert s == [s[0]] + s[1..];
    if s[0] == x then s[1..]
    else [s[0]] + RemoveFirst(s[1..], x)
  }

  /** list.remove cuts out exactly the first occurrence: what precedes it and what follows it
      stay, in order. */
  lemma {:induction false} RemoveFirstSplices<T>(s: seq<T>, x: T)
    requires x in s
    ensures exists i :: && 0 <= i < |s| && s[i] == x && (forall j :: 0 <= j < i ==> s[j] != x)
                        && RemoveFirst(s, x) == s[..i] + s[i + 1..]
    decreases |s|
  {
    if s[0] == x {
      assert s[..0] == [] && RemoveFirst(s, x) == s[0 + 1..];
    } else {
      assert x in s[1..] by { assert s == [s[0]] + s[1..]; }
      RemoveFirstSplices(s[1..], x);
      var t := s[1..];
      var i :| && 0 <= i < |t| && t[i] == x && (forall j :: 0 <= j < i ==> t[j] != x)
               && RemoveFirst(t, x) == t[..i] + t[i + 1..];
      assert RemoveFirst(s, x) == [s[0]] + (t[..i] + t[i + 1..]);
      SliceTail(s, i);
      var k := i + 1;
      assert forall j :: 0 <= j < k ==> s[j] != x by {
        forall j | 0 <= j < k ensures s[j] != x {
          if j > 0 { assert s[j] == t[j - 1]; }
        }
      }
      assert s[k] == x && RemoveFirst(s, x) == s[..k] + s[k + 1..];
    }
  }

  /** Slices of a sequence's tail, as slices of the sequence. */
  lemma SliceTail<T>(s: seq<T>, i: nat)
    requires i + 1 < |s|
    ensures [s[0]] + (s[1..][..i] + s[1..][i + 1..]) == s[..i + 1] + s[i + 1 + 1..]
  {
    assert s[..i + 1] == [s[0]] + s[1..][..i];
    assert s[i + 1 + 1..] == s[1..][i + 1..];
  }

  /** The list a truthy `white_list` argument selects: the white list, otherwise the black list. */
  function FilterList(f: Filters, white: bool): seq<string> {
    if white then f.whiteList else f.blackList
  }

  function WithFilterList(f: Filters, white: bool, list: seq<string>): (r: Filters)
    ensures FilterList(r, white) == list
    ensures FilterList(r, !white) == FilterList(f, !white)
    ensures r.acceptByDefault == f.acceptByDefault
  {
    if white then f.(whiteList := list) else f.(blackList := list)
  }

  /** add_message_filter: a type already on the selected list is a ValueError; otherwise it is
      appended to that list and nothing else changes. */
  function AddMessageFilter(f: Filters, messageType: string, whiteList: PyObj): (r: Result<Filters, Exc>)
    ensures r.Err? <==> messageType in FilterList(f, Truthy(whiteList))
    ensures r.Err? ==> r.error == ValueError
    ensures r.Ok? ==> FilterList(r.value, Truthy(whiteList)) == FilterList(f, Truthy(whiteList)) + [messageType]
    ensures r.Ok? ==> FilterList(r.value, !Truthy(whiteList)) == FilterList(f, !Truthy(whiteList))
    ensures r.Ok? ==> r.value.acceptByDefault == f.acceptByDefault
  {
    var white := Truthy(whiteList);
    var list := FilterList(f, white);
    if messageType in list then Err(ValueError)
    else Ok(WithFilterList(f, white, list + [messageType]))
  }

  /** remove_message_filter: a type missing from the selected list is a ValueError; otherwise its
      first occurrence is removed from that list and nothing else changes. */
  function RemoveMessageFilter(f: Filters, messageType: string, whiteList: PyObj): (r: Result<Filters, Exc>)
    ensures r.Err? <==> messageType !in FilterList(f, Truthy(whiteList))
    ensures r.Err? ==> r.error == ValueError
    ensures r.Ok? ==> |FilterList(r.value, Truthy(whiteList))| == |FilterList(f, Truthy(whiteList))| - 1
    ensures r.Ok? ==> multiset(FilterList(r.value, Truthy(whiteList)))
                      == multiset(FilterList(f, Truthy(whiteList))) - multiset{messageType}
    ensures r.Ok? ==> FilterList(r.value, !Truthy(whiteList)) == FilterList(f, !Truthy(whiteList))
    ensures r.Ok? ==> r.value.acceptByDefault == f.acceptByDefault
  {
    var white := Truthy(whiteList);
    var list := FilterList(f, white);
    if messageType !in list then Err(ValueError)
    else Ok(WithFilterList(f, white, RemoveFirst(list, messageType)))
  }

  /** The accept_messages_by_default setter stores the truth value of what it is given. */
  function SetAcceptByDefault(f: Filters, value: PyObj): (r: Filters)
    ensures r.acceptByDefault <==> Truthy(value)
    ensures r.whiteList == f.whiteList && r.blackList == f.blackList
  {
    f.(acceptByDefault := Truthy(value))
  }

  /** The shared acceptance rule: the white list wins over the black list, which wins over the
      default. */
  predicate FiltersAccept(f: Filters, name: string) {
    if name in f.whiteList then true
    else if name in f.blackList then false
    else f.acceptByDefault
  }

  /* ---------------- Laws ---------------- */

  /** Removing an element appended to a list that did not hold it gives the list back. */
  lemma {:induction false} RemoveAppended<T>(s: seq<T>, x: T)
    requires x !in s
    ensures RemoveFirst(s + [x], x) == s
    decreases |s|
  {
    if s != [] {
      assert (s + [x])[0] == s[0];
      assert (s + [x])[1..] == s[1..] + [x];
      RemoveAppended(s[1..], x);
      assert [s[0]] + s[1..] == s;
    }
  }

  /** Adding a filter and then removing it restores the handler exactly. */
  lemma AddThenRemove(f: Filters, messageType: string, whiteList: PyObj)
    requires AddMessageFilter(f, messageType, whiteList).Ok?
    ensures RemoveMessageFilter(AddMessageFilter(f, messageType, whiteList).value, messageType, whiteList) == Ok(f)
  {
    RemoveAppended(FilterList(f, Truthy(whiteList)), messageType);
  }

  /** Both lists stay free of duplicates under adding and removing. */
  lemma FiltersStayDuplicateFree(f: Filters, messageType: string, whiteList: PyObj)
    requires NoDuplicates(f.whiteList) && NoDuplicates(f.blackList)
    ensures AddMessageFilter(f, messageType, whiteList).Ok? ==>
              var g := AddMessageFilter(f, messageType, whiteList).value;
              NoDuplicates(g.whiteList) && NoDuplicates(g.blackList)
    ensures RemoveMessageFilter(f, messageType, whiteList).Ok? ==>
              var g := RemoveMessageFilter(f, messageType, whiteList).value;
              NoDuplicates(g.whiteList) && NoDuplicates(g.blackList)
              && messageType !in FilterList(g, Truthy(whiteList))
  {
    var white := Truthy(whiteList);
    var list := FilterList(f, white);
    if messageType in list {
      RemoveKeepsDistinct(list, messageType);
    } else {
      AppendKeepsDistinct(list, messageType);
    }
  }

  lemma AppendKeepsDistinct<T>(s: seq<T>, x: T)
    requires NoDuplicates(s) && x !in s
    ensures NoDuplicates(s + [x])
  {
  }

  /** Removing from a duplicate-free list keeps it duplicate-free and drops the element. */
  lemma {:induction false} RemoveKeepsDistinct<T>(s: seq<T>, x: T)
    requires NoDuplicates(s) && x in s
    ensures NoDuplicates(RemoveFirst(s, x)) && x !in RemoveFirst(s, x)
    decreases |s|
  {
    TailDistinct(s);
    if s[0] != x {
      RemoveKeepsDistinct(s[1..], x);
      var r := RemoveFirst(s[1..], x);
      RemovedCameFromList(s[1..], x, s[0]);
      ConsDistinct(s[0], r);
    }
  }

  lemma TailDistinct<T>(s: seq<T>)
    requires NoDuplicates(s) && |s| > 0
    ensures NoDuplicates(s[1..]) && s[0] !in s[1..]
  {
    forall i, j | 0 <= i < j < |s[1..]| ensures s[1..][i] != s[1..][j] {
      assert s[1..][i] == s[i + 1] && s[1..][j] == s[j + 1];
    }
    forall k | 0 <= k < |s[1..]| ensures s[1..][k] != s[0] {
      assert s[1..][k] == s[k + 1];
    }
  }

  lemma ConsDistinct<T>(a: T, r: seq<T>)
    requires NoDuplicates(r) && a !in r
    ensures NoDuplicates([a] + r)
  {
    forall i, j | 0 <= i < j < |[a] + r| ensures ([a] + r)[i] != ([a] + r)[j] {
      assert ([a] + r)[j] == r[j - 1];
      if i > 0 {
        assert ([a] + r)[i] == r[i - 1];
      }
    }
  }

  lemma RemovedCameFromList<T>(s: seq<T>, x: T, y: T)
    requires x in s && y !in s
    ensures y !in RemoveFirst(s, x)
  {
    assert multiset(s)[y] == 0;
    assert multiset(RemoveFirst(s, x))[y] == 0;
  }

  /** The acceptance rule in full: a white-listed name is accepted even if black-listed; a
      black-listed name that is not white-listed is refused; any other name follows the default. */
  lemma AcceptancePrecedence(f: Filters, name: string)
    ensures name in f.whiteList ==> FiltersAccept(f, name)
    ensures name !in f.whiteList && name in f.blackList ==> !FiltersAccept(f, name)
    ensures name !in f.whiteList && name !in f.blackList ==> (FiltersAccept(f, name) <==> f.acceptByDefault)
  {
  }
}
