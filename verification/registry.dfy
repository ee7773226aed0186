/**
 * The two dictionary shapes the stores are built from: an id map with a name
 * index beside it, and the listing of a dictionary's values.
 */
module Registry {

  /**
   * Entities filed by id and, when they have a non-empty name, by name. The
   * name index is a second dictionary, not derived from the first: it is only
   * as consistent as the operations keep it.
   */
  datatype Index<T> = Index(byId: map<int, T>, byName: map<string, T>)

  function EmptyIndex<T>(): Index<T>
  {
    Index(map[], map[])
  }

  /** Files `e` under `id`, replacing any entry there, and under `name` when the name is non-empty. */
  function Put<T>(ix: Index<T>, id: int, name: string, e: T): (r: Index<T>)
    ensures r.byId.Keys == ix.byId.Keys + {id} && r.byId[id] == e
    ensures forall k :: k in ix.byId && k != id ==> r.byId[k] == ix.byId[k]
    ensures name != "" ==> r.byName.Keys == ix.byName.Keys + {name} && r.byName[name] == e
    ensures name != "" ==> forall n :: n in ix.byName && n != name ==> r.byName[n] == ix.byName[n]
    ensures name == "" ==> r.byName == ix.byName
  {
    Index(ix.byId[id := e], if name != "" then ix.byName[name := e] else ix.byName)
  }

  /**
   * Removes the entry under `id`, then the name entry keyed by the removed
   * entity's name, whatever entity that name now keys. An absent id changes
   * nothing.
   */
  function Pop<T>(ix: Index<T>, id: int, nameOf: T -> string): (r: Index<T>)
    ensures id !in ix.byId ==> r == ix
    ensures id in ix.byId ==> r.byId.Keys == ix.byId.Keys - {id}
    ensures id in ix.byId ==> r.byName.Keys == ix.byName.Keys - {nameOf(ix.byId[id])}
    ensures forall k :: k in r.byId ==> r.byId[k] == ix.byId[k]
    ensures forall n :: n in r.byName ==> r.byName[n] == ix.byName[n]
  {
    if id in ix.byId then
      var e := ix.byId[id];
      Index(ix.byId - {id}, ix.byName - {nameOf(e)})
    else ix
  }

  /**
   * Lists a dictionary's entries: every key exactly once, each with its value.
   * The listing order is left open, as the order of a dictionary's values is
   * not something callers may rely on.
   */
  method ListEntries<K, V>(m: map<K, V>) returns (ks: seq<K>, vs: seq<V>)
    ensures |ks| == |vs| == |m|
    ensures forall i :: 0 <= i < |ks| ==> ks[i] in m && vs[i] == m[ks[i]]
    ensures forall k :: k in m ==> k in ks
    ensures forall i, j :: 0 <= i < j < |ks| ==> ks[i] != ks[j]
  {
    ks, vs := [], [];
    var rest := m.Keys;
    while rest != {}
      invariant rest <= m.Keys
      invariant |ks| == |vs|
      invariant forall i :: 0 <= i < |ks| ==> ks[i] in m && ks[i] !in rest && vs[i] == m[ks[i]]
      invariant forall k :: k in m ==> k in ks || k in rest
      invariant forall i, j :: 0 <= i < j < |ks| ==> ks[i] != ks[j]
      invariant |ks| + |rest| == |m|
      decreases rest
    {
      var k :| k in rest;
      ks, vs := ks + [k], vs + [m[k]];
      rest := rest - {k};
    }
  }

  /**
   * A set whose elements are tagged, one-to-one, with the keys of a map has as
   * many elements as the map has keys.
   */
  lemma {:induction false} KeyedImageSize<K, V, E>(m: map<K, V>, s: set<E>, key: E -> K)
    requires forall e :: e in s ==> key(e) in m
    requires forall k :: k in m ==> exists e :: e in s && key(e) == k
    requires forall a, b :: a in s && b in s && key(a) == key(b) ==> a == b
    ensures |s| == |m|
    decreases |m|
  {
    if m.Keys != {} {
      var k :| k in m.Keys;
      var e :| e in s && key(e) == k;
      var m' := m - {k};
      var s' := s - {e};
      forall k2 | k2 in m'
        ensures exists e2 :: e2 in s' && key(e2) == k2
      {
        var e2 :| e2 in s && key(e2) == k2;
        assert e2 != e;
      }
      KeyedImageSize(m', s', key);
      assert |m'| == |m| - 1;
    }
  }
}
