/** Named, versioned objects: what the API server keeps of every kind. */
module Store {
  /** types.NamespacedName, and client.ObjectKey. */
  datatype Key = Key(ns: string, name: string)

  /** An object as read or stored, with its resourceVersion. */
  datatype Obj<+T> = Obj(rv: nat, it: T)

  /** Every stored version was issued before `clock`. */
  ghost predicate Stamped<T>(m: map<Key, Obj<T>>, clock: nat) {
    forall k <- m :: m[k].rv <= clock
  }

  /** What is stored when a value is written: a new version, unless nothing changes. */
  function Stored<T(==)>(m: map<Key, Obj<T>>, k: Key, it: T, clock: nat): Obj<T> {
    if k in m && m[k].it == it then m[k] else Obj(clock + 1, it)
  }

  function Put<T(==)>(m: map<Key, Obj<T>>, k: Key, it: T, clock: nat): map<Key, Obj<T>> {
    m[k := Stored(m, k, it, clock)]
  }

  /** Between two moments, an object either stayed as it was or carries a
      version issued after the earlier moment. */
  ghost predicate Newer<T>(m: map<Key, Obj<T>>, m': map<Key, Obj<T>>, clock: nat) {
    forall k <- m' :: (k in m && m[k] == m'[k]) || m'[k].rv > clock
  }

  /** A copy read earlier still describes the stored object whenever the two
      carry the same version. */
  ghost predicate Faithful<T>(m: map<Key, Obj<T>>, k: Key, o: Obj<T>, clock: nat) {
    o.rv <= clock && (k in m && m[k].rv == o.rv ==> m[k] == o)
  }

  lemma StaysFaithful<T>(m: map<Key, Obj<T>>, m': map<Key, Obj<T>>, k: Key, o: Obj<T>, clock: nat, clock': nat)
    requires Faithful(m, k, o, clock) && Newer(m, m', clock) && clock <= clock'
    ensures Faithful(m', k, o, clock')
  {
  }

  /** An update based on the copy `o` is accepted: it carries the stored version. */
  predicate Current<T>(m: map<Key, Obj<T>>, k: Key, o: Obj<T>) {
    k in m && m[k].rv == o.rv
  }

  /** The entries of `m` under `keys`, each exactly once, in any order. */
  ghost predicate Lists<T>(items: seq<(Key, T)>, m: map<Key, T>, keys: set<Key>) {
    && (forall i :: 0 <= i < |items| ==> items[i].0 in keys && items[i].0 in m && items[i].1 == m[items[i].0])
    && (forall i, j :: 0 <= i < j < |items| ==> items[i].0 != items[j].0)
    && (forall k <- keys :: exists i :: 0 <= i < |items| && items[i].0 == k)
  }

  /** The keys of one namespace. */
  function InNamespace<T>(m: map<Key, T>, ns: string): set<Key> {
    set k | k in m && k.ns == ns
  }

  method Enumerate<T>(m: map<Key, T>, keys: set<Key>) returns (items: seq<(Key, T)>)
    requires keys <= m.Keys
    ensures Lists(items, m, keys)
  {
    items := [];
    var rest := keys;
    while rest != {}
      invariant rest <= keys
      invariant Lists(items, m, keys - rest)
      decreases rest
    {
      var k :| k in rest;
      ghost var before, done := items, keys - rest;
      items := items + [(k, m[k])];
      rest := rest - {k};
      forall j <- keys - rest ensures exists i :: 0 <= i < |items| && items[i].0 == j {
        if j == k {
          assert items[|before|].0 == k;
        } else {
          assert j in done;
          var i :| 0 <= i < |before| && before[i].0 == j;
          assert items[i].0 == j;
        }
      }
    }
    assert keys - rest == keys;
  }
}
