/** The namespaced key-value store (worker/handlers/db.py). One physical
    leveldb map; a namespace is a key prefix, so `put(ns, k, v)` writes the
    physical key `ns + k`. The global lock is not modelled: every operation is
    one atomic step. */
module Db {
  import opened Results
  import opened Models
  import opened Lex

  /** The prefixes the handlers use. */
  const WeibullNs: string := "weibull-"
  const JobsNs: string := "jobs-"
  const ModelsNs: string := "models-"

  datatype KeyError = KeyError(key: string)

  /** `DB.get`: the value under `ns + key`; a missing or empty value raises
      `KeyError(key)`. */
  function Lookup(kvs: map<string, Doc>, ns: string, key: string): (r: Result<Doc, KeyError>)
    ensures r.Ok? <==> ns + key in kvs && !Empty(kvs[ns + key])
    ensures r.Ok? ==> r.value == kvs[ns + key]
    ensures r.Err? ==> r.error == KeyError(key)
  {
    if ns + key in kvs && !Empty(kvs[ns + key]) then Ok(kvs[ns + key]) else Err(KeyError(key))
  }

  /** The keys of namespace `ns`: suffixes of the physical keys it prefixes. */
  function Suffixes(kvs: map<string, Doc>, ns: string): (r: set<string>)
    ensures forall k :: k in r <==> ns + k in kvs
  {
    var r := set p | p in kvs && ns <= p :: p[|ns|..];
    assert forall k :: ns + k in kvs ==> (ns + k)[|ns|..] == k;
    assert forall p :: p in kvs && ns <= p ==> ns + p[|ns|..] == p;
    r
  }

  /** Strictly increasing in code-point order: sorted and duplicate-free. */
  ghost predicate Increasing(s: seq<string>)
  {
    forall i, j :: 0 <= i < j < |s| ==> Below(s[i], s[j]) && s[i] != s[j]
  }

  lemma SameElementsEmpty(a: seq<string>, b: seq<string>)
    requires forall k :: k in a <==> k in b
    ensures a == [] <==> b == []
  {
    if a != [] {
      assert a[0] in b;
    }
    if b != [] {
      assert b[0] in a;
    }
  }

  /** The key list of a namespace is determined by its set of keys: two
      strictly increasing lists with the same elements are equal. */
  lemma {:induction false} KeyListUnique(a: seq<string>, b: seq<string>)
    requires Increasing(a) && Increasing(b)
    requires forall k :: k in a <==> k in b
    ensures a == b
  {
    SameElementsEmpty(a, b);
    if a != [] && b != [] {
      assert a[0] in b && b[0] in a;
      var i :| 0 <= i < |a| && a[i] == b[0];
      var j :| 0 <= j < |b| && b[j] == a[0];
      if i != 0 && j != 0 {
        BelowAntisym(a[0], b[0]);
      }
      assert a[0] == b[0];
      forall k
        ensures k in a[1..] <==> k in b[1..]
      {
        assert k in a[1..] <==> k in a && k != a[0];
        assert k in b[1..] <==> k in b && k != b[0];
      }
      KeyListUnique(a[1..], b[1..]);
      assert a == [a[0]] + a[1..] && b == [b[0]] + b[1..];
    }
  }

  /** After `put(ns, k, v)` with a non-empty `v`, `get(ns, k)` returns `v`. */
  lemma GetAfterPut(kvs: map<string, Doc>, ns: string, k: string, v: Doc)
    requires !Empty(v)
    ensures Lookup(kvs[ns + k := v], ns, k) == Ok(v)
  {
  }

  /** A `put` of the empty value reads back as missing. */
  lemma GetAfterEmptyPut(kvs: map<string, Doc>, ns: string, k: string)
    ensures Lookup(kvs[ns + k := Text("")], ns, k) == Err(KeyError(k))
  {
  }

  /** After `delete(ns, k)`, `get(ns, k)` raises and every other physical
      key keeps its value. */
  lemma GetAfterDelete(kvs: map<string, Doc>, ns: string, k: string)
    ensures Lookup(kvs - {ns + k}, ns, k) == Err(KeyError(k))
    ensures forall p :: p != ns + k ==> (p in kvs - {ns + k} <==> p in kvs)
    ensures forall p :: p in kvs && p != ns + k ==> (kvs - {ns + k})[p] == kvs[p]
  {
  }

  /** Two namespaces are separate when neither prefix extends the other. */
  predicate Separate(ns1: string, ns2: string)
  {
    !(ns1 <= ns2) && !(ns2 <= ns1)
  }

  /** No key of a namespace is a physical key of a separate namespace. */
  lemma SeparateKeysDiffer(ns1: string, ns2: string, k1: string, k2: string)
    requires Separate(ns1, ns2)
    ensures ns1 + k1 != ns2 + k2
  {
    if |ns1| <= |ns2| {
      assert (ns1 + k1)[..|ns1|] == ns1 != ns2[..|ns1|] == (ns2 + k2)[..|ns1|];
    } else {
      assert (ns2 + k2)[..|ns2|] == ns2 != ns1[..|ns2|] == (ns1 + k1)[..|ns2|];
    }
  }

  /** Writing or deleting under one namespace never changes the key list of
      a separate one. */
  lemma WriteKeepsSeparateNamespace(kvs: map<string, Doc>, ns: string, other: string, k: string, v: Doc)
    requires Separate(ns, other)
    ensures Suffixes(kvs[ns + k := v], other) == Suffixes(kvs, other)
    ensures Suffixes(kvs - {ns + k}, other) == Suffixes(kvs, other)
    ensures forall j :: Lookup(kvs[ns + k := v], other, j) == Lookup(kvs, other, j)
    ensures forall j :: Lookup(kvs - {ns + k}, other, j) == Lookup(kvs, other, j)
  {
    forall j
      ensures ns + k != other + j
    {
      SeparateKeysDiffer(ns, other, k, j);
    }
  }

  /** The three prefixes the code uses are pairwise separate. */
  lemma CodeNamespacesSeparate()
    ensures Separate(WeibullNs, JobsNs) && Separate(WeibullNs, ModelsNs) && Separate(JobsNs, ModelsNs)
  {
    assert WeibullNs[0] == 'w' && JobsNs[0] == 'j' && ModelsNs[0] == 'm';
  }

  /** The store: one map from physical keys to values. */
  class Store {
    var kvs: map<string, Doc>

    /** `plyvel.DB(st_path, create_if_missing=True)`: opens whatever is
        already stored. */
    constructor (stored: map<string, Doc>)
      ensures kvs == stored
    {
      kvs := stored;
    }

    /** `DB.put`: writes physical key `ns + key`; nothing else changes. */
    method Put(ns: string, key: string, value: Doc)
      modifies this
      ensures kvs == old(kvs)[ns + key := value]
    {
      kvs := kvs[ns + key := value];
    }

    /** `DB.get` */
    method Get(ns: string, key: string) returns (r: Result<Doc, KeyError>)
      ensures r == Lookup(kvs, ns, key)
    {
      if ns + key in kvs && !Empty(kvs[ns + key]) {
        r := Ok(kvs[ns + key]);
      } else {
        r := Err(KeyError(key));
      }
    }

    /** `DB.delete`: removes physical key `ns + key` if present. */
    method Delete(ns: string, key: string)
      modifies this
      ensures kvs == old(kvs) - {ns + key}
    {
      kvs := kvs - {ns + key};
    }

    /** `DB.list_keys`: the keys of namespace `ns`, each once, in the order
        the leveldb iterator visits them (ascending). Keys whose value is
        empty are listed too. */
    method ListKeys(ns: string) returns (keys: seq<string>)
      ensures Increasing(keys)
      ensures forall k :: k in keys <==> ns + k in kvs
    {
      var rest := set p | p in kvs && ns <= p :: p[|ns|..];
      assert rest == Suffixes(kvs, ns);
      keys := [];
      while rest != {}
        invariant forall k :: k in keys || k in rest <==> ns + k in kvs
        invariant forall k :: k in keys ==> k !in rest
        invariant Increasing(keys)
        invariant forall i, x :: 0 <= i < |keys| && x in rest ==> Below(keys[i], x)
        decreases rest
      {
        ghost var least := LeastExists(rest);
        var m :| m in rest && forall x :: x in rest ==> Below(m, x);
        keys := keys + [m];
        rest := rest - {m};
      }
    }
  }
}
