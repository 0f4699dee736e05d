/** Entity identity (worker/util.py, `get_hash`): the id of a Weibull entity
    is the SHA-256 hex digest of the service id followed by the sorted
    "key value" pieces of its config, joined with no separator.

    SHA-256 is not modelled: every member takes the digest as a function
    parameter, so what is proved holds for any hash function. */
module Util {
  import opened Lex

  /** One config entry as `dict.items()` yields it: key text and value text. */
  type Entry = (string, string)

  /** `"{}{}".format(key, val)`: key text immediately followed by value text. */
  function Piece(e: Entry): string
  {
    e.0 + e.1
  }

  /** One piece per config entry, in the dict's iteration order. */
  function Pieces(config: seq<Entry>): (r: seq<string>)
    ensures |r| == |config|
    ensures forall i :: 0 <= i < |config| ==> r[i] == Piece(config[i])
  {
    if config == [] then [] else [Piece(config[0])] + Pieces(config[1..])
  }

  /** `"".join(pieces)` */
  function Concat(pieces: seq<string>): string
  {
    if pieces == [] then "" else pieces[0] + Concat(pieces[1..])
  }

  /** The string that is hashed: `service_id + "".join(sorted pieces)`. */
  function PreImage(serviceId: string, config: seq<Entry>): string
  {
    serviceId + Concat(Sort(Pieces(config)))
  }

  /** `get_hash(service_id, config)` with the digest as a parameter. */
  function GetHash(digest: string -> string, serviceId: string, config: seq<Entry>): string
  {
    digest(PreImage(serviceId, config))
  }

  lemma {:induction false} PiecesAppend(a: seq<Entry>, b: seq<Entry>)
    ensures Pieces(a + b) == Pieces(a) + Pieces(b)
  {
    assert |Pieces(a + b)| == |Pieces(a) + Pieces(b)|;
    forall i | 0 <= i < |a + b|
      ensures Pieces(a + b)[i] == (Pieces(a) + Pieces(b))[i]
    {
      if i < |a| { assert (a + b)[i] == a[i]; } else { assert (a + b)[i] == b[i - |a|]; }
    }
  }

  lemma {:induction false} MultisetRemoveAt<T>(s: seq<T>, j: int)
    requires 0 <= j < |s|
    ensures multiset(s[..j] + s[j + 1..]) == multiset(s) - multiset{s[j]}
  {
    assert s == s[..j] + [s[j]] + s[j + 1..];
  }

  lemma {:induction false} PiecesRemoveAt(c: seq<Entry>, j: int)
    requires 0 <= j < |c|
    ensures multiset(Pieces(c)) == multiset(Pieces(c[..j] + c[j + 1..])) + multiset{Piece(c[j])}
  {
    var a, b := c[..j], c[j + 1..];
    assert c == a + [c[j]] + b;
    PiecesAppend(a + [c[j]], b);
    PiecesAppend(a, [c[j]]);
    PiecesAppend(a, b);
    var pa, pb := Pieces(a), Pieces(b);
    assert Pieces(c) == pa + [Piece(c[j])] + pb;
    assert multiset(Pieces(c)) == multiset(pa) + multiset{Piece(c[j])} + multiset(pb);
  }

  lemma RemoveMatching(c1: seq<Entry>, c2: seq<Entry>, j: int)
    requires multiset(c1) == multiset(c2) && 0 <= j < |c2| && |c1| > 0 && c2[j] == c1[0]
    ensures multiset(c1[1..]) == multiset(c2[..j] + c2[j + 1..])
  {
    assert c1 == [c1[0]] + c1[1..];
    MultisetRemoveAt(c2, j);
  }

  /** Reordering the entries reorders the pieces and nothing else. */
  lemma {:induction false} PiecesOfPermutation(c1: seq<Entry>, c2: seq<Entry>)
    requires multiset(c1) == multiset(c2)
    ensures multiset(Pieces(c1)) == multiset(Pieces(c2))
  {
    if c1 == [] || c2 == [] {
      assert |c1| == |multiset(c1)| == |multiset(c2)| == |c2|;
    } else {
      assert c1[0] in multiset(c2);
      var j :| 0 <= j < |c2| && c2[j] == c1[0];
      var rest1, rest2 := c1[1..], c2[..j] + c2[j + 1..];
      RemoveMatching(c1, c2, j);
      PiecesOfPermutation(rest1, rest2);
      PiecesRemoveAt(c2, j);
      assert Pieces(c1) == [Piece(c1[0])] + Pieces(rest1);
    }
  }

  /** The pre-image does not depend on the order of the config entries. */
  lemma PreImageOrderFree(serviceId: string, c1: seq<Entry>, c2: seq<Entry>)
    requires multiset(c1) == multiset(c2)
    ensures PreImage(serviceId, c1) == PreImage(serviceId, c2)
  {
    PiecesOfPermutation(c1, c2);
    SortOrderFree(Pieces(c1), Pieces(c2));
  }

  /** Reordering the entries of `config` never changes the id, whatever the
      digest. */
  lemma GetHashOrderFree(digest: string -> string, serviceId: string, c1: seq<Entry>, c2: seq<Entry>)
    requires multiset(c1) == multiset(c2)
    ensures GetHash(digest, serviceId, c1) == GetHash(digest, serviceId, c2)
  {
    PreImageOrderFree(serviceId, c1, c2);
  }

  /** The hashed string is exactly the service id followed by the pieces in
      sorted order, concatenated with no separator: any sorted arrangement of
      the pieces gives it. */
  lemma PreImageShape(serviceId: string, config: seq<Entry>, sorted: seq<string>)
    requires Sorted(sorted) && multiset(sorted) == multiset(Pieces(config))
    ensures PreImage(serviceId, config) == serviceId + Concat(sorted)
  {
    SortedUnique(Sort(Pieces(config)), sorted);
  }

  /** Because the pieces are joined with no separator, only the multiset of
      pieces matters: configs whose pieces agree get the same id even when
      their entries differ, e.g. `{"ab": "c"}` and `{"a": "bc"}`, or any two
      entries with `k1 + v1 == k2 + v2`. */
  lemma PieceBoundaryCollision(digest: string -> string, serviceId: string, c1: seq<Entry>, c2: seq<Entry>)
    requires multiset(Pieces(c1)) == multiset(Pieces(c2))
    ensures GetHash(digest, serviceId, c1) == GetHash(digest, serviceId, c2)
  {
    SortOrderFree(Pieces(c1), Pieces(c2));
  }

  /** The single-entry case: splitting the same text differently between key
      and value does not change the id. */
  lemma SplitEntryCollision(digest: string -> string, serviceId: string, k1: string, v1: string, k2: string, v2: string)
    requires k1 + v1 == k2 + v2
    ensures GetHash(digest, serviceId, [(k1, v1)]) == GetHash(digest, serviceId, [(k2, v2)])
  {
    PieceBoundaryCollision(digest, serviceId, [(k1, v1)], [(k2, v2)]);
  }
}
