/** Facts about the images of maps, used for the list-returning queries. */
module Collections {

  /** The values `f` gives to the entries of `m` under `keys`. */
  function MapImage<K, V, W>(m: map<K, V>, keys: set<K>, f: V -> W): (r: set<W>)
    requires keys <= m.Keys
    ensures forall k :: k in keys ==> f(m[k]) in r
    ensures forall w :: w in r ==> exists k :: k in keys && w == f(m[k])
  {
    set k | k in keys :: f(m[k])
  }

  /** `f` tells apart the entries of `m` under `keys`. */
  ghost predicate InjectiveOn<K, V, W>(m: map<K, V>, keys: set<K>, f: V -> W)
    requires keys <= m.Keys
  {
    forall a, b :: a in keys && b in keys && f(m[a]) == f(m[b]) ==> a == b
  }

  /** An image taken through an injective view has one element per key. */
  lemma {:induction false} MapImageSize<K, V, W>(m: map<K, V>, keys: set<K>, f: V -> W)
    requires keys <= m.Keys
    requires InjectiveOn(m, keys, f)
    ensures |MapImage(m, keys, f)| == |keys|
    decreases keys
  {
    if keys != {} {
      var k :| k in keys;
      var rest := keys - {k};
      MapImageSize(m, rest, f);
      assert MapImage(m, keys, f) == MapImage(m, rest, f) + {f(m[k])};
      assert f(m[k]) !in MapImage(m, rest, f);
    }
  }
}
