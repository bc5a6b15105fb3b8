/** The operator's memory of the object versions it has already synced (pkg/common/cache.go). */
module Cache {
  import opened Kube

  /** `kind` is None for an object whose TypeMeta is not filled in. */
  datatype CacheKey = CacheKey(kind: Option<Kind>, name: string, ns: string)

  datatype Stamp = Stamp(uid: nat, rv: nat, gen: nat)

  type Versions = map<CacheKey, Stamp>

  function CacheKeyOf(o: Obj): CacheKey {
    CacheKey(if o.typed then Some(o.kind) else None, o.name, o.ns)
  }

  function StampOf(o: Obj): Stamp {
    Stamp(o.uid, o.rv, o.gen)
  }

  /** A stamp speaks about an object: the same uid and, for kinds that count generations, the same
      generation, for the others the same non-empty resource version. */
  predicate Matches(stamp: Stamp, o: Obj) {
    && o.uid == stamp.uid
    && if o.gen == 0 then o.rv != 0 && o.rv == stamp.rv else stamp.gen == o.gen
  }

  predicate Hit(c: Versions, o: Obj) {
    CacheKeyOf(o) in c && Matches(c[CacheKeyOf(o)], o)
  }

  function Added(c: Versions, o: Obj): Versions {
    if o.typed then c[CacheKeyOf(o) := StampOf(o)] else c
  }

  function Forgotten(c: Versions, o: Obj): Versions {
    c - {CacheKeyOf(o)}
  }

  /** After an object was added, the cache knows exactly the versions of it with the same stamp, and knows
      about all other objects what it knew before; an object without a kind is never added. */
  lemma AddedKnows(c: Versions, o: Obj, seen: Obj)
    ensures Hit(Added(c, o), seen) <==>
              if o.typed && seen.typed && seen.kind == o.kind && seen.name == o.name && seen.ns == o.ns
              then seen.uid == o.uid && (if seen.gen == 0 then seen.rv == o.rv != 0 else seen.gen == o.gen)
              else Hit(c, seen)
  {
    hide Matches;
    assert Matches(StampOf(o), seen) <==>
             seen.uid == o.uid && (if seen.gen == 0 then seen.rv == o.rv != 0 else seen.gen == o.gen)
      by { StampMatches(o, seen); }
  }

  lemma StampMatches(o: Obj, seen: Obj)
    ensures Matches(StampOf(o), seen) <==>
              seen.uid == o.uid && (if seen.gen == 0 then seen.rv == o.rv != 0 else seen.gen == o.gen)
  {
  }

  /** After an object was removed, the cache knows no version of it, and all others as before. */
  lemma ForgottenUnknown(c: Versions, o: Obj, seen: Obj)
    ensures Hit(Forgotten(c, o), seen) <==> CacheKeyOf(seen) != CacheKeyOf(o) && Hit(c, seen)
  {
  }

  class VersionCache {
    var versions: Versions

    constructor ()
      ensures versions == map[]
    {
      versions := map[];
    }

    method Contains(o: Obj) returns (hit: bool)
      ensures hit == Hit(versions, o)
    {
      var key := CacheKeyOf(o);
      if key !in versions {
        return false;
      }
      var cached := versions[key];
      if o.uid != cached.uid {
        return false;
      }
      if o.gen == 0 {
        return o.rv != 0 && o.rv == cached.rv;
      }
      return cached.gen == o.gen;
    }

    method Add(o: Obj)
      modifies this
      ensures versions == Added(old(versions), o)
    {
      if !o.typed {
        return;
      }
      versions := versions[CacheKeyOf(o) := StampOf(o)];
    }

    method RemoveObj(o: Obj)
      modifies this
      ensures versions == Forgotten(old(versions), o)
    {
      versions := versions - {CacheKeyOf(o)};
    }
  }
}
