// The registry of Data API cache keys kept in Redis: each endpoint prefix has
// an index set "data_api_index:<prefix>" listing the keys cached for it, and
// invalidating a prefix deletes every listed key together with the index.
// Redis is a keyspace of plain values and sets; a key holding a plain value
// where a set is expected makes the set commands fail, as Redis's WRONGTYPE
// reply does.
module CacheUtils {
  import opened Wrappers
  import opened Text
  import opened Json

  /** A Redis value: a plain value with its timeout, or a set of member keys with its expiry. */
  datatype Stored = Blob(value: Value, ttl: int) | Members(keys: set<string>, expiry: Option<int>)

  type Keyspace = map<string, Stored>

  const IndexPrefix: string := "data_api_index:"

  /** The three endpoint prefixes that "invalidate all" clears. */
  const AllPrefixes: seq<string> := ["employees_for_matching", "previous_matches", "employee_interests"]

  /** A Data API cache key: "data_api:<prefix>:<digest>". */
  function DataKey(prefix: string, digest: string): string
  {
    "data_api:" + prefix + ":" + digest
  }

  function IndexSetName(prefix: string): string
  {
    IndexPrefix + prefix
  }

  predicate IsIndexName(k: string)
  {
    StartsWith(k, IndexPrefix)
  }

  /** Index names are named after their prefix and nothing else, and no data key is an index name. */
  lemma IndexNaming(p1: string, p2: string, digest: string)
    ensures IsIndexName(IndexSetName(p1))
    ensures IndexSetName(p1) == IndexSetName(p2) ==> p1 == p2
    ensures !IsIndexName(DataKey(p1, digest))
  {
    if IndexSetName(p1) == IndexSetName(p2) {
      assert p1 == IndexSetName(p1)[|IndexPrefix|..];
      assert p2 == IndexSetName(p2)[|IndexPrefix|..];
    }
    assert DataKey(p1, digest)[8] == ':';
    assert IndexPrefix[8] == '_';
  }

  /**
   * The expiry given to an index when a key is registered with `ttl`: none
   * unless the ttl is truthy, and then twice the ttl but at least a minute.
   */
  function IndexExpiry(ttl: Option<int>): (e: Option<int>)
    ensures e.Some? <==> (ttl.Some? && ttl.value != 0)
    ensures e.Some? ==> e.value >= 60 && e.value >= 2 * ttl.value
    ensures e.Some? ==> (e.value == 60 || e.value == 2 * ttl.value)
  {
    if ttl.Some? && ttl.value != 0 then
      Some(if 2 * ttl.value > 60 then 2 * ttl.value else 60)
    else None
  }

  /** The keys registered for `prefix`: the members of its index, if the index is a set. */
  function Registered(ks: Keyspace, prefix: string): set<string>
  {
    var name := IndexSetName(prefix);
    if name in ks && ks[name].Members? then ks[name].keys else {}
  }

  /** The index name holds a plain value, so every set command on it fails. */
  predicate IndexBlocked(ks: Keyspace, prefix: string)
  {
    IndexSetName(prefix) in ks && ks[IndexSetName(prefix)].Blob?
  }

  /** No index lists another index among its members. */
  predicate NoIndexMembers(ks: Keyspace)
  {
    forall name, k :: name in ks && ks[name].Members? && k in ks[name].keys ==> !IsIndexName(k)
  }

  /** SADD of the key to the prefix's index, then EXPIRE when the ttl is truthy. */
  function RegisterSpec(ks: Keyspace, prefix: string, fullKey: string, ttl: Option<int>): (r: Keyspace)
    requires !IndexBlocked(ks, prefix)
    ensures Registered(r, prefix) == Registered(ks, prefix) + {fullKey}
    ensures IndexExpiry(ttl).Some? ==> r[IndexSetName(prefix)].expiry == IndexExpiry(ttl)
    ensures forall k :: k != IndexSetName(prefix) ==> (k in r <==> k in ks) && (k in r ==> r[k] == ks[k])
  {
    var name := IndexSetName(prefix);
    var kept := if name in ks then ks[name].expiry else None;
    var expiry := if IndexExpiry(ttl).Some? then IndexExpiry(ttl) else kept;
    ks[name := Members(Registered(ks, prefix) + {fullKey}, expiry)]
  }

  /** Registering an ordinary key keeps every index free of index names. */
  lemma RegisterKeepsNoIndexMembers(ks: Keyspace, prefix: string, fullKey: string, ttl: Option<int>)
    requires !IndexBlocked(ks, prefix) && NoIndexMembers(ks) && !IsIndexName(fullKey)
    ensures NoIndexMembers(RegisterSpec(ks, prefix, fullKey, ttl))
  {
  }

  /**
   * Deleting the registered keys of a prefix: every member and the index go,
   * and the count is the number of members, whether or not each member key
   * still existed.  A blocked index deletes nothing.
   */
  function DeleteSpec(ks: Keyspace, prefix: string): (r: (Keyspace, nat))
    ensures IndexBlocked(ks, prefix) ==> r == (ks, 0)
    ensures !IndexBlocked(ks, prefix) ==>
      r.1 == |Registered(ks, prefix)| && IndexSetName(prefix) !in r.0
      && (forall k :: k in Registered(ks, prefix) ==> k !in r.0)
    ensures forall k :: k in r.0 ==> k in ks && r.0[k] == ks[k]
    ensures forall k :: k in ks && k !in Registered(ks, prefix) && k != IndexSetName(prefix) ==> k in r.0
  {
    if IndexBlocked(ks, prefix) then (ks, 0)
    else (ks - Registered(ks, prefix) - {IndexSetName(prefix)}, |Registered(ks, prefix)|)
  }

  /** Prefix by prefix, in order: the final keyspace and the summed count. */
  function InvalidateSpec(ks: Keyspace, prefixes: seq<string>): (r: (Keyspace, nat))
    ensures forall k :: k in r.0 ==> k in ks && r.0[k] == ks[k]
    ensures prefixes == [] ==> r == (ks, 0)
    decreases |prefixes|
  {
    if prefixes == [] then (ks, 0)
    else
      var first := DeleteSpec(ks, prefixes[0]);
      var rest := InvalidateSpec(first.0, prefixes[1..]);
      (rest.0, first.1 + rest.1)
  }

  /** Removing keys keeps every surviving index as it was. */
  lemma SubKeyspaceKeepsNoIndexMembers(ks: Keyspace, sub: Keyspace)
    requires NoIndexMembers(ks)
    requires forall k :: k in sub ==> k in ks && sub[k] == ks[k]
    ensures NoIndexMembers(sub)
  {
  }

  /**
   * Once invalidated, no key that was registered under one of the prefixes
   * survives, provided the indexes list ordinary keys only.
   */
  lemma {:induction false} InvalidateRemovesRegistered(ks: Keyspace, prefixes: seq<string>, i: nat, k: string)
    requires NoIndexMembers(ks)
    requires i < |prefixes| && k in Registered(ks, prefixes[i])
    ensures k !in InvalidateSpec(ks, prefixes).0
    decreases |prefixes|
  {
    var first := DeleteSpec(ks, prefixes[0]);
    var rest := InvalidateSpec(first.0, prefixes[1..]);
    assert InvalidateSpec(ks, prefixes).0 == rest.0;
    var name := IndexSetName(prefixes[i]);
    if i == 0 || prefixes[i] == prefixes[0] {
      assert !IndexBlocked(ks, prefixes[0]);
      assert k !in first.0;
    } else {
      IndexNaming(prefixes[i], prefixes[0], "");
      assert name in ks && ks[name].Members?;
      assert name != IndexSetName(prefixes[0]);
      assert IsIndexName(name) by { IndexNaming(prefixes[i], prefixes[i], ""); }
      assert name !in Registered(ks, prefixes[0]);
      assert name in first.0 && first.0[name] == ks[name];
      assert Registered(first.0, prefixes[i]) == Registered(ks, prefixes[i]);
      SubKeyspaceKeepsNoIndexMembers(ks, first.0);
      assert prefixes[1..][i - 1] == prefixes[i];
      InvalidateRemovesRegistered(first.0, prefixes[1..], i - 1, k);
    }
  }

  /** No index lists `x`. */
  predicate Unlisted(ks: Keyspace, x: string)
  {
    forall name :: name in ks && ks[name].Members? ==> x !in ks[name].keys
  }

  /** A key that no index lists, and that is no index itself, survives any invalidation unchanged. */
  lemma {:induction false} InvalidateKeepsUnlisted(ks: Keyspace, prefixes: seq<string>, x: string)
    requires x in ks && Unlisted(ks, x) && !IsIndexName(x)
    ensures x in InvalidateSpec(ks, prefixes).0 && InvalidateSpec(ks, prefixes).0[x] == ks[x]
    decreases |prefixes|
  {
    if prefixes != [] {
      var first := DeleteSpec(ks, prefixes[0]);
      IndexNaming(prefixes[0], prefixes[0], "");
      assert x !in Registered(ks, prefixes[0]) && x != IndexSetName(prefixes[0]);
      assert x in first.0;
      InvalidateKeepsUnlisted(first.0, prefixes[1..], x);
    }
  }

  predicate Distinct(prefixes: seq<string>)
  {
    forall a, b :: 0 <= a < b < |prefixes| ==> prefixes[a] != prefixes[b]
  }

  /** The index sizes of the prefixes, as they stand before any deletion. */
  function IndexSizes(ks: Keyspace, prefixes: seq<string>): nat
    decreases |prefixes|
  {
    if prefixes == [] then 0
    else (if IndexBlocked(ks, prefixes[0]) then 0 else |Registered(ks, prefixes[0])|)
         + IndexSizes(ks, prefixes[1..])
  }

  /** Deleting one prefix's index leaves the indexes of the other prefixes as they were. */
  lemma DeleteKeepsOtherIndexes(ks: Keyspace, p: string, q: string)
    requires NoIndexMembers(ks) && p != q
    ensures Registered(DeleteSpec(ks, p).0, q) == Registered(ks, q)
    ensures IndexBlocked(DeleteSpec(ks, p).0, q) == IndexBlocked(ks, q)
  {
    var name := IndexSetName(q);
    IndexNaming(q, p, "");
    IndexNaming(q, q, "");
    if name in ks && !IndexBlocked(ks, p) {
      assert name !in Registered(ks, p);
    }
  }

  lemma {:induction false} IndexSizesOfSub(ks: Keyspace, p: string, prefixes: seq<string>)
    requires NoIndexMembers(ks)
    requires forall j :: 0 <= j < |prefixes| ==> prefixes[j] != p
    ensures IndexSizes(DeleteSpec(ks, p).0, prefixes) == IndexSizes(ks, prefixes)
    decreases |prefixes|
  {
    if prefixes != [] {
      DeleteKeepsOtherIndexes(ks, p, prefixes[0]);
      IndexSizesOfSub(ks, p, prefixes[1..]);
    }
  }

  /**
   * For distinct prefixes whose indexes list ordinary keys only, the total an
   * invalidation reports is the sum of the index sizes at the start: a key
   * listed under two prefixes is counted twice.
   */
  lemma {:induction false} InvalidateTotalIsIndexSizes(ks: Keyspace, prefixes: seq<string>)
    requires NoIndexMembers(ks) && Distinct(prefixes)
    ensures InvalidateSpec(ks, prefixes).1 == IndexSizes(ks, prefixes)
    decreases |prefixes|
  {
    if prefixes != [] {
      var first := DeleteSpec(ks, prefixes[0]);
      SubKeyspaceKeepsNoIndexMembers(ks, first.0);
      assert Distinct(prefixes[1..]) by {
        forall a, b | 0 <= a < b < |prefixes[1..]| ensures prefixes[1..][a] != prefixes[1..][b] {
          assert prefixes[1..][a] == prefixes[a + 1] && prefixes[1..][b] == prefixes[b + 1];
        }
      }
      assert forall j :: 0 <= j < |prefixes[1..]| ==> prefixes[1..][j] != prefixes[0] by {
        forall j | 0 <= j < |prefixes[1..]| ensures prefixes[1..][j] != prefixes[0] {
          assert prefixes[1..][j] == prefixes[j + 1];
        }
      }
      InvalidateTotalIsIndexSizes(first.0, prefixes[1..]);
      IndexSizesOfSub(ks, prefixes[0], prefixes[1..]);
    }
  }

  /** The Redis connection that django_redis hands out, with the keyspace behind it. */
  class RedisConnection {
    var keys: Keyspace
    /** Whether the server answers. */
    var up: bool
    /** Whether django_redis could be imported at all. */
    const clientLoaded: bool

    constructor(keys: Keyspace, up: bool, clientLoaded: bool)
      ensures this.keys == keys && this.up == up && this.clientLoaded == clientLoaded
    {
      this.keys := keys;
      this.up := up;
      this.clientLoaded := clientLoaded;
    }

    predicate Live()
      reads this
    {
      clientLoaded && up
    }

    /**
     * Register `fullKey` under `prefix`: True when the index took the key;
     * False, changing nothing, without a client, with the server down or
     * with a plain value where the index should be.
     */
    method RegisterDataApiKey(prefix: string, fullKey: string, ttl: Option<int>) returns (ok: bool)
      modifies this
      ensures up == old(up)
      ensures ok <==> Live() && !IndexBlocked(old(keys), prefix)
      ensures ok ==> keys == RegisterSpec(old(keys), prefix, fullKey, ttl)
      ensures !ok ==> keys == old(keys)
    {
      if !clientLoaded || !up {
        return false;
      }
      if IndexBlocked(keys, prefix) {
        return false;
      }
      keys := RegisterSpec(keys, prefix, fullKey, ttl);
      return true;
    }

    /** The registered keys of `prefix`, each once, or none when the index cannot be read. */
    method GetRegisteredDataApiKeys(prefix: string) returns (listed: seq<string>)
      ensures forall a, b :: 0 <= a < b < |listed| ==> listed[a] != listed[b]
      ensures forall k :: k in listed <==> Live() && k in Registered(keys, prefix)
    {
      listed := [];
      if !clientLoaded || !up {
        return;
      }
      var remaining := Registered(keys, prefix);
      while remaining != {}
        invariant remaining <= Registered(keys, prefix)
        invariant forall k :: k in listed <==> k in Registered(keys, prefix) && k !in remaining
        invariant forall a, b :: 0 <= a < b < |listed| ==> listed[a] != listed[b]
        decreases |remaining|
      {
        var k :| k in remaining;
        listed := listed + [k];
        remaining := remaining - {k};
      }
    }

    /**
     * Delete every key registered under `prefix` and then the index, and
     * answer how many members were deleted; nothing happens and 0 is
     * answered without a client, with the server down or with a blocked index.
     */
    method DeleteRegisteredDataApiKeys(prefix: string) returns (deleted: nat)
      modifies this
      ensures up == old(up)
      ensures Live() ==> (keys, deleted) == DeleteSpec(old(keys), prefix)
      ensures !Live() ==> keys == old(keys) && deleted == 0
    {
      deleted := 0;
      if !clientLoaded || !up || IndexBlocked(keys, prefix) {
        return;
      }
      var members := Registered(keys, prefix);
      var remaining := members;
      while remaining != {}
        invariant remaining <= members && up == old(up)
        invariant keys == old(keys) - (members - remaining)
        invariant deleted == |members - remaining|
        decreases |remaining|
      {
        var k :| k in remaining;
        assert members - (remaining - {k}) == (members - remaining) + {k};
        assert old(keys) - ((members - remaining) + {k}) == keys - {k};
        keys := keys - {k};
        remaining := remaining - {k};
        deleted := deleted + 1;
      }
      assert members - remaining == members;
      keys := keys - {IndexSetName(prefix)};
    }

    /** Invalidate the given prefixes in order and answer the summed count. */
    method InvalidateDataApiPrefixes(prefixes: seq<string>) returns (total: nat)
      modifies this
      ensures up == old(up)
      ensures Live() ==> (keys, total) == InvalidateSpec(old(keys), prefixes)
      ensures !Live() ==> keys == old(keys) && total == 0
    {
      total := 0;
      var i := 0;
      while i < |prefixes|
        invariant 0 <= i <= |prefixes| && up == old(up)
        invariant Live() ==> InvalidateSpec(old(keys), prefixes)
                             == (InvalidateSpec(keys, prefixes[i..]).0, total + InvalidateSpec(keys, prefixes[i..]).1)
        invariant !Live() ==> keys == old(keys) && total == 0
      {
        assert prefixes[i..][1..] == prefixes[i + 1..];
        var deleted := DeleteRegisteredDataApiKeys(prefixes[i]);
        total := total + deleted;
        i := i + 1;
      }
      assert prefixes[i..] == [];
    }

    /** Invalidate the three Data API endpoints' caches. */
    method InvalidateAllDataApi() returns (total: nat)
      modifies this
      ensures up == old(up)
      ensures Live() ==> (keys, total) == InvalidateSpec(old(keys), AllPrefixes)
      ensures !Live() ==> keys == old(keys) && total == 0
    {
      total := InvalidateDataApiPrefixes(AllPrefixes);
    }
  }

  /** A key registered and then invalidated with its prefix is gone. */
  lemma RegisterThenInvalidate(ks: Keyspace, prefix: string, fullKey: string, ttl: Option<int>)
    requires !IndexBlocked(ks, prefix) && NoIndexMembers(ks) && !IsIndexName(fullKey)
    ensures fullKey !in InvalidateSpec(RegisterSpec(ks, prefix, fullKey, ttl), [prefix]).0
  {
    RegisterKeepsNoIndexMembers(ks, prefix, fullKey, ttl);
    InvalidateRemovesRegistered(RegisterSpec(ks, prefix, fullKey, ttl), [prefix], 0, fullKey);
  }
}
