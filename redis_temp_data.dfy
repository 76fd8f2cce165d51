// Short-lived data kept in the shared cache under "temp:<namespace>:<key>":
// values are wrapped in an envelope that records their type and namespace,
// and unwrapped again on reading.  The cache is a map from keys to entries;
// JSON and pickle encoding are taken to restore what they encoded, and
// expiry by time is not modelled (each entry records its timeout).
module TempData {
  import opened Wrappers
  import opened Text
  import opened Json

  /**
   * What the cache holds under a key: the JSON text of an envelope written
   * by a serialising store (for lists and dicts the data itself, for other
   * values their pickle, marked `serialized: false`), or a value stored as is.
   */
  datatype Cached =
    | Envelope(data: Value, typeName: string, namespace: string, serialized: bool)
    | Raw(v: Value)

  datatype Entry = Entry(cached: Cached, timeout: int)

  type Cache = map<string, Entry>

  const DefaultTimeout := 1800
  const DefaultNamespace := "default"

  /** The cache key of `key` in `namespace`. */
  function CacheKey(key: string, namespace: string): (k: string)
    ensures |k| == 5 + |namespace| + 1 + |key| && k[..5] == "temp:"
    ensures k[5..5 + |namespace|] == namespace && k[5 + |namespace|] == ':' && k[6 + |namespace|..] == key
  {
    "temp:" + namespace + ":" + key
  }

  /** Within namespaces free of colons, different (namespace, key) pairs have different cache keys. */
  lemma CacheKeyInjective(key1: string, ns1: string, key2: string, ns2: string)
    requires ':' !in ns1 && ':' !in ns2
    requires CacheKey(key1, ns1) == CacheKey(key2, ns2)
    ensures key1 == key2 && ns1 == ns2
  {
    var k := CacheKey(key1, ns1);
    assert |ns1| == |ns2|;
    assert ns1 == k[5..5 + |ns1|] == ns2;
  }

  /** Python `timeout or DEFAULT_TIMEOUT`: a missing or zero timeout is replaced by the default. */
  function EffectiveTimeout(timeout: Option<int>): (t: int)
    ensures timeout.None? || timeout == Some(0) ==> t == DefaultTimeout
    ensures timeout.Some? && timeout.value != 0 ==> t == timeout.value
  {
    if timeout.None? || timeout.value == 0 then DefaultTimeout else timeout.value
  }

  /** Python `type(data).__name__`. */
  function TypeName(v: Value): string
  {
    match v
    case Null => "NoneType"
    case Bool(_) => "bool"
    case Int(_) => "int"
    case Str(_) => "str"
    case List(_) => "list"
    case Dict(_) => "dict"
  }

  /** What a store puts in the cache for `data`. */
  function Encode(data: Value, namespace: string, serialize: bool): (c: Cached)
    ensures serialize ==> c.Envelope? && c.data == data && c.namespace == namespace
    ensures serialize ==> (c.serialized <==> data.List? || data.Dict?)
    ensures !serialize ==> c == Raw(data)
  {
    if !serialize then Raw(data)
    else Envelope(data, TypeName(data), namespace, data.List? || data.Dict?)
  }

  /**
   * What `pickle.loads(bytes.fromhex(text))` does with a text: it gives back
   * a value, or raises a ValueError (text that is not hex, or a ValueError
   * out of pickle), or raises some other exception.
   */
  datatype Unpickled = Unpickled(value: Value) | RaisesValueError | RaisesOther

  /**
   * The two decoders a read applies to cached text: `json.loads` (None when
   * the text is not JSON) and the hex-pickle decoder.
   */
  datatype Decoders = Decoders(loads: string -> Option<Value>, unpickleHex: string -> Unpickled)

  /**
   * What a read makes of a cached entry: an envelope gives back its data
   * (directly or unpickled); a value stored as is must be JSON text, which
   * is parsed, a parsed envelope-like dict giving its "data" (unpickled from
   * hex when it is marked `serialized: false`).  A ValueError, whether from
   * the JSON parse or from the hex decoding, answers the cached text itself;
   * any other exception answers `default`.
   */
  function Decode(c: Cached, dec: Decoders, default: Value): (r: Value)
    ensures c.Envelope? ==> r == c.data
    ensures c.Raw? && !c.v.Str? ==> r == default
    ensures c.Raw? && c.v.Str? && dec.loads(c.v.s).None? ==> r == c.v
    ensures c.Raw? && c.v.Str? && dec.loads(c.v.s).Some? ==>
      var parsed := dec.loads(c.v.s).value;
      && (!(parsed.Dict? && "data" in Keys(parsed.entries)) ==> r == parsed)
      && (parsed.Dict? && "data" in Keys(parsed.entries) ==>
            var data := Get(parsed, "data", Null);
            var serialized := Truthy(Get(parsed, "serialized", Bool(true)));
            && (serialized ==> r == data)
            && (!serialized && !data.Str? ==> r == default)
            && (!serialized && data.Str? && dec.unpickleHex(data.s).Unpickled? ==> r == dec.unpickleHex(data.s).value)
            && (!serialized && data.Str? && dec.unpickleHex(data.s).RaisesValueError? ==> r == c.v)
            && (!serialized && data.Str? && dec.unpickleHex(data.s).RaisesOther? ==> r == default))
  {
    match c
    case Envelope(data, _, _, _) => data
    case Raw(v) =>
      if !v.Str? then default
      else
        match dec.loads(v.s)
        case None => v
        case Some(parsed) =>
          if parsed.Dict? && "data" in Keys(parsed.entries) then
            var data := Get(parsed, "data", Null);
            if Truthy(Get(parsed, "serialized", Bool(true))) then data
            else if !data.Str? then default
            else
              match dec.unpickleHex(data.s)
              case Unpickled(value) => value
              case RaisesValueError => v
              case RaisesOther => default
          else parsed
  }

  /** The cache after storing `data`: only the entry under its key changes. */
  function StoreSpec(cache: Cache, key: string, data: Value, timeout: Option<int>, namespace: string,
                     serialize: bool): (r: Cache)
    ensures CacheKey(key, namespace) in r
    ensures r[CacheKey(key, namespace)] == Entry(Encode(data, namespace, serialize), EffectiveTimeout(timeout))
    ensures forall k :: k != CacheKey(key, namespace) ==> (k in r <==> k in cache) && (k in r ==> r[k] == cache[k])
  {
    cache[CacheKey(key, namespace) := Entry(Encode(data, namespace, serialize), EffectiveTimeout(timeout))]
  }

  /** What a read of `key` in `namespace` answers. */
  function LookupSpec(cache: Cache, dec: Decoders, key: string, namespace: string, default: Value)
    : (r: Value)
    ensures CacheKey(key, namespace) !in cache ==> r == default
    ensures CacheKey(key, namespace) in cache ==> r == Decode(cache[CacheKey(key, namespace)].cached, dec, default)
  {
    var k := CacheKey(key, namespace);
    if k in cache then Decode(cache[k].cached, dec, default) else default
  }

  /** Whether the cache holds a value under the key; a stored None reads as missing. */
  predicate ExistsSpec(cache: Cache, key: string, namespace: string)
  {
    var k := CacheKey(key, namespace);
    k in cache && cache[k].cached != Raw(Null)
  }

  /** A serialising store followed by a read of the same key and namespace gives back the stored data. */
  lemma StoreThenGet(cache: Cache, dec: Decoders, key: string, data: Value, timeout: Option<int>,
                     namespace: string, default: Value)
    ensures LookupSpec(StoreSpec(cache, key, data, timeout, namespace, true), dec, key, namespace, default) == data
  {
  }

  /** A store under one key leaves every read of another key as it was. */
  lemma StoreKeepsOtherReads(cache: Cache, dec: Decoders, key: string, data: Value,
                             timeout: Option<int>, namespace: string, serialize: bool,
                             otherKey: string, otherNamespace: string, default: Value)
    requires CacheKey(otherKey, otherNamespace) != CacheKey(key, namespace)
    ensures LookupSpec(StoreSpec(cache, key, data, timeout, namespace, serialize), dec, otherKey, otherNamespace, default)
         == LookupSpec(cache, dec, otherKey, otherNamespace, default)
  {
  }

  /** A dict stored without serialising cannot be read back: the read answers the default instead. */
  lemma RawDictReadsAsDefault(cache: Cache, dec: Decoders, key: string, entries: seq<(string, Value)>,
                              timeout: Option<int>, namespace: string, default: Value)
    ensures LookupSpec(StoreSpec(cache, key, Dict(entries), timeout, namespace, false), dec, key, namespace, default)
         == default
  {
  }

  /** The shared temporary-data cache. */
  class TempDataManager {
    var cache: Cache
    /** How cached text is parsed and unpickled. */
    const dec: Decoders

    constructor(cache: Cache, dec: Decoders)
      ensures this.cache == cache && this.dec == dec
    {
      this.cache := cache;
      this.dec := dec;
    }

    /** Store `data` under the key; `fails` is a cache error, which leaves the cache as it was and answers false. */
    method StoreTempData(key: string, data: Value, timeout: Option<int>, namespace: string, serialize: bool,
                         fails: bool) returns (ok: bool)
      modifies this
      ensures ok <==> !fails
      ensures ok ==> cache == StoreSpec(old(cache), key, data, timeout, namespace, serialize)
      ensures !ok ==> cache == old(cache)
    {
      if fails {
        return false;
      }
      var cacheKey := CacheKey(key, namespace);
      var stored := Encode(data, namespace, serialize);
      cache := cache[cacheKey := Entry(stored, EffectiveTimeout(timeout))];
      return true;
    }

    method GetTempData(key: string, namespace: string, default: Value) returns (r: Value)
      ensures r == LookupSpec(cache, dec, key, namespace, default)
    {
      var cacheKey := CacheKey(key, namespace);
      if cacheKey !in cache {
        return default;
      }
      r := Decode(cache[cacheKey].cached, dec, default);
    }

    /** Remove the key; every other entry stays. */
    method DeleteTempData(key: string, namespace: string, fails: bool) returns (ok: bool)
      modifies this
      ensures ok <==> !fails
      ensures ok ==> cache == old(cache) - {CacheKey(key, namespace)}
      ensures ok ==> !ExistsSpec(cache, key, namespace)
      ensures !ok ==> cache == old(cache)
    {
      if fails {
        return false;
      }
      cache := cache - {CacheKey(key, namespace)};
      return true;
    }

    method ExistsTempData(key: string, namespace: string) returns (b: bool)
      ensures b <==> ExistsSpec(cache, key, namespace)
    {
      var cacheKey := CacheKey(key, namespace);
      b := cacheKey in cache && cache[cacheKey].cached != Raw(Null);
    }

    /**
     * Store the current data again with a new timeout.  A key that reads as
     * None (absent, or holding None) is left alone and the answer is false.
     */
    method UpdateTempDataTimeout(key: string, timeout: int, namespace: string, fails: bool) returns (ok: bool)
      modifies this
      ensures var data := LookupSpec(old(cache), dec, key, namespace, Null);
        && (data == Null ==> !ok && cache == old(cache))
        && (data != Null ==> (ok <==> !fails))
        && (data != Null && !fails ==> cache == StoreSpec(old(cache), key, data, Some(timeout), namespace, true))
        && (data != Null && fails ==> cache == old(cache))
    {
      var data := GetTempData(key, namespace, Null);
      if data == Null {
        return false;
      }
      ok := StoreTempData(key, data, Some(timeout), namespace, true, fails);
    }
  }

  /** The namespace of one user's temporary data. */
  function UserNamespace(userId: int): (ns: string)
    ensures ':' !in ns
  {
    "user_" + IntToString(userId)
  }

  /** The key of one step of a form. */
  function FormKey(step: string): (k: string)
    ensures |k| == 10 + |step| && k[10..] == step
  {
    "form_data_" + step
  }

  const ConversationKey := "conversation_state"

  /** Two different users never share a cache key, whatever keys they use. */
  lemma UserKeysDisjoint(a: int, b: int, key1: string, key2: string)
    requires a != b
    ensures CacheKey(key1, UserNamespace(a)) != CacheKey(key2, UserNamespace(b))
  {
    if CacheKey(key1, UserNamespace(a)) == CacheKey(key2, UserNamespace(b)) {
      CacheKeyInjective(key1, UserNamespace(a), key2, UserNamespace(b));
      assert UserNamespace(a)[5..] == IntToString(a);
      assert UserNamespace(b)[5..] == IntToString(b);
      IntToStringInjective(a, b);
    }
  }

  /** One user's view of the temporary data: every key lives in the user's namespace. */
  class UserTempDataManager {
    const userId: int
    const namespace: string
    const temp: TempDataManager

    constructor(userId: int, temp: TempDataManager)
      ensures this.userId == userId && this.namespace == UserNamespace(userId) && this.temp == temp
    {
      this.userId := userId;
      this.namespace := UserNamespace(userId);
      this.temp := temp;
    }

    method Store(key: string, data: Value, timeout: Option<int>, fails: bool) returns (ok: bool)
      modifies temp
      ensures ok <==> !fails
      ensures ok ==> temp.cache == StoreSpec(old(temp.cache), key, data, timeout, namespace, true)
      ensures !ok ==> temp.cache == old(temp.cache)
    {
      ok := temp.StoreTempData(key, data, timeout, namespace, true, fails);
    }

    method Get(key: string, default: Value) returns (r: Value)
      ensures r == LookupSpec(temp.cache, temp.dec, key, namespace, default)
    {
      r := temp.GetTempData(key, namespace, default);
    }

    method Delete(key: string, fails: bool) returns (ok: bool)
      modifies temp
      ensures ok <==> !fails
      ensures ok ==> temp.cache == old(temp.cache) - {CacheKey(key, namespace)}
      ensures !ok ==> temp.cache == old(temp.cache)
    {
      ok := temp.DeleteTempData(key, namespace, fails);
    }

    method Exists(key: string) returns (b: bool)
      ensures b <==> ExistsSpec(temp.cache, key, namespace)
    {
      b := temp.ExistsTempData(key, namespace);
    }

    /** Store one form step's data, for an hour unless told otherwise. */
    method StoreFormData(step: string, formData: Value, timeout: Option<int>, fails: bool) returns (ok: bool)
      modifies temp
      ensures ok <==> !fails
      ensures ok ==> temp.cache == StoreSpec(old(temp.cache), FormKey(step), formData, Some(timeout.GetOr(3600)),
                                             namespace, true)
      ensures !ok ==> temp.cache == old(temp.cache)
    {
      ok := Store(FormKey(step), formData, Some(timeout.GetOr(3600)), fails);
    }

    method GetFormData(step: string) returns (r: Value)
      ensures r == LookupSpec(temp.cache, temp.dec, FormKey(step), namespace, Null)
    {
      r := Get(FormKey(step), Null);
    }

    /** Store the conversation state, for two hours unless told otherwise. */
    method StoreConversationState(state: Value, timeout: Option<int>, fails: bool) returns (ok: bool)
      modifies temp
      ensures ok <==> !fails
      ensures ok ==> temp.cache == StoreSpec(old(temp.cache), ConversationKey, state, Some(timeout.GetOr(7200)),
                                             namespace, true)
      ensures !ok ==> temp.cache == old(temp.cache)
    {
      ok := Store(ConversationKey, state, Some(timeout.GetOr(7200)), fails);
    }

    method GetConversationState() returns (r: Value)
      ensures r == LookupSpec(temp.cache, temp.dec, ConversationKey, namespace, Null)
    {
      r := Get(ConversationKey, Null);
    }

    method ClearConversationState(fails: bool) returns (ok: bool)
      modifies temp
      ensures ok <==> !fails
      ensures ok ==> temp.cache == old(temp.cache) - {CacheKey(ConversationKey, namespace)}
      ensures !ok ==> temp.cache == old(temp.cache)
    {
      ok := Delete(ConversationKey, fails);
    }
  }

  /** A form step stored for a user is what that user reads back for the step. */
  lemma FormDataRoundTrip(cache: Cache, dec: Decoders, userId: int, step: string, formData: Value,
                          timeout: int)
    ensures LookupSpec(StoreSpec(cache, FormKey(step), formData, Some(timeout), UserNamespace(userId), true),
                       dec, FormKey(step), UserNamespace(userId), Null) == formData
  {
    StoreThenGet(cache, dec, FormKey(step), formData, Some(timeout), UserNamespace(userId), Null);
  }
}
