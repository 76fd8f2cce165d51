// The cache adapter for employees, their interests, activity participants
// and bot sessions: one key scheme per kind of data over the shared cache,
// and operations that answer False or None instead of raising when a cache
// call fails.  The cache is a map from keys to entries; expiry by time
// is not modelled (each entry records its timeout).
module RedisUtils {
  import opened Wrappers
  import opened Text
  import opened Json

  datatype Entry = Entry(value: Value, timeout: int)

  type Cache = map<string, Entry>

  function EmployeeKey(employeeId: int): string { "emp:" + IntToString(employeeId) }
  function ActivityKey(activityId: int): string { "act:" + IntToString(activityId) }
  function InterestsKey(employeeId: int): string { "int:" + IntToString(employeeId) }
  function ParticipantsKey(activityId: int): string { ActivityKey(activityId) + ":participants" }
  function SessionKey(userId: int): string { "sess:" + IntToString(userId) }

  /**
   * Keys of different kinds never collide, and keys of one kind collide only
   * for the same id: the prefixes differ in their first letter.
   */
  lemma KeySchemeInjective(a: int, b: int)
    ensures EmployeeKey(a) != InterestsKey(b) && EmployeeKey(a) != SessionKey(b)
    ensures EmployeeKey(a) != ParticipantsKey(b) && InterestsKey(a) != SessionKey(b)
    ensures InterestsKey(a) != ParticipantsKey(b) && SessionKey(a) != ParticipantsKey(b)
    ensures EmployeeKey(a) == EmployeeKey(b) ==> a == b
    ensures InterestsKey(a) == InterestsKey(b) ==> a == b
    ensures SessionKey(a) == SessionKey(b) ==> a == b
    ensures ParticipantsKey(a) == ParticipantsKey(b) ==> a == b
  {
    assert EmployeeKey(a)[0] == 'e' && InterestsKey(a)[0] == 'i' && SessionKey(a)[0] == 's';
    assert EmployeeKey(b)[0] == 'e' && InterestsKey(b)[0] == 'i' && SessionKey(b)[0] == 's';
    assert ParticipantsKey(a)[0] == 'a' && ParticipantsKey(b)[0] == 'a';
    if EmployeeKey(a) == EmployeeKey(b) {
      KeyInjective("emp:", a, b, "");
    }
    if InterestsKey(a) == InterestsKey(b) {
      KeyInjective("int:", a, b, "");
    }
    if SessionKey(a) == SessionKey(b) {
      KeyInjective("sess:", a, b, "");
    }
    if ParticipantsKey(a) == ParticipantsKey(b) {
      KeyInjective("act:", a, b, ":participants");
    }
  }

  /** What a read of the key answers: the stored value, or None when nothing is stored. */
  function ReadSpec(cache: Cache, key: string): (v: Value)
    ensures key !in cache ==> v == Null
    ensures key in cache ==> v == cache[key].value
  {
    if key in cache then cache[key].value else Null
  }

  /** The cache after the employee's cached data and interests are dropped. */
  function InvalidateSpec(cache: Cache, employeeId: int): (r: Cache)
    ensures EmployeeKey(employeeId) !in r && InterestsKey(employeeId) !in r
    ensures forall k :: k != EmployeeKey(employeeId) && k != InterestsKey(employeeId) ==>
      (k in r <==> k in cache) && (k in r ==> r[k] == cache[k])
  {
    cache - {EmployeeKey(employeeId), InterestsKey(employeeId)}
  }

  /** Invalidating an employee leaves every session and every activity's participants as they were. */
  lemma InvalidateKeepsSessionsAndActivities(cache: Cache, employeeId: int, userId: int, activityId: int)
    ensures ReadSpec(InvalidateSpec(cache, employeeId), SessionKey(userId)) == ReadSpec(cache, SessionKey(userId))
    ensures ReadSpec(InvalidateSpec(cache, employeeId), ParticipantsKey(activityId))
         == ReadSpec(cache, ParticipantsKey(activityId))
  {
    KeySchemeInjective(employeeId, userId);
    KeySchemeInjective(employeeId, activityId);
  }

  /**
   * The cache adapter.  `up` is whether the cache reaches Redis; when it
   * does not, a `silent` backend (django_redis with IGNORE_EXCEPTIONS, as
   * configured) swallows the error, so writes are dropped without notice
   * and reads miss, while otherwise the error reaches the adapter's own
   * handlers, which answer False or None.
   */
  class RedisManager {
    var cache: Cache
    var up: bool
    const silent: bool

    constructor(cache: Cache, up: bool, silent: bool)
      ensures this.cache == cache && this.up == up && this.silent == silent
    {
      this.cache := cache;
      this.up := up;
      this.silent := silent;
    }

    method Store(key: string, value: Value, timeout: int) returns (ok: bool)
      modifies this
      ensures up == old(up)
      ensures ok <==> up || silent
      ensures up ==> cache == old(cache)[key := Entry(value, timeout)]
      ensures !up ==> cache == old(cache)
    {
      if !up {
        return silent;
      }
      cache := cache[key := Entry(value, timeout)];
      return true;
    }

    method Read(key: string) returns (v: Value)
      ensures up ==> v == ReadSpec(cache, key)
      ensures !up ==> v == Null
    {
      if !up {
        return Null;
      }
      if key in cache {
        return cache[key].value;
      }
      return Null;
    }

    /** Cache an employee's data, for an hour unless told otherwise. */
    method CacheEmployeeData(employeeId: int, data: Value, timeout: Option<int>) returns (ok: bool)
      modifies this
      ensures up == old(up) && (ok <==> up || silent)
      ensures up ==> cache == old(cache)[EmployeeKey(employeeId) := Entry(data, timeout.GetOr(3600))]
      ensures !up ==> cache == old(cache)
    {
      ok := Store(EmployeeKey(employeeId), data, timeout.GetOr(3600));
    }

    method GetEmployeeData(employeeId: int) returns (v: Value)
      ensures v == (if up then ReadSpec(cache, EmployeeKey(employeeId)) else Null)
    {
      v := Read(EmployeeKey(employeeId));
    }

    /** Cache an employee's interests, for half an hour unless told otherwise. */
    method CacheEmployeeInterests(employeeId: int, interests: Value, timeout: Option<int>) returns (ok: bool)
      modifies this
      ensures up == old(up) && (ok <==> up || silent)
      ensures up ==> cache == old(cache)[InterestsKey(employeeId) := Entry(interests, timeout.GetOr(1800))]
      ensures !up ==> cache == old(cache)
    {
      ok := Store(InterestsKey(employeeId), interests, timeout.GetOr(1800));
    }

    method GetEmployeeInterests(employeeId: int) returns (v: Value)
      ensures v == (if up then ReadSpec(cache, InterestsKey(employeeId)) else Null)
    {
      v := Read(InterestsKey(employeeId));
    }

    /** Drop the employee's data and interests, and nothing else. */
    method InvalidateEmployeeCache(employeeId: int) returns (ok: bool)
      modifies this
      ensures up == old(up) && (ok <==> up || silent)
      ensures up ==> cache == InvalidateSpec(old(cache), employeeId)
      ensures !up ==> cache == old(cache)
    {
      if !up {
        return silent;
      }
      cache := cache - {EmployeeKey(employeeId)};
      cache := cache - {InterestsKey(employeeId)};
      assert cache == old(cache) - {EmployeeKey(employeeId), InterestsKey(employeeId)};
      return true;
    }

    /** Cache an activity's participants, for a quarter of an hour unless told otherwise. */
    method CacheActivityParticipants(activityId: int, participants: Value, timeout: Option<int>) returns (ok: bool)
      modifies this
      ensures up == old(up) && (ok <==> up || silent)
      ensures up ==> cache == old(cache)[ParticipantsKey(activityId) := Entry(participants, timeout.GetOr(900))]
      ensures !up ==> cache == old(cache)
    {
      ok := Store(ParticipantsKey(activityId), participants, timeout.GetOr(900));
    }

    method GetActivityParticipants(activityId: int) returns (v: Value)
      ensures v == (if up then ReadSpec(cache, ParticipantsKey(activityId)) else Null)
    {
      v := Read(ParticipantsKey(activityId));
    }

    /** Store a user's bot session, for two hours unless told otherwise. */
    method StoreBotSession(userId: int, session: Value, timeout: Option<int>) returns (ok: bool)
      modifies this
      ensures up == old(up) && (ok <==> up || silent)
      ensures up ==> cache == old(cache)[SessionKey(userId) := Entry(session, timeout.GetOr(7200))]
      ensures !up ==> cache == old(cache)
    {
      ok := Store(SessionKey(userId), session, timeout.GetOr(7200));
    }

    method GetBotSession(userId: int) returns (v: Value)
      ensures v == (if up then ReadSpec(cache, SessionKey(userId)) else Null)
    {
      v := Read(SessionKey(userId));
    }

    method ClearBotSession(userId: int) returns (ok: bool)
      modifies this
      ensures up == old(up) && (ok <==> up || silent)
      ensures up ==> cache == old(cache) - {SessionKey(userId)}
      ensures !up ==> cache == old(cache)
    {
      if !up {
        return silent;
      }
      cache := cache - {SessionKey(userId)};
      return true;
    }
  }

  /** A session stored and then read back is the stored session; after clearing, the read answers None. */
  method SessionLifecycle(r: RedisManager, userId: int, session: Value) returns (stored: Value, cleared: Value)
    requires r.up
    modifies r
    ensures stored == session && cleared == Null
  {
    var _ := r.StoreBotSession(userId, session, None);
    stored := r.GetBotSession(userId);
    var _ := r.ClearBotSession(userId);
    cleared := r.GetBotSession(userId);
  }

  /**
   * With the cache down nothing changes and every read answers None; the
   * store answers False unless the backend swallows the error, in which case
   * it answers True although nothing was stored.
   */
  method DownCacheAnswersNothing(r: RedisManager, employeeId: int, data: Value) returns (ok: bool, read: Value)
    requires !r.up
    modifies r
    ensures ok == r.silent && read == Null && r.cache == old(r.cache)
  {
    ok := r.CacheEmployeeData(employeeId, data, None);
    read := r.GetEmployeeData(employeeId);
  }
}
