// Per-user menus kept in the shared cache under "menu:user:<id>:<type>",
// each wrapped in an envelope with the user, the menu type and a timestamp,
// and the main menu built on a miss and cached.  A cache entry holds the
// JSON value its text encodes (JSON encoding restores what it encoded);
// expiry by time is not modelled.
module MenuCacheModel {
  import opened Wrappers
  import opened Text
  import opened Json

  datatype Entry = Entry(value: Value, timeout: int)

  type Cache = map<string, Entry>

  const DefaultTimeout := 1800
  const TimestampKey := "cache_timestamp"

  /** The cache key of one menu of one user. */
  function MenuKey(userId: int, menuType: string): (k: string)
    ensures k == "menu:user:" + IntToString(userId) + ":" + menuType
    ensures |k| > 10 && k[..10] == "menu:user:"
  {
    "menu:user:" + IntToString(userId) + ":" + menuType
  }

  /** Menus of different users never share a key, and one user's menus of different types neither. */
  lemma MenuKeyInjective(u1: int, t1: string, u2: int, t2: string)
    requires MenuKey(u1, t1) == MenuKey(u2, t2)
    ensures u1 == u2 && t1 == t2
  {
    var k := MenuKey(u1, t1);
    var s1, s2 := IntToString(u1), IntToString(u2);
    assert k[10..] == s1 + [':'] + t1;
    assert MenuKey(u2, t2)[10..] == s2 + [':'] + t2;
    SeparatorSplit(s1, t1, s2, t2, ':');
    IntToStringInjective(u1, u2);
  }

  /** The envelope stored for a menu: its data, the user, the menu type and the cache timestamp. */
  function MenuEnvelope(data: Value, userId: int, menuType: string, cachedAt: Value): (v: Value)
    ensures v.Dict? && DistinctKeys(v.entries)
    ensures Lookup(v.entries, "data") == Some(data)
    ensures Lookup(v.entries, "user_id") == Some(Int(userId))
    ensures Lookup(v.entries, "menu_type") == Some(Str(menuType))
    ensures Lookup(v.entries, "cached_at") == Some(cachedAt)
    ensures Keys(v.entries) == {"data", "user_id", "menu_type", "cached_at"}
  {
    var e := [("data", data), ("user_id", Int(userId)), ("menu_type", Str(menuType)), ("cached_at", cachedAt)];
    assert e[0].0 == "data" && e[1].0 == "user_id" && e[2].0 == "menu_type" && e[3].0 == "cached_at";
    assert DistinctKeys(e);
    assert Keys(e) == {"data", "user_id", "menu_type", "cached_at"} by {
      assert forall k :: k in Keys(e) ==> k == "data" || k == "user_id" || k == "menu_type" || k == "cached_at";
    }
    Dict(e)
  }

  /** `cache.get('cache_timestamp', 0)`. */
  function Timestamp(cache: Cache): Value
  {
    if TimestampKey in cache then cache[TimestampKey].value else Int(0)
  }

  /** Python `timeout or DEFAULT_TIMEOUT`. */
  function EffectiveTimeout(timeout: Option<int>): (t: int)
    ensures timeout.None? || timeout == Some(0) ==> t == DefaultTimeout
    ensures timeout.Some? && timeout.value != 0 ==> t == timeout.value
  {
    if timeout.None? || timeout.value == 0 then DefaultTimeout else timeout.value
  }

  /** The cache after a successful store of a menu: only that menu's entry changes. */
  function SetSpec(cache: Cache, userId: int, data: Value, menuType: string, timeout: Option<int>): (r: Cache)
    ensures MenuKey(userId, menuType) in r
    ensures r[MenuKey(userId, menuType)] ==
      Entry(MenuEnvelope(data, userId, menuType, Timestamp(cache)), EffectiveTimeout(timeout))
    ensures forall k :: k != MenuKey(userId, menuType) ==> (k in r <==> k in cache) && (k in r ==> r[k] == cache[k])
  {
    cache[MenuKey(userId, menuType) := Entry(MenuEnvelope(data, userId, menuType, Timestamp(cache)),
                                             EffectiveTimeout(timeout))]
  }

  /** What a read of a menu answers: the whole envelope, or None on a miss. */
  function GetSpec(cache: Cache, userId: int, menuType: string): (r: Option<Value>)
    ensures r.None? <==> MenuKey(userId, menuType) !in cache
    ensures r.Some? ==> r.value == cache[MenuKey(userId, menuType)].value
  {
    var k := MenuKey(userId, menuType);
    if k in cache then Some(cache[k].value) else None
  }

  /** A stored menu reads back as its envelope. */
  lemma SetThenGet(cache: Cache, userId: int, data: Value, menuType: string, timeout: Option<int>)
    ensures GetSpec(SetSpec(cache, userId, data, menuType, timeout), userId, menuType)
         == Some(MenuEnvelope(data, userId, menuType, Timestamp(cache)))
  {
  }

  const MenuTypes: seq<string> := ["main", "preferences", "activities", "admin"]

  /** The keys of all the menus of one user. */
  function UserMenuKeys(userId: int): (keys: set<string>)
    ensures forall t :: t in MenuTypes ==> MenuKey(userId, t) in keys
    ensures forall k :: k in keys ==> exists t :: t in MenuTypes && k == MenuKey(userId, t)
  {
    set t | t in MenuTypes :: MenuKey(userId, t)
  }

  /** Clearing one user's menus leaves every other user's menus in place. */
  lemma ClearKeepsOtherUsers(userId: int, other: int, menuType: string)
    requires other != userId
    ensures MenuKey(other, menuType) !in UserMenuKeys(userId)
  {
    if MenuKey(other, menuType) in UserMenuKeys(userId) {
      var t :| t in MenuTypes && MenuKey(other, menuType) == MenuKey(userId, t);
      MenuKeyInjective(other, menuType, userId, t);
    }
  }

  function MenuOption(key: string, text: string, action: string): Value
  {
    Dict([("key", Str(key)), ("label", Str(text)), ("action", Str(action))])
  }

  const BaseOptions: seq<Value> := [
    MenuOption("profile", "👤 Профиль", "show_profile"),
    MenuOption("activities", "🎯 Мои активности", "show_activities"),
    MenuOption("preferences", "⚙️ Настройки", "show_preferences")
  ]

  const AdminOptions: seq<Value> := [
    MenuOption("admin_panel", "🔧 Админ панель", "admin_panel"),
    MenuOption("manage_users", "👥 Управление пользователями", "manage_users")
  ]

  predicate IsAdminRole(role: string)
  {
    role == "admin" || role == "super_admin"
  }

  /** The main menu built for a user: three options for everyone, two more for administrators. */
  function MainMenu(userId: int, role: string): (menu: Value)
    ensures menu.Dict? && Truthy(menu)
    ensures Lookup(menu.entries, "options").Some? && Lookup(menu.entries, "options").value.List?
    ensures var options := Lookup(menu.entries, "options").value.items;
      && (|options| == 3 || |options| == 5)
      && (|options| == 5 <==> IsAdminRole(role))
      && options[..3] == BaseOptions
      && (IsAdminRole(role) ==> options[3..] == AdminOptions)
    ensures Lookup(menu.entries, "role") == Some(Str(role))
  {
    var options := BaseOptions + (if IsAdminRole(role) then AdminOptions else []);
    var e := [("type", Str("main")), ("user_id", Int(userId)), ("role", Str(role)), ("options", List(options))];
    assert DistinctKeys(e);
    assert e[2] == ("role", Str(role)) && e[3] == ("options", List(options));
    Dict(e)
  }

  /** The menu cache. */
  class MenuCache {
    var cache: Cache

    constructor(cache: Cache)
      ensures this.cache == cache
    {
      this.cache := cache;
    }

    method GetUserMenu(userId: int, menuType: string) returns (r: Option<Value>)
      ensures r == GetSpec(cache, userId, menuType)
    {
      var k := MenuKey(userId, menuType);
      if k in cache {
        return Some(cache[k].value);
      }
      return None;
    }

    /** Store a menu in its envelope; `fails` is a cache error, which changes nothing and answers false. */
    method SetUserMenu(userId: int, data: Value, menuType: string, timeout: Option<int>, fails: bool)
      returns (ok: bool)
      modifies this
      ensures ok <==> !fails
      ensures ok ==> cache == SetSpec(old(cache), userId, data, menuType, timeout)
      ensures !ok ==> cache == old(cache)
    {
      if fails {
        return false;
      }
      var envelope := MenuEnvelope(data, userId, menuType, Timestamp(cache));
      cache := cache[MenuKey(userId, menuType) := Entry(envelope, EffectiveTimeout(timeout))];
      return true;
    }

    method DeleteUserMenu(userId: int, menuType: string, fails: bool) returns (ok: bool)
      modifies this
      ensures ok <==> !fails
      ensures ok ==> cache == old(cache) - {MenuKey(userId, menuType)}
      ensures !ok ==> cache == old(cache)
    {
      if fails {
        return false;
      }
      cache := cache - {MenuKey(userId, menuType)};
      return true;
    }

    /**
     * Delete the four menus of the user.  A failing delete is swallowed by
     * the delete itself, so `fails[i]` leaves the i-th menu in place and
     * the answer is still true.
     */
    method ClearUserAllMenus(userId: int, fails: seq<bool>) returns (ok: bool)
      requires |fails| == |MenuTypes|
      modifies this
      ensures ok
      ensures cache == old(cache) - (set i | 0 <= i < |MenuTypes| && !fails[i] :: MenuKey(userId, MenuTypes[i]))
      ensures forall i :: 0 <= i < |fails| && !fails[i] ==> MenuKey(userId, MenuTypes[i]) !in cache
      ensures forall k :: k !in UserMenuKeys(userId) ==> (k in cache <==> k in old(cache))
    {
      for i := 0 to |MenuTypes|
        invariant cache == old(cache) - (set j | 0 <= j < i && !fails[j] :: MenuKey(userId, MenuTypes[j]))
      {
        var _ := DeleteUserMenu(userId, MenuTypes[i], fails[i]);
        assert (set j | 0 <= j < i + 1 && !fails[j] :: MenuKey(userId, MenuTypes[j]))
            == (set j | 0 <= j < i && !fails[j] :: MenuKey(userId, MenuTypes[j]))
             + (if fails[i] then {} else {MenuKey(userId, MenuTypes[i])});
      }
      ok := true;
    }

    /**
     * Store the cached menu again, re-reading the timestamp and resetting the
     * timeout to the default; nothing cached means nothing to refresh.  The
     * result of the store is not looked at.
     */
    method RefreshUserMenu(userId: int, menuType: string, fails: bool) returns (ok: bool)
      modifies this
      ensures var cached := GetSpec(old(cache), userId, menuType);
        && (ok <==> cached.Some? && Truthy(cached.value) && cached.value.Dict?)
        && (!ok || fails ==> cache == old(cache))
        && (ok && !fails ==> cache == SetSpec(old(cache), userId, Get(cached.value, "data", Dict([])), menuType, None))
    {
      var menu := GetUserMenu(userId, menuType);
      if menu.None? || !Truthy(menu.value) {
        return false;
      }
      if !menu.value.Dict? {
        // Python's .get on a non-dict raises, and the error is answered with false.
        return false;
      }
      var data := Get(menu.value, "data", Dict([]));
      var _ := SetUserMenu(userId, data, menuType, None, fails);
      return true;
    }
  }

  /** Refreshing stores the cached menu's data again: the menu then reads back with the same data. */
  lemma RefreshKeepsData(cache: Cache, userId: int, menuType: string, envelope: Value)
    requires GetSpec(cache, userId, menuType) == Some(envelope) && envelope.Dict?
    ensures var data := Get(envelope, "data", Dict([]));
      var after := GetSpec(SetSpec(cache, userId, data, menuType, None), userId, menuType);
      after.Some? && after.value.Dict? && Get(after.value, "data", Null) == data
  {
  }

  /**
   * What building the main menu answers and leaves in the cache: a cached
   * envelope with truthy data gives that data back untouched; a truthy
   * cached value that is no dict makes `.get` raise, with the cache
   * untouched; otherwise (nothing cached, a falsy value, or an envelope
   * whose data is falsy) the menu is built for the role and stored over
   * whatever was there (unless the store fails).
   */
  function BuildSpec(cache: Cache, userId: int, role: string, fails: bool): (r: (Result<Value, string>, Cache))
    ensures var cached := GetSpec(cache, userId, "main");
      cached.Some? && cached.value.Dict? && Truthy(Get(cached.value, "data", Null)) ==>
        r == (Ok(Get(cached.value, "data", Null)), cache)
    ensures var cached := GetSpec(cache, userId, "main");
      cached.Some? && Truthy(cached.value) && !cached.value.Dict? ==> r == (Err("AttributeError"), cache)
    ensures var cached := GetSpec(cache, userId, "main");
      cached.None? || !Truthy(cached.value) || (cached.value.Dict? && !Truthy(Get(cached.value, "data", Null))) ==>
        r == (Ok(MainMenu(userId, role)), if fails then cache else SetSpec(cache, userId, MainMenu(userId, role), "main", None))
  {
    var cached := GetSpec(cache, userId, "main");
    if cached.Some? && Truthy(cached.value) && !cached.value.Dict? then
      (Err("AttributeError"), cache)
    else if cached.Some? && Truthy(cached.value) && Truthy(Get(cached.value, "data", Null)) then
      (Ok(Get(cached.value, "data", Null)), cache)
    else
      var menu := MainMenu(userId, role);
      (Ok(menu), if fails then cache else SetSpec(cache, userId, menu, "main", None))
  }

  /** A menu built on a miss is cached, so the next build gives the same menu, whatever role it is asked for. */
  lemma BuildTwiceSameMenu(cache: Cache, userId: int, role: string, otherRole: string)
    requires GetSpec(cache, userId, "main").None?
    ensures var first := BuildSpec(cache, userId, role, false);
      BuildSpec(first.1, userId, otherRole, false).0 == first.0
  {
    var first := BuildSpec(cache, userId, role, false);
    var menu := MainMenu(userId, role);
    SetThenGet(cache, userId, menu, "main", None);
    var envelope := MenuEnvelope(menu, userId, "main", Timestamp(cache));
    assert GetSpec(first.1, userId, "main") == Some(envelope);
    assert Get(envelope, "data", Null) == menu;
  }

  /** Builds menus through the cache. */
  class MenuBuilder {
    const menus: MenuCache

    constructor(menus: MenuCache)
      ensures this.menus == menus
    {
      this.menus := menus;
    }

    /** Build the main menu of a user; `fails` is a failing store, which the store swallows. */
    method BuildMainMenu(userId: int, role: string, fails: bool) returns (r: Result<Value, string>)
      modifies menus
      ensures (r, menus.cache) == BuildSpec(old(menus.cache), userId, role, fails)
    {
      var cached := menus.GetUserMenu(userId, "main");
      if cached.Some? && Truthy(cached.value) {
        if !cached.value.Dict? {
          return Err("AttributeError");
        }
        var data := Get(cached.value, "data", Null);
        if Truthy(data) {
          return Ok(data);
        }
      }
      var options := BaseOptions;
      if IsAdminRole(role) {
        options := options + AdminOptions;
      }
      assert options == BaseOptions + (if IsAdminRole(role) then AdminOptions else []);
      var menu := Dict([("type", Str("main")), ("user_id", Int(userId)), ("role", Str(role)), ("options", List(options))]);
      assert menu == MainMenu(userId, role);
      ghost var before := menus.cache;
      var _ := menus.SetUserMenu(userId, menu, "main", None, fails);
      assert menus.cache == (if fails then before else SetSpec(before, userId, menu, "main", None));
      return Ok(menu);
    }
  }
}
