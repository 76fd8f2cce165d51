// The Django employee record's Telegram fields and their normalisation on
// save, the relaxed username normalisation used for lookups, and the
// booking rules of an activity.
//
// An Employee object holds the fields as loaded in memory and, beside them,
// the database row as last written, so that a save restricted to some
// columns can be told apart from a full save.
module EmployeeModels {
  import opened Wrappers
  import opened Text

  /** Python truthiness of an optional string: set and non-empty. */
  predicate Filled(s: Option<string>) { s.Some? && s.value != [] }

  /** Python truthiness of an optional integer: set and non-zero. */
  predicate FilledId(i: Option<int>) { i.Some? && i.value != 0 }

  /**
   * The relaxed form of a Telegram username used for lookups: surrounding
   * whitespace and leading '@' removed, lower-cased, and every '_', '-' and
   * '.' dropped.  None and the empty string give the empty string.
   */
  function NormalizeUsername(username: Option<string>): (r: string)
    ensures !Filled(username) ==> r == []
    ensures '_' !in r && '-' !in r && '.' !in r
    ensures forall c :: c in r ==> !IsAsciiUpper(c)
    ensures username.Some? ==> |r| <= |username.value|
  {
    if !Filled(username) then []
    else
      var lowered := Lower(LStripChar(PyStrip(username.value), '@'));
      assert forall c :: c in lowered ==> !IsAsciiUpper(c);
      RemoveChar(RemoveChar(RemoveChar(lowered, '_'), '-'), '.')
  }

  /**
   * Normalising is not idempotent: a separator in front of an '@' hides the
   * '@' from the first pass, so "_@x" becomes "@x" and then "x".
   */
  lemma NormalizeIsNotIdempotent()
    ensures NormalizeUsername(Some("_@x")) == "@x"
    ensures NormalizeUsername(Some("@x")) == "x"
  {
    NormalizeFirstPass();
    NormalizeSecondPass();
  }

  lemma NormalizeFirstPass()
    ensures NormalizeUsername(Some("_@x")) == "@x"
  {
    UnderscoreAtStrips();
    UnderscoreAtDrops();
    NormalizeVia("_@x", "_@x", "@x", "@x");
  }

  lemma UnderscoreAtStrips()
    ensures Lower(LStripChar(PyStrip("_@x"), '@')) == "_@x"
  {
    UnderscoreAtIsStripped();
    UnderscoreAtIsKept();
    LowerOfLower("_@x");
  }

  lemma UnderscoreAtIsStripped()
    ensures PyStrip("_@x") == "_@x"
  {
    PyStripOfStripped("_@x");
  }

  lemma UnderscoreAtIsKept()
    ensures LStripChar("_@x", '@') == "_@x"
  {
  }

  lemma UnderscoreAtDrops()
    ensures RemoveChar("_@x", '_') == "@x"
  {
    assert "_@x"[1..] == "@x";
    assert RemoveChar("@x", '_') == "@x";
  }

  lemma NormalizeSecondPass()
    ensures NormalizeUsername(Some("@x")) == "x"
  {
    AtStrips();
    assert RemoveChar("x", '_') == "x";
    NormalizeVia("@x", "x", "x", "x");
  }

  lemma AtStrips()
    ensures Lower(LStripChar(PyStrip("@x"), '@')) == "x"
  {
    AtIsStripped();
    AtIsDropped();
    LowerOfLower("x");
  }

  lemma AtIsStripped()
    ensures PyStrip("@x") == "@x"
  {
    PyStripOfStripped("@x");
  }

  lemma AtIsDropped()
    ensures LStripChar("@x", '@') == "x"
  {
    var s: string := ['@', 'x'];
    var t: string := ['x'];
    assert s[0] == '@' && s[1..] == t && t[0] != '@';
    assert LStripChar(t, '@') == t;
    assert LStripChar(s, '@') == LStripChar(t, '@');
  }

  /** The normalisation of `u`, given the string after stripping and lower-casing and after dropping '_'. */
  lemma NormalizeVia(u: string, lowered: string, noUnderscore: string, r: string)
    requires u != [] && Lower(LStripChar(PyStrip(u), '@')) == lowered
    requires RemoveChar(lowered, '_') == noUnderscore
    requires '-' !in noUnderscore && '.' !in noUnderscore && noUnderscore == r
    ensures NormalizeUsername(Some(u)) == r
  {
  }

  /**
   * A normalised name that does not start with '@' and has no surrounding
   * whitespace normalises to itself: the '@' hidden behind a separator is
   * the only source of change on a second pass.
   */
  lemma NormalizeStable(username: Option<string>, r: string)
    requires r == NormalizeUsername(username)
    requires r == [] || (r[0] != '@' && !IsPySpace(r[0]) && !IsPySpace(r[|r| - 1]))
    ensures NormalizeUsername(Some(r)) == r
  {
    if r != [] {
      PyStripOfStripped(r);
      var l := LStripChar(PyStrip(r), '@');
      assert l == r;
      LowerOfLower(r);
      var lowered := Lower(l);
      assert lowered == r;
      assert RemoveChar(lowered, '_') == r;
      assert RemoveChar(r, '-') == r;
      assert RemoveChar(r, '.') == r;
    }
  }

  /** A database row's Telegram columns and the authorisation flag. */
  datatype Row = Row(telegramId: Option<int>, telegramUsername: Option<string>,
                     normalizedUsername: Option<string>, authorized: bool)

  /** The user data a Telegram update carries; a missing attribute is None. */
  datatype TelegramUser = TelegramUser(username: Option<string>, id: Option<int>)

  /** A row whose normalised username agrees with its username whenever there is one. */
  predicate Consistent(row: Row)
  {
    Filled(row.telegramUsername) ==> row.normalizedUsername == Some(NormalizeUsername(row.telegramUsername))
  }

  /** What save() does to the object before writing: the normalised name follows a non-empty username. */
  function SaveNormalized(row: Row): (r: Row)
    ensures Consistent(r)
    ensures r.telegramId == row.telegramId && r.telegramUsername == row.telegramUsername
    ensures r.authorized == row.authorized
    ensures !Filled(row.telegramUsername) ==> r == row
  {
    if Filled(row.telegramUsername)
    then row.(normalizedUsername := Some(NormalizeUsername(row.telegramUsername)))
    else row
  }

  /**
   * The row a save writes: every column when no update_fields are given,
   * otherwise only the named ones, the rest keeping their stored values.
   */
  function Written(stored: Row, current: Row, fields: Option<set<string>>): (r: Row)
    ensures fields.None? ==> r == current
    ensures r.telegramId == (if fields.None? || "telegram_id" in fields.value then current else stored).telegramId
    ensures r.telegramUsername
         == (if fields.None? || "telegram_username" in fields.value then current else stored).telegramUsername
    ensures r.normalizedUsername
         == (if fields.None? || "normalized_username" in fields.value then current else stored).normalizedUsername
    ensures r.authorized == (if fields.None? || "authorized" in fields.value then current else stored).authorized
  {
    if fields.None? then current
    else
      var f := fields.value;
      Row(if "telegram_id" in f then current.telegramId else stored.telegramId,
          if "telegram_username" in f then current.telegramUsername else stored.telegramUsername,
          if "normalized_username" in f then current.normalizedUsername else stored.normalizedUsername,
          if "authorized" in f then current.authorized else stored.authorized)
  }

  /** A full save always leaves a consistent row in the database. */
  lemma FullSaveIsConsistent(stored: Row, current: Row)
    ensures Consistent(Written(stored, SaveNormalized(current), None))
  {
  }

  /**
   * The fields after filling from Telegram data: the username only when the
   * record has none, the id only when the record has none and no other
   * employee holds it (`heldByOthers`).
   */
  function FillFromTelegram(row: Row, user: TelegramUser, heldByOthers: set<int>): (r: Row)
    ensures Filled(row.telegramUsername) ==> r.telegramUsername == row.telegramUsername
    ensures FilledId(row.telegramId) ==> r.telegramId == row.telegramId
    ensures r.telegramUsername != row.telegramUsername ==> r.telegramUsername == user.username
    ensures r.telegramId != row.telegramId ==> r.telegramId == user.id && FilledId(user.id) && user.id.value !in heldByOthers
    ensures r.normalizedUsername == row.normalizedUsername && r.authorized == row.authorized
    ensures r.telegramUsername != row.telegramUsername <==> !Filled(row.telegramUsername) && Filled(user.username)
    ensures r.telegramId != row.telegramId <==>
      !FilledId(row.telegramId) && FilledId(user.id) && user.id.value !in heldByOthers
  {
    var withName := if Filled(user.username) && !Filled(row.telegramUsername)
                    then row.(telegramUsername := user.username) else row;
    if FilledId(user.id) && !FilledId(row.telegramId) && user.id.value !in heldByOthers
    then withName.(telegramId := user.id) else withName
  }

  /** The columns update_telegram_data saves. */
  const TelegramFields: set<string> := {"telegram_id", "telegram_username"}

  /** The columns it evidently means to save: the normalised name that save() recomputes as well. */
  const TelegramFieldsFixed: set<string> := {"telegram_id", "telegram_username", "normalized_username"}

  /**
   * Whether update_telegram_data goes to the database at all: it looks up the
   * id's holder when the record has no id and the user brings one, and it
   * saves when something was filled.
   */
  predicate UpdateUsesDatabase(row: Row, user: TelegramUser, heldByOthers: set<int>)
  {
    (FilledId(user.id) && !FilledId(row.telegramId)) || FillFromTelegram(row, user, heldByOthers) != row
  }

  /** The stored row after update_telegram_data saving `fields`, starting from memory `current`. */
  function StoredAfterUpdate(stored: Row, current: Row, user: TelegramUser, heldByOthers: set<int>,
                             fields: set<string>): Row
  {
    var filled := FillFromTelegram(current, user, heldByOthers);
    if filled == current then stored else Written(stored, SaveNormalized(filled), Some(fields))
  }

  /**
   * As written, filling a username into a freshly loaded record writes the
   * username but not the normalised name save() computes for it, so the
   * database row is left inconsistent and lookups by normalised name miss it.
   */
  lemma UpdateLeavesNormalizedNameUnsaved()
    ensures var row := Row(None, None, None, false);
      var after := StoredAfterUpdate(row, row, TelegramUser(Some("Ivan_Petrov"), Some(42)), {}, TelegramFields);
      after.telegramUsername == Some("Ivan_Petrov") && after.normalizedUsername == None && !Consistent(after)
  {
    var row := Row(None, None, None, false);
    var user := TelegramUser(Some("Ivan_Petrov"), Some(42));
    UpdateOutcome(row, row, user, {});
  }

  /**
   * As written, in general: starting from a consistent, freshly loaded
   * record, the saved row stays consistent exactly when no username is
   * filled in, or the stored normalised name already matches the new one.
   */
  lemma UpdateConsistentExactly(stored: Row, user: TelegramUser, heldByOthers: set<int>)
    requires Consistent(stored)
    ensures Consistent(StoredAfterUpdate(stored, stored, user, heldByOthers, TelegramFields))
      <==> Filled(stored.telegramUsername) || !Filled(user.username)
           || stored.normalizedUsername == Some(NormalizeUsername(user.username))
  {
    var filled := FillFromTelegram(stored, user, heldByOthers);
    var after := StoredAfterUpdate(stored, stored, user, heldByOthers, TelegramFields);
    if filled != stored {
      assert "normalized_username" !in TelegramFields;
      assert after.normalizedUsername == stored.normalizedUsername;
      assert after.telegramUsername == filled.telegramUsername;
    }
  }

  /** What the as-written update leaves in the row: the normalised name as stored, consistent exactly as above. */
  lemma UpdateOutcome(stored: Row, current: Row, user: TelegramUser, heldByOthers: set<int>)
    ensures var after := StoredAfterUpdate(stored, current, user, heldByOthers, TelegramFields);
      && after.normalizedUsername == stored.normalizedUsername
      && (Filled(user.username) && !Filled(current.telegramUsername) ==> after.telegramUsername == user.username)
      && (stored == current && Consistent(stored) ==>
            (Consistent(after) <==> Filled(stored.telegramUsername) || !Filled(user.username)
                                    || stored.normalizedUsername == Some(NormalizeUsername(user.username))))
  {
    assert "normalized_username" !in TelegramFields && "telegram_username" in TelegramFields;
    if stored == current && Consistent(stored) {
      UpdateConsistentExactly(stored, user, heldByOthers);
    }
  }

  /** Saving the normalised name too keeps a consistent, freshly loaded row consistent. */
  lemma FixedUpdateKeepsRowConsistent(stored: Row, user: TelegramUser, heldByOthers: set<int>)
    requires Consistent(stored)
    ensures Consistent(StoredAfterUpdate(stored, stored, user, heldByOthers, TelegramFieldsFixed))
  {
  }

  class Employee {
    const pk: int
    var telegramId: Option<int>
    var telegramUsername: Option<string>
    var normalizedUsername: Option<string>
    var authorized: bool
    /** The database row as last written. */
    var stored: Row

    /** A record as loaded from the database: memory and row agree. */
    constructor Load(pk: int, row: Row)
      ensures this.pk == pk && Current() == row && stored == row
    {
      this.pk := pk;
      telegramId, telegramUsername, normalizedUsername, authorized := row.telegramId, row.telegramUsername,
                                                                     row.normalizedUsername, row.authorized;
      stored := row;
    }

    function Current(): Row
      reads this
    {
      Row(telegramId, telegramUsername, normalizedUsername, authorized)
    }

    /** save(): normalise, then write all columns or only `fields`. */
    method Save(fields: Option<set<string>>)
      modifies this
      ensures Current() == SaveNormalized(old(Current()))
      ensures stored == Written(old(stored), Current(), fields)
    {
      if telegramUsername.Some? && telegramUsername.value != [] {
        normalizedUsername := Some(NormalizeUsername(telegramUsername));
      }
      stored := Written(stored, Current(), fields);
    }

    /**
     * Fill the Telegram username and id where the record has none (the id
     * only when no other employee holds it) and save those two columns
     * only; save() recomputes the normalised name in memory but that column
     * is not written, so a freshly filled username leaves the stored
     * normalised name behind.  True exactly when something was filled.
     */
    method UpdateTelegramData(user: TelegramUser, heldByOthers: set<int>) returns (updated: bool)
      modifies this
      ensures updated <==> FillFromTelegram(old(Current()), user, heldByOthers) != old(Current())
      ensures updated ==> Current() == SaveNormalized(FillFromTelegram(old(Current()), user, heldByOthers))
      ensures !updated ==> Current() == old(Current())
      ensures stored == StoredAfterUpdate(old(stored), old(Current()), user, heldByOthers, TelegramFields)
      ensures stored.normalizedUsername == old(stored).normalizedUsername
      ensures old(stored) == old(Current()) && Consistent(old(stored)) ==>
        (Consistent(stored) <==> Filled(old(stored).telegramUsername) || !Filled(user.username)
                                 || old(stored).normalizedUsername == Some(NormalizeUsername(user.username)))
    {
      ghost var before := Current();
      ghost var stored0 := stored;
      ghost var filled := FillFromTelegram(before, user, heldByOthers);
      updated := false;
      if user.username.Some? && user.username.value != [] && !(telegramUsername.Some? && telegramUsername.value != []) {
        telegramUsername := user.username;
        updated := true;
      }
      if user.id.Some? && user.id.value != 0 && !(telegramId.Some? && telegramId.value != 0) {
        if user.id.value !in heldByOthers {
          telegramId := user.id;
          updated := true;
        }
      }
      assert Current() == filled;
      assert updated <==> filled != before;
      if updated {
        Save(Some(TelegramFields));
      }
      assert stored == StoredAfterUpdate(stored0, before, user, heldByOthers, TelegramFields);
      UpdateOutcome(stored0, before, user, heldByOthers);
    }
  }

  // ---------------------------------------------------------------------
  // Activity booking

  const ActivityStatuses: set<string> := {"draft", "scheduled", "active", "completed", "cancelled"}

  /** An activity's status, capacity and the statuses of its participants. */
  datatype Activity = Activity(status: string, maxParticipants: int, participantStatuses: seq<string>)

  /** The participants who confirmed. */
  function ConfirmedCount(statuses: seq<string>): (n: nat)
    ensures n <= |statuses|
    ensures n == 0 <==> "confirmed" !in statuses
  {
    if statuses == [] then 0
    else (if statuses[0] == "confirmed" then 1 else 0) + ConfirmedCount(statuses[1..])
  }

  lemma {:induction false} ConfirmedCountAppend(statuses: seq<string>, s: string)
    ensures ConfirmedCount(statuses + [s]) == ConfirmedCount(statuses) + (if s == "confirmed" then 1 else 0)
  {
    if statuses != [] {
      assert (statuses + [s])[1..] == statuses[1..] + [s];
      ConfirmedCountAppend(statuses[1..], s);
    }
  }

  function IsFullyBooked(a: Activity): (full: bool)
    ensures full <==> ConfirmedCount(a.participantStatuses) >= a.maxParticipants
  {
    ConfirmedCount(a.participantStatuses) >= a.maxParticipants
  }

  function CanJoin(a: Activity): (ok: bool)
    ensures ok <==> (a.status == "scheduled" || a.status == "active") && !IsFullyBooked(a)
  {
    (a.status in ["scheduled", "active"]) && !IsFullyBooked(a)
  }

  /**
   * A new confirmation takes exactly one seat: an activity with room is
   * full after it exactly when it had one seat left.
   */
  lemma ConfirmationTakesOneSeat(a: Activity)
    ensures var b := a.(participantStatuses := a.participantStatuses + ["confirmed"]);
      IsFullyBooked(b) <==> ConfirmedCount(a.participantStatuses) + 1 >= a.maxParticipants
  {
    ConfirmedCountAppend(a.participantStatuses, "confirmed");
  }

  /** A fully booked activity stays fully booked whoever else is added, and then nobody can join. */
  lemma FullStaysFull(a: Activity, s: string)
    requires IsFullyBooked(a)
    ensures IsFullyBooked(a.(participantStatuses := a.participantStatuses + [s]))
    ensures !CanJoin(a.(participantStatuses := a.participantStatuses + [s]))
  {
    ConfirmedCountAppend(a.participantStatuses, s);
  }
}
