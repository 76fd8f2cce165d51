// Interest subscriptions and bot authorisation.  An employee's link to an
// interest (a row unique per employee and interest, whose interest code is
// unique) is the entry for (employee pk, interest code) in a map to its
// active flag.
module EmployeeUtils {
  import opened Wrappers
  import opened EmployeeModels

  type Links = map<(int, string), bool>

  /**
   * The links after reconciling `employee` against the catalogue codes
   * `codes`: a requested code gets an active link (created when missing), an
   * unrequested one keeps an existing link, now inactive, and every other
   * link is left as it was.
   */
  function Reconciled(links: Links, employee: int, codes: seq<string>, requested: seq<string>): (r: Links)
    ensures forall c :: c in codes && c in requested ==> (employee, c) in r && r[(employee, c)]
    ensures forall c :: c in codes && c !in requested ==>
      ((employee, c) in r <==> (employee, c) in links) && ((employee, c) in r ==> !r[(employee, c)])
    ensures forall k :: k in links && (k.0 != employee || k.1 !in codes) ==> k in r && r[k] == links[k]
    ensures forall k :: k in r ==> k in links || (k.0 == employee && k.1 in codes && k.1 in requested)
  {
    map k | k in links.Keys + (set c | c in codes && c in requested :: (employee, c))
      :: if k.0 == employee && k.1 in codes then k.1 in requested else links[k]
  }

  /** Reconciling one more code is one more step of the loop. */
  lemma ReconciledStep(links: Links, employee: int, codes: seq<string>, c: string, requested: seq<string>)
    ensures Reconciled(links, employee, codes + [c], requested)
         == Step(Reconciled(links, employee, codes, requested), employee, c, requested)
  {
    var a := Reconciled(links, employee, codes + [c], requested);
    var b := Step(Reconciled(links, employee, codes, requested), employee, c, requested);
    assert forall x :: x in codes + [c] <==> x in codes || x == c;
    assert a.Keys == b.Keys;
  }

  /** The effect of one catalogue code on the links. */
  function Step(links: Links, employee: int, c: string, requested: seq<string>): Links
  {
    if c in requested then links[(employee, c) := true]
    else if (employee, c) in links then links[(employee, c) := false]
    else links
  }

  /** Reconciliation keeps one link per employee and code, so re-running it with the same request changes nothing. */
  lemma ReconcileIdempotent(links: Links, employee: int, codes: seq<string>, requested: seq<string>)
    ensures Reconciled(Reconciled(links, employee, codes, requested), employee, codes, requested)
         == Reconciled(links, employee, codes, requested)
  {
  }

  class InterestLinks {
    var links: Links

    constructor(links: Links)
      ensures this.links == links
    {
      this.links := links;
    }

    /**
     * Subscribe `employee` to exactly the requested codes of the active
     * catalogue `catalogue`.  `failAt` is the catalogue position at which the
     * database raises, if it does: the codes before it stay reconciled and
     * the call answers false.
     */
    method UpdateEmployeeInterests(employee: int, catalogue: seq<string>, requested: seq<string>, failAt: Option<nat>)
      returns (ok: bool)
      modifies this
      ensures ok <==> !(failAt.Some? && failAt.value < |catalogue|)
      ensures ok ==> links == Reconciled(old(links), employee, catalogue, requested)
      ensures !ok ==> links == Reconciled(old(links), employee, catalogue[..failAt.value], requested)
    {
      for i := 0 to |catalogue|
        invariant links == Reconciled(old(links), employee, catalogue[..i], requested)
        invariant failAt.Some? ==> i <= failAt.value
      {
        if failAt == Some(i) {
          return false;
        }
        var code := catalogue[i];
        if code in requested {
          if (employee, code) in links {
            if !links[(employee, code)] {
              links := links[(employee, code) := true];
            }
          } else {
            links := links[(employee, code) := true];
          }
        } else {
          if (employee, code) in links {
            if links[(employee, code)] {
              links := links[(employee, code) := false];
            }
          }
        }
        ReconciledStep(old(links), employee, catalogue[..i], code, requested);
        assert catalogue[..i + 1] == catalogue[..i] + [code];
      }
      assert catalogue[..|catalogue|] == catalogue;
      return true;
    }

    /** Unsubscribe `employee` from everything in one update; a failing database changes nothing. */
    method DisableAllInterests(employee: int, fails: bool) returns (ok: bool)
      modifies this
      ensures ok <==> !fails
      ensures fails ==> links == old(links)
      ensures !fails ==> links.Keys == old(links).Keys
      ensures !fails ==> forall k :: k in links ==> links[k] == (k.0 != employee && old(links)[k])
    {
      if fails {
        return false;
      }
      links := map k | k in links :: if k.0 == employee then false else links[k];
      return true;
    }
  }

  /** The columns the authorisation saves, on first use and afterwards. */
  const AuthorizedFields: set<string> := {"authorized", "last_activity"}
  const LastActivityFields: set<string> := {"last_activity"}

  /** The authorisation saves write no Telegram column and no normalised name. */
  lemma ColumnsOutsideFields()
    ensures "authorized" in AuthorizedFields && "authorized" !in LastActivityFields
    ensures forall f :: f in {"telegram_id", "telegram_username", "normalized_username"} ==>
      f !in AuthorizedFields && f !in LastActivityFields
  {
  }

  /** The step of an authorisation at which the database raises, if any. */
  datatype Failure = NoFailure | LookupFails | UpdateFails | SaveFails

  /**
   * Whether an authorisation runs to its end: nothing raises, or the update
   * was to raise but makes no database call that could.
   */
  predicate Completes(failure: Failure, row: Row, user: TelegramUser, heldByOthers: set<int>)
  {
    failure == NoFailure || (failure == UpdateFails && !UpdateUsesDatabase(row, user, heldByOthers))
  }

  /**
   * Authorise the employee the Telegram data resolved to (`found`, null
   * when there is none): fill their Telegram data, then mark them authorised
   * on first use.  The answer is the employee and whether this was their
   * first authorisation.  `failure` names the step at which the database
   * raises; any such exception answers (None, False), and what was saved
   * before it stays saved.
   */
  method AuthorizeEmployee(found: Employee?, user: TelegramUser, heldByOthers: set<int>, failure: Failure)
    returns (employee: Employee?, isNew: bool)
    modifies found
    ensures found == null || failure == LookupFails ==> employee == null && !isNew
    ensures found != null && failure == LookupFails ==> found.stored == old(found.stored)
    ensures found != null && failure == UpdateFails && UpdateUsesDatabase(old(found.Current()), user, heldByOthers) ==>
      employee == null && !isNew && found.stored == old(found.stored)
    ensures found != null && failure == SaveFails ==>
      employee == null && !isNew
      && found.stored == StoredAfterUpdate(old(found.stored), old(found.Current()), user, heldByOthers, TelegramFields)
    ensures found != null && Completes(failure, old(found.Current()), user, heldByOthers) ==>
      && employee == found
      && (isNew <==> !old(found.authorized))
      && found.authorized
      && (isNew ==> found.stored.authorized)
    ensures found != null && Completes(failure, old(found.Current()), user, heldByOthers) ==>
      var after := StoredAfterUpdate(old(found.stored), old(found.Current()), user, heldByOthers, TelegramFields);
      found.stored.telegramUsername == after.telegramUsername && found.stored.telegramId == after.telegramId
      && found.stored.normalizedUsername == after.normalizedUsername
    ensures found != null && failure != LookupFails ==> found.stored.normalizedUsername == old(found.stored).normalizedUsername
    ensures found != null && Completes(failure, old(found.Current()), user, heldByOthers)
            && old(found.stored) == old(found.Current()) && Consistent(old(found.stored)) ==>
      (Consistent(found.stored) <==> Filled(old(found.stored).telegramUsername) || !Filled(user.username)
                                     || old(found.stored).normalizedUsername == Some(NormalizeUsername(user.username)))
  {
    if found == null || failure == LookupFails {
      return null, false;
    }
    if failure == UpdateFails && UpdateUsesDatabase(found.Current(), user, heldByOthers) {
      return null, false;
    }
    ghost var after := StoredAfterUpdate(found.stored, found.Current(), user, heldByOthers, TelegramFields);
    var _ := found.UpdateTelegramData(user, heldByOthers);
    ColumnsOutsideFields();
    assert found.stored == after;
    if !found.authorized {
      found.authorized := true;
      if failure == SaveFails {
        return null, false;
      }
      found.Save(Some(AuthorizedFields));
      return found, true;
    }
    if failure == SaveFails {
      return null, false;
    }
    found.Save(Some(LastActivityFields));
    return found, false;
  }
}
