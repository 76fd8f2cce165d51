// The weekly activity manager: one planned session per activity type for the
// week starting next Monday, the subscribed participants of a session, and
// the provisional pairing of participants in consecutive twos.
//
// A date is its proleptic Gregorian ordinal (0001-01-01 is day 1, a Monday),
// so its weekday, Monday = 0, is (day + 6) % 7.
module ActivityServices {
  import opened Wrappers

  type Day = int

  function Weekday(d: Day): (w: int)
    ensures 0 <= w < 7
  {
    (d + 6) % 7
  }

  /** The activity types, in the order sessions are created for them. */
  const ActivityTypes: seq<string> := ["secret_coffee", "chess", "ping_pong", "photo_quest", "workshop"]

  /**
   * Days from today to next Monday: minus the weekday, plus a week when that
   * is not positive.
   */
  function DaysAhead(today: Day): (n: int)
    ensures 1 <= n <= 7
    ensures Weekday(today + n) == 0
  {
    var n := 0 - Weekday(today);
    if n <= 0 then n + 7 else n
  }

  function NextMonday(today: Day): Day
  {
    today + DaysAhead(today)
  }

  /**
   * Next Monday is a Monday strictly after today and within a week, with no
   * Monday in between: on a Monday it is a week ahead, never today.
   */
  lemma NextMondayIsTheFirstMondayAfter(today: Day)
    ensures Weekday(NextMonday(today)) == 0
    ensures today < NextMonday(today) <= today + 7
    ensures forall d :: today < d < NextMonday(today) ==> Weekday(d) != 0
    ensures Weekday(today) == 0 ==> NextMonday(today) == today + 7
  {
    forall d | today < d < NextMonday(today) ensures Weekday(d) != 0 {
      assert Weekday(d) == (Weekday(today) + (d - today)) % 7;
    }
  }

  /** The Monday starting the current week: today minus its weekday. */
  function CurrentWeekStart(today: Day): (m: Day)
    ensures Weekday(m) == 0 && today - 7 < m <= today
    ensures Weekday(today) == 0 ==> m == today
  {
    today - Weekday(today)
  }

  /** Next Monday is one week after the start of the current week. */
  lemma NextMondayIsNextWeek(today: Day)
    ensures NextMonday(today) == CurrentWeekStart(today) + 7
  {
  }

  /** A session is identified by its activity type and its week's Monday (they are unique together). */
  datatype SessionKey = SessionKey(activityType: string, weekStart: Day)

  datatype Session = Session(status: string)

  type Sessions = map<SessionKey, Session>

  /** A subscription of an employee to a session; `subscribed` is the subscription status. */
  datatype Participant = Participant(session: SessionKey, employee: int, subscribed: bool)

  datatype ActivityPair = ActivityPair(session: SessionKey, employee1: int, employee2: int)

  /** get_or_create: keep an existing session, else create it planned. */
  function GetOrCreate(sessions: Sessions, key: SessionKey): (r: Sessions)
    ensures key in r
    ensures key in sessions ==> r == sessions
    ensures key !in sessions ==> r == sessions[key := Session("planned")]
  {
    if key in sessions then sessions else sessions[key := Session("planned")]
  }

  /** The sessions after get_or_create for each of `types` in turn, all for the week of `week`. */
  function EnsureSessions(sessions: Sessions, types: seq<string>, week: Day): Sessions
    decreases |types|
  {
    if types == [] then sessions
    else EnsureSessions(GetOrCreate(sessions, SessionKey(types[0], week)), types[1..], week)
  }

  /**
   * Ensuring sessions gives every listed type one for the week, keeps every
   * existing session as it was, and adds nothing else.
   */
  lemma {:induction false} EnsureSessionsSpec(sessions: Sessions, types: seq<string>, week: Day)
    ensures var r := EnsureSessions(sessions, types, week);
      (forall t :: t in types ==> SessionKey(t, week) in r)
      && (forall k :: k in sessions ==> k in r && r[k] == sessions[k])
      && (forall k :: k in r && k !in sessions ==> k.weekStart == week && k.activityType in types && r[k] == Session("planned"))
    decreases |types|
  {
    if types != [] {
      var next := GetOrCreate(sessions, SessionKey(types[0], week));
      EnsureSessionsSpec(next, types[1..], week);
      forall t | t in types ensures SessionKey(t, week) in EnsureSessions(sessions, types, week) {
        if t != types[0] {
          assert t in types[1..];
        }
      }
    }
  }

  /** Running the weekly creation a second time changes nothing. */
  lemma {:induction false} EnsureSessionsIdempotent(sessions: Sessions, types: seq<string>, week: Day)
    ensures EnsureSessions(EnsureSessions(sessions, types, week), types, week) == EnsureSessions(sessions, types, week)
  {
    var once := EnsureSessions(sessions, types, week);
    EnsureSessionsSpec(sessions, types, week);
    EnsureSessionsFixes(once, types, week);
  }

  /** Sessions that already hold every listed type for the week are left alone. */
  lemma {:induction false} EnsureSessionsFixes(sessions: Sessions, types: seq<string>, week: Day)
    requires forall t :: t in types ==> SessionKey(t, week) in sessions
    ensures EnsureSessions(sessions, types, week) == sessions
    decreases |types|
  {
    if types != [] {
      assert types[0] in types;
      forall t | t in types[1..] ensures SessionKey(t, week) in sessions {
        assert t in types;
      }
      EnsureSessionsFixes(sessions, types[1..], week);
    }
  }

  /** The employees subscribed to the session, in the participants' order. */
  function SubscribedEmployees(participants: seq<Participant>, key: SessionKey): (r: seq<int>)
    ensures |r| <= |participants|
    ensures forall e :: e in r <==> Participant(key, e, true) in participants
  {
    if participants == [] then []
    else
      var rest := SubscribedEmployees(participants[1..], key);
      assert forall p :: p in participants <==> p == participants[0] || p in participants[1..];
      if participants[0].session == key && participants[0].subscribed then [participants[0].employee] + rest else rest
  }

  /** Participants of other sessions, and unsubscribed ones, never change the answer. */
  lemma {:induction false} OtherParticipantsDoNotCount(participants: seq<Participant>, key: SessionKey, p: Participant)
    requires p.session != key || !p.subscribed
    ensures SubscribedEmployees(participants + [p], key) == SubscribedEmployees(participants, key)
    decreases |participants|
  {
    if participants == [] {
      assert SubscribedEmployees([p], key) == [] + SubscribedEmployees([], key);
    } else {
      assert (participants + [p])[1..] == participants[1..] + [p];
      OtherParticipantsDoNotCount(participants[1..], key, p);
    }
  }

  /**
   * The provisional pairing: positions (0, 1), (2, 3), …; an odd last
   * participant is left out.
   */
  function ConsecutivePairs(participants: seq<int>, key: SessionKey): (r: seq<ActivityPair>)
    ensures |r| == |participants| / 2
  {
    seq(|participants| / 2, i requires 0 <= i < |participants| / 2 =>
      ActivityPair(key, participants[2 * i], participants[2 * i + 1]))
  }

  /** The employees of the pairs, in order, two per pair. */
  function PairMembers(pairs: seq<ActivityPair>): (r: seq<int>)
    ensures |r| == 2 * |pairs|
  {
    if pairs == [] then [] else [pairs[0].employee1, pairs[0].employee2] + PairMembers(pairs[1..])
  }

  /**
   * Reading the pairs back gives the participants in order, all but an odd
   * last one: every participant but that one is paired exactly where it
   * stands, so distinct participants meet at most one partner each.
   */
  lemma {:induction false} PairsCoverParticipants(participants: seq<int>, key: SessionKey)
    ensures PairMembers(ConsecutivePairs(participants, key)) == participants[..|participants| - |participants| % 2]
    decreases |participants|
  {
    if |participants| >= 2 {
      var rest := participants[2..];
      PairsCoverParticipants(rest, key);
      assert ConsecutivePairs(participants, key)[1..] == ConsecutivePairs(rest, key);
      assert participants[..|participants| - |participants| % 2]
          == participants[..2] + rest[..|rest| - |rest| % 2];
    }
  }

  /** An odd number of participants leaves exactly the last one unpaired. */
  lemma OddLastIsLeftOut(participants: seq<int>, key: SessionKey)
    requires |participants| % 2 == 1
    requires forall i, j :: 0 <= i < j < |participants| ==> participants[i] != participants[j]
    ensures participants[|participants| - 1] !in PairMembers(ConsecutivePairs(participants, key))
    ensures forall i :: 0 <= i < |participants| - 1 ==> participants[i] in PairMembers(ConsecutivePairs(participants, key))
  {
    PairsCoverParticipants(participants, key);
    var kept := participants[..|participants| - 1];
    forall i | 0 <= i < |participants| - 1 ensures participants[i] in kept {
      assert kept[i] == participants[i];
    }
  }

  /**
   * The activity manager over the sessions, subscriptions and pairs the
   * database holds.  The clock is the `today` parameter.
   */
  class ActivityManager {
    var sessions: Sessions
    var participants: seq<Participant>
    var pairs: seq<ActivityPair>

    constructor(sessions: Sessions, participants: seq<Participant>)
      ensures this.sessions == sessions && this.participants == participants && pairs == []
    {
      this.sessions := sessions;
      this.participants := participants;
      pairs := [];
    }

    /** get_or_create a planned session of every activity type for the week starting next Monday. */
    method CreateWeeklySessions(today: Day) returns (ok: bool)
      modifies this
      ensures ok
      ensures sessions == EnsureSessions(old(sessions), ActivityTypes, NextMonday(today))
      ensures participants == old(participants) && pairs == old(pairs)
    {
      var week := NextMonday(today);
      var i := 0;
      while i < |ActivityTypes|
        invariant 0 <= i <= |ActivityTypes|
        invariant EnsureSessions(old(sessions), ActivityTypes, week) == EnsureSessions(sessions, ActivityTypes[i..], week)
        invariant participants == old(participants) && pairs == old(pairs)
      {
        assert ActivityTypes[i..][1..] == ActivityTypes[i + 1..];
        var key := SessionKey(ActivityTypes[i], week);
        if key !in sessions {
          sessions := sessions[key := Session("planned")];
        }
        i := i + 1;
      }
      return true;
    }

    /**
     * The subscribed employees of the session of that type and week (the
     * current week's Monday when none is given); [] when there is no such
     * session.
     */
    method GetParticipants(activityType: string, weekStart: Option<Day>, today: Day) returns (r: seq<int>)
      ensures var key := SessionKey(activityType, if weekStart.Some? then weekStart.value else CurrentWeekStart(today));
        (key !in sessions ==> r == []) && (key in sessions ==> r == SubscribedEmployees(participants, key))
    {
      var week := if weekStart.Some? then weekStart.value else CurrentWeekStart(today);
      var key := SessionKey(activityType, week);
      if key !in sessions {
        return [];
      }
      r := SubscribedEmployees(participants, key);
    }

    /**
     * Record the provisional pairs of the session of that type and week:
     * consecutive participants two by two.  Without such a session nothing
     * is recorded and the answer is [].
     */
    method FormPairs(activityType: string, people: seq<int>, weekStart: Option<Day>, today: Day) returns (r: seq<ActivityPair>)
      modifies this
      ensures sessions == old(sessions) && participants == old(participants)
      ensures var key := SessionKey(activityType, if weekStart.Some? then weekStart.value else CurrentWeekStart(today));
        (key !in sessions ==> r == [] && pairs == old(pairs))
        && (key in sessions ==> r == ConsecutivePairs(people, key) && pairs == old(pairs) + r)
    {
      var week := if weekStart.Some? then weekStart.value else CurrentWeekStart(today);
      var key := SessionKey(activityType, week);
      if key !in sessions {
        return [];
      }
      r := [];
      var i := 0;
      while i < |people| - 1
        invariant 0 <= i <= |people| && i % 2 == 0
        invariant r == ConsecutivePairs(people, key)[..i / 2]
        invariant pairs == old(pairs) + r
        invariant sessions == old(sessions) && participants == old(participants)
      {
        if i + 1 < |people| {
          var pair := ActivityPair(key, people[i], people[i + 1]);
          pairs := pairs + [pair];
          r := r + [pair];
        }
        i := i + 2;
      }
      assert i / 2 == |people| / 2;
    }
  }
}
