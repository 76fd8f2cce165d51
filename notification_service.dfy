// The bot's notification counters: the per-user counts and their total,
// the summary that marks urgent and pending work and picks the alert to
// show first, and the daily summary message.  The counts themselves come
// from database queries and are inputs here.
module Notifications {
  import opened Wrappers
  import opened Text

  /** The per-user counters; `total` is what the bot treats as pending work. */
  datatype Counts = Counts(meetings: int, todayActivities: int, weekActivities: int,
                           notifications: int, urgentActions: int, total: int)

  /** The counters from the query results; this week's activities are shown but not part of the total. */
  function MakeCounts(meetings: nat, todayActivities: nat, weekActivities: nat, notifications: nat,
                      urgentActions: nat): (c: Counts)
    ensures c.total == meetings + todayActivities + notifications + urgentActions
    ensures c.total >= 0
    ensures c.meetings == meetings && c.todayActivities == todayActivities && c.weekActivities == weekActivities
    ensures c.notifications == notifications && c.urgentActions == urgentActions
  {
    Counts(meetings, todayActivities, weekActivities, notifications, urgentActions,
           meetings + todayActivities + notifications + urgentActions)
  }

  /** The counters for a user who is unknown or whose counts cannot be read. */
  function DefaultCounts(): (c: Counts)
    ensures c.meetings == 0 && c.todayActivities == 0 && c.weekActivities == 0
    ensures c.notifications == 0 && c.urgentActions == 0 && c.total == 0
  {
    Counts(0, 0, 0, 0, 0, 0)
  }

  /** The default counters are the counters of a user with nothing at all, so they agree with MakeCounts. */
  lemma DefaultIsEmpty()
    ensures DefaultCounts() == MakeCounts(0, 0, 0, 0, 0)
  {
  }

  datatype Summary = Summary(counts: Counts, hasUrgent: bool, hasPending: bool, primaryAlert: Option<string>)

  /**
   * The summary of the counters: urgent work when there are urgent actions,
   * pending work when the total is positive, and the alert to show first,
   * urgent before meetings before activities before notifications.
   */
  function GetNotificationSummary(counts: Counts): (s: Summary)
    ensures s.counts == counts
    ensures s.hasUrgent <==> counts.urgentActions > 0
    ensures s.hasPending <==> counts.total > 0
    ensures s.primaryAlert == Some("urgent") <==> counts.urgentActions > 0
    ensures s.primaryAlert == Some("meetings") <==> counts.urgentActions <= 0 && counts.meetings > 0
    ensures s.primaryAlert == Some("activities") <==>
      counts.urgentActions <= 0 && counts.meetings <= 0 && counts.todayActivities > 0
    ensures s.primaryAlert == Some("notifications") <==>
      counts.urgentActions <= 0 && counts.meetings <= 0 && counts.todayActivities <= 0 && counts.notifications > 0
    ensures s.primaryAlert.None? <==>
      counts.urgentActions <= 0 && counts.meetings <= 0 && counts.todayActivities <= 0 && counts.notifications <= 0
  {
    var alert :=
      if counts.urgentActions > 0 then Some("urgent")
      else if counts.meetings > 0 then Some("meetings")
      else if counts.todayActivities > 0 then Some("activities")
      else if counts.notifications > 0 then Some("notifications")
      else None;
    Summary(counts, counts.urgentActions > 0, counts.total > 0, alert)
  }

  /** For counters built from query results, there is an alert to show exactly when work is pending. */
  lemma AlertIffPending(meetings: nat, todayActivities: nat, weekActivities: nat, notifications: nat, urgentActions: nat)
    ensures var s := GetNotificationSummary(MakeCounts(meetings, todayActivities, weekActivities, notifications, urgentActions));
      s.primaryAlert.Some? <==> s.hasPending
  {
  }

  const NoPendingMessage := "🎉 На сегодня у вас нет ожидающих действий! Хорошего дня!"
  const SummaryHeader := "🔔 *Ежедневная сводка*\n\n"
  const SummaryFooter := "\n\n" + "Используйте команду /notifications для детального просмотра."

  function UrgentLine(n: int): (s: string)
    ensures |s| > 0 && s[0] == '🚨'
  {
    "🚨 Срочные действия: " + IntToString(n) + "\n"
  }

  function MeetingsLine(n: int): (s: string)
    ensures |s| > 0 && s[0] == '🤝'
  {
    "🤝 Ожидающие встречи: " + IntToString(n) + "\n"
  }

  function ActivitiesLine(n: int): (s: string)
    ensures |s| > 0 && s[0] == '📅'
  {
    "📅 Активности сегодня: " + IntToString(n) + "\n"
  }

  function NotificationsLine(n: int): (s: string)
    ensures |s| > 0 && s[0] == '📨'
  {
    "📨 Непрочитанные уведомления: " + IntToString(n) + "\n"
  }

  function TotalLine(n: int): string { "\n💡 Всего ожидающих действий: " + IntToString(n) }

  /** The place of a category in the summary, by the emoji its line starts with. */
  function CategoryRank(c: char): int
  {
    if c == '🚨' then 0 else if c == '🤝' then 1 else if c == '📅' then 2 else 3
  }

  /**
   * The category lines of the summary: one per positive count, urgent
   * actions, meetings, today's activities and notifications in that order,
   * none twice.
   */
  function CategoryLines(counts: Counts): (lines: seq<string>)
    ensures |lines| <= 4
    ensures RankedBelow(lines, 4)
    ensures forall x :: x in lines <==>
      (counts.urgentActions > 0 && x == UrgentLine(counts.urgentActions))
      || (counts.meetings > 0 && x == MeetingsLine(counts.meetings))
      || (counts.todayActivities > 0 && x == ActivitiesLine(counts.todayActivities))
      || (counts.notifications > 0 && x == NotificationsLine(counts.notifications))
  {
    var u := UrgentLine(counts.urgentActions);
    var m := MeetingsLine(counts.meetings);
    var a := ActivitiesLine(counts.todayActivities);
    var n := NotificationsLine(counts.notifications);
    var lines := LineIf(counts.urgentActions > 0, u) + LineIf(counts.meetings > 0, m)
      + LineIf(counts.todayActivities > 0, a) + LineIf(counts.notifications > 0, n);
    FourLines(counts.urgentActions > 0, counts.meetings > 0, counts.todayActivities > 0, counts.notifications > 0,
              u, m, a, n);
    assert forall k :: 0 <= k < |lines| ==> lines[k] in lines;
    lines
  }

  /** Four optional lines, one per category in order, whatever their text after the emoji. */
  lemma FourLines(p1: bool, p2: bool, p3: bool, p4: bool, u: string, m: string, a: string, n: string)
    requires |u| > 0 && u[0] == '🚨' && |m| > 0 && m[0] == '🤝'
    requires |a| > 0 && a[0] == '📅' && |n| > 0 && n[0] == '📨'
    ensures var lines := LineIf(p1, u) + LineIf(p2, m) + LineIf(p3, a) + LineIf(p4, n);
      |lines| <= 4 && RankedBelow(lines, 4)
  {
    ThreeLines(p1, p2, p3, u, m, a);
    AppendRanked(LineIf(p1, u) + LineIf(p2, m) + LineIf(p3, a), p4, n, 3);
  }

  lemma ThreeLines(p1: bool, p2: bool, p3: bool, u: string, m: string, a: string)
    requires |u| > 0 && u[0] == '🚨' && |m| > 0 && m[0] == '🤝' && |a| > 0 && a[0] == '📅'
    ensures var lines := LineIf(p1, u) + LineIf(p2, m) + LineIf(p3, a);
      |lines| <= 3 && RankedBelow(lines, 3)
  {
    TwoLines(p1, p2, u, m);
    AppendRanked(LineIf(p1, u) + LineIf(p2, m), p3, a, 2);
  }

  lemma TwoLines(p1: bool, p2: bool, u: string, m: string)
    requires |u| > 0 && u[0] == '🚨' && |m| > 0 && m[0] == '🤝'
    ensures var lines := LineIf(p1, u) + LineIf(p2, m);
      |lines| <= 2 && RankedBelow(lines, 2)
  {
    AppendRanked([], p1, u, 0);
    assert [] + LineIf(p1, u) == LineIf(p1, u);
    AppendRanked(LineIf(p1, u), p2, m, 1);
  }

  /** Category lines, each starting with a category's emoji, of strictly increasing rank, all below `r`. */
  predicate RankedBelow(xs: seq<string>, r: int)
  {
    && (forall k :: 0 <= k < |xs| ==>
          |xs[k]| > 0 && xs[k][0] in {'🚨', '🤝', '📅', '📨'} && CategoryRank(xs[k][0]) < r)
    && (forall k, l :: 0 <= k < l < |xs| ==> CategoryRank(xs[k][0]) < CategoryRank(xs[l][0]))
  }

  /** Appending a line of rank `r`, or nothing, to lines ranked below `r` keeps them ranked. */
  lemma AppendRanked(xs: seq<string>, positive: bool, line: string, r: int)
    requires RankedBelow(xs, r) && |line| > 0 && line[0] in {'🚨', '🤝', '📅', '📨'} && CategoryRank(line[0]) == r
    ensures RankedBelow(xs + LineIf(positive, line), r + 1)
  {
  }

  /** The line alone when its count is positive, else nothing. */
  function LineIf(positive: bool, line: string): (r: seq<string>)
    ensures |r| <= 1
    ensures forall x :: x in r <==> positive && x == line
  {
    if positive then [line] else []
  }

  /** Each category's line is among the summary's lines exactly when its count is positive. */
  lemma CategoryLineIffPositive(counts: Counts)
    ensures UrgentLine(counts.urgentActions) in CategoryLines(counts) <==> counts.urgentActions > 0
    ensures MeetingsLine(counts.meetings) in CategoryLines(counts) <==> counts.meetings > 0
    ensures ActivitiesLine(counts.todayActivities) in CategoryLines(counts) <==> counts.todayActivities > 0
    ensures NotificationsLine(counts.notifications) in CategoryLines(counts) <==> counts.notifications > 0
  {
    var u := UrgentLine(counts.urgentActions);
    var m := MeetingsLine(counts.meetings);
    var a := ActivitiesLine(counts.todayActivities);
    var n := NotificationsLine(counts.notifications);
    assert u[0] != m[0] && u[0] != a[0] && u[0] != n[0] && m[0] != a[0] && m[0] != n[0] && a[0] != n[0];
  }

  /**
   * The pieces of the daily summary in order: the fixed message when
   * nothing is pending; otherwise the header, one line per positive
   * category, the total line and the footer.
   */
  function DailySummaryParts(counts: Counts): (parts: seq<string>)
    ensures counts.total == 0 ==> parts == [NoPendingMessage]
    ensures counts.total != 0 ==>
      && 3 <= |parts| <= 7
      && parts[0] == SummaryHeader
      && parts[1..|parts| - 2] == CategoryLines(counts)
      && parts[|parts| - 2] == TotalLine(counts.total)
      && parts[|parts| - 1] == SummaryFooter
  {
    if counts.total == 0 then [NoPendingMessage]
    else
      var lines := CategoryLines(counts);
      var parts := [SummaryHeader] + lines + [TotalLine(counts.total), SummaryFooter];
      assert parts[1..|parts| - 2] == lines;
      parts
  }

  /**
   * With work pending, each category's line is in the summary exactly when
   * its count is positive (the header, total and footer are no category
   * line: they start differently).
   */
  lemma DailySummaryListsPositiveCategories(counts: Counts)
    requires counts.total != 0
    ensures var parts := DailySummaryParts(counts);
      && (UrgentLine(counts.urgentActions) in parts <==> counts.urgentActions > 0)
      && (MeetingsLine(counts.meetings) in parts <==> counts.meetings > 0)
      && (ActivitiesLine(counts.todayActivities) in parts <==> counts.todayActivities > 0)
      && (NotificationsLine(counts.notifications) in parts <==> counts.notifications > 0)
  {
    var parts := DailySummaryParts(counts);
    var lines := CategoryLines(counts);
    CategoryLineIffPositive(counts);
    assert parts == [SummaryHeader] + lines + [TotalLine(counts.total), SummaryFooter] by {
      assert parts == parts[..1] + parts[1..|parts| - 2] + parts[|parts| - 2..];
    }
    var h, t, f := SummaryHeader, TotalLine(counts.total), SummaryFooter;
    assert h[0] == '🔔' && t[0] == '\n' && f[0] == '\n';
    InFramed(h, lines, t, f, UrgentLine(counts.urgentActions));
    InFramed(h, lines, t, f, MeetingsLine(counts.meetings));
    InFramed(h, lines, t, f, ActivitiesLine(counts.todayActivities));
    InFramed(h, lines, t, f, NotificationsLine(counts.notifications));
  }

  /** A line other than the header, total and footer is in the framed summary exactly when it is among the lines. */
  lemma InFramed(h: string, lines: seq<string>, t: string, f: string, x: string)
    requires x != h && x != t && x != f
    ensures x in [h] + lines + [t, f] <==> x in lines
  {
  }

  function Join(parts: seq<string>): string
  {
    if parts == [] then [] else parts[0] + Join(parts[1..])
  }

  /** The daily summary message: its pieces joined. */
  function FormatDailySummary(counts: Counts): (message: string)
    ensures counts.total == 0 ==> message == NoPendingMessage
  {
    if counts.total == 0 then
      assert Join([NoPendingMessage]) == NoPendingMessage + Join([]);
      NoPendingMessage
    else Join(DailySummaryParts(counts))
  }
}
