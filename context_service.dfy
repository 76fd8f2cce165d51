// The bot's view of a user's situation: the time of day and day of the week,
// how active and how experienced the user is, how pressing their pending
// work is, and the quick actions, tips and highlighted menu section derived
// from all that.  Clock readings and database counts are inputs here.
module ContextService {
  import opened Wrappers
  import opened Notifications

  /** The part of the day; `Day` only appears in the fallback context. */
  datatype TimeOfDay = Morning | Afternoon | Evening | Night | Day

  datatype DayContext = WeekStart | WeekEnd | Weekend | Weekday

  datatype TimeContext = TimeContext(timeOfDay: TimeOfDay, timeLabel: string, timeTip: string,
                                     dayContext: DayContext, dayTip: string, hour: int, weekday: int)

  function TimeOfDayAt(hour: int): (t: TimeOfDay)
    ensures t == Morning <==> 5 <= hour < 12
    ensures t == Afternoon <==> 12 <= hour < 17
    ensures t == Evening <==> 17 <= hour < 22
    ensures t == Night <==> hour < 5 || 22 <= hour
    ensures t != Day
  {
    if 5 <= hour < 12 then Morning
    else if 12 <= hour < 17 then Afternoon
    else if 17 <= hour < 22 then Evening
    else Night
  }

  /** The day context of a weekday number, Monday being 0. */
  function DayContextOf(weekday: int): (d: DayContext)
    ensures d == WeekStart <==> weekday == 0
    ensures d == WeekEnd <==> weekday == 4
    ensures d == Weekend <==> weekday >= 5
    ensures d == Weekday <==> weekday != 0 && weekday != 4 && weekday < 5
  {
    if weekday == 0 then WeekStart
    else if weekday == 4 then WeekEnd
    else if weekday >= 5 then Weekend
    else Weekday
  }

  function TimeLabel(t: TimeOfDay): string
  {
    match t
    case Morning => "Утро ☀️"
    case Afternoon => "День 🏢"
    case Evening => "Вечер 🌙"
    case Night => "Ночь 🌙"
    case Day => "День 🏢"
  }

  function TimeTip(t: TimeOfDay): string
  {
    match t
    case Morning => "Отличное время для планирования дня!"
    case Afternoon => "Рабочее время - идеально для встреч!"
    case Evening => "Время для неформального общения"
    case Night => "Поздний час, отдыхайте!"
    case Day => "Добро пожаловать!"
  }

  function DayTip(d: DayContext): string
  {
    match d
    case WeekStart => "Начало недели - время планировать встречи!"
    case WeekEnd => "Конец недели - подводим итоги!"
    case Weekend => "Выходные - время для неформальных активностей!"
    case Weekday => "Рабочий день - участвуйте в активностях!"
  }

  /** The time context of a clock reading: its part of the day and day of the week, each with its label and tip. */
  function AnalyzeTimeContext(hour: int, weekday: int): (c: TimeContext)
    ensures c.timeOfDay == TimeOfDayAt(hour) && c.dayContext == DayContextOf(weekday)
    ensures c.timeLabel == TimeLabel(c.timeOfDay) && c.timeTip == TimeTip(c.timeOfDay)
    ensures c.dayTip == DayTip(c.dayContext)
    ensures c.hour == hour && c.weekday == weekday
  {
    var t := TimeOfDayAt(hour);
    var d := DayContextOf(weekday);
    TimeContext(t, TimeLabel(t), TimeTip(t), d, DayTip(d), hour, weekday)
  }

  /** Every hour falls in exactly one of the four parts of the day. */
  lemma HoursPartitioned(hour: int)
    ensures var t := TimeOfDayAt(hour);
      (t == Morning) || (t == Afternoon) || (t == Evening) || (t == Night)
  {
  }

  datatype ActivityLevel = New | Low | Medium | High

  /** How active a user is, from their activities in the last 30 days. */
  function ActivityLevelOf(recent: int): (l: ActivityLevel)
    ensures l == High <==> recent >= 10
    ensures l == Medium <==> 5 <= recent < 10
    ensures l == Low <==> 1 <= recent < 5
    ensures l == New <==> recent < 1
  {
    if recent >= 10 then High
    else if recent >= 5 then Medium
    else if recent >= 1 then Low
    else New
  }

  function ActivityLabel(l: ActivityLevel): string
  {
    match l
    case High => "Активный участник 🏆"
    case Medium => "Регулярный участник 👍"
    case Low => "Новичок 🌱"
    case New => "Новый пользователь 🎯"
  }

  datatype Experience = Fresh | Beginner | Intermediate | Advanced | Expert

  function ExperienceRank(e: Experience): nat
  {
    match e
    case Fresh => 0
    case Beginner => 1
    case Intermediate => 2
    case Advanced => 3
    case Expert => 4
  }

  /** The experience level from the number of activities taken part in ("new" is `Fresh`). */
  function ExperienceLevel(total: int): (e: Experience)
    ensures e == Expert <==> total >= 20
    ensures e == Advanced <==> 10 <= total < 20
    ensures e == Intermediate <==> 5 <= total < 10
    ensures e == Beginner <==> 1 <= total < 5
    ensures e == Fresh <==> total < 1
  {
    if total >= 20 then Expert
    else if total >= 10 then Advanced
    else if total >= 5 then Intermediate
    else if total >= 1 then Beginner
    else Fresh
  }

  /** Taking part in more activities never lowers the experience level. */
  lemma ExperienceMonotone(a: int, b: int)
    requires a <= b
    ensures ExperienceRank(ExperienceLevel(a)) <= ExperienceRank(ExperienceLevel(b))
  {
  }

  /** The experience levels are distinct thresholds: each level is reached at its own count and no earlier. */
  lemma ExperienceThresholds()
    ensures ExperienceLevel(0) == Fresh && ExperienceLevel(1) == Beginner && ExperienceLevel(5) == Intermediate
    ensures ExperienceLevel(10) == Advanced && ExperienceLevel(20) == Expert
    ensures ExperienceLevel(4) == Beginner && ExperienceLevel(9) == Intermediate && ExperienceLevel(19) == Advanced
  {
  }

  datatype ActivityProfile = ActivityProfile(totalActivities: nat, totalMeetings: nat, recentActivities: nat,
                                             level: ActivityLevel, levelLabel: string, experience: Experience)

  /** The three counts the profile is built from, when the queries succeed. */
  datatype ProfileCounts = ProfileCounts(totalActivities: nat, totalMeetings: nat, recentActivities: nat)

  /**
   * The activity profile of a user.  `counts` is None when the database
   * queries raise; the profile then falls back to a new user whose
   * experience is nevertheless "beginner".
   */
  function AnalyzeActivityProfile(counts: Option<ProfileCounts>): (p: ActivityProfile)
    ensures counts.None? ==> p == ActivityProfile(0, 0, 0, New, ActivityLabel(New), Beginner)
    ensures counts.Some? ==>
      && p.totalActivities == counts.value.totalActivities
      && p.totalMeetings == counts.value.totalMeetings
      && p.recentActivities == counts.value.recentActivities
      && p.level == ActivityLevelOf(p.recentActivities)
      && p.levelLabel == ActivityLabel(p.level)
      && p.experience == ExperienceLevel(p.totalActivities)
  {
    match counts
    case None => ActivityProfile(0, 0, 0, New, ActivityLabel(New), Beginner)
    case Some(c) =>
      var level := ActivityLevelOf(c.recentActivities);
      ActivityProfile(c.totalActivities, c.totalMeetings, c.recentActivities, level, ActivityLabel(level),
                      ExperienceLevel(c.totalActivities))
  }

  /** The fallback profile has the counts of a user with no activities but not their experience level. */
  lemma FallbackProfileIsNotTheEmptyProfile()
    ensures var fallback := AnalyzeActivityProfile(None);
      var empty := AnalyzeActivityProfile(Some(ProfileCounts(0, 0, 0)));
      && fallback.totalActivities == empty.totalActivities
      && fallback.level == empty.level
      && fallback.experience == Beginner && empty.experience == Fresh
  {
  }

  datatype Priority = NoPriority | LowPriority | MediumPriority | HighPriority | Urgent

  /** How pressing the user's pending work is: urgent actions first, then by the total. */
  function PriorityLevel(counts: Counts): (p: Priority)
    ensures p == Urgent <==> counts.urgentActions > 0
    ensures p == HighPriority <==> counts.urgentActions <= 0 && counts.total >= 5
    ensures p == MediumPriority <==> counts.urgentActions <= 0 && 3 <= counts.total < 5
    ensures p == LowPriority <==> counts.urgentActions <= 0 && 1 <= counts.total < 3
    ensures p == NoPriority <==> counts.urgentActions <= 0 && counts.total < 1
  {
    if counts.urgentActions > 0 then Urgent
    else if counts.total >= 5 then HighPriority
    else if counts.total >= 3 then MediumPriority
    else if counts.total >= 1 then LowPriority
    else NoPriority
  }

  /** Urgent actions decide the priority whatever the total. */
  lemma UrgentOverridesTotal(c1: Counts, c2: Counts)
    requires c1.urgentActions > 0 && c2.urgentActions > 0
    ensures PriorityLevel(c1) == PriorityLevel(c2)
  {
  }

  /** The quick actions, one per rule, in the order the rules are tried. */
  const QuickActionTexts: seq<string> := [
    "🚨 Подтвердить срочные действия",
    "🤝 Ответить на встречи",
    "📅 Подтвердить участие",
    "📋 Планирование на день",
    "🗓️ Настройка на неделю",
    "📊 Итоги недели",
    "🎯 Начать с простых активностей"
  ]

  const MaxQuickActions := 4

  /** Whether each quick-action rule applies, in rule order. */
  function ActionRules(counts: Counts, time: TimeContext, experience: Experience): (rules: seq<bool>)
    ensures |rules| == |QuickActionTexts|
    ensures rules[0] <==> counts.urgentActions > 0
    ensures rules[1] <==> counts.meetings > 0
    ensures rules[2] <==> counts.todayActivities > 0
    ensures rules[3] <==> time.timeOfDay == Morning
    ensures rules[4] <==> time.dayContext == WeekStart
    ensures rules[5] <==> time.dayContext == WeekEnd
    ensures rules[6] <==> experience == Fresh
  {
    [counts.urgentActions > 0, counts.meetings > 0, counts.todayActivities > 0,
     time.timeOfDay == Morning, time.dayContext == WeekStart, time.dayContext == WeekEnd,
     experience == Fresh]
  }

  predicate StrictlyIncreasing(ix: seq<nat>)
  {
    forall i, j :: 0 <= i < j < |ix| ==> ix[i] < ix[j]
  }

  /** The positions of the rules that apply, in order. */
  function Fired(rules: seq<bool>): (ix: seq<nat>)
    ensures StrictlyIncreasing(ix)
    ensures forall k :: k in ix <==> 0 <= k < |rules| && rules[k]
    ensures |ix| <= |rules|
    decreases |rules|
  {
    if rules == [] then []
    else
      var n := |rules| - 1;
      var init := rules[..n];
      assert |init| == n && forall k :: 0 <= k < n ==> init[k] == rules[k];
      var front := Fired(init);
      assert forall i :: 0 <= i < |front| ==> front[i] in front;
      assert forall i :: 0 <= i < |front| ==> front[i] < n;
      var ix := front + (if rules[n] then [n] else []);
      assert forall i :: 0 <= i < |front| ==> ix[i] == front[i];
      ix
  }

  /**
   * The rules whose actions are offered: those that apply, in rule order,
   * cut off after the fourth.  A rule that applies is left out only when
   * four earlier rules already filled the list.
   */
  function QuickActionRules(counts: Counts, time: TimeContext, experience: Experience): (ix: seq<nat>)
    ensures |ix| <= MaxQuickActions
    ensures StrictlyIncreasing(ix)
    ensures forall i :: 0 <= i < |ix| ==> ix[i] < |QuickActionTexts| && ActionRules(counts, time, experience)[ix[i]]
    ensures forall k :: 0 <= k < |QuickActionTexts| && ActionRules(counts, time, experience)[k] ==>
      k in ix || (|ix| == MaxQuickActions && forall i :: 0 <= i < |ix| ==> ix[i] < k)
  {
    var all := Fired(ActionRules(counts, time, experience));
    var ix := if |all| <= MaxQuickActions then all else all[..MaxQuickActions];
    assert forall i :: 0 <= i < |ix| ==> ix[i] == all[i] && all[i] in all;
    forall k | 0 <= k < |QuickActionTexts| && ActionRules(counts, time, experience)[k] && k !in ix
      ensures |ix| == MaxQuickActions && forall i :: 0 <= i < |ix| ==> ix[i] < k
    {
      var p :| 0 <= p < |all| && all[p] == k;
      assert p >= |ix|;
    }
    ix
  }

  /** The quick actions offered: the texts of the offered rules. */
  function GetQuickActions(counts: Counts, time: TimeContext, experience: Experience): (actions: seq<string>)
    ensures var ix := QuickActionRules(counts, time, experience);
      |actions| == |ix| && forall i :: 0 <= i < |ix| ==> actions[i] == QuickActionTexts[ix[i]]
    ensures |actions| <= MaxQuickActions
  {
    var ix := QuickActionRules(counts, time, experience);
    seq(|ix|, i requires 0 <= i < |ix| => QuickActionTexts[ix[i]])
  }

  /** With urgent actions pending, confirming them is always the first quick action. */
  lemma UrgentActionComesFirst(counts: Counts, time: TimeContext, experience: Experience)
    requires counts.urgentActions > 0
    ensures var actions := GetQuickActions(counts, time, experience);
      |actions| > 0 && actions[0] == QuickActionTexts[0]
  {
    var ix := QuickActionRules(counts, time, experience);
    assert ActionRules(counts, time, experience)[0];
    assert !(|ix| == MaxQuickActions && forall i :: 0 <= i < |ix| ==> ix[i] < 0) by {
      if |ix| == MaxQuickActions {
        assert ix[0] >= 0;
      }
    }
    var p :| 0 <= p < |ix| && ix[p] == 0;
    assert forall i :: 0 <= i < |ix| ==> ix[0] <= ix[i];
  }

  /** The start-of-week and end-of-week actions are never offered together. */
  lemma WeekActionsExclusive(counts: Counts, time: TimeContext, experience: Experience)
    ensures var ix := QuickActionRules(counts, time, experience);
      !(4 in ix && 5 in ix)
  {
    var ix := QuickActionRules(counts, time, experience);
    var rules := ActionRules(counts, time, experience);
    if 4 in ix {
      var i :| 0 <= i < |ix| && ix[i] == 4;
      assert rules[4] && !rules[5];
    }
  }

  const UrgentTip := "🚨 Не забудьте про срочные действия!"
  const AllDoneTip := "🎉 Все задачи выполнены! Можете отдохнуть или выбрать новые активности."
  const MondayTip := "📅 Понедельник - идеальный день для планирования встреч на неделю!"
  const FridayTip := "🎯 Пятница - время подводить итоги и планировать выходные активности!"

  /** The tip for an activity level; medium activity gets none. */
  function LevelTip(level: ActivityLevel): (tip: seq<string>)
    ensures |tip| <= 1
    ensures tip == [] <==> level == Medium
  {
    match level
    case New => ["💡 Начните с Тайного кофе - это отличный способ познакомиться с коллегами!"]
    case Low => ["🌟 Попробуйте разные активности для получения достижений!"]
    case High => ["🏆 Вы - звезда активностей! Продолжайте в том же духе!"]
    case Medium => []
  }

  function WeekdayTip(weekday: int): (tip: seq<string>)
    ensures |tip| <= 1
    ensures tip == [] <==> weekday != 0 && weekday != 4
  {
    if weekday == 0 then [MondayTip] else if weekday == 4 then [FridayTip] else []
  }

  /**
   * The tips: a reminder of urgent actions, a congratulation when nothing is
   * pending, then always the time tip and the day tip, then a tip for the
   * activity level and one for Monday or Friday.
   */
  function GetSmartTips(level: ActivityLevel, time: TimeContext, counts: Counts): (tips: seq<string>)
    ensures var lead := (if counts.urgentActions > 0 then 1 else 0) + (if counts.total == 0 then 1 else 0);
      && lead + 2 <= |tips| <= lead + 4
      && tips[lead] == time.timeTip && tips[lead + 1] == time.dayTip
      && (counts.urgentActions > 0 ==> tips[0] == UrgentTip)
      && (counts.total == 0 ==> tips[lead - 1] == AllDoneTip)
      && tips[lead + 2..] == LevelTip(level) + WeekdayTip(time.weekday)
  {
    var head := (if counts.urgentActions > 0 then [UrgentTip] else []) + (if counts.total == 0 then [AllDoneTip] else []);
    var rest := LevelTip(level) + WeekdayTip(time.weekday);
    var tips := head + [time.timeTip, time.dayTip] + rest;
    assert tips[|head| + 2..] == rest;
    tips
  }

  /** The time tip and the day tip are always among the tips. */
  lemma TimeAndDayTipsAlwaysGiven(level: ActivityLevel, time: TimeContext, counts: Counts)
    ensures var tips := GetSmartTips(level, time, counts);
      time.timeTip in tips && time.dayTip in tips
  {
    var tips := GetSmartTips(level, time, counts);
    var lead := (if counts.urgentActions > 0 then 1 else 0) + (if counts.total == 0 then 1 else 0);
    assert tips[lead] == time.timeTip && tips[lead + 1] == time.dayTip;
  }

  /** The full context the bot keeps for a user. */
  datatype UserContext = UserContext(time: TimeContext, profile: ActivityProfile, notifications: Summary,
                                     quickActions: seq<string>, smartTips: seq<string>, priority: Priority)

  /** The context used when the user cannot be found or analysed. */
  function DefaultContext(): (c: UserContext)
    ensures c.time.timeOfDay == Day && c.time.dayContext == Weekday && c.time.hour == 12 && c.time.weekday == 0
    ensures c.profile == AnalyzeActivityProfile(None)
    ensures !c.notifications.hasUrgent && !c.notifications.hasPending && c.notifications.primaryAlert.None?
    ensures c.quickActions == ["🎯 Начать знакомство", "📚 Изучить возможности"]
    ensures c.smartTips == ["💡 Используйте кнопки для навигации", "🔔 Числа показывают ожидающие действия"]
    ensures c.priority == NoPriority
  {
    UserContext(TimeContext(Day, TimeLabel(Day), TimeTip(Day), Weekday, "Хорошего дня!", 12, 0),
                AnalyzeActivityProfile(None),
                Summary(DefaultCounts(), false, false, None),
                ["🎯 Начать знакомство", "📚 Изучить возможности"],
                ["💡 Используйте кнопки для навигации", "🔔 Числа показывают ожидающие действия"],
                NoPriority)
  }

  /**
   * The context of a user at a clock reading.  `found` is false when no
   * employee has the Telegram id, which sends the call to the default
   * context; `profileCounts` and `counts` are the database readings.  The
   * quick actions read the activity profile a second time, so that second
   * reading, `actionProfileCounts`, is an input of its own: the database can
   * change between the two queries, or one of them can fail into the
   * fallback profile while the other succeeds.
   */
  function GetUserContext(found: bool, hour: int, weekday: int, profileCounts: Option<ProfileCounts>,
                          actionProfileCounts: Option<ProfileCounts>, counts: Counts): (c: UserContext)
    ensures !found ==> c == DefaultContext()
    ensures found ==>
      && c.time == AnalyzeTimeContext(hour, weekday)
      && c.profile == AnalyzeActivityProfile(profileCounts)
      && c.notifications == GetNotificationSummary(counts)
      && c.quickActions == GetQuickActions(counts, c.time, AnalyzeActivityProfile(actionProfileCounts).experience)
      && c.smartTips == GetSmartTips(c.profile.level, c.time, counts)
      && c.priority == PriorityLevel(counts)
  {
    if !found then DefaultContext()
    else
      var time := AnalyzeTimeContext(hour, weekday);
      var profile := AnalyzeActivityProfile(profileCounts);
      UserContext(time, profile, GetNotificationSummary(counts),
                  GetQuickActions(counts, time, AnalyzeActivityProfile(actionProfileCounts).experience),
                  GetSmartTips(profile.level, time, counts),
                  PriorityLevel(counts))
  }

  /** A user's context is urgent in its priority exactly when its notifications say so. */
  lemma PriorityAgreesWithSummary(hour: int, weekday: int, profileCounts: Option<ProfileCounts>,
                                  actionProfileCounts: Option<ProfileCounts>, counts: Counts)
    ensures var c := GetUserContext(true, hour, weekday, profileCounts, actionProfileCounts, counts);
      c.priority == Urgent <==> c.notifications.hasUrgent
  {
  }

  lemma FirstTwoIncrease(ix: seq<nat>)
    requires StrictlyIncreasing(ix)
    ensures |ix| > 1 ==> ix[0] < ix[1]
  {
  }

  /** With nothing pending, outside the morning and in mid-week, a newcomer is offered the newcomer's action alone. */
  lemma OnlyNewcomerAction(counts: Counts, time: TimeContext)
    requires counts.urgentActions <= 0 && counts.meetings <= 0 && counts.todayActivities <= 0
    requires time.timeOfDay != Morning && time.dayContext == Weekday
    ensures var actions := GetQuickActions(counts, time, Fresh);
      |actions| == 1 && actions[0] == QuickActionTexts[6]
  {
    var ix := QuickActionRules(counts, time, Fresh);
    var rules := ActionRules(counts, time, Fresh);
    assert forall k :: 0 <= k < 6 ==> !rules[k];
    assert rules[6];
    assert forall i :: 0 <= i < |ix| ==> ix[i] == 6;
    assert |ix| > 0 ==> ix[0] == 6;
    assert 6 in ix;
    FirstTwoIncrease(ix);
  }

  /**
   * The two profile readings can disagree: a user whose context profile is
   * "expert" can still be offered the newcomer's action, because the quick
   * actions' own reading found no activities.
   */
  lemma ExpertCanBeOfferedNewcomerAction()
    ensures var c := GetUserContext(true, 14, 2, Some(ProfileCounts(20, 0, 0)), Some(ProfileCounts(0, 0, 0)),
                                    DefaultCounts());
      c.profile.experience == Expert && |c.quickActions| == 1 && c.quickActions[0] == QuickActionTexts[6]
  {
    var time := AnalyzeTimeContext(14, 2);
    assert AnalyzeActivityProfile(Some(ProfileCounts(0, 0, 0))).experience == Fresh;
    OnlyNewcomerAction(DefaultCounts(), time);
  }

  datatype Section = Calendar | Interests | Coffee

  datatype Suggestions = Suggestions(highlight: Option<Section>, recommendedActions: seq<string>,
                                     educationalTips: seq<string>)

  /**
   * The menu suggestions for a context: the section to highlight (urgent
   * work first, then newcomers, then the start of the week), with the quick
   * actions and the tips passed through.
   */
  function GetAdaptiveMenuSuggestions(c: UserContext): (s: Suggestions)
    ensures s.highlight == Some(Calendar) <==> c.notifications.hasUrgent
    ensures s.highlight == Some(Interests) <==> !c.notifications.hasUrgent && c.profile.experience == Fresh
    ensures s.highlight == Some(Coffee) <==>
      !c.notifications.hasUrgent && c.profile.experience != Fresh && c.time.dayContext == WeekStart
    ensures s.highlight.None? <==>
      !c.notifications.hasUrgent && c.profile.experience != Fresh && c.time.dayContext != WeekStart
    ensures s.recommendedActions == c.quickActions && s.educationalTips == c.smartTips
  {
    var highlight :=
      if c.notifications.hasUrgent then Some(Calendar)
      else if c.profile.experience == Fresh then Some(Interests)
      else if c.time.dayContext == WeekStart then Some(Coffee)
      else None;
    Suggestions(highlight, c.quickActions, c.smartTips)
  }

  /** The fallback context highlights nothing: it has no urgent work, a "beginner" profile and no week start. */
  lemma DefaultContextHighlightsNothing()
    ensures GetAdaptiveMenuSuggestions(DefaultContext()).highlight.None?
  {
  }

  /** A user found in the database whose activities cannot be counted is never sent to the interests section. */
  lemma FallbackProfileNeverHighlightsInterests(hour: int, weekday: int, actionProfileCounts: Option<ProfileCounts>,
                                                counts: Counts)
    ensures GetAdaptiveMenuSuggestions(GetUserContext(true, hour, weekday, None, actionProfileCounts, counts)).highlight
              != Some(Interests)
  {
  }
}
