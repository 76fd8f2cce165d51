// The anonymous "secret coffee": pairs of employees meet without knowing who
// the other is, talk through the bot and propose meeting times.  Modelled
// are the rules the service applies: the meeting format chosen from both
// preferences, who the partner of a participant is, the refusal of
// non-participants, the limit on proposals, the generated identifiers and
// the weekly run over the matched pairs.  Employees are their primary keys;
// random choices are index parameters.
module AnonymousCoffee {
  import opened Wrappers
  import opened Text

  datatype MeetingFormat = Online | Offline

  /**
   * The format of a meeting: online if either side prefers online, offline
   * only if both prefer offline, and online in every other case.
   */
  function DetermineMeetingFormat(pref1: string, pref2: string): (f: MeetingFormat)
    ensures f == Offline <==> pref1 == "OFFLINE" && pref2 == "OFFLINE"
    ensures (pref1 == "ONLINE" || pref2 == "ONLINE") ==> f == Online
  {
    if pref1 == "ONLINE" || pref2 == "ONLINE" then Online
    else if pref1 == "OFFLINE" && pref2 == "OFFLINE" then Offline
    else Online
  }

  /** The order of the two participants does not matter to the format. */
  lemma FormatSymmetric(pref1: string, pref2: string)
    ensures DetermineMeetingFormat(pref1, pref2) == DetermineMeetingFormat(pref2, pref1)
  {
  }

  datatype Meeting = Meeting(id: string, employee1: int, employee2: int, code1: string, code2: string,
                             sign: string, format: MeetingFormat, status: string)

  /** The other participant of a meeting, as the service determines it for messages, proposals and cancellation. */
  function Partner(m: Meeting, employee: int): (p: int)
    ensures employee == m.employee1 ==> p == m.employee2
    ensures employee != m.employee1 ==> p == m.employee1
  {
    if employee == m.employee1 then m.employee2 else m.employee1
  }

  predicate IsParticipant(m: Meeting, employee: int)
  {
    employee == m.employee1 || employee == m.employee2
  }

  /** Between two different people, each participant's partner is the other one, and the partner's partner is oneself. */
  lemma PartnerIsTheOther(m: Meeting, employee: int)
    requires m.employee1 != m.employee2 && IsParticipant(m, employee)
    ensures IsParticipant(m, Partner(m, employee)) && Partner(m, employee) != employee
    ensures Partner(m, Partner(m, employee)) == employee
  {
  }

  datatype Scheduling = Scheduling(meeting: Meeting, partner: int, employeeCode: string, sign: string)

  const MeetingNotFound := "❌ Встреча не найдена"
  const NotAParticipant := "❌ Вы не участник этой встречи"

  /**
   * The start of scheduling: the meeting is looked up by its id, a
   * non-participant is refused, and a participant learns who the partner
   * is, their own code and the recognition sign.
   */
  function HandleMeetingScheduling(meetings: map<string, Meeting>, meetingId: string, employee: int)
    : (r: Result<Scheduling, string>)
    ensures meetingId !in meetings ==> r == Err(MeetingNotFound)
    ensures meetingId in meetings && !IsParticipant(meetings[meetingId], employee) ==> r == Err(NotAParticipant)
    ensures r.Ok? <==> meetingId in meetings && IsParticipant(meetings[meetingId], employee)
    ensures r.Ok? ==>
      var m := meetings[meetingId];
      && r.value.meeting == m
      && r.value.partner == Partner(m, employee)
      && r.value.employeeCode == (if employee == m.employee1 then m.code1 else m.code2)
      && r.value.sign == m.sign
  {
    if meetingId !in meetings then Err(MeetingNotFound)
    else
      var m := meetings[meetingId];
      if !IsParticipant(m, employee) then Err(NotAParticipant)
      else Ok(Scheduling(m, Partner(m, employee), if employee == m.employee1 then m.code1 else m.code2, m.sign))
  }

  /** A participant is never told that they are their own partner, unless paired with themselves. */
  lemma SchedulingNamesTheOther(meetings: map<string, Meeting>, meetingId: string, employee: int)
    requires meetingId in meetings && meetings[meetingId].employee1 != meetings[meetingId].employee2
    ensures var r := HandleMeetingScheduling(meetings, meetingId, employee);
      r.Ok? ==> r.value.partner != employee && IsParticipant(meetings[meetingId], r.value.partner)
  {
  }

  const MaxProposals := 3

  datatype Proposal = Proposal(meetingId: string, from: int, date: string, location: string,
                               format: MeetingFormat, status: string)

  /** How many proposals `from` has made on the meeting. */
  function CountProposals(proposals: seq<Proposal>, meetingId: string, from: int): (n: nat)
    ensures n <= |proposals|
  {
    if proposals == [] then 0
    else
      var last := proposals[|proposals| - 1];
      CountProposals(proposals[..|proposals| - 1], meetingId, from)
        + (if last.meetingId == meetingId && last.from == from then 1 else 0)
  }

  datatype ProposalOutcome = ProposalOutcome(ok: bool, message: string, proposals: seq<Proposal>, notified: Option<int>)

  const LimitReached := "❌ Лимит предложений исчерпан (макс. " + IntToString(MaxProposals) + ")"
  const ProposalSent := "✅ Предложение отправлено партнеру"

  /**
   * A proposal of a date and place: refused once the proposer has made the
   * maximum number on this meeting; otherwise recorded as pending in the
   * meeting's format and sent to the partner.
   */
  function HandleMeetingProposal(proposals: seq<Proposal>, m: Meeting, from: int, date: string, location: string)
    : (r: ProposalOutcome)
    ensures r.ok <==> CountProposals(proposals, m.id, from) < MaxProposals
    ensures !r.ok ==> r.proposals == proposals && r.notified.None? && r.message == LimitReached
    ensures r.ok ==>
      && r.proposals == proposals + [Proposal(m.id, from, date, location, m.format, "pending")]
      && r.notified == Some(Partner(m, from))
      && r.message == ProposalSent
  {
    if CountProposals(proposals, m.id, from) >= MaxProposals then
      ProposalOutcome(false, LimitReached, proposals, None)
    else
      ProposalOutcome(true, ProposalSent, proposals + [Proposal(m.id, from, date, location, m.format, "pending")],
                      Some(Partner(m, from)))
  }

  /** Each accepted proposal raises its sender's count on that meeting by one. */
  lemma ProposalCounts(proposals: seq<Proposal>, m: Meeting, from: int, date: string, location: string)
    requires HandleMeetingProposal(proposals, m, from, date, location).ok
    ensures var after := HandleMeetingProposal(proposals, m, from, date, location).proposals;
      CountProposals(after, m.id, from) == CountProposals(proposals, m.id, from) + 1
  {
    var after := HandleMeetingProposal(proposals, m, from, date, location).proposals;
    assert after[..|after| - 1] == proposals;
  }

  /** Someone without proposals on a meeting can make exactly three; the fourth is refused. */
  lemma ThreeProposalsThenRefused(proposals: seq<Proposal>, m: Meeting, from: int, date: string, location: string)
    requires CountProposals(proposals, m.id, from) == 0
    ensures var r1 := HandleMeetingProposal(proposals, m, from, date, location);
      var r2 := HandleMeetingProposal(r1.proposals, m, from, date, location);
      var r3 := HandleMeetingProposal(r2.proposals, m, from, date, location);
      var r4 := HandleMeetingProposal(r3.proposals, m, from, date, location);
      r1.ok && r2.ok && r3.ok && !r4.ok && r4.proposals == r3.proposals
  {
    var r1 := HandleMeetingProposal(proposals, m, from, date, location);
    ProposalCounts(proposals, m, from, date, location);
    var r2 := HandleMeetingProposal(r1.proposals, m, from, date, location);
    ProposalCounts(r1.proposals, m, from, date, location);
    var r3 := HandleMeetingProposal(r2.proposals, m, from, date, location);
    ProposalCounts(r2.proposals, m, from, date, location);
  }

  /** `string.ascii_uppercase + string.digits`, position by position. */
  function IdChar(i: nat): (c: char)
    requires i < 36
    ensures IsIdChar(c)
  {
    if i < 26 then ('A' as int + i) as char else ('0' as int + (i - 26)) as char
  }

  predicate IsIdChar(c: char)
  {
    'A' <= c <= 'Z' || '0' <= c <= '9'
  }

  predicate ValidIdDraws(draws: seq<nat>)
  {
    |draws| == 8 && forall k :: 0 <= k < |draws| ==> draws[k] < 36
  }

  /** A meeting id: "SC_" and eight characters drawn from the capital letters and digits (`draws` are the choices). */
  function GenerateMeetingId(draws: seq<nat>): (id: string)
    requires ValidIdDraws(draws)
    ensures |id| == 11 && id[..3] == "SC_"
    ensures forall k :: 3 <= k < 11 ==> IsIdChar(id[k])
  {
    "SC_" + seq(8, k requires 0 <= k < 8 => IdChar(draws[k]))
  }

  /** Different draws give different meeting ids: the id determines the draws. */
  lemma MeetingIdDeterminesDraws(d1: seq<nat>, d2: seq<nat>)
    requires ValidIdDraws(d1) && ValidIdDraws(d2)
    requires GenerateMeetingId(d1) == GenerateMeetingId(d2)
    ensures d1 == d2
  {
    forall k | 0 <= k < 8 ensures d1[k] == d2[k] {
      assert GenerateMeetingId(d1)[3 + k] == IdChar(d1[k]);
      assert GenerateMeetingId(d2)[3 + k] == IdChar(d2[k]);
    }
  }

  const Adjectives: seq<string> := ["КРАСНЫЙ", "СИНИЙ", "ЗЕЛЕНЫЙ", "ВЕСЕЛЫЙ", "ТАИНСТВЕННЫЙ", "СЧАСТЛИВЫЙ"]
  const Nouns: seq<string> := ["СЛОН", "ТИГР", "КОТ", "ДРАКОН", "ЕДИНОРОГ", "ФЕНИКС"]
  const Signs: seq<string> := ["КРАСНАЯ РОЗА на столе", "КНИГА '1984'", "СКАЧКИ ЕДИНОРОГА",
                               "СИНИЙ ЗОНТИК", "ЖЕЛТЫЙ ШАРФ", "ЗЕЛЕНЫЙ ЧАЙНИК"]

  /** An employee's code: an adjective and a noun from the fixed lists, joined by an underscore. */
  function GenerateEmployeeCode(adjective: nat, noun: nat): (code: string)
    requires adjective < |Adjectives| && noun < |Nouns|
    ensures var a := Adjectives[adjective];
      |code| == |a| + 1 + |Nouns[noun]| && code[..|a|] == a && code[|a|] == '_' && code[|a| + 1..] == Nouns[noun]
  {
    Adjectives[adjective] + "_" + Nouns[noun]
  }

  lemma WordsHaveNoUnderscore()
    ensures forall i :: 0 <= i < |Adjectives| ==> '_' !in Adjectives[i]
    ensures forall i :: 0 <= i < |Nouns| ==> '_' !in Nouns[i]
  {
  }

  /** The code names its adjective and noun unambiguously: the underscore separates them. */
  lemma EmployeeCodeDeterminesWords(a1: nat, n1: nat, a2: nat, n2: nat)
    requires a1 < |Adjectives| && n1 < |Nouns| && a2 < |Adjectives| && n2 < |Nouns|
    requires GenerateEmployeeCode(a1, n1) == GenerateEmployeeCode(a2, n2)
    ensures Adjectives[a1] == Adjectives[a2] && Nouns[n1] == Nouns[n2]
  {
    var code := GenerateEmployeeCode(a1, n1);
    var w1, w2 := Adjectives[a1], Adjectives[a2];
    WordsHaveNoUnderscore();
    assert code[|w1|] == '_' && code[|w2|] == '_';
    assert |w1| == |w2|;
    assert w1 == code[..|w1|] == w2;
  }

  /** A recognition sign from the fixed list. */
  function GenerateRecognitionSign(choice: nat): (sign: string)
    requires choice < |Signs|
    ensures sign in Signs
  {
    Signs[choice]
  }

  /** A participant of the weekly session: their preferred format, None when they had no preferences yet. */
  datatype Participant = Participant(employee: int, preferredFormat: Option<string>)

  /** The preferred format, a participant without preferences getting the default "BOTH". */
  function FormatOf(p: Participant): (f: string)
    ensures p.preferredFormat.Some? ==> f == p.preferredFormat.value
    ensures p.preferredFormat.None? ==> f == "BOTH"
  {
    p.preferredFormat.GetOr("BOTH")
  }

  /** The random choices for one meeting: the id characters, both codes and the sign. */
  datatype MeetingDraws = MeetingDraws(id: seq<nat>, adjective1: nat, noun1: nat, adjective2: nat, noun2: nat,
                                       sign: nat)

  predicate ValidDraws(d: MeetingDraws)
  {
    ValidIdDraws(d.id) && d.adjective1 < |Adjectives| && d.noun1 < |Nouns|
    && d.adjective2 < |Adjectives| && d.noun2 < |Nouns| && d.sign < |Signs|
  }

  /** The meeting created for one pair, in the scheduling state. */
  function CreateMeeting(p1: Participant, p2: Participant, d: MeetingDraws): (m: Meeting)
    requires ValidDraws(d)
    ensures m.employee1 == p1.employee && m.employee2 == p2.employee
    ensures m.format == DetermineMeetingFormat(FormatOf(p1), FormatOf(p2))
    ensures m.status == "scheduling" && m.sign in Signs
    ensures |m.id| == 11 && m.id[..3] == "SC_"
  {
    Meeting(GenerateMeetingId(d.id), p1.employee, p2.employee,
            GenerateEmployeeCode(d.adjective1, d.noun1), GenerateEmployeeCode(d.adjective2, d.noun2),
            GenerateRecognitionSign(d.sign), DetermineMeetingFormat(FormatOf(p1), FormatOf(p2)), "scheduling")
  }

  /** The participant entry for an employee id; with repeated ids the last entry wins, as in a dict built in order. */
  function ParticipantFor(participants: seq<Participant>, employee: int): (r: Option<Participant>)
    ensures r.None? <==> forall k :: 0 <= k < |participants| ==> participants[k].employee != employee
    ensures r.Some? ==> r.value in participants && r.value.employee == employee
  {
    if participants == [] then None
    else
      var last := participants[|participants| - 1];
      if last.employee == employee then Some(last)
      else ParticipantFor(participants[..|participants| - 1], employee)
  }

  predicate AllKnown(participants: seq<Participant>, pairs: seq<(int, int)>)
  {
    forall i :: 0 <= i < |pairs| ==>
      ParticipantFor(participants, pairs[i].0).Some? && ParticipantFor(participants, pairs[i].1).Some?
  }

  /** Whether the run succeeded, the meetings it created, and the session's status afterwards. */
  datatype WeeklyOutcome = WeeklyOutcome(ok: bool, meetings: seq<Meeting>, sessionStatus: string)

  /**
   * The weekly run: with this week's session (in status `status`) and at
   * least two participants, the pairs the matching service returns (by
   * employee id; None when it raised) each become a meeting, and the
   * session is marked active.  The run fails, creating nothing and leaving
   * the session as it was, when there is no session, fewer than two
   * participants, no pairs, or a pair naming someone who is not a
   * participant.
   */
  function RunWeeklyMatching(sessionFound: bool, status: string, participants: seq<Participant>,
                             matched: Option<seq<(int, int)>>, draws: seq<MeetingDraws>): (r: WeeklyOutcome)
    requires forall k :: 0 <= k < |draws| ==> ValidDraws(draws[k])
    requires matched.Some? ==> |draws| >= |matched.value|
    ensures |participants| < 2 ==> !r.ok
    ensures !r.ok ==> r.meetings == [] && r.sessionStatus == status
    ensures r.ok ==> r.sessionStatus == "active"
    ensures r.ok <==> sessionFound && |participants| >= 2 && matched.Some? && matched.value != []
                      && AllKnown(participants, matched.value)
    ensures r.ok ==>
      && |r.meetings| == |matched.value|
      && forall i :: 0 <= i < |r.meetings| ==>
        && ParticipantFor(participants, matched.value[i].0).Some?
        && ParticipantFor(participants, matched.value[i].1).Some?
        && r.meetings[i] == CreateMeeting(ParticipantFor(participants, matched.value[i].0).value,
                                          ParticipantFor(participants, matched.value[i].1).value, draws[i])
        && r.meetings[i].employee1 == matched.value[i].0
        && r.meetings[i].employee2 == matched.value[i].1
        && r.meetings[i].status == "scheduling"
  {
    if !sessionFound || |participants| < 2 || matched.None? then WeeklyOutcome(false, [], status)
    else
      var pairs := matched.value;
      if !AllKnown(participants, pairs) || pairs == [] then WeeklyOutcome(false, [], status)
      else
        WeeklyOutcome(true, seq(|pairs|, i requires 0 <= i < |pairs| =>
          CreateMeeting(ParticipantFor(participants, pairs[i].0).value,
                        ParticipantFor(participants, pairs[i].1).value, draws[i])), "active")
  }
}
