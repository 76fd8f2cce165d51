// The Python side of the matching engine: turning the engine's answer into
// pairs of known participants, and the local fallbacks used when the engine
// cannot be reached (pairing that prefers different departments, a
// first-round tournament bracket and fixed-size teams).
module FallbackMatching {
  import opened Wrappers

  /**
   * A participant as the fallbacks see it: the primary key and the primary
   * key of the department, if any.  Two participants are equal, for list
   * removal and dictionary keys, exactly when their primary keys are.
   */
  datatype Member = Member(id: int, department: Option<int>)

  /** One entry of the engine's "pairs" list; an absent or non-integer id is None. */
  datatype PairData = PairData(employee1Id: Option<int>, employee2Id: Option<int>)

  datatype Match = Match(player1Id: int, player2Id: int, round: int, matchNumber: int)
  datatype Bracket = Bracket(matches: seq<Match>, format: string)

  const FallbackFormat := "fallback_swiss"

  // ---------------------------------------------------------------------
  // Reading the engine's answer

  predicate Known(participants: seq<Member>, id: Option<int>)
  {
    id.Some? && exists k :: 0 <= k < |participants| && participants[k].id == id.value
  }

  /** The participant a dictionary keyed by id holds for `id`: the last one listed. */
  function Lookup(participants: seq<Member>, id: int): (m: Member)
    requires Known(participants, Some(id))
    ensures m in participants && m.id == id
    ensures forall k :: 0 <= k < |participants| && participants[k].id == id ==>
      participants[k] == m || exists l :: k < l < |participants| && participants[l] == m
  {
    var last := participants[|participants| - 1];
    if last.id == id then last
    else
      assert Known(participants[..|participants| - 1], Some(id)) by {
        var k :| 0 <= k < |participants| && participants[k].id == id;
        assert participants[..|participants| - 1][k].id == id;
      }
      var m := Lookup(participants[..|participants| - 1], id);
      assert forall k :: 0 <= k < |participants| - 1 ==> participants[..|participants| - 1][k] == participants[k];
      m
  }

  predicate KnownPair(participants: seq<Member>, pd: PairData)
  {
    Known(participants, pd.employee1Id) && Known(participants, pd.employee2Id)
  }

  /** The entries of `data` whose two ids both name participants, in order. */
  function KnownPairs(participants: seq<Member>, data: seq<PairData>): (kept: seq<PairData>)
    ensures |kept| <= |data|
    ensures forall q :: 0 <= q < |kept| ==> KnownPair(participants, kept[q])
    ensures forall x :: x in kept ==> x in data
    ensures forall x :: x in data && KnownPair(participants, x) ==> x in kept
  {
    if data == [] then []
    else
      var last := data[|data| - 1];
      var init := KnownPairs(participants, data[..|data| - 1]);
      assert forall x :: x in data ==> x == last || x in data[..|data| - 1];
      if KnownPair(participants, last) then init + [last] else init
  }

  /** Each kept entry resolved to its two participants. */
  function Resolve(participants: seq<Member>, kept: seq<PairData>): (pairs: seq<(Member, Member)>)
    requires forall q :: 0 <= q < |kept| ==> KnownPair(participants, kept[q])
    ensures |pairs| == |kept|
    ensures forall q :: 0 <= q < |kept| ==>
      && KnownPair(participants, kept[q])
      && pairs[q].0 == Lookup(participants, kept[q].employee1Id.value)
      && pairs[q].1 == Lookup(participants, kept[q].employee2Id.value)
  {
    seq(|kept|, q requires 0 <= q < |kept| && KnownPair(participants, kept[q]) =>
      (Lookup(participants, kept[q].employee1Id.value), Lookup(participants, kept[q].employee2Id.value)))
  }

  /**
   * The pairs of the engine's answer, resolved to participants: exactly the
   * entries whose two ids are known, in their order, each id resolved
   * through the id-keyed dictionary.
   */
  method ParseMatchingResult(data: seq<PairData>, participants: seq<Member>) returns (pairs: seq<(Member, Member)>)
    ensures pairs == Resolve(participants, KnownPairs(participants, data))
  {
    pairs := [];
    var i := 0;
    while i < |data|
      invariant 0 <= i <= |data|
      invariant pairs == Resolve(participants, KnownPairs(participants, data[..i]))
    {
      var pd := data[i];
      assert data[..i + 1][..i] == data[..i];
      if KnownPair(participants, pd) {
        pairs := pairs + [(Lookup(participants, pd.employee1Id.value), Lookup(participants, pd.employee2Id.value))];
      }
      i := i + 1;
    }
    assert data[..i] == data;
  }

  // ---------------------------------------------------------------------
  // Fallback pairing

  /** Position of the partner of `s[0]`: the first later participant of another department, else `s[1]`. */
  function PartnerIndex(s: seq<Member>): (j: nat)
    requires |s| >= 2
    ensures 1 <= j < |s|
    ensures forall k :: 1 <= k < j ==> s[k].department == s[0].department
    ensures j > 1 ==> s[j].department != s[0].department
    ensures s[j].department == s[0].department ==> j == 1 && forall k :: 1 <= k < |s| ==> s[k].department == s[0].department
  {
    PartnerFrom(s, 1)
  }

  function PartnerFrom(s: seq<Member>, k: nat): (j: nat)
    requires 1 <= k <= |s| && |s| >= 2
    requires forall l :: 1 <= l < k ==> s[l].department == s[0].department
    ensures 1 <= j < |s|
    ensures forall l :: 1 <= l < j ==> s[l].department == s[0].department
    ensures j > 1 ==> s[j].department != s[0].department
    ensures s[j].department == s[0].department ==> j == 1 && forall l :: 1 <= l < |s| ==> s[l].department == s[0].department
    decreases |s| - k
  {
    if k == |s| then 1
    else if s[k].department != s[0].department then k
    else PartnerFrom(s, k + 1)
  }

  /** Python's list.remove under id equality: the first participant with that id is dropped. */
  function RemoveFirst(s: seq<Member>, id: int): (r: seq<Member>)
    ensures (exists k :: 0 <= k < |s| && s[k].id == id) ==> |r| == |s| - 1
  {
    if s == [] then []
    else
      assert s == [s[0]] + s[1..];
      if s[0].id == id then s[1..] else [s[0]] + RemoveFirst(s[1..], id)
  }

  /**
   * The fallback pairing, one step per pair: the head of the remaining list
   * is paired with its partner and both are removed, until fewer than two
   * remain.
   */
  function FallbackPairs(remaining: seq<Member>): (pairs: seq<(Member, Member)>)
    decreases |remaining|
  {
    if |remaining| < 2 then []
    else
      var e1 := remaining[0];
      var e2 := remaining[PartnerIndex(remaining)];
      [(e1, e2)] + FallbackPairs(Step(remaining))
  }

  /** What remains after the head and its partner are removed. */
  function Step(remaining: seq<Member>): (rest: seq<Member>)
    requires |remaining| >= 2
    ensures |rest| == |remaining| - 2
  {
    var j := PartnerIndex(remaining);
    var afterFirst := RemoveFirst(remaining, remaining[0].id);
    assert afterFirst == remaining[1..];
    assert afterFirst[j - 1] == remaining[j];
    assert remaining == [remaining[0]] + remaining[1..];
    RemoveFirst(afterFirst, remaining[j].id)
  }

  /** The scan for the head's partner: the first later participant of another department, else the next one. */
  method FindPartner(remaining: seq<Member>) returns (j: nat)
    requires |remaining| >= 2
    ensures j == PartnerIndex(remaining)
  {
    j := 1;
    var k := 1;
    while k < |remaining|
      invariant 1 <= k <= |remaining|
      invariant forall l :: 1 <= l < k ==> remaining[l].department == remaining[0].department
      decreases |remaining| - k
    {
      if remaining[k].department != remaining[0].department {
        return k;
      }
      k := k + 1;
    }
  }

  /** The fallback pairing as the loop performs it, on a copy of the participants. */
  method FallbackPairing(participants: seq<Member>) returns (pairs: seq<(Member, Member)>)
    ensures pairs == FallbackPairs(participants)
  {
    pairs := [];
    var remaining := participants;
    while |remaining| >= 2
      invariant pairs + FallbackPairs(remaining) == FallbackPairs(participants)
      decreases |remaining|
    {
      var emp1 := remaining[0];
      var emp2Index := FindPartner(remaining);
      var emp2 := remaining[emp2Index];
      StepUnfolds(remaining);
      pairs := pairs + [(emp1, emp2)];
      remaining := RemoveFirst(RemoveFirst(remaining, emp1.id), emp2.id);
    }
  }

  lemma StepUnfolds(s: seq<Member>)
    requires |s| >= 2
    ensures FallbackPairs(s) == [(s[0], s[PartnerIndex(s)])] + FallbackPairs(Step(s))
    ensures RemoveFirst(RemoveFirst(s, s[0].id), s[PartnerIndex(s)].id) == Step(s)
  {
  }

  /** Every step removes two participants, so n participants give floor(n/2) pairs. */
  lemma {:induction false} FallbackPairCount(s: seq<Member>)
    ensures |FallbackPairs(s)| == |s| / 2
    decreases |s|
  {
    if |s| >= 2 {
      FallbackPairCount(Step(s));
    }
  }

  predicate DistinctIds(s: seq<Member>)
  {
    forall i, j :: 0 <= i < j < |s| ==> s[i].id != s[j].id
  }

  /** The participants of a pair list, two per pair, in order. */
  function Flatten(pairs: seq<(Member, Member)>): (m: seq<Member>)
    ensures |m| == 2 * |pairs|
  {
    if pairs == [] then [] else [pairs[0].0, pairs[0].1] + Flatten(pairs[1..])
  }

  lemma {:induction false} RemoveFirstDistinct(s: seq<Member>, id: int)
    requires DistinctIds(s)
    ensures DistinctIds(RemoveFirst(s, id))
    ensures forall x :: x in RemoveFirst(s, id) ==> x in s && x.id != id
  {
    if s != [] && s[0].id != id {
      assert DistinctIds(s[1..]) by {
        forall i, j | 0 <= i < j < |s[1..]| ensures s[1..][i].id != s[1..][j].id {
          assert s[1..][i] == s[i + 1] && s[1..][j] == s[j + 1];
        }
      }
      RemoveFirstDistinct(s[1..], id);
      var r := RemoveFirst(s[1..], id);
      assert RemoveFirst(s, id) == [s[0]] + r;
      forall x | x in r ensures x.id != s[0].id {
        var j :| 0 <= j < |s[1..]| && s[1..][j] == x;
        assert s[j + 1] == x;
      }
    } else if s != [] {
      forall x | x in s[1..] ensures x.id != id {
        var j :| 0 <= j < |s[1..]| && s[1..][j] == x;
        assert s[j + 1] == x;
      }
    }
  }

  lemma StepDistinct(s: seq<Member>)
    requires |s| >= 2 && DistinctIds(s)
    ensures DistinctIds(Step(s))
    ensures forall x :: x in Step(s) ==> x in s && x.id != s[0].id && x.id != s[PartnerIndex(s)].id
  {
    var j := PartnerIndex(s);
    var afterFirst := RemoveFirst(s, s[0].id);
    RemoveFirstDistinct(s, s[0].id);
    RemoveFirstDistinct(afterFirst, s[j].id);
  }

  /**
   * On participants with distinct ids the fallback never uses anyone twice,
   * and everyone it pairs is a participant.
   */
  lemma {:induction false} FallbackNoRepeats(s: seq<Member>)
    requires DistinctIds(s)
    ensures DistinctIds(Flatten(FallbackPairs(s)))
    ensures forall x :: x in Flatten(FallbackPairs(s)) ==> x in s
    decreases |s|
  {
    if |s| >= 2 {
      var j := PartnerIndex(s);
      var rest := Step(s);
      StepDistinct(s);
      FallbackNoRepeats(rest);
      var tail := Flatten(FallbackPairs(rest));
      var all := Flatten(FallbackPairs(s));
      assert all == [s[0], s[j]] + tail;
      assert s[0].id != s[j].id;
      forall a, b | 0 <= a < b < |all| ensures all[a].id != all[b].id {
        if a >= 2 {
          assert all[a] == tail[a - 2] && all[b] == tail[b - 2];
        } else {
          assert all[b] in tail || b == 1;
        }
      }
    }
  }

  // ---------------------------------------------------------------------
  // Fallback tournament and teams

  /** A tournament of at most eight participants plays three rounds, a larger one five. */
  function TournamentRounds(participantCount: nat): (rounds: int)
    ensures participantCount <= 8 ==> rounds == 3
    ensures participantCount > 8 ==> rounds == 5
  {
    if participantCount <= 8 then 3 else 5
  }

  /**
   * The fallback bracket: participants at positions 2m and 2m+1 meet in
   * match m+1 of round one; an odd last participant sits out.
   */
  method FallbackTournament(participants: seq<Member>) returns (bracket: Bracket)
    ensures bracket.format == FallbackFormat
    ensures |bracket.matches| == |participants| / 2
    ensures forall m :: 0 <= m < |bracket.matches| ==>
      bracket.matches[m] == Match(participants[2 * m].id, participants[2 * m + 1].id, 1, m + 1)
  {
    var matches: seq<Match> := [];
    var i := 0;
    while i < |participants| - 1
      invariant 0 <= i && i == 2 * |matches|
      invariant |participants| == 0 || i <= |participants|
      invariant forall m :: 0 <= m < |matches| ==> 2 * m + 1 < |participants|
      invariant forall m :: 0 <= m < |matches| ==>
        matches[m] == Match(participants[2 * m].id, participants[2 * m + 1].id, 1, m + 1)
    {
      if i + 1 < |participants| {
        matches := matches + [Match(participants[i].id, participants[i + 1].id, 1, i / 2 + 1)];
      }
      i := i + 2;
    }
    bracket := Bracket(matches, FallbackFormat);
  }

  function Concat(teams: seq<seq<int>>): (ids: seq<int>)
  {
    if teams == [] then [] else teams[0] + Concat(teams[1..])
  }

  lemma {:induction false} ConcatAppend(teams: seq<seq<int>>, t: seq<int>)
    ensures Concat(teams + [t]) == Concat(teams) + t
  {
    if teams != [] {
      assert (teams + [t])[1..] == teams[1..] + [t];
      ConcatAppend(teams[1..], t);
    }
  }

  function Ids(participants: seq<Member>): (ids: seq<int>)
    ensures |ids| == |participants|
    ensures forall k :: 0 <= k < |ids| ==> ids[k] == participants[k].id
  {
    seq(|participants|, k requires 0 <= k < |participants| => participants[k].id)
  }

  /**
   * The fallback teams: the participants' ids in order, cut into teams of
   * `teamSize`; the last team holds what is left and is never empty.  With a
   * size below one no team ever fills, so everyone lands in a single team.
   */
  method FallbackTeams(participants: seq<Member>, teamSize: int) returns (teams: seq<seq<int>>)
    ensures Concat(teams) == Ids(participants)
    ensures forall t :: 0 <= t < |teams| ==> teams[t] != []
    ensures forall t :: 0 <= t < |teams| - 1 ==> |teams[t]| == teamSize
    ensures teamSize >= 1 ==> forall t :: 0 <= t < |teams| ==> |teams[t]| <= teamSize
    ensures teamSize < 1 ==> |teams| <= 1
  {
    teams := [];
    var current: seq<int> := [];
    var i := 0;
    while i < |participants|
      invariant 0 <= i <= |participants|
      invariant Concat(teams) + current == Ids(participants)[..i]
      invariant forall t :: 0 <= t < |teams| ==> |teams[t]| == teamSize && teams[t] != []
      invariant teamSize >= 1 ==> |current| < teamSize
      invariant teamSize < 1 ==> teams == []
    {
      current := current + [participants[i].id];
      assert Ids(participants)[..i + 1] == Ids(participants)[..i] + [participants[i].id];
      if |current| == teamSize {
        ConcatAppend(teams, current);
        teams := teams + [current];
        current := [];
      }
      i := i + 1;
    }
    if current != [] {
      ConcatAppend(teams, current);
      teams := teams + [current];
    }
    assert Ids(participants)[..i] == Ids(participants);
  }
}
