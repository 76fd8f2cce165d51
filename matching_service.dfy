// The pairing engine of the matching service: plain random pairing, pairing
// restricted to one interest, and pairing across departments.
//
// Employees are objects compared by identity (the Java class does not
// override equals, so the engine's HashSet compares references).  The two
// sources of nondeterminism are parameters: `shuffled` is the order
// Collections.shuffle produced (any permutation of the active employees), and
// `departments` is the iteration order of the HashMap of department groups
// (each department key exactly once).
module MatchingService {
  import opened Wrappers
  import opened JavaEmployee
  import opened JavaEmployeePair
  import opened MatchingResultModel

  const SimpleRandomTag := "SIMPLE_RANDOM"
  const InterestBasedTag := "INTEREST_BASED"
  const CrossDepartmentTag := "CROSS_DEPARTMENT"
  const NoDepartment := "NO_DEPARTMENT"

  /** The active employees of a roster, in roster order. */
  function ActiveOf(es: seq<Employee>): (r: seq<Employee>)
    reads es
    ensures |r| <= |es|
    ensures forall e :: e in r ==> e in es && e.activeEmployee
    ensures forall e :: e in es && e.activeEmployee ==> e in r
  {
    if es == [] then []
    else (if es[0].activeEmployee then [es[0]] else []) + ActiveOf(es[1..])
  }

  /** The filter keeps every active employee exactly as often as the roster lists it, and drops the rest. */
  lemma {:induction false} ActiveOfCounts(es: seq<Employee>, e: Employee)
    ensures multiset(ActiveOf(es))[e] == if e.activeEmployee then multiset(es)[e] else 0
  {
    if es != [] {
      assert es == [es[0]] + es[1..];
      ActiveOfCounts(es[1..], e);
    }
  }

  /** The active employees of a roster who list `interest`, in roster order. */
  function InterestedOf(es: seq<Employee>, interest: string): (r: seq<Employee>)
    reads es
    ensures |r| <= |es|
    ensures forall e :: e in r ==> e in es && e.activeEmployee && e.HasInterest(interest)
    ensures forall e :: e in es && e.activeEmployee && e.HasInterest(interest) ==> e in r
  {
    if es == [] then []
    else
      (if es[0].activeEmployee && es[0].HasInterest(interest) then [es[0]] else [])
      + InterestedOf(es[1..], interest)
  }

  /** The filter keeps every active employee listing the interest exactly as often as the roster lists it. */
  lemma {:induction false} InterestedOfCounts(es: seq<Employee>, interest: string, e: Employee)
    ensures multiset(InterestedOf(es, interest))[e]
      == if e.activeEmployee && e.HasInterest(interest) then multiset(es)[e] else 0
  {
    if es != [] {
      assert es == [es[0]] + es[1..];
      InterestedOfCounts(es[1..], interest, e);
    }
  }

  /** Every pair of the list has both members set. */
  predicate Complete(ps: seq<EmployeePair>)
    reads ps
  {
    forall k :: 0 <= k < |ps| ==> ps[k].employee1 != null && ps[k].employee2 != null
  }

  /** The paired employees, pair by pair: first member, then second. */
  function Members(ps: seq<EmployeePair>): (m: seq<Employee>)
    requires Complete(ps)
    reads ps
    ensures |m| == 2 * |ps|
    ensures forall k :: 0 <= k < |ps| ==> m[2 * k] == ps[k].employee1 && m[2 * k + 1] == ps[k].employee2
  {
    if ps == [] then []
    else
      var last := ps[|ps| - 1];
      Members(ps[..|ps| - 1]) + [last.employee1, last.employee2]
  }

  lemma MembersAppend(ps: seq<EmployeePair>, p: EmployeePair)
    requires Complete(ps) && p.employee1 != null && p.employee2 != null
    ensures Complete(ps + [p])
    ensures Members(ps + [p]) == Members(ps) + [p.employee1, p.employee2]
  {
    assert (ps + [p])[..|ps|] == ps;
  }

  /** Every pair of the list passes the pair's own validity check. */
  predicate AllValid(ps: seq<EmployeePair>)
    reads ps, set p | p in ps :: p.employee1, set p | p in ps :: p.employee2
  {
    forall k :: 0 <= k < |ps| ==> ps[k].IsValid()
  }

  /** No employee object occurs twice. */
  predicate NoDuplicates(s: seq<Employee>)
  {
    forall a, b :: 0 <= a < b < |s| ==> s[a] != s[b]
  }

  /** Employees with an id, no two of them sharing it. */
  predicate DistinctIds(s: seq<Employee>)
    reads s
  {
    (forall a :: 0 <= a < |s| ==> s[a].id.Some?)
    && forall a, b :: 0 <= a < b < |s| ==> s[a].id != s[b].id
  }

  /** `ps` pairs the employees of `s` two by two in order, and `rest` is the odd last one, if any. */
  predicate PairsConsecutive(ps: seq<EmployeePair>, rest: seq<Employee>, s: seq<Employee>)
    reads ps
  {
    && |ps| == |s| / 2
    && (forall k :: 0 <= k < |ps| ==> ps[k].employee1 == s[2 * k] && ps[k].employee2 == s[2 * k + 1])
    && rest == (if |s| % 2 == 1 then [s[|s| - 1]] else [])
  }

  /**
   * The tail of the simple algorithm: consecutive employees of the shuffled
   * list are paired, and an odd one out at the end is left unmatched.
   */
  method PairConsecutive(active: seq<Employee>, shuffled: seq<Employee>)
    returns (pairs: seq<EmployeePair>, unmatched: seq<Employee>)
    requires multiset(shuffled) == multiset(active)
    ensures Complete(pairs) && PairsConsecutive(pairs, unmatched, shuffled)
    ensures multiset(Members(pairs)) + multiset(unmatched) == multiset(active)
    ensures DistinctIds(active) ==> AllValid(pairs)
  {
    pairs := [];
    unmatched := [];
    var i := 0;
    while i < |shuffled|
      invariant i % 2 == 0 && (i <= |shuffled| || (i == |shuffled| + 1 && |shuffled| % 2 == 1))
      invariant |pairs| == (if i <= |shuffled| then i / 2 else |shuffled| / 2)
      invariant forall k :: 0 <= k < |pairs| ==>
        pairs[k].employee1 == shuffled[2 * k] && pairs[k].employee2 == shuffled[2 * k + 1]
      invariant unmatched == if i > |shuffled| then [shuffled[|shuffled| - 1]] else []
    {
      if i + 1 < |shuffled| {
        var pair := new EmployeePair(shuffled[i], shuffled[i + 1]);
        pairs := pairs + [pair];
      } else {
        unmatched := unmatched + [shuffled[i]];
      }
      i := i + 2;
    }
    assert PairsConsecutive(pairs, unmatched, shuffled) by {
      Halves(|shuffled|);
    }
    ConsecutivePartition(pairs, unmatched, shuffled);
    if DistinctIds(active) {
      DistinctIdsPermuted(active, shuffled);
      ConsecutivePairsValid(pairs, shuffled);
    }
  }

  /** Consecutive pairing and the odd one out split the list exactly. */
  lemma ConsecutivePartition(ps: seq<EmployeePair>, rest: seq<Employee>, s: seq<Employee>)
    requires PairsConsecutive(ps, rest, s)
    ensures Complete(ps) && multiset(Members(ps)) + multiset(rest) == multiset(s)
  {
    Halves(|s|);
    MembersOfConsecutive(ps, s);
    assert rest == s[2 * |ps|..];
    assert s == s[..2 * |ps|] + s[2 * |ps|..];
  }

  lemma {:induction false} MembersOfConsecutive(pairs: seq<EmployeePair>, s: seq<Employee>)
    requires 2 * |pairs| <= |s|
    requires forall k :: 0 <= k < |pairs| ==> pairs[k].employee1 == s[2 * k] && pairs[k].employee2 == s[2 * k + 1]
    ensures Complete(pairs) && Members(pairs) == s[..2 * |pairs|]
  {
    if pairs != [] {
      var n := |pairs|;
      var front := pairs[..n - 1];
      assert forall k :: 0 <= k < |front| ==> front[k] == pairs[k];
      MembersOfConsecutive(front, s);
      assert s[..2 * n] == s[..2 * (n - 1)] + [s[2 * (n - 1)], s[2 * (n - 1) + 1]];
    }
  }

  /**
   * Random pairing.  An empty roster gives an empty result; fewer than two
   * active employees are all left unmatched; otherwise the shuffled active
   * employees are paired two by two and an odd last one stays unmatched.
   * Every active employee ends up either in exactly one pair or unmatched.
   */
  method SimpleRandomMatching(employees: seq<Employee>, shuffled: seq<Employee>) returns (r: MatchingResult)
    requires multiset(shuffled) == multiset(ActiveOf(employees))
    ensures r.algorithm == SimpleRandomTag && r.Derived()
    ensures r.pairs.Some? && r.unmatched.Some? && Complete(r.pairs.value)
    ensures employees == [] ==> r.pairs.value == [] && r.unmatched.value == []
    ensures |ActiveOf(employees)| < 2 ==> r.pairs.value == [] && r.unmatched.value == ActiveOf(employees)
    ensures |ActiveOf(employees)| >= 2 ==> PairsConsecutive(r.pairs.value, r.unmatched.value, shuffled)
    ensures multiset(Members(r.pairs.value)) + multiset(r.unmatched.value) == multiset(ActiveOf(employees))
    ensures multiset(Members(r.pairs.value)) + multiset(r.unmatched.value) == multiset(shuffled)
    ensures r.totalPairs == |shuffled| / 2
    ensures |ActiveOf(employees)| >= 2 ==> r.IsSuccessful()
    ensures DistinctIds(ActiveOf(employees)) ==> AllValid(r.pairs.value)
  {
    var active := ActiveOf(employees);
    assert |shuffled| == |active| by {
      assert |multiset(shuffled)| == |multiset(active)|;
    }
    if employees == [] {
      return NewResult(Some([]), Some([]), SimpleRandomTag);
    }
    if |active| < 2 {
      return NewResult(Some([]), Some(active), SimpleRandomTag);
    }
    var pairs, unmatched := PairConsecutive(active, shuffled);
    assert active == ActiveOf(employees);
    r := NewResult(Some(pairs), Some(unmatched), SimpleRandomTag);
  }

  lemma Halves(n: nat)
    ensures 2 * (n / 2) == n - n % 2
    ensures n % 2 == 0 || n % 2 == 1
  {
  }

  lemma ConsecutivePairsValid(pairs: seq<EmployeePair>, s: seq<Employee>)
    requires DistinctIds(s) && 2 * |pairs| <= |s|
    requires forall k :: 0 <= k < |pairs| ==> pairs[k].employee1 == s[2 * k] && pairs[k].employee2 == s[2 * k + 1]
    ensures AllValid(pairs)
  {
    forall k | 0 <= k < |pairs| ensures pairs[k].IsValid() {
      assert s[2 * k].id != s[2 * k + 1].id;
    }
  }

  /** Whoever a partition of `s` pairs up is taken from `s`. */
  lemma PairedComeFrom(ps: seq<EmployeePair>, rest: seq<Employee>, s: seq<Employee>)
    requires Complete(ps) && multiset(Members(ps)) + multiset(rest) == multiset(s)
    ensures forall k :: 0 <= k < |ps| ==> ps[k].employee1 in s && ps[k].employee2 in s
  {
    var m := Members(ps);
    assert forall x :: x in m ==> x in s by {
      forall x | x in m ensures x in s {
        assert x in multiset(m);
        assert x in multiset(s);
      }
    }
    forall k | 0 <= k < |ps| ensures ps[k].employee1 in s && ps[k].employee2 in s {
      assert m[2 * k] == ps[k].employee1 && m[2 * k + 1] == ps[k].employee2;
    }
  }

  /** A reordering of employees with distinct ids still has distinct ids. */
  lemma DistinctIdsPermuted(s: seq<Employee>, t: seq<Employee>)
    requires DistinctIds(s) && multiset(s) == multiset(t)
    ensures DistinctIds(t)
  {
    forall a | 0 <= a < |t| ensures t[a].id.Some? {
      assert t[a] in multiset(s);
    }
    forall a, b | 0 <= a < b < |t| ensures t[a].id != t[b].id {
      assert t[a] in multiset(s) && t[b] in multiset(s);
      var x :| 0 <= x < |s| && s[x] == t[a];
      var y :| 0 <= y < |s| && s[y] == t[b];
      if t[a] == t[b] {
        assert multiset(t)[t[a]] >= 2 by {
          assert t == t[..a] + [t[a]] + t[a + 1..b] + [t[b]] + t[b + 1..];
        }
        NoRepeatsInDistinctIds(s, x);
      } else {
        assert x != y;
      }
    }
  }

  /** In a list with distinct ids every employee object occurs once. */
  lemma NoRepeatsInDistinctIds(s: seq<Employee>, x: int)
    requires DistinctIds(s) && 0 <= x < |s|
    ensures multiset(s)[s[x]] == 1
  {
    var e := s[x];
    assert s == s[..x] + [e] + s[x + 1..];
    forall y | 0 <= y < |s| && y != x ensures s[y] != e {
      if y < x { assert s[y].id != s[x].id; } else { assert s[x].id != s[y].id; }
    }
    assert e !in s[..x] by {
      forall y | 0 <= y < x ensures s[..x][y] != e { assert s[..x][y] == s[y]; }
    }
    assert e !in s[x + 1..] by {
      var tail := s[x + 1..];
      forall y | 0 <= y < |tail| ensures tail[y] != e {
        assert tail[y] == s[x + 1 + y];
      }
    }
  }

  /**
   * Pairing within one interest.  An empty roster gives an empty result; with
   * fewer than two active employees listing the interest, nobody is paired
   * and every active employee (with or without the interest) is reported
   * unmatched; otherwise the interested employees go through random pairing,
   * whose result carries the random algorithm's tag.
   */
  method InterestBasedMatching(employees: seq<Employee>, interest: string, shuffled: seq<Employee>)
    returns (r: MatchingResult)
    requires multiset(shuffled) == multiset(InterestedOf(employees, interest))
    ensures r.Derived() && r.pairs.Some? && r.unmatched.Some? && Complete(r.pairs.value)
    ensures employees == [] ==> r.algorithm == InterestBasedTag && r.pairs.value == [] && r.unmatched.value == []
    ensures employees != [] && |InterestedOf(employees, interest)| < 2 ==>
      r.algorithm == InterestBasedTag && r.pairs.value == [] && r.unmatched.value == ActiveOf(employees)
    ensures |InterestedOf(employees, interest)| >= 2 ==>
      && r.algorithm == SimpleRandomTag
      && multiset(Members(r.pairs.value)) + multiset(r.unmatched.value) == multiset(InterestedOf(employees, interest))
      && r.totalPairs == |InterestedOf(employees, interest)| / 2
      && PairsConsecutive(r.pairs.value, r.unmatched.value, shuffled)
    ensures forall k :: 0 <= k < |r.pairs.value| ==>
      r.pairs.value[k].employee1.HasInterest(interest) && r.pairs.value[k].employee2.HasInterest(interest)
  {
    if employees == [] {
      return NewResult(Some([]), Some([]), InterestBasedTag);
    }
    var interested := InterestedOf(employees, interest);
    if |interested| < 2 {
      return NewResult(Some([]), Some(ActiveOf(employees)), InterestBasedTag);
    }
    ActiveOfFilteredIsIdentity(interested, employees, interest);
    assert |shuffled| == |interested| by {
      assert |multiset(shuffled)| == |multiset(interested)|;
    }
    r := SimpleRandomMatching(interested, shuffled);
    PairsShareInterest(r.pairs.value, r.unmatched.value, shuffled, employees, interest);
  }

  /** Whoever is paired from a reordering of the interested employees lists the interest. */
  lemma PairsShareInterest(ps: seq<EmployeePair>, rest: seq<Employee>, shuffled: seq<Employee>,
                           employees: seq<Employee>, interest: string)
    requires Complete(ps) && multiset(Members(ps)) + multiset(rest) == multiset(shuffled)
    requires multiset(shuffled) == multiset(InterestedOf(employees, interest))
    ensures forall k :: 0 <= k < |ps| ==> ps[k].employee1.HasInterest(interest) && ps[k].employee2.HasInterest(interest)
  {
    var interested := InterestedOf(employees, interest);
    PairedComeFrom(ps, rest, shuffled);
    assert forall e :: e in shuffled ==> e in interested by {
      forall e | e in shuffled ensures e in interested {
        assert e in multiset(shuffled);
      }
    }
  }

  /** Re-filtering an already active list keeps it as it is. */
  lemma {:induction false} ActiveOfFilteredIsIdentity(s: seq<Employee>, es: seq<Employee>, interest: string)
    requires s == InterestedOf(es, interest)
    ensures ActiveOf(s) == s
    decreases |es|
  {
    if es != [] {
      ActiveOfFilteredIsIdentity(InterestedOf(es[1..], interest), es[1..], interest);
      ActiveOfKeepsActive(s);
    }
  }

  lemma {:induction false} ActiveOfKeepsActive(s: seq<Employee>)
    requires forall e :: e in s ==> e.activeEmployee
    ensures ActiveOf(s) == s
    decreases |s|
  {
    if s != [] {
      ActiveOfKeepsActive(s[1..]);
    }
  }

  /** The department key the engine groups by: the department, or NO_DEPARTMENT when it is null. */
  function DeptKey(e: Employee): (key: string)
    reads e
    ensures e.department.Some? ==> key == e.department.value
    ensures e.department.None? ==> key == NoDepartment
  {
    if e.department.Some? then e.department.value else NoDepartment
  }

  /** The employees of `s` under department key `key`, in list order. */
  function Group(s: seq<Employee>, key: string): (g: seq<Employee>)
    reads s
    ensures forall e :: e in g ==> e in s && DeptKey(e) == key
    ensures forall e :: e in s && DeptKey(e) == key ==> e in g
  {
    if s == [] then []
    else
      var front := Group(s[..|s| - 1], key);
      var last := s[|s| - 1];
      assert forall e :: e in s ==> e in s[..|s| - 1] || e == last;
      if DeptKey(last) == key then front + [last] else front
  }

  /**
   * Collectors.groupingBy on the department key: one entry per key present,
   * holding that key's employees in list order.
   */
  function GroupBy(s: seq<Employee>): (groups: map<string, seq<Employee>>)
    reads s
    ensures forall key :: key in groups ==> groups[key] == Group(s, key) && groups[key] != []
    ensures forall e :: e in s ==> DeptKey(e) in groups
  {
    var keys := set e | e in s :: DeptKey(e);
    assert forall key :: key in keys ==> Group(s, key) != [] by {
      forall key | key in keys ensures Group(s, key) != [] {
        var e :| e in s && DeptKey(e) == key;
        assert e in Group(s, key);
      }
    }
    map key | key in keys :: Group(s, key)
  }

  /** `departments` lists every key of the grouping exactly once (the HashMap's key-set order). */
  predicate IsKeyOrder(groups: map<string, seq<Employee>>, departments: seq<string>)
  {
    && (forall a, b :: 0 <= a < b < |departments| ==> departments[a] != departments[b])
    && (forall t :: 0 <= t < |departments| ==> departments[t] in groups)
    && (forall key :: key in groups ==> key in departments)
  }

  /** The department groups of `active` in the order `departments` lists their keys. */
  function GroupsInOrder(active: seq<Employee>, departments: seq<string>): (g: seq<seq<Employee>>)
    reads active
    ensures |g| == |departments|
    ensures forall t :: 0 <= t < |g| ==> g[t] == Group(active, departments[t])
  {
    seq(|departments|, t requires 0 <= t < |departments| reads active => Group(active, departments[t]))
  }

  /** No employee belongs to two of the groups. */
  predicate Disjoint(g: seq<seq<Employee>>)
  {
    forall a, b, x, y :: 0 <= a < b < |g| && 0 <= x < |g[a]| && 0 <= y < |g[b]| ==> g[a][x] != g[b][y]
  }

  /**
   * Every candidate pair (g[a][c], g[b][c]) with a < b that the nested loops
   * visit before position (i, j, k) has at least one member already matched.
   */
  predicate CoveredBefore(g: seq<seq<Employee>>, matched: set<Employee>, i: int, j: int, k: int)
  {
    forall a, b, c ::
      0 <= a < b < |g| && 0 <= c < |g[a]| && c < |g[b]|
      && (a < i || (a == i && (b < j || (b == j && c < k))))
      ==> g[a][c] in matched || g[b][c] in matched
  }

  /**
   * What the department loop keeps: each pair joins a member of an earlier
   * group with a member of a later one, `members` lists the paired employees
   * pair by pair without repetition, and `matched` is the set of them.
   */
  predicate Progress(g: seq<seq<Employee>>, pairs: seq<EmployeePair>, matched: set<Employee>,
                     members: seq<Employee>, origin: seq<(nat, nat)>)
    reads pairs
  {
    && |members| == 2 * |pairs| && |origin| == |pairs|
    && (forall q :: 0 <= q < |pairs| ==>
          pairs[q].employee1 == members[2 * q] && pairs[q].employee2 == members[2 * q + 1])
    && (forall q :: 0 <= q < |pairs| ==>
          origin[q].0 < origin[q].1 < |g| && members[2 * q] in g[origin[q].0] && members[2 * q + 1] in g[origin[q].1])
    && NoDuplicates(members)
    && matched == set x | x in members
  }

  /**
   * The paired employees, pair by pair, after the (i, j) visit has looked at
   * positions k onwards of groups `a` and `b`, starting from `m`: the k-th
   * employees are paired when neither occurs in what is paired so far.
   */
  function VisitFrom(a: seq<Employee>, b: seq<Employee>, k: nat, m: seq<Employee>): (r: seq<Employee>)
    decreases |a| - k
  {
    if k >= |a| || k >= |b| then m
    else if a[k] !in m && b[k] !in m then VisitFrom(a, b, k + 1, m + [a[k], b[k]])
    else VisitFrom(a, b, k + 1, m)
  }

  /** The paired employees after visiting groups (i, j), (i, j + 1), ..., (i, |g| - 1), starting from `m`. */
  function RowFrom(g: seq<seq<Employee>>, i: nat, j: nat, m: seq<Employee>): (r: seq<Employee>)
    requires i < |g|
    decreases |g| - j
  {
    if j >= |g| then m else RowFrom(g, i, j + 1, VisitFrom(g[i], g[j], 0, m))
  }

  /**
   * The greedy rule of the department loops as a reference: the paired
   * employees, pair by pair, after every (a, b) visit with i <= a < b,
   * in loop order, starting from `m`.
   */
  function GreedyFrom(g: seq<seq<Employee>>, i: nat, m: seq<Employee>): (r: seq<Employee>)
    decreases |g| - i
  {
    if i >= |g| then m else GreedyFrom(g, i + 1, RowFrom(g, i, i + 1, m))
  }

  /** With at most one group there is no pair to make. */
  lemma OneGroupNoPairs(g: seq<seq<Employee>>)
    requires |g| <= 1
    ensures GreedyFrom(g, 0, []) == []
  {
    if |g| == 1 {
      assert RowFrom(g, 0, 1, []) == [];
      assert GreedyFrom(g, 1, []) == [];
    }
  }

  /** With nobody matched, every employee is left over. */
  lemma {:induction false} NoneMatchedAllUnpaired(s: seq<Employee>)
    ensures Unpaired(s, {}) == s
  {
    if s != [] {
      NoneMatchedAllUnpaired(s[1..]);
    }
  }

  /**
   * One position k of an (i, j) visit: the k-th employees of the two groups
   * are paired when neither is matched yet.
   */
  method VisitPosition(g: seq<seq<Employee>>, i: nat, j: nat, k: nat,
                       pairs0: seq<EmployeePair>, matched0: set<Employee>,
                       ghost members0: seq<Employee>, ghost origin0: seq<(nat, nat)>)
    returns (pairs: seq<EmployeePair>, matched: set<Employee>,
             ghost members: seq<Employee>, ghost origin: seq<(nat, nat)>)
    requires i < j < |g| && k < |g[i]| && k < |g[j]| && Disjoint(g)
    requires Progress(g, pairs0, matched0, members0, origin0)
    requires CoveredBefore(g, matched0, i, j, k)
    ensures Progress(g, pairs, matched, members, origin)
    ensures CoveredBefore(g, matched, i, j, k + 1)
    ensures matched0 <= matched && pairs0 <= pairs
    ensures VisitFrom(g[i], g[j], k + 1, members) == VisitFrom(g[i], g[j], k, members0)
  {
    pairs, matched, members, origin := pairs0, matched0, members0, origin0;
    var emp1, emp2 := g[i][k], g[j][k];
    if emp1 !in matched && emp2 !in matched {
      assert emp1 !in members && emp2 !in members;
      assert emp1 != emp2;
      var pair := new EmployeePair(emp1, emp2);
      pairs := pairs + [pair];
      members := members + [emp1, emp2];
      origin := origin + [(i, j)];
      matched := matched + {emp1, emp2};
    } else {
      assert emp1 in members || emp2 in members;
    }
    CoveredStep(g, matched, i, j, k);
  }

  /**
   * One (i, j) round of the department loop: for every position k both
   * groups have, the k-th employees are paired when neither is matched yet.
   */
  method PairTwoGroups(g: seq<seq<Employee>>, i: nat, j: nat,
                       pairs0: seq<EmployeePair>, matched0: set<Employee>,
                       ghost members0: seq<Employee>, ghost origin0: seq<(nat, nat)>)
    returns (pairs: seq<EmployeePair>, matched: set<Employee>,
             ghost members: seq<Employee>, ghost origin: seq<(nat, nat)>)
    requires i < j < |g| && Disjoint(g)
    requires Progress(g, pairs0, matched0, members0, origin0)
    requires CoveredBefore(g, matched0, i, j, 0)
    ensures Progress(g, pairs, matched, members, origin)
    ensures CoveredBefore(g, matched, i, j + 1, 0)
    ensures matched0 <= matched && pairs0 <= pairs
    ensures members == VisitFrom(g[i], g[j], 0, members0)
  {
    pairs, matched, members, origin := pairs0, matched0, members0, origin0;
    var dept1, dept2 := g[i], g[j];
    var pairsToCreate := if |dept1| < |dept2| then |dept1| else |dept2|;
    var k := 0;
    while k < pairsToCreate
      invariant 0 <= k <= pairsToCreate
      invariant Progress(g, pairs, matched, members, origin)
      invariant CoveredBefore(g, matched, i, j, k)
      invariant matched0 <= matched && pairs0 <= pairs
      invariant VisitFrom(dept1, dept2, k, members) == VisitFrom(dept1, dept2, 0, members0)
    {
      pairs, matched, members, origin := VisitPosition(g, i, j, k, pairs, matched, members, origin);
      k := k + 1;
    }
    CoveredNextGroup(g, matched, i, j, k);
  }

  /** Once the candidate pair at (i, j, k) has a matched member, the cover extends past it. */
  lemma CoveredStep(g: seq<seq<Employee>>, matched: set<Employee>, i: nat, j: nat, k: nat)
    requires i < j < |g| && k < |g[i]| && k < |g[j]|
    requires CoveredBefore(g, matched, i, j, k)
    requires g[i][k] in matched || g[j][k] in matched
    ensures CoveredBefore(g, matched, i, j, k + 1)
  {
  }

  /** Past the last position both groups have, the cover extends to the next group. */
  lemma CoveredNextGroup(g: seq<seq<Employee>>, matched: set<Employee>, i: nat, j: nat, k: nat)
    requires i < j < |g| && (k >= |g[i]| || k >= |g[j]|)
    requires CoveredBefore(g, matched, i, j, k)
    ensures CoveredBefore(g, matched, i, j + 1, 0)
  {
  }

  /** Past the last group, the cover extends to the next row of visits. */
  lemma CoveredNextRow(g: seq<seq<Employee>>, matched: set<Employee>, i: nat)
    requires CoveredBefore(g, matched, i, |g|, 0)
    ensures CoveredBefore(g, matched, i + 1, 0, 0)
  {
  }

  /** The employees of `s` that are not in `matched`, in list order. */
  function Unpaired(s: seq<Employee>, matched: set<Employee>): (r: seq<Employee>)
    ensures forall e :: e in r ==> e in s && e !in matched
    ensures forall e :: e in s && e !in matched ==> e in r
  {
    if s == [] then []
    else (if s[0] in matched then [] else [s[0]]) + Unpaired(s[1..], matched)
  }

  /** Groups of distinct department keys share no employee. */
  lemma GroupsDisjoint(active: seq<Employee>, departments: seq<string>)
    requires forall a, b :: 0 <= a < b < |departments| ==> departments[a] != departments[b]
    ensures Disjoint(GroupsInOrder(active, departments))
  {
    var g := GroupsInOrder(active, departments);
    forall a, b, x, y | 0 <= a < b < |g| && 0 <= x < |g[a]| && 0 <= y < |g[b]| ensures g[a][x] != g[b][y] {
      assert g[a][x] in Group(active, departments[a]);
      assert g[b][y] in Group(active, departments[b]);
    }
  }

  /** Every group named in a key order has at least one employee. */
  lemma GroupsNonEmpty(active: seq<Employee>, departments: seq<string>)
    requires IsKeyOrder(GroupBy(active), departments)
    ensures forall t :: 0 <= t < |departments| ==> GroupsInOrder(active, departments)[t] != []
  {
  }

  /** Two keys in a key order name two active employees of different departments. */
  lemma DifferentKeysWitness(active: seq<Employee>, departments: seq<string>)
    requires IsKeyOrder(GroupBy(active), departments)
    ensures |departments| >= 2 ==>
      exists x, y :: x in active && y in active && DeptKey(x) != DeptKey(y)
    ensures |departments| >= 2 ==> |active| >= 2
  {
    if |departments| >= 2 {
      GroupsNonEmpty(active, departments);
      var g := GroupsInOrder(active, departments);
      var x, y := g[0][0], g[1][0];
      assert x in Group(active, departments[0]) && y in Group(active, departments[1]);
      assert x in active && y in active && DeptKey(x) != DeptKey(y);
    }
  }

  /** When all active employees share one department key, the key order has at most one entry. */
  lemma OneDepartmentOneKey(active: seq<Employee>, departments: seq<string>)
    requires IsKeyOrder(GroupBy(active), departments)
    requires forall a, b :: a in active && b in active ==> DeptKey(a) == DeptKey(b)
    ensures |departments| <= 1
  {
    DifferentKeysWitness(active, departments);
  }

  lemma {:induction false} MembersOfProgress(pairs: seq<EmployeePair>, members: seq<Employee>)
    requires |members| == 2 * |pairs|
    requires forall q :: 0 <= q < |pairs| ==>
      pairs[q].employee1 == members[2 * q] && pairs[q].employee2 == members[2 * q + 1]
    ensures Complete(pairs) && Members(pairs) == members
  {
    MembersOfConsecutive(pairs, members);
    assert members[..2 * |pairs|] == members;
  }

  /** A distinct listing of the keys of a grouping is as long as the grouping has keys. */
  lemma KeyOrderLength(groups: map<string, seq<Employee>>, departments: seq<string>)
    requires IsKeyOrder(groups, departments)
    ensures |departments| == |groups|
  {
    var keys := set t | 0 <= t < |departments| :: departments[t];
    assert keys == groups.Keys;
    DistinctSeqCard(departments);
  }

  lemma {:induction false} DistinctSeqCard(ds: seq<string>)
    requires forall a, b :: 0 <= a < b < |ds| ==> ds[a] != ds[b]
    ensures |set t | 0 <= t < |ds| :: ds[t]| == |ds|
  {
    if ds != [] {
      var init := ds[..|ds| - 1];
      DistinctSeqCard(init);
      var s0 := set t | 0 <= t < |init| :: init[t];
      assert (set t | 0 <= t < |ds| :: ds[t]) == s0 + {ds[|ds| - 1]};
      assert ds[|ds| - 1] !in s0;
    }
  }

  /**
   * The department loops of the cross-department algorithm over the groups
   * in key order: every two groups i < j are visited in order, and each visit
   * pairs the employees at each common position when neither is matched.
   */
  method PairAcrossGroups(g: seq<seq<Employee>>)
    returns (pairs: seq<EmployeePair>, matched: set<Employee>,
             ghost members: seq<Employee>, ghost origin: seq<(nat, nat)>)
    requires Disjoint(g)
    ensures Progress(g, pairs, matched, members, origin)
    ensures CoveredBefore(g, matched, |g|, 0, 0)
    ensures Complete(pairs) && Members(pairs) == GreedyFrom(g, 0, [])
  {
    pairs, matched, members, origin := [], {}, [], [];
    var i := 0;
    while i < |g|
      invariant 0 <= i <= |g|
      invariant Progress(g, pairs, matched, members, origin)
      invariant CoveredBefore(g, matched, i, 0, 0)
      invariant GreedyFrom(g, i, members) == GreedyFrom(g, 0, [])
    {
      pairs, matched, members, origin := VisitRow(g, i, pairs, matched, members, origin);
      i := i + 1;
    }
    MembersOfProgress(pairs, members);
  }

  /** The inner department loop: group i is visited with every later group j in turn. */
  method VisitRow(g: seq<seq<Employee>>, i: nat,
                  pairs0: seq<EmployeePair>, matched0: set<Employee>,
                  ghost members0: seq<Employee>, ghost origin0: seq<(nat, nat)>)
    returns (pairs: seq<EmployeePair>, matched: set<Employee>,
             ghost members: seq<Employee>, ghost origin: seq<(nat, nat)>)
    requires i < |g| && Disjoint(g)
    requires Progress(g, pairs0, matched0, members0, origin0)
    requires CoveredBefore(g, matched0, i, 0, 0)
    ensures Progress(g, pairs, matched, members, origin)
    ensures CoveredBefore(g, matched, i + 1, 0, 0)
    ensures members == RowFrom(g, i, i + 1, members0)
  {
    pairs, matched, members, origin := pairs0, matched0, members0, origin0;
    var j := i + 1;
    while j < |g|
      invariant i + 1 <= j <= |g|
      invariant Progress(g, pairs, matched, members, origin)
      invariant CoveredBefore(g, matched, i, j, 0)
      invariant RowFrom(g, i, j, members) == RowFrom(g, i, i + 1, members0)
    {
      pairs, matched, members, origin := PairTwoGroups(g, i, j, pairs, matched, members, origin);
      j := j + 1;
    }
    CoveredNextRow(g, matched, i);
  }

  /**
   * Pairing across departments.  An empty roster gives an empty result and
   * fewer than two active employees are all left unmatched.  Otherwise the
   * active employees are grouped by department key and, for every two
   * groups in key order and every position both groups have, the employees
   * at that position are paired when neither is taken yet; whoever is left
   * is unmatched, in roster order.  Every pair joins two departments, no
   * employee is in two pairs, every active employee is paired or unmatched,
   * no visited candidate pair is left with both members free, a single
   * department yields no pair and two or more yield at least one.
   */
  method CrossDepartmentMatching(employees: seq<Employee>, departments: seq<string>) returns (r: MatchingResult)
    requires IsKeyOrder(GroupBy(ActiveOf(employees)), departments)
    ensures r.algorithm == CrossDepartmentTag && r.Derived()
    ensures r.pairs.Some? && r.unmatched.Some? && Complete(r.pairs.value)
    ensures employees == [] ==> r.pairs.value == [] && r.unmatched.value == []
    ensures |ActiveOf(employees)| < 2 ==> r.pairs.value == [] && r.unmatched.value == ActiveOf(employees)
    ensures forall q :: 0 <= q < |r.pairs.value| ==>
      && r.pairs.value[q].employee1 in ActiveOf(employees) && r.pairs.value[q].employee2 in ActiveOf(employees)
      && DeptKey(r.pairs.value[q].employee1) != DeptKey(r.pairs.value[q].employee2)
    ensures NoDuplicates(Members(r.pairs.value))
    ensures forall e :: e in r.unmatched.value ==> e in ActiveOf(employees) && e !in Members(r.pairs.value)
    ensures forall e :: e in ActiveOf(employees) ==> e in Members(r.pairs.value) || e in r.unmatched.value
    ensures |ActiveOf(employees)| >= 2 ==>
      CoveredBefore(GroupsInOrder(ActiveOf(employees), departments),
                    set x | x in Members(r.pairs.value), |departments|, 0, 0)
    ensures |departments| <= 1 ==> r.pairs.value == []
    ensures |departments| >= 2 ==> |r.pairs.value| >= 1
    ensures Members(r.pairs.value) == GreedyFrom(GroupsInOrder(ActiveOf(employees), departments), 0, [])
    ensures r.unmatched.value == Unpaired(ActiveOf(employees), set x | x in Members(r.pairs.value))
  {
    var active := ActiveOf(employees);
    DifferentKeysWitness(active, departments);
    if |active| < 2 {
      OneGroupNoPairs(GroupsInOrder(active, departments));
      NoneMatchedAllUnpaired(active);
    }
    if employees == [] {
      return NewResult(Some([]), Some([]), CrossDepartmentTag);
    }
    if |active| < 2 {
      return NewResult(Some([]), Some(active), CrossDepartmentTag);
    }
    var pairs, unmatched := PairDepartments(active, departments);
    r := NewResult(Some(pairs), Some(unmatched), CrossDepartmentTag);
  }

  /**
   * The department loops over the active employees, grouped in key order,
   * and the employees they leave unmatched, in roster order.
   */
  method PairDepartments(active: seq<Employee>, departments: seq<string>)
    returns (pairs: seq<EmployeePair>, unmatched: seq<Employee>)
    requires IsKeyOrder(GroupBy(active), departments)
    ensures Complete(pairs)
    ensures forall q :: 0 <= q < |pairs| ==>
      && pairs[q].employee1 in active && pairs[q].employee2 in active
      && DeptKey(pairs[q].employee1) != DeptKey(pairs[q].employee2)
    ensures NoDuplicates(Members(pairs))
    ensures forall e :: e in unmatched ==> e in active && e !in Members(pairs)
    ensures forall e :: e in active ==> e in Members(pairs) || e in unmatched
    ensures CoveredBefore(GroupsInOrder(active, departments), set x | x in Members(pairs), |departments|, 0, 0)
    ensures |departments| <= 1 ==> pairs == []
    ensures |departments| >= 2 ==> |pairs| >= 1
    ensures Members(pairs) == GreedyFrom(GroupsInOrder(active, departments), 0, [])
    ensures unmatched == Unpaired(active, set x | x in Members(pairs))
  {
    var g := GroupsInOrder(active, departments);
    GroupsDisjoint(active, departments);
    GroupsNonEmpty(active, departments);
    ghost var members, origin;
    var matched;
    pairs, matched, members, origin := PairAcrossGroups(g);
    unmatched := Unpaired(active, matched);
    CrossDepartmentOutcome(active, departments, g, pairs, unmatched, matched, members, origin);
  }

  /** What the department loops leave behind, restated over the active employees. */
  lemma CrossDepartmentOutcome(active: seq<Employee>, departments: seq<string>, g: seq<seq<Employee>>,
                               pairs: seq<EmployeePair>, unmatched: seq<Employee>, matched: set<Employee>,
                               members: seq<Employee>, origin: seq<(nat, nat)>)
    requires forall a, b :: 0 <= a < b < |departments| ==> departments[a] != departments[b]
    requires g == GroupsInOrder(active, departments)
    requires forall t :: 0 <= t < |g| ==> g[t] != []
    requires Progress(g, pairs, matched, members, origin)
    requires CoveredBefore(g, matched, |g|, 0, 0)
    requires unmatched == Unpaired(active, matched)
    ensures Complete(pairs)
    ensures forall q :: 0 <= q < |pairs| ==>
      && pairs[q].employee1 in active && pairs[q].employee2 in active
      && DeptKey(pairs[q].employee1) != DeptKey(pairs[q].employee2)
    ensures NoDuplicates(Members(pairs))
    ensures forall e :: e in unmatched ==> e in active && e !in Members(pairs)
    ensures forall e :: e in active ==> e in Members(pairs) || e in unmatched
    ensures CoveredBefore(g, set x | x in Members(pairs), |departments|, 0, 0)
    ensures |departments| <= 1 ==> pairs == []
    ensures |departments| >= 2 ==> |pairs| >= 1
    ensures matched == set x | x in Members(pairs)
  {
    MembersOfProgress(pairs, members);
    PairsJoinDepartments(active, departments, g, pairs, matched, members, origin);
    assert matched == set x | x in Members(pairs);
    if |departments| >= 2 {
      assert g[0][0] in matched || g[1][0] in matched;
    }
  }

  /** Every pair the department loops make joins two active employees of different department keys. */
  lemma PairsJoinDepartments(active: seq<Employee>, departments: seq<string>, g: seq<seq<Employee>>,
                             pairs: seq<EmployeePair>, matched: set<Employee>,
                             members: seq<Employee>, origin: seq<(nat, nat)>)
    requires forall a, b :: 0 <= a < b < |departments| ==> departments[a] != departments[b]
    requires g == GroupsInOrder(active, departments)
    requires Progress(g, pairs, matched, members, origin)
    ensures forall q :: 0 <= q < |pairs| ==>
      && pairs[q].employee1 in active && pairs[q].employee2 in active
      && DeptKey(pairs[q].employee1) != DeptKey(pairs[q].employee2)
  {
    assert forall t, e :: 0 <= t < |g| && e in g[t] ==> e in active && DeptKey(e) == departments[t];
  }
}
