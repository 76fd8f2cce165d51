# ConnectBot core, modelled in Dafny

ConnectBot is a corporate Telegram bot. It introduces employees to each other in "secret coffee" meetings, activities, tournaments and teams. This project models the parts of it that make decisions, and proves what they promise.

**The Java matching service:**
- the pairing engine with three policies:
  - random shuffle, then consecutive pairs;
  - an interest filter followed by the random policy;
  - greedy pairing across departments;
- the result statistics;
- the employee and pair records;
- the Data API client, with its bounded retry loop and exponential backoff, token handling, token mask and health probe.

**The Python services around it:**
- the local fallbacks used when the engine is unreachable;
- the bot's retrying client for the engine and its PII-free request summary;
- Telegram username normalisation and activity booking rules;
- interest-subscription reconciliation and bot authorisation;
- the context and notification classifiers;
- the anonymous-coffee rules;
- the cache layers (temporary data, per-user menus, the cache adapter, the Data API key registry);
- the Data API's token check and cache-aside flow, and its serialisers;
- the weekly activity sessions and provisional pairing.

One Dafny module models each source file:

- `wrappers.dfy` (module `Wrappers`): Option and Result
- `text.dfy` (module `Text`): ASCII case folding, Java `String.trim`, Python `str.strip`/`str.split(None, 1)`, decimal rendering of integers
- `json_value.dfy` (module `Json`): Python JSON values, truthiness, `dict.get`, the sorted-key canonical form
- `java_employee.dfy` (module `JavaEmployee`): `Employee.java`
- `java_employee_pair.dfy` (module `JavaEmployeePair`): `EmployeePair.java`
- `matching_result.dfy` (module `MatchingResultModel`): `MatchingResult.java`
- `matching_service.dfy` (module `MatchingService`): `MatchingService.java`
- `data_api_client.dfy` (module `DataApiClientModel`): `DataApiClient.java`
- `java_matching_fallback.dfy` (module `FallbackMatching`): `activities/services/java_matching_service.py`
- `matching_service_client.dfy` (module `MatchingClient`): `bots/services/matching_service_client.py`
- `employee_models.dfy` (module `EmployeeModels`): `employees/models.py`
- `employee_utils.dfy` (module `EmployeeUtils`): `employees/utils.py`
- `context_service.dfy` (module `ContextService`): `bots/services/context_service.py`
- `notification_service.dfy` (module `Notifications`): `bots/services/notification_service.py`
- `anonymous_coffee.dfy` (module `AnonymousCoffee`): `activities/services/anonymous_coffee_service.py`
- `redis_temp_data.dfy` (module `TempData`): `employees/redis_temp_data.py`
- `redis_menu_cache.dfy` (module `MenuCacheModel`): `employees/redis_menu_cache.py`
- `redis_utils.dfy` (module `RedisUtils`): `employees/redis_utils.py`
- `cache_utils.dfy` (module `CacheUtils`): `python_app/services/cache_utils.py`
- `data_api.dfy` (module `DataApi`): `python_app/api/data_api.py`
- `data_serializers.dfy` (module `DataSerializers`): `python_app/serializers/data_serializers.py`
- `activity_services.dfy` (module `ActivityServices`): `activities/services.py`

**How the source's form is kept:**
- Objects whose methods update fields are classes with those fields. Examples: the Java employee and pair, the Data API client, the Python Employee record, the cache managers and the activity manager.
- Each caching class holds its cache as a `map` from keys to entries.
- Each method is proved against a specification function of its old state and inputs.
- Loops are `while` and `for` loops with invariants.
- Pure classifiers and formatters are functions, with lemmas relating them.

**Inputs instead of effects.** Nondeterminism, clocks and I/O are inputs:
- the shuffle order and the department iteration order;
- random choices;
- the current time and date;
- database counts and rows;
- HTTP exchanges, as a script of outcomes;
- the SHA-256 digest, as an uninterpreted function.

**Sleeps** are recorded rather than slept.

## Model

| member | source | states |
|---|---|---|
| JavaEmployee.Employee.Blank | connectbot-java-services/matching-service/src/main/java/com/connectbot/matching/model/Employee.java:15-19 | the no-argument constructor leaves every reference field null and the employee active |
| JavaEmployee.Employee.Named | connectbot-java-services/matching-service/src/main/java/com/connectbot/matching/model/Employee.java:21-24 | the (id, displayName) constructor sets those two and leaves the rest at their defaults |
| JavaEmployee.Employee.constructor | connectbot-java-services/matching-service/src/main/java/com/connectbot/matching/model/Employee.java:27-38 | the nine-argument constructor copies every argument into its field |
| JavaEmployee.Employee.SetId | connectbot-java-services/matching-service/src/main/java/com/connectbot/matching/model/Employee.java:82-84 | the setter overwrites the id and no other field |
| JavaEmployee.Employee.SetDisplayName | connectbot-java-services/matching-service/src/main/java/com/connectbot/matching/model/Employee.java:90-92 | the setter overwrites the display name and no other field |
| JavaEmployee.Employee.SetPosition | connectbot-java-services/matching-service/src/main/java/com/connectbot/matching/model/Employee.java:50-52 | the setter overwrites the position and no other field |
| JavaEmployee.Employee.SetDepartment | connectbot-java-services/matching-service/src/main/java/com/connectbot/matching/model/Employee.java:98-100 | the setter overwrites the department and no other field |
| JavaEmployee.Employee.SetBusinessCode | connectbot-java-services/matching-service/src/main/java/com/connectbot/matching/model/Employee.java:58-60 | the setter overwrites the business code and no other field |
| JavaEmployee.Employee.SetEmployeeNumber | connectbot-java-services/matching-service/src/main/java/com/connectbot/matching/model/Employee.java:66-68 | the setter overwrites the employee number and no other field |
| JavaEmployee.Employee.SetUsername | connectbot-java-services/matching-service/src/main/java/com/connectbot/matching/model/Employee.java:74-76 | the setter overwrites the username and no other field |
| JavaEmployee.Employee.SetInterests | connectbot-java-services/matching-service/src/main/java/com/connectbot/matching/model/Employee.java:114-116 | the setter overwrites the interest list and no other field |
| JavaEmployee.Employee.SetActiveEmployee | connectbot-java-services/matching-service/src/main/java/com/connectbot/matching/model/Employee.java:106-108 | the setter overwrites the active flag and no other field |
| JavaEmployee.Employee.HasInterest | connectbot-java-services/matching-service/src/main/java/com/connectbot/matching/model/Employee.java:132-134 | a null interest list holds nothing; otherwise true exactly when some entry equals the interest |
| JavaEmployeePair.EmployeePair.Blank | connectbot-java-services/matching-service/src/main/java/com/connectbot/matching/model/EmployeePair.java:10-11 | the no-argument constructor leaves both members null |
| JavaEmployeePair.EmployeePair.constructor | connectbot-java-services/matching-service/src/main/java/com/connectbot/matching/model/EmployeePair.java:13-16 | the two-argument constructor keeps references to both employees |
| JavaEmployeePair.EmployeePair.SetEmployee1 | connectbot-java-services/matching-service/src/main/java/com/connectbot/matching/model/EmployeePair.java:22-24 | replaces the first member and keeps the second |
| JavaEmployeePair.EmployeePair.SetEmployee2 | connectbot-java-services/matching-service/src/main/java/com/connectbot/matching/model/EmployeePair.java:30-32 | replaces the second member and keeps the first |
| JavaEmployeePair.EmployeePair.IsValid | connectbot-java-services/matching-service/src/main/java/com/connectbot/matching/model/EmployeePair.java:35-41 | valid implies both members and both ids are present and the members are distinct objects; with both ids present, valid exactly when the ids differ by value |
| MatchingResultModel.MatchingResult.IsSuccessful | connectbot-java-services/matching-service/src/main/java/com/connectbot/matching/model/MatchingResult.java:59-61 | successful exactly when the pair list is present and non-empty; with derived statistics that means at least one pair |
| MatchingResultModel.MatchingResult.MatchedCount | connectbot-java-services/matching-service/src/main/java/com/connectbot/matching/model/MatchingResult.java:66-68 | with derived statistics the matched count lies between 0 and the total, and is 0 exactly when the run was not successful |
| MatchingResultModel.SuccessRate | connectbot-java-services/matching-service/src/main/java/com/connectbot/matching/model/MatchingResult.java:52 | the rate lies in 0..100; it is 100 exactly when there are pairs and nobody is left over, and 0 exactly when there are no pairs |
| MatchingResultModel.NewResult | connectbot-java-services/matching-service/src/main/java/com/connectbot/matching/model/MatchingResult.java:46-54 | null lists count as empty; total pairs is the pair count, total employees is twice that plus the unmatched count, and the rate is their share in percent |
| MatchingResultModel.RateMonotoneInPairs | connectbot-java-services/matching-service/src/main/java/com/connectbot/matching/model/MatchingResult.java:51-52 | with the unmatched count fixed, more pairs never lower the success rate |
| MatchingService.ActiveOf | connectbot-java-services/matching-service/src/main/java/com/connectbot/matching/service/MatchingService.java:40-42 | the filtered list holds exactly the active employees of the input |
| MatchingService.ActiveOfCounts | connectbot-java-services/matching-service/src/main/java/com/connectbot/matching/service/MatchingService.java:40-42 | the filter keeps every active employee as often as it occurs and drops every inactive one |
| MatchingService.InterestedOf | connectbot-java-services/matching-service/src/main/java/com/connectbot/matching/service/MatchingService.java:98-101 | the filtered list holds exactly the active employees that have the interest |
| MatchingService.InterestedOfCounts | connectbot-java-services/matching-service/src/main/java/com/connectbot/matching/service/MatchingService.java:98-101 | the interest filter keeps each qualifying employee as often as it occurs and drops the others |
| MatchingService.PairConsecutive | connectbot-java-services/matching-service/src/main/java/com/connectbot/matching/service/MatchingService.java:56-73 | the k-th pair joins positions 2k and 2k+1 of the shuffled list; an odd last employee is the only unmatched one; pairs plus unmatched are a permutation of the active employees; distinct ids make every pair valid |
| MatchingService.ConsecutivePartition | connectbot-java-services/matching-service/src/main/java/com/connectbot/matching/service/MatchingService.java:59-72 | consecutive pairs of a list plus its odd leftover hold every element of the list exactly once |
| MatchingService.MembersOfConsecutive | connectbot-java-services/matching-service/src/main/java/com/connectbot/matching/service/MatchingService.java:59-66 | reading consecutive pairs back member by member gives the prefix of the list they were taken from |
| MatchingService.SimpleRandomMatching | connectbot-java-services/matching-service/src/main/java/com/connectbot/matching/service/MatchingService.java:30-80 | empty input gives an empty result; fewer than two active employees are all returned unmatched; otherwise the result pairs the shuffled active employees two by two, keeps every active employee exactly once, has at least one pair, and is tagged SIMPLE_RANDOM with derived statistics |
| MatchingService.ConsecutivePairsValid | connectbot-java-services/matching-service/src/main/java/com/connectbot/matching/service/MatchingService.java:59-66 | pairs of consecutive employees with distinct ids are all valid |
| MatchingService.DistinctIdsPermuted | connectbot-java-services/matching-service/src/main/java/com/connectbot/matching/service/MatchingService.java:52-53 | shuffling keeps the ids distinct |
| MatchingService.InterestBasedMatching | connectbot-java-services/matching-service/src/main/java/com/connectbot/matching/service/MatchingService.java:89-114 | empty input gives an empty INTEREST_BASED result; fewer than two interested employees return every active employee unmatched; otherwise the result is the simple matching of the interested employees: the k-th pair joins positions 2k and 2k+1 of their shuffled list, an odd last one is the only unmatched, every interested employee appears exactly once and the result is tagged SIMPLE_RANDOM; every pair shares the interest |
| MatchingService.PairsShareInterest | connectbot-java-services/matching-service/src/main/java/com/connectbot/matching/service/MatchingService.java:98-113 | pairs drawn from the interested employees all have the interest on both sides |
| MatchingService.ActiveOfFilteredIsIdentity | connectbot-java-services/matching-service/src/main/java/com/connectbot/matching/service/MatchingService.java:98-113 | the simple matching's own activity filter keeps the interested list unchanged |
| MatchingService.DeptKey | connectbot-java-services/matching-service/src/main/java/com/connectbot/matching/service/MatchingService.java:139-140 | an employee is grouped under its department, or NO_DEPARTMENT when that is null |
| MatchingService.Group | connectbot-java-services/matching-service/src/main/java/com/connectbot/matching/service/MatchingService.java:138-140 | a department's group holds exactly the employees with that key |
| MatchingService.GroupBy | connectbot-java-services/matching-service/src/main/java/com/connectbot/matching/service/MatchingService.java:138-140 | every key maps to its non-empty group, and every employee's key is present |
| MatchingService.GroupsInOrder | connectbot-java-services/matching-service/src/main/java/com/connectbot/matching/service/MatchingService.java:147-152 | the t-th group in iteration order is the group of the t-th department key |
| MatchingService.GroupsDisjoint | connectbot-java-services/matching-service/src/main/java/com/connectbot/matching/service/MatchingService.java:138-140 | groups of distinct keys share no employee |
| MatchingService.GroupsNonEmpty | connectbot-java-services/matching-service/src/main/java/com/connectbot/matching/service/MatchingService.java:138-147 | every department in the key list has a non-empty group |
| MatchingService.DifferentKeysWitness | connectbot-java-services/matching-service/src/main/java/com/connectbot/matching/service/MatchingService.java:138-147 | two or more department keys imply two active employees from different departments |
| MatchingService.OneDepartmentOneKey | connectbot-java-services/matching-service/src/main/java/com/connectbot/matching/service/MatchingService.java:138-147 | when all active employees share a department there is at most one key |
| MatchingService.PairTwoGroups | connectbot-java-services/matching-service/src/main/java/com/connectbot/matching/service/MatchingService.java:151-165 | one (i, j) round adds, in order, exactly the members the reference VisitFrom picks: position k of both groups whenever neither employee is matched yet; it keeps the invariant (pairs cross two groups, nobody is paired twice) and leaves every common position of the two groups with a matched employee |
| MatchingService.VisitPosition | connectbot-java-services/matching-service/src/main/java/com/connectbot/matching/service/MatchingService.java:157-164 | one position k pairs the k-th employees of the two groups exactly when neither is matched yet, as one step of VisitFrom, and keeps the invariant |
| MatchingService.VisitRow | connectbot-java-services/matching-service/src/main/java/com/connectbot/matching/service/MatchingService.java:150-166 | one outer round i runs the inner rounds j = i+1, i+2, ... as the reference RowFrom says and leaves every common position of group i with a later group covered |
| MatchingService.PairAcrossGroups | connectbot-java-services/matching-service/src/main/java/com/connectbot/matching/service/MatchingService.java:149-167 | after all rounds the pair members, read in order, are exactly the greedy reference GreedyFrom (pair the k-th employees of groups i < j when both are still free, rounds in (i, j, k) order); every common position of two groups has a matched employee, and nobody is paired twice |
| MatchingService.OneGroupNoPairs | connectbot-java-services/matching-service/src/main/java/com/connectbot/matching/service/MatchingService.java:147-152 | with one department group or none the greedy rounds pick nobody |
| MatchingService.NoneMatchedAllUnpaired | connectbot-java-services/matching-service/src/main/java/com/connectbot/matching/service/MatchingService.java:170-172 | with nobody matched, the leftover list is the active list itself, in order |
| MatchingService.Unpaired | connectbot-java-services/matching-service/src/main/java/com/connectbot/matching/service/MatchingService.java:170-172 | the leftover list holds exactly the active employees not matched |
| MatchingService.PairDepartments | connectbot-java-services/matching-service/src/main/java/com/connectbot/matching/service/MatchingService.java:138-172 | every pair joins two active employees of different departments; the pair members are exactly the greedy reference GreedyFrom over the department groups in key order; nobody is paired twice; the unmatched list is the active employees left unpaired, in roster order; one department gives no pair and two or more give at least one |
| MatchingService.CrossDepartmentOutcome | connectbot-java-services/matching-service/src/main/java/com/connectbot/matching/service/MatchingService.java:142-172 | the loop invariant at exit yields the outcome properties stated for PairDepartments, and the matched set is exactly the set of pair members |
| MatchingService.PairsJoinDepartments | connectbot-java-services/matching-service/src/main/java/com/connectbot/matching/service/MatchingService.java:149-165 | each recorded pair joins members of two different department groups |
| MatchingService.CrossDepartmentMatching | connectbot-java-services/matching-service/src/main/java/com/connectbot/matching/service/MatchingService.java:122-179 | empty input gives an empty result; fewer than two active employees return them unmatched; otherwise the pair members are the greedy reference GreedyFrom over the department groups, pairs join different departments, nobody is paired twice, the unmatched list is the unpaired active employees in roster order, and with two or more departments at least one pair is formed; tagged CROSS_DEPARTMENT with derived statistics |
| DataApiClientModel.TrimBaseUrl | connectbot-java-services/matching-service/src/main/java/com/connectbot/matching/client/DataApiClient.java:48 | one trailing slash is removed, and only when present |
| DataApiClientModel.NormalizeToken | connectbot-java-services/matching-service/src/main/java/com/connectbot/matching/client/DataApiClient.java:60 | the normalised token holds no BOM, carriage return or newline, starts and ends with no Java-trimmed character, is no longer than its input and uses only its input's characters |
| DataApiClientModel.NormalizeTokenIdempotent | connectbot-java-services/matching-service/src/main/java/com/connectbot/matching/client/DataApiClient.java:60 | normalising an already normalised token changes nothing |
| DataApiClientModel.ResolveToken | connectbot-java-services/matching-service/src/main/java/com/connectbot/matching/client/DataApiClient.java:51-68 | a non-empty configured token is kept; an empty or missing one is replaced by the normalised file contents when the file exists, and kept otherwise |
| DataApiClientModel.MaskToken | connectbot-java-services/matching-service/src/main/java/com/connectbot/matching/client/DataApiClient.java:137-143 | a missing or empty token masks as "<empty>"; up to eight characters are shown with their length; a longer token shows its first eight characters and "..." |
| DataApiClientModel.MaskHidesTail | connectbot-java-services/matching-service/src/main/java/com/connectbot/matching/client/DataApiClient.java:137-143 | two long tokens with the same first eight characters have the same mask |
| DataApiClientModel.DataApiClient.constructor | connectbot-java-services/matching-service/src/main/java/com/connectbot/matching/client/DataApiClient.java:40-72 | the base URL is trimmed, the token resolved, and the retry settings stored |
| DataApiClientModel.DataApiClient.Backoff | connectbot-java-services/matching-service/src/main/java/com/connectbot/matching/client/DataApiClient.java:127 | the backoff is at least the base when the base is non-negative |
| DataApiClientModel.DataApiClient.BackoffIsShift | connectbot-java-services/matching-service/src/main/java/com/connectbot/matching/client/DataApiClient.java:127 | the backoff after attempt n is the base times 2 to the power n-1 |
| DataApiClientModel.DataApiClient.FetchAuthorization | connectbot-java-services/matching-service/src/main/java/com/connectbot/matching/client/DataApiClient.java:90-95 | an Authorization header is set exactly when a non-empty token is stored, and it is "Service " followed by the normalised token |
| DataApiClientModel.DataApiClient.FetchRequest | connectbot-java-services/matching-service/src/main/java/com/connectbot/matching/client/DataApiClient.java:87-107 | the fetch is a POST to the employees-for-matching path with the JSON body, its length and the authorization header |
| DataApiClientModel.DataApiClient.Run | connectbot-java-services/matching-service/src/main/java/com/connectbot/matching/client/DataApiClient.java:109-134 | a run makes at least one exchange and sleeps once between consecutive exchanges (once more when interrupted); a success was never interrupted |
| DataApiClientModel.DataApiClient.Fetch | connectbot-java-services/matching-service/src/main/java/com/connectbot/matching/client/DataApiClient.java:96-134 | a body that cannot be serialised fails with "Failed to serialize request body" before any exchange; otherwise the retry loop runs from attempt 1 |
| DataApiClientModel.DataApiClient.GetEmployeesForMatching | connectbot-java-services/matching-service/src/main/java/com/connectbot/matching/client/DataApiClient.java:86-135 | the loop's result, exchange count, sleeps and interrupt flag are those of the specification run, and every exchange sends the same request |
| DataApiClientModel.DataApiClient.Attempt | connectbot-java-services/matching-service/src/main/java/com/connectbot/matching/client/DataApiClient.java:111-133 | one loop iteration either ends the run as the specification says or is a transport error below the attempt limit followed by its backoff |
| DataApiClientModel.DataApiClient.RunRetries | connectbot-java-services/matching-service/src/main/java/com/connectbot/matching/client/DataApiClient.java:120-133 | a transport error below the attempt limit, without interrupt, sleeps the backoff and continues with the next attempt |
| DataApiClientModel.DataApiClient.RetriesThenSuccess | connectbot-java-services/matching-service/src/main/java/com/connectbot/matching/client/DataApiClient.java:111-133 | transport errors followed by a 2xx response within the limit return its body after exactly the backoffs of the failed attempts |
| DataApiClientModel.DataApiClient.ExhaustsRetries | connectbot-java-services/matching-service/src/main/java/com/connectbot/matching/client/DataApiClient.java:120-125 | transport errors on every attempt end, after maxAttempts exchanges (at least one), in "Failed to call Data API after retries: " plus the last error's message |
| DataApiClientModel.DataApiClient.Non2xxIsNotRetried | connectbot-java-services/matching-service/src/main/java/com/connectbot/matching/client/DataApiClient.java:115-118 | a non-2xx ResponseEntity that the template returns (1xx/3xx under the default error handler) ends the fetch at once with a DataApiException carrying its status, without further attempts |
| DataApiClientModel.DataApiClient.HealthRequest | connectbot-java-services/matching-service/src/main/java/com/connectbot/matching/client/DataApiClient.java:146-151 | the probe is a GET to the health path carrying the stored token unnormalised, and no body |
| DataApiClientModel.DataApiClient.HealthCheck | connectbot-java-services/matching-service/src/main/java/com/connectbot/matching/client/DataApiClient.java:145-159 | healthy exactly when the probe's response is 2xx; transport errors give false rather than an exception |
| FallbackMatching.Lookup | activities/services/java_matching_service.py:179 | a known id resolves to the participant with that id, the last one when several share it (the id-keyed dictionary) |
| FallbackMatching.KnownPairs | activities/services/java_matching_service.py:181-185 | the kept entries are exactly those of the answer whose two ids are known participants, in their order |
| FallbackMatching.Resolve | activities/services/java_matching_service.py:185-189 | each kept entry becomes the pair of the participants its two ids name |
| FallbackMatching.ParseMatchingResult | activities/services/java_matching_service.py:176-191 | the loop's pairs are the known entries of the answer resolved to participants, in order |
| FallbackMatching.PartnerIndex | activities/services/java_matching_service.py:208-219 | the partner is the first later participant from a different department, or the next one when all share the first's department |
| FallbackMatching.PartnerFrom | activities/services/java_matching_service.py:212-215 | the scan from position k finds the first different-department participant at or after k, or falls back to position 1 |
| FallbackMatching.RemoveFirst | activities/services/java_matching_service.py:223-224 | removing a present id drops exactly one element |
| FallbackMatching.Step | activities/services/java_matching_service.py:221-224 | one round removes the head and its partner, leaving two fewer participants |
| FallbackMatching.FindPartner | activities/services/java_matching_service.py:211-219 | the inner loop finds the partner the specification names |
| FallbackMatching.FallbackPairing | activities/services/java_matching_service.py:193-228 | the loop over a copy of the list produces the specified pairs and leaves the input unchanged |
| FallbackMatching.StepUnfolds | activities/services/java_matching_service.py:207-224 | each round pairs the head with its partner and continues on what remains |
| FallbackMatching.FallbackPairCount | activities/services/java_matching_service.py:207-228 | n participants give n/2 pairs (rounded down) |
| FallbackMatching.RemoveFirstDistinct | activities/services/java_matching_service.py:223-224 | removing from a list of distinct ids keeps the ids distinct and drops the removed id |
| FallbackMatching.StepDistinct | activities/services/java_matching_service.py:221-224 | after a round neither paired participant remains |
| FallbackMatching.FallbackNoRepeats | activities/services/java_matching_service.py:204-228 | with distinct ids no participant appears in two pairs, and every paired one came from the input |
| FallbackMatching.TournamentRounds | activities/services/java_matching_service.py:108 | at most eight participants play three rounds, more play five |
| FallbackMatching.FallbackTournament | activities/services/java_matching_service.py:230-242 | the bracket is tagged fallback_swiss and has n/2 matches; match m pairs positions 2m and 2m+1 in round 1 with number m+1 |
| FallbackMatching.ConcatAppend | activities/services/java_matching_service.py:249-256 | appending a team appends its ids to the concatenation |
| FallbackMatching.Ids | activities/services/java_matching_service.py:250 | the ids of the participants, in order |
| FallbackMatching.FallbackTeams | activities/services/java_matching_service.py:244-258 | the teams' members concatenated are the participant ids in order; no team is empty; every team but the last has exactly team_size members and none has more |
| MatchingClient.Retry | bots/services/matching_service_client.py:229-253 | a run makes at most max_retries attempts and at most as many calls; an unsupported verb calls nothing and answers None |
| MatchingClient.RequestWithRetry | bots/services/matching_service_client.py:229-253 | the loop's response, attempt count, call count and sleeps are those of the specification run |
| MatchingClient.FirstResponseWins | bots/services/matching_service_client.py:235-243 | the first attempt that obtains a response returns it, whatever its status, after the earlier failed attempts |
| MatchingClient.GivesUp | bots/services/matching_service_client.py:244-249 | when every attempt fails the run answers None after exactly max_retries attempts, none when max_retries is not positive |
| MatchingClient.SleepBounds | bots/services/matching_service_client.py:251-253 | every sleep after failed attempt a lies between factor times 2 to the power a-1 and 1.1 times that |
| MatchingClient.SleepForBounds | bots/services/matching_service_client.py:251-253 | one sleep with jitter drawn in [0, 1) lies within the bounds |
| MatchingClient.PositionLevel | bots/services/matching_service_client.py:196-219 | a missing or empty position is UNKNOWN; one containing senior, lead or principal (any case) is SENIOR; else junior or intern gives JUNIOR; else MID |
| MatchingClient.PositionLevelIgnoresCase | bots/services/matching_service_client.py:200 | the level does not depend on the case of the position |
| MatchingClient.ExcludedPartners | bots/services/matching_service_client.py:186-194 | the excluded partners are exactly the other-side ids of the employee's pair rows, and never the employee's own id |
| MatchingClient.SidesOf | bots/services/matching_service_client.py:190-193 | one row contributes its present sides other than the employee |
| MatchingClient.ExcludedPartnersStep | bots/services/matching_service_client.py:189-193 | one more row adds exactly its other sides to the partners |
| MatchingClient.Dto | bots/services/matching_service_client.py:216-224 | the DTO carries the id, the department id, the position level, the excluded partners and a with_newcomers flag that is true only for a profile flag set to true |
| MatchingClient.PrepareRequestData | bots/services/matching_service_client.py:180-227 | one DTO per employee, in order |
| MatchingClient.SanitizeRequestForLogging | bots/services/matching_service_client.py:255-269 | per employee and in order only the id, department, position level and the count of excluded partners are kept |
| MatchingClient.HealthVerdict | bots/services/matching_service_client.py:86-105 | the probe answers true exactly for a JSON object with a status that `raise_for_status` accepts (below 400 or from 600 on) whose status is "OK"; no response, an error status or a non-JSON body count as a failure |
| MatchingClient.MatchingReply | bots/services/matching_service_client.py:141-171 | the reply is the "pairs" entry of a JSON object answer with a non-error status, and None otherwise |
| MatchingClient.AfterHealth | bots/services/matching_service_client.py:78-104 | a probe counts one health check, and one failure exactly when it fails without an exception leaving it |
| MatchingClient.AfterMatching | bots/services/matching_service_client.py:127-158 | a matching call counts one request, a failure when no response came, and the latency when an object answer arrived |
| MatchingClient.ReplyCountsSuccess | bots/services/matching_service_client.py:156-158 | a truthy pairs reply counts one success and no failure |
| MatchingClient.MatchingServiceClient.constructor | bots/services/matching_service_client.py:27-42 | a client for a configured URL starts with all metrics at zero |
| MatchingClient.Open | bots/services/matching_service_client.py:28-30 | construction fails exactly when the configured URL is empty |
| MatchingClient.MatchingServiceClient.GetMetrics | bots/services/matching_service_client.py:271-274 | the metrics are returned as a value, so later updates do not reach the copy |
| MatchingClient.MatchingServiceClient.CheckHealth | bots/services/matching_service_client.py:71-105 | the probe's answer and the metric updates follow the specification run; a counted failure answers false |
| MatchingClient.MatchingServiceClient.RunSecretCoffeeMatching | bots/services/matching_service_client.py:107-178 | nothing is posted unless the probe answers true; then one DTO per employee is posted with retries and the reply's pairs returned, with the metrics updated |
| MatchingClient.MatchingServiceClient.PostMatching | bots/services/matching_service_client.py:122-171 | the post, its metrics and its reply once the service is healthy |
| EmployeeModels.NormalizeUsername | employees/models.py:102-107 | None or "" gives ""; the result holds no '_', '-' or '.', no upper-case ASCII letter, and is never longer than the input |
| EmployeeModels.NormalizeIsNotIdempotent | employees/models.py:107 | normalising is not idempotent: "_@x" gives "@x", which gives "x" |
| EmployeeModels.NormalizeStable | employees/models.py:107 | a normalised name that does not start with '@' and has no surrounding white space normalises to itself |
| EmployeeModels.SaveNormalized | employees/models.py:96-99 | save recomputes the normalised name from a non-empty username, leaves the record alone otherwise, and then the record is consistent |
| EmployeeModels.Written | employees/models.py:100 | a full save writes the whole record; a save with update_fields writes only the listed columns |
| EmployeeModels.FullSaveIsConsistent | employees/models.py:96-100 | after a full save the stored row is consistent |
| EmployeeModels.FillFromTelegram | employees/models.py:184-195 | only empty fields are filled, never overwritten; the username changes exactly when it was empty and the user has one; the id changes exactly when it was empty, the user has one and no other employee holds it |
| EmployeeModels.UpdateLeavesNormalizedNameUnsaved | employees/models.py:186-198 | as written, filling a username saves it without the normalised name save() computed, leaving the stored row inconsistent |
| EmployeeModels.UpdateConsistentExactly | employees/models.py:186-198 | for every consistent stored row, the row the update saves is consistent exactly when the username was already stored, the user has no username, or the stored normalised name already equals the new one's normalisation |
| EmployeeModels.UpdateOutcome | employees/models.py:186-198 | the as-written update keeps the stored normalised name, writes a newly filled username, and leaves a consistent row consistent exactly under the condition UpdateConsistentExactly states |
| EmployeeModels.FixedUpdateKeepsRowConsistent | employees/models.py:186-198 | saving the normalised name too keeps a consistent row consistent |
| EmployeeModels.Employee.Load | employees/models.py:96-100 | a loaded record agrees with its stored row |
| EmployeeModels.Employee.Save | employees/models.py:96-100 | the record is normalised and then written, in full or only the listed columns |
| EmployeeModels.Employee.UpdateTelegramData | employees/models.py:180-201 | true exactly when some empty field was filled; the record is then filled and only the Telegram id and username columns are saved, so the stored normalised name is unchanged; otherwise nothing changes; a consistent loaded row stays consistent exactly when the username was already stored, no username is given, or the stored normalised name already matches it |
| EmployeeModels.ConfirmedCount | employees/models.py:354-356 | the number of confirmed participants is at most the number of participants, and 0 exactly when none is confirmed |
| EmployeeModels.ConfirmedCountAppend | employees/models.py:354-356 | one more participant adds one confirmed exactly when it is confirmed |
| EmployeeModels.IsFullyBooked | employees/models.py:358-360 | fully booked exactly when the confirmed count reaches max_participants |
| EmployeeModels.CanJoin | employees/models.py:362-365 | joinable exactly when the status is scheduled or active and the activity is not fully booked |
| EmployeeModels.ConfirmationTakesOneSeat | employees/models.py:354-360 | one more confirmation fills the activity exactly when the count plus one reaches the maximum |
| EmployeeModels.FullStaysFull | employees/models.py:358-365 | a fully booked activity stays fully booked whoever joins, and nobody can join it |
| EmployeeUtils.Reconciled | employees/utils.py:127-147 | after reconciling, every requested catalogue code has an active link, every unrequested catalogue code that had a link keeps it inactive, links of other employees or outside the catalogue are unchanged, and no link is created for an unrequested code |
| EmployeeUtils.ReconciledStep | employees/utils.py:127-147 | reconciling one more catalogue code is reconciling the prefix and then applying that code's step |
| EmployeeUtils.ReconcileIdempotent | employees/utils.py:113-149 | updating the interests twice with the same codes gives the same links as once |
| EmployeeUtils.InterestLinks.constructor | employees/utils.py:119-124 | the link table starts as given |
| EmployeeUtils.InterestLinks.UpdateEmployeeInterests | employees/utils.py:113-153 | the answer is True exactly when no save fails; then the links are the reconciled links; a failure leaves the effect of the catalogue codes handled before it |
| EmployeeUtils.InterestLinks.DisableAllInterests | employees/utils.py:157-164 | True exactly when the update succeeds; then every link of the employee is inactive and every other link and the set of links are unchanged; on failure nothing changes |
| EmployeeUtils.ColumnsOutsideFields | employees/utils.py:34-37 | the authorisation saves write the authorised flag on first use only, and never a Telegram column or the normalised name |
| EmployeeUtils.AuthorizeEmployee | employees/utils.py:17-42 | no employee gives (None, False); a database error at the lookup, in the Telegram update or in the authorisation save also gives (None, False), keeping what was saved before it (nothing, nothing, and the Telegram columns respectively); otherwise the employee's Telegram data is updated as update_telegram_data saves it, leaving the stored normalised name as it was; the employee ends authorised, the flag is True exactly when they were not authorised before, a first authorisation is saved, and a consistent row stays consistent exactly under the condition UpdateConsistentExactly states |
| ContextService.TimeOfDayAt | bots/services/context_service.py:124-139 | morning exactly for hours 5-11, afternoon for 12-16, evening for 17-21, night for every other hour |
| ContextService.DayContextOf | bots/services/context_service.py:142-153 | week start exactly on Monday, week end exactly on Friday, weekend from Saturday on, a plain weekday otherwise |
| ContextService.AnalyzeTimeContext | bots/services/context_service.py:121-163 | the time context carries the part of the day and the day context of the clock reading, the label and tips that belong to them, and the hour and weekday themselves |
| ContextService.HoursPartitioned | bots/services/context_service.py:124-139 | every hour falls in exactly one of the four parts of the day |
| ContextService.ActivityLevelOf | bots/services/context_service.py:87-98 | high exactly from 10 recent activities, medium for 5-9, low for 1-4, new below 1 |
| ContextService.ExperienceLevel | bots/services/context_service.py:166-177 | expert exactly from 20 activities, advanced for 10-19, intermediate for 5-9, beginner for 1-4, new below 1 |
| ContextService.ExperienceMonotone | bots/services/context_service.py:166-177 | more activities never lower the experience level |
| ContextService.ExperienceThresholds | bots/services/context_service.py:168-176 | the levels change exactly at 1, 5, 10 and 20 activities |
| ContextService.AnalyzeActivityProfile | bots/services/context_service.py:64-118 | the profile holds the three counts, the activity level of the recent count with its label and the experience level of the total; a failing query gives the zero profile with experience "beginner" |
| ContextService.FallbackProfileIsNotTheEmptyProfile | bots/services/context_service.py:109-118 | the fallback profile has the counts and level of a user with no activities but experience "beginner" where such a user has "new" |
| ContextService.PriorityLevel | bots/services/context_service.py:180-193 | urgent exactly when there are urgent actions; otherwise high from a total of 5, medium for 3-4, low for 1-2, none below 1 |
| ContextService.UrgentOverridesTotal | bots/services/context_service.py:184-185 | any two counts with urgent actions get the same priority whatever their totals |
| ContextService.ActionRules | bots/services/context_service.py:202-224 | each of the seven quick-action rules applies exactly under its own condition |
| ContextService.Fired | bots/services/context_service.py:199-224 | the applying rules' positions, strictly increasing, and exactly the rules that apply |
| ContextService.QuickActionRules | bots/services/context_service.py:196-227 | at most four rules are offered, in rule order, all applying; an applying rule is left out only when four earlier rules fill the list |
| ContextService.GetQuickActions | bots/services/context_service.py:196-227 | the offered actions are the texts of the offered rules, at most four |
| ContextService.UrgentActionComesFirst | bots/services/context_service.py:202-203 | with urgent actions pending the first quick action is confirming them |
| ContextService.WeekActionsExclusive | bots/services/context_service.py:215-219 | the week-start and week-end actions are never offered together |
| ContextService.LevelTip | bots/services/context_service.py:247-252 | at most one tip, and none exactly for medium activity |
| ContextService.WeekdayTip | bots/services/context_service.py:255-258 | at most one tip, and one exactly on Monday or Friday |
| ContextService.GetSmartTips | bots/services/context_service.py:230-260 | the urgent reminder first when there are urgent actions, the all-done tip when the total is zero, then the time and day tips, then the level tip and the weekday tip |
| ContextService.TimeAndDayTipsAlwaysGiven | bots/services/context_service.py:243-244 | the time tip and the day tip are always among the tips |
| ContextService.DefaultContext | bots/services/context_service.py:263-294 | the default context: midday on a Monday, the fallback profile, no urgent or pending work and no alert, the two introductory actions and tips, no priority |
| ContextService.OnlyNewcomerAction | bots/services/context_service.py:196-227 | with nothing pending, outside the morning and in mid-week, a user with no activities is offered exactly one action, the newcomer's |
| ContextService.GetUserContext | bots/services/context_service.py:19-61 | an unknown user gets the default context; a known one gets the time context, profile, notification summary, tips and priority of the readings, and quick actions built from a second profile reading, as `_get_quick_actions` reads the profile again |
| ContextService.ExpertCanBeOfferedNewcomerAction | bots/services/context_service.py:220-223 | the two profile readings can disagree: a context whose profile is "expert" can still offer the newcomer's action |
| ContextService.PriorityAgreesWithSummary | bots/services/context_service.py:53 | a known user's priority is urgent exactly when the notification summary flags urgent work |
| ContextService.GetAdaptiveMenuSuggestions | bots/services/context_service.py:327-351 | the calendar is highlighted exactly for urgent work, else interests exactly for a new user, else coffee exactly at the week start, else nothing; the actions and tips are the context's |
| ContextService.DefaultContextHighlightsNothing | bots/services/context_service.py:338-343 | the default context highlights no section |
| ContextService.FallbackProfileNeverHighlightsInterests | bots/services/context_service.py:340-341 | a known user whose activities cannot be counted is never sent to the interests section |
| Notifications.MakeCounts | bots/services/notification_service.py:73-80 | the total is meetings plus today's activities plus notifications plus urgent actions, never negative, with this week's activities left out; every count is kept |
| Notifications.DefaultCounts | bots/services/notification_service.py:137-147 | every default count and the total are zero |
| Notifications.DefaultIsEmpty | bots/services/notification_service.py:137-147 | the default counts are the counts of no activity at all |
| Notifications.GetNotificationSummary | bots/services/notification_service.py:165-188 | urgent exactly when there are urgent actions, pending exactly when the total is positive; the alert is urgent, else meetings, else activities, else notifications, each exactly when its count is the first positive one, and none when no count is |
| Notifications.AlertIffPending | bots/services/notification_service.py:171-186 | for counts built from query results there is an alert exactly when work is pending |
| Notifications.CategoryLines | bots/services/notification_service.py:298-308 | at most four category lines, in the fixed order urgent, meetings, activities, notifications with none twice, each starting with its category's emoji, and a line is present exactly when its count is positive |
| Notifications.LineIf | bots/services/notification_service.py:298-308 | one line exactly when the condition holds, none otherwise |
| Notifications.CategoryLineIffPositive | bots/services/notification_service.py:298-308 | each category's line appears exactly when its count is positive |
| Notifications.DailySummaryParts | bots/services/notification_service.py:291-313 | a zero total gives only the no-pending message; otherwise the header, the category lines, the total line and the footer, in that order |
| Notifications.DailySummaryListsPositiveCategories | bots/services/notification_service.py:296-313 | with work pending the summary lists each category exactly when its count is positive |
| Notifications.FormatDailySummary | bots/services/notification_service.py:293-294 | a zero total gives the fixed no-pending message |
| AnonymousCoffee.DetermineMeetingFormat | activities/services/anonymous_coffee_service.py:335-342 | offline exactly when both sides prefer offline; online whenever either side prefers online, and for every other mix |
| AnonymousCoffee.FormatSymmetric | activities/services/anonymous_coffee_service.py:335-342 | the format does not depend on which participant is first |
| AnonymousCoffee.Partner | activities/services/anonymous_coffee_service.py:198 | the partner of the first employee is the second, of anyone else the first |
| AnonymousCoffee.PartnerIsTheOther | activities/services/anonymous_coffee_service.py:224 | for a participant of a meeting between two different employees the partner is the other participant, and the partner's partner is the caller |
| AnonymousCoffee.HandleMeetingScheduling | activities/services/anonymous_coffee_service.py:186-209 | an unknown meeting id and a non-participant are refused with their messages; a participant gets the meeting, the partner, their own code and the sign |
| AnonymousCoffee.SchedulingNamesTheOther | activities/services/anonymous_coffee_service.py:194-199 | an accepted scheduling names a partner who is the other participant, never the caller |
| AnonymousCoffee.CountProposals | activities/services/anonymous_coffee_service.py:246-249 | the count of a proposer's proposals on a meeting never exceeds the number of proposals |
| AnonymousCoffee.HandleMeetingProposal | activities/services/anonymous_coffee_service.py:242-280 | a proposal is accepted exactly when the proposer has fewer than 3 on the meeting; then it is recorded as pending in the meeting's format and the partner is notified; otherwise nothing is recorded and the limit message is given |
| AnonymousCoffee.ProposalCounts | activities/services/anonymous_coffee_service.py:255-262 | an accepted proposal raises its sender's count on that meeting by one |
| AnonymousCoffee.ThreeProposalsThenRefused | activities/services/anonymous_coffee_service.py:245-252 | starting without proposals, three are accepted and the fourth is refused without change |
| AnonymousCoffee.IdChar | activities/services/anonymous_coffee_service.py:315 | each of the 36 choices is a capital letter or a digit |
| AnonymousCoffee.GenerateMeetingId | activities/services/anonymous_coffee_service.py:313-315 | the id is "SC_" followed by 8 capital letters or digits |
| AnonymousCoffee.MeetingIdDeterminesDraws | activities/services/anonymous_coffee_service.py:313-315 | different draws give different ids |
| AnonymousCoffee.GenerateEmployeeCode | activities/services/anonymous_coffee_service.py:317-321 | the code is the adjective, an underscore and the noun |
| AnonymousCoffee.WordsHaveNoUnderscore | activities/services/anonymous_coffee_service.py:319-320 | no adjective or noun holds an underscore |
| AnonymousCoffee.EmployeeCodeDeterminesWords | activities/services/anonymous_coffee_service.py:317-321 | the code determines its adjective and noun |
| AnonymousCoffee.GenerateRecognitionSign | activities/services/anonymous_coffee_service.py:323-333 | the sign is one of the six fixed signs |
| AnonymousCoffee.FormatOf | activities/services/anonymous_coffee_service.py:99-111 | a participant's own preferred format, or "BOTH" for one given default preferences |
| AnonymousCoffee.CreateMeeting | activities/services/anonymous_coffee_service.py:115-151 | the meeting joins the two employees in order, in the format their preferences decide, in the scheduling state, with an "SC_" id and a sign from the list |
| AnonymousCoffee.ParticipantFor | activities/services/anonymous_coffee_service.py:55 | the participant entry with that employee id, present exactly when some entry has it |
| AnonymousCoffee.RunWeeklyMatching | activities/services/anonymous_coffee_service.py:28-79 | fewer than two participants always fail; the run succeeds exactly with a session, two or more participants and a non-empty list of pairs all naming participants; it then makes one meeting per pair in order, each the scheduling meeting of the pair's two participants with that pair's draw, and marks the session active; a failure creates nothing and leaves the session status |
| TempData.CacheKey | employees/redis_temp_data.py:21-24 | the key is "temp:", the namespace, ":" and the key, in that order |
| TempData.CacheKeyInjective | employees/redis_temp_data.py:22-24 | for namespaces without a colon, different namespace and key pairs never share a cache key |
| TempData.EffectiveTimeout | employees/redis_temp_data.py:44 | a missing or zero timeout becomes the 30-minute default; any other timeout is kept |
| TempData.Encode | employees/redis_temp_data.py:47-68 | a serialising store wraps the data in an envelope with its namespace, marked serialised exactly for lists and dicts; otherwise the value is stored as is |
| TempData.Decode | employees/redis_temp_data.py:99-117 | an envelope reads back as its data; a value stored as is that is not text reads as the default; text that is not JSON reads as itself; JSON text reads as the parsed value, except a dict holding "data", which reads as that data when "serialized" is truthy or missing; otherwise the data is unpickled from hex: its value when that succeeds, the cached text itself on a ValueError, and the default on any other exception or a "data" that is not text |
| TempData.StoreSpec | employees/redis_temp_data.py:42-72 | after a store the key holds the encoded data with the effective timeout, and every other key is unchanged |
| TempData.LookupSpec | employees/redis_temp_data.py:91-97 | a missing key reads as the default; a present one reads as its decoded entry |
| TempData.StoreThenGet | employees/redis_temp_data.py:47-56 | a serialising store followed by a read of the same key and namespace gives back the stored data |
| TempData.StoreKeepsOtherReads | employees/redis_temp_data.py:70 | a store never changes what another key reads |
| TempData.RawDictReadsAsDefault | employees/redis_temp_data.py:67-68 | a dict stored without serialising reads back as the default, not as the dict |
| TempData.TempDataManager.constructor | employees/redis_temp_data.py:15-19 | the manager starts over the given cache |
| TempData.TempDataManager.StoreTempData | employees/redis_temp_data.py:26-76 | True exactly when the cache does not fail; then the cache is the store's result, otherwise unchanged |
| TempData.TempDataManager.GetTempData | employees/redis_temp_data.py:78-117 | the answer is the read of the key, the default on a miss |
| TempData.TempDataManager.DeleteTempData | employees/redis_temp_data.py:119-139 | True exactly when the cache does not fail; then the key is gone, exists answers False, and every other key is unchanged |
| TempData.TempDataManager.ExistsTempData | employees/redis_temp_data.py:141-159 | True exactly when the key holds a value other than None |
| TempData.TempDataManager.UpdateTempDataTimeout | employees/redis_temp_data.py:161-183 | a key that reads as None answers False and stores nothing; otherwise its data is stored again with the new timeout, True exactly when the store succeeds |
| TempData.UserNamespace | employees/redis_temp_data.py:191 | the user namespace holds no colon |
| TempData.FormKey | employees/redis_temp_data.py:221 | the form key is "form_data_" followed by the step |
| TempData.UserKeysDisjoint | employees/redis_temp_data.py:186-191 | two different users never share a cache key, whatever keys they use |
| TempData.UserTempDataManager.constructor | employees/redis_temp_data.py:189-191 | the namespace is "user_" and the user id |
| TempData.UserTempDataManager.Store | employees/redis_temp_data.py:193-195 | a serialising store in the user's namespace |
| TempData.UserTempDataManager.Get | employees/redis_temp_data.py:197-199 | a read in the user's namespace |
| TempData.UserTempDataManager.Delete | employees/redis_temp_data.py:201-203 | a delete in the user's namespace, other keys unchanged |
| TempData.UserTempDataManager.Exists | employees/redis_temp_data.py:205-207 | the existence of the key in the user's namespace |
| TempData.UserTempDataManager.StoreFormData | employees/redis_temp_data.py:209-222 | the form step is stored under its form key, for an hour unless told otherwise |
| TempData.UserTempDataManager.GetFormData | employees/redis_temp_data.py:224-227 | the read of the step's form key, None on a miss |
| TempData.UserTempDataManager.StoreConversationState | employees/redis_temp_data.py:240-251 | the state is stored under "conversation_state", for two hours unless told otherwise |
| TempData.UserTempDataManager.GetConversationState | employees/redis_temp_data.py:253-255 | the read of "conversation_state", None on a miss |
| TempData.UserTempDataManager.ClearConversationState | employees/redis_temp_data.py:257-259 | "conversation_state" is deleted and nothing else |
| TempData.FormDataRoundTrip | employees/redis_temp_data.py:209-227 | a form step stored for a user is what that user reads back for the step |
| MenuCacheModel.MenuKey | employees/redis_menu_cache.py:19-22 | the key is "menu:user:", the user id, ":" and the menu type |
| MenuCacheModel.MenuKeyInjective | employees/redis_menu_cache.py:20-22 | different users, or different menu types of one user, never share a key |
| MenuCacheModel.MenuEnvelope | employees/redis_menu_cache.py:71-76 | the envelope has exactly the keys data, user_id, menu_type and cached_at, holding the menu, the user, the type and the timestamp |
| MenuCacheModel.EffectiveTimeout | employees/redis_menu_cache.py:68 | a missing or zero timeout becomes the 30-minute default; any other is kept |
| MenuCacheModel.SetSpec | employees/redis_menu_cache.py:66-80 | after a store the menu's key holds its envelope with the effective timeout, and every other key is unchanged |
| MenuCacheModel.GetSpec | employees/redis_menu_cache.py:36-45 | a miss reads as None; a hit reads as the whole cached envelope |
| MenuCacheModel.SetThenGet | employees/redis_menu_cache.py:37-45 | a stored menu reads back as its envelope |
| MenuCacheModel.UserMenuKeys | employees/redis_menu_cache.py:120 | the keys of the main, preferences, activities and admin menus of the user, and no others |
| MenuCacheModel.ClearKeepsOtherUsers | employees/redis_menu_cache.py:120-122 | clearing one user's menus never touches another user's menu |
| MenuCacheModel.MainMenu | employees/redis_menu_cache.py:195-214 | the built menu is truthy and carries the role; it has the three base options, followed by the two administrator options exactly for the admin and super_admin roles |
| MenuCacheModel.MenuCache.constructor | employees/redis_menu_cache.py:13-17 | the menu cache starts over the given cache |
| MenuCacheModel.MenuCache.GetUserMenu | employees/redis_menu_cache.py:24-49 | the answer is the read of the menu's key |
| MenuCacheModel.MenuCache.SetUserMenu | employees/redis_menu_cache.py:51-84 | True exactly when the cache does not fail; then the envelope is stored, otherwise nothing changes |
| MenuCacheModel.MenuCache.DeleteUserMenu | employees/redis_menu_cache.py:86-106 | True exactly when the cache does not fail; then exactly the menu's key is removed |
| MenuCacheModel.MenuCache.ClearUserAllMenus | employees/redis_menu_cache.py:108-129 | always True; exactly the user's four menu keys whose deletes succeed are removed, and no key outside them changes |
| MenuCacheModel.MenuCache.RefreshUserMenu | employees/redis_menu_cache.py:149-171 | True exactly when a truthy menu envelope is cached; then its data is stored again with the default timeout; otherwise nothing changes |
| MenuCacheModel.RefreshKeepsData | employees/redis_menu_cache.py:162-164 | after a refresh the menu reads back with the data it had |
| MenuCacheModel.BuildSpec | employees/redis_menu_cache.py:189-219 | a cached envelope with truthy data gives that data and changes nothing; a truthy cached value that is not a dict fails with AttributeError and changes nothing; on a miss, a falsy cached value or an envelope with falsy data the menu is built for the role and stored over the old entry unless the store fails |
| MenuCacheModel.BuildTwiceSameMenu | employees/redis_menu_cache.py:216-219 | a menu built on a miss is cached, so the next build gives the same menu whatever role it is asked for |
| MenuCacheModel.MenuBuilder.constructor | employees/redis_menu_cache.py:174-175 | the builder works through the given menu cache |
| MenuCacheModel.MenuBuilder.BuildMainMenu | employees/redis_menu_cache.py:177-219 | the answer and the new cache are those BuildSpec gives |
| RedisUtils.KeySchemeInjective | employees/redis_utils.py:21-39 | employee, interests, participants and session keys never collide across kinds, and within a kind only for the same id |
| RedisUtils.ReadSpec | employees/redis_utils.py:74-79 | a read answers the stored value, None when nothing is stored |
| RedisUtils.InvalidateSpec | employees/redis_utils.py:138-146 | after invalidation the employee's data and interests keys are gone and every other key is unchanged |
| RedisUtils.InvalidateKeepsSessionsAndActivities | employees/redis_utils.py:128-149 | invalidating an employee changes no bot session and no activity's participants |
| RedisUtils.RedisManager.constructor | employees/redis_utils.py:17-24 | the adapter starts over the given cache, reaching Redis or not, with a backend that swallows errors or not |
| RedisUtils.RedisManager.Store | employees/redis_utils.py:54-61 | with the cache up the key holds the value with its timeout and the answer is True; with it down nothing changes and the answer is False, or True when the backend swallows the error |
| RedisUtils.RedisManager.Read | employees/redis_utils.py:74-82 | the stored value when the cache is up, None when it is down or nothing is stored |
| RedisUtils.RedisManager.CacheEmployeeData | employees/redis_utils.py:42-61 | the data is stored under "emp:" and the id, for an hour unless told otherwise; no change when the cache is down, answered False unless the backend swallows the error |
| RedisUtils.RedisManager.GetEmployeeData | employees/redis_utils.py:63-82 | the read of the employee key, None when the cache is down |
| RedisUtils.RedisManager.CacheEmployeeInterests | employees/redis_utils.py:84-104 | the interests are stored under "int:" and the id, for half an hour unless told otherwise; no change when the cache is down, answered False unless the backend swallows the error |
| RedisUtils.RedisManager.GetEmployeeInterests | employees/redis_utils.py:106-125 | the read of the interests key, None when the cache is down |
| RedisUtils.RedisManager.InvalidateEmployeeCache | employees/redis_utils.py:127-149 | with the cache up exactly the employee's data and interests keys are removed; with it down nothing changes and the answer is False unless the backend swallows the error |
| RedisUtils.RedisManager.CacheActivityParticipants | employees/redis_utils.py:165-185 | the participants are stored under "act:", the id and ":participants", for 15 minutes unless told otherwise |
| RedisUtils.RedisManager.GetActivityParticipants | employees/redis_utils.py:187-206 | the read of the participants key, None when the cache is down |
| RedisUtils.RedisManager.StoreBotSession | employees/redis_utils.py:208-228 | the session is stored under "sess:" and the user id, for two hours unless told otherwise |
| RedisUtils.RedisManager.GetBotSession | employees/redis_utils.py:230-249 | the read of the session key, None when the cache is down |
| RedisUtils.RedisManager.ClearBotSession | employees/redis_utils.py:251-269 | with the cache up exactly the session key is removed; with it down nothing changes and the answer is False unless the backend swallows the error |
| RedisUtils.SessionLifecycle | employees/redis_utils.py:208-269 | a stored session reads back as itself, and after clearing it reads as None |
| RedisUtils.DownCacheAnswersNothing | employees/redis_utils.py:58-61 | with the cache down a store changes nothing and answers False, or True when the backend swallows the error; a read answers None |
| CacheUtils.IndexNaming | python_app/services/cache_utils.py:36-37 | every index name starts with "data_api_index:", different prefixes have different index names, and no Data API key is an index name |
| CacheUtils.IndexExpiry | python_app/services/cache_utils.py:53-56 | the index gets an expiry exactly when the ttl is truthy, and then it is twice the ttl but never under 60 seconds |
| CacheUtils.RegisterSpec | python_app/services/cache_utils.py:50-59 | the prefix's index gains the key and keeps its other members, takes the new expiry when there is one, and no other key changes |
| CacheUtils.RegisterKeepsNoIndexMembers | python_app/services/cache_utils.py:52 | registering an ordinary key never puts an index name into an index |
| CacheUtils.DeleteSpec | python_app/services/cache_utils.py:86-105 | every member key and the index are removed and the count is the number of members; a blocked index changes nothing and counts 0; no other key changes |
| CacheUtils.InvalidateSpec | python_app/services/cache_utils.py:108-120 | prefix by prefix in order, removing keys only, never changing a surviving key |
| CacheUtils.SubKeyspaceKeepsNoIndexMembers | python_app/services/cache_utils.py:91-100 | removing keys keeps every surviving index free of index names |
| CacheUtils.InvalidateRemovesRegistered | python_app/services/cache_utils.py:115-120 | no key registered under any of the prefixes survives the invalidation |
| CacheUtils.InvalidateKeepsUnlisted | python_app/services/cache_utils.py:115-120 | a key that no index lists and that is no index survives unchanged |
| CacheUtils.DeleteKeepsOtherIndexes | python_app/services/cache_utils.py:86-102 | deleting one prefix's keys leaves another prefix's index as it was |
| CacheUtils.IndexSizesOfSub | python_app/services/cache_utils.py:86-102 | deleting one prefix's keys leaves the index sizes of the other prefixes as they were |
| CacheUtils.InvalidateTotalIsIndexSizes | python_app/services/cache_utils.py:108-120 | for distinct prefixes the reported total is the sum of the index sizes at the start |
| CacheUtils.RedisConnection.constructor | python_app/services/cache_utils.py:6-9 | the connection starts over the given keyspace, with or without a loaded client |
| CacheUtils.RedisConnection.RegisterDataApiKey | python_app/services/cache_utils.py:40-62 | True exactly with a live connection and an index that is a set or absent; then the keyspace is the registration's result; otherwise nothing changes |
| CacheUtils.RedisConnection.GetRegisteredDataApiKeys | python_app/services/cache_utils.py:65-77 | each registered key of the prefix once, and nothing without a live connection |
| CacheUtils.RedisConnection.DeleteRegisteredDataApiKeys | python_app/services/cache_utils.py:80-105 | with a live connection the keyspace and count are the deletion's; without one nothing changes and the count is 0 |
| CacheUtils.RedisConnection.InvalidateDataApiPrefixes | python_app/services/cache_utils.py:108-120 | the keyspace and the total are those of deleting the prefixes in order, the total summing the per-prefix counts |
| CacheUtils.RedisConnection.InvalidateAllDataApi | python_app/services/cache_utils.py:123-126 | the invalidation of exactly employees_for_matching, previous_matches and employee_interests |
| CacheUtils.RegisterThenInvalidate | python_app/services/cache_utils.py:40-126 | a key registered and then invalidated with its prefix is gone |
| DataApi.AuthOk | python_app/api/data_api.py:35-48 | an empty header or an unset service token is refused; an accepted header splits into a scheme and a token equal to the configured token |
| DataApi.AuthOfSchemeAndToken | python_app/api/data_api.py:39-48 | "<scheme> <token>" is accepted exactly when the scheme is "service" in any letter case, a token is configured and the presented token equals it |
| DataApi.AuthRefusesSingleWord | python_app/api/data_api.py:39-41 | a header of one word, such as a bare token, is refused |
| DataApi.CacheKeyForRequest | python_app/api/data_api.py:51-57 | the key is "data_api:", the endpoint name, ":" and the digest of the prefix and the sorted-key JSON body |
| DataApi.KeyOrderDoesNotMatter | python_app/api/data_api.py:55 | two bodies holding the same pairs in different key orders get the same cache key |
| DataApi.EndpointsSeparateKeys | python_app/api/data_api.py:57 | two different endpoint names without ':' never share a cache key, whatever the bodies and the digests |
| DataApi.ParseBody | python_app/api/data_api.py:96-98 | an empty body reads as {}, a body that is not UTF-8 or not JSON falls back to {}, otherwise the parsed JSON |
| DataApi.DjangoKeyIsItsOwn | config/settings.py:104 | the Redis key of a Django cache entry carries the "connectbot:1:" prefix, so it is neither the bare key nor an index name |
| DataApi.DjangoGet | python_app/api/data_api.py:104 | cache.get answers the stored value, None on a miss, and None when Redis fails because the settings ignore cache exceptions |
| DataApi.DjangoSet | python_app/api/data_api.py:119 | cache.set makes the next get answer the value and changes no other key; when Redis fails it changes nothing |
| DataApi.MissResponse | python_app/api/data_api.py:116-131 | on a miss a service error answers 500 internal_error; a computed value answers 200 with it, unless the count in the log line raises, which also answers 500 |
| DataApi.ServeSpec | python_app/api/data_api.py:67-131 | 401 without the service token and nothing touched; Django's 500 page when the body cannot be summarised for the log; a hit answers the cached value unchanged; a miss answers MissResponse of the service's result |
| DataApi.ListBodyIsUnhandled | python_app/api/data_api.py:100 | an authorised JSON list naming "employees" fails in the log summary, before the endpoint's handler: no lookup, no service call |
| DataApi.HitIgnoresService | python_app/api/data_api.py:104-108 | a cache hit answers the same whatever the service would compute |
| DataApi.ServedMissStores | python_app/api/data_api.py:118-123 | a computed miss stores the value with the endpoint's ttl and then registers the bare cache key, not the prefixed key Django stored it under, in the endpoint's index |
| DataApi.StoredIsRead | python_app/api/data_api.py:119 | what a miss stores is what the next read of its key finds |
| DataApi.MissThenHit | python_app/api/data_api.py:102-126 | a miss answers the computed value and the same request then answers it again from the cache, whatever the service would now compute |
| DataApi.EntrySurvivesInvalidation | python_app/api/data_api.py:119-121 | as written, the index receives the bare key, so a stored response survives invalidating every Data API prefix |
| DataApi.StaleAfterInvalidation | python_app/api/data_api.py:119-121 | after a computed miss, invalidating every Data API prefix leaves the stored response, and the same request is answered with it whatever the service now computes |
| DataApi.EntryGoneAfterInvalidationFixed | python_app/api/data_api.py:119-121 | with the corrected registration of the key Django stores under, invalidating the endpoint's prefix drops the stored response |
| DataApi.FreshAfterInvalidationFixed | python_app/api/data_api.py:119-121 | with the corrected registration, the request after an invalidation is computed afresh from what the service now answers |
| DataApi.CacheFresh | python_app/api/data_api.py:119-123 | the fresh value is stored and then the bare cache key is registered in the endpoint's index, a failed registration changing nothing more |
| DataApi.Serve | python_app/api/data_api.py:67-131 | the response and the new keyspace are those of ServeSpec; the three endpoints differ only in name, default ttl (300, 900, 600 at lines 103, 154, 205) and counted field |
| DataSerializers.IdString | python_app/serializers/data_serializers.py:11 | the id is rendered as its decimal string, and a missing id as "None" |
| DataSerializers.SerializeDepartment | python_app/serializers/data_serializers.py:7-14 | None exactly for a missing department; otherwise exactly the id as a string, the name and the code |
| DataSerializers.SerializeInterest | python_app/serializers/data_serializers.py:17-22 | a three-field dict whose first field is the id as a string |
| DataSerializers.SerializeInterests | python_app/serializers/data_serializers.py:30-45 | no source gives []; a related manager gives one entry per link row, its interest or the row itself; a plain list gives one entry per item |
| DataSerializers.FullName | python_app/serializers/data_serializers.py:49 | a non-empty full name, else the display name (None when that is missing too) |
| DataSerializers.SerializeEmployee | python_app/serializers/data_serializers.py:25-55 | exactly the seven keys id, full_name, department, position, business_center, interests, is_active in that order; the id as a string and is_active as a boolean |
| DataSerializers.EmployeeKeysAreSafe | python_app/serializers/data_serializers.py:1-4 | the rendered employee has distinct keys and none of them is telegram_id, telegram_username, email or phone |
| DataSerializers.SerializeIgnoresPii | python_app/serializers/data_serializers.py:47-55 | the rendering is the same whatever the Telegram id, Telegram username, e-mail and phone are |
| DataSerializers.PyIn | python_app/serializers/data_serializers.py:63 | Python's `in` for a string key: key membership for a dict, element membership for a list, TypeError for None, booleans and integers |
| DataSerializers.PyLen | python_app/serializers/data_serializers.py:64 | len() is defined, and non-negative, exactly for strings, lists and dicts |
| DataSerializers.SanitizeKeepsOnlySummary | python_app/serializers/data_serializers.py:58-67 | a falsy body gives {}; a successful summary is a dict holding nothing but employees_count and since |
| DataSerializers.SanitizeOfDict | python_app/serializers/data_serializers.py:63-66 | for a dict body the summary is the number of listed employees and the `since` value, verbatim |
| DataSerializers.SanitizeRaisesOnScalars | python_app/serializers/data_serializers.py:63 | a truthy boolean or integer body raises, as it supports no `in` |
| DataSerializers.SanitizeRaisesOnListNamingEmployees | python_app/serializers/data_serializers.py:63-64 | a list holding "employees" raises, as a list has no .get |
| ActivityServices.DaysAhead | activities/services.py:17-19 | between one and seven days, landing on a Monday |
| ActivityServices.NextMondayIsTheFirstMondayAfter | activities/services.py:16-20 | next Monday is the first Monday strictly after today, within a week; on a Monday it is a week ahead |
| ActivityServices.CurrentWeekStart | activities/services.py:43-46 | the Monday of the current week: a Monday no later than today and less than a week before it, today itself on a Monday |
| ActivityServices.NextMondayIsNextWeek | activities/services.py:17-20 | next Monday is exactly a week after the start of the current week |
| ActivityServices.GetOrCreate | activities/services.py:24-28 | the session then exists; an existing one is kept as it was, a missing one is created planned |
| ActivityServices.EnsureSessionsSpec | activities/services.py:23-28 | after the weekly creation every activity type has a session for the week, every existing session is unchanged, and every new one is a planned session of a listed type for that week |
| ActivityServices.EnsureSessionsIdempotent | activities/services.py:23-32 | running the weekly creation a second time changes nothing |
| ActivityServices.EnsureSessionsFixes | activities/services.py:24-32 | sessions that already cover every listed type for the week are left alone |
| ActivityServices.SubscribedEmployees | activities/services.py:53-60 | an employee is listed exactly when a subscribed participation of theirs in the session exists; no more entries than participations |
| ActivityServices.OtherParticipantsDoNotCount | activities/services.py:54-57 | a participation in another session, or an unsubscribed one, does not change the list |
| ActivityServices.ConsecutivePairs | activities/services.py:84-91 | half as many pairs as participants, rounded down |
| ActivityServices.PairMembers | activities/services.py:86-90 | two employees per pair |
| ActivityServices.PairsCoverParticipants | activities/services.py:84-91 | reading the pairs back gives the participants in order, all but an odd last one |
| ActivityServices.OddLastIsLeftOut | activities/services.py:84-85 | with an odd number of distinct participants exactly the last one is unpaired |
| ActivityServices.ActivityManager.constructor | activities/services.py:9 | the manager starts over the given sessions and participations, with no pairs |
| ActivityServices.ActivityManager.CreateWeeklySessions | activities/services.py:12-34 | the sessions become the weekly creation for every type of activities/models.py:5-11 and the week of next Monday; nothing else changes; the answer is True |
| ActivityServices.ActivityManager.GetParticipants | activities/services.py:40-64 | the subscribed employees of the session of that type and week, the current week when none is given; [] when no such session exists |
| ActivityServices.ActivityManager.FormPairs | activities/services.py:69-94 | without the session nothing is recorded and the answer is []; with it the consecutive pairs are recorded after the existing ones and answered |

## Left out

- Expiry by time is not modelled. Cache entries and index sets record the timeout they were given; nothing ever expires.
- Randomness is left out, and so are sleeps, clocks, HTTP exchanges, database queries, logging and Prometheus metrics. Each is an input, a recorded value or omitted, as described above.
- JSON floating-point numbers are not modelled. JSON and pickle encoding are taken to restore what they encoded, and SHA-256 is an uninterpreted function of its input.
- Python's `str.lower()` is modelled as ASCII lowering. The keywords it is compared with ("senior", "service", …) are ASCII, but a non-ASCII upper-case letter in a position or a scheme is not folded by the model.
- MatchingService: the roster is a non-null sequence. A null roster throws at MatchingService.java:31, where `employees.size()` is called before the null check at line 34.
- MatchingResultModel.MatchingResult: the success rate is an exact `real`. Java's double rounding is not modelled.
- DataApiClientModel.DataApiClient.GetEmployeesForMatching: the backoff base·2^(attempt−1) is an unbounded integer. Java's `long` shift and multiplication wrap for very large attempt counts, which is not modelled.
- DataApiClientModel.DataApiClient.Non2xxIsNotRetried: the service's RestTemplate (DataApiConfig.java:20-38) keeps Spring's default error handler. There a 4xx or 5xx reply is thrown as a RestClientException, arrives in the model as a TransportError and is retried, so this lemma is about 1xx and 3xx replies only.
- DataApiClientModel.DataApiClient.FetchRequest: the Content-Length is the body's length in code points. Java's `String.length()` counts UTF-16 units, which differ for a body with a character outside the Basic Multilingual Plane.
- DataApiClientModel: DataApiClientTest.java:58 expects a RestClientException once the attempts are exhausted. The code throws DataApiException (DataApiClient.java:124), and the model follows the code.
- JavaEmployee.Employee, JavaEmployeePair.EmployeePair: Java getters are reads of the class's fields, so they have no members of their own.
- FallbackMatching: the asynchronous HTTP orchestration of `match_coffee_pairs`, `match_tournament_bracket` and `generate_teams` is not modelled. Their pure parts are: result parsing, the three fallbacks and the rounds rule.
- MatchingClient: `run_matching_for_active_employees` and `get_default_client` are not modelled. They query the database, then call the client or cache it as a singleton.
- EmployeeUtils: the welcome and unauthorised messages are not modelled; they are message text. `get_employee_interests` and `get_all_interests` are plain database reads.
- ContextService: `get_contextual_welcome` (message text) and `log_user_interaction` (logging only) are not modelled.
- Notifications.MakeCounts: the unread-notification and urgent-action counts are inputs. At notification_service.py:99-136 both helpers are stubs that answer 0.
- Notifications: `clear_notification_cache`, `mark_notification_as_read`, `send_instant_notification`, `get_notification_history` and `schedule_daily_notifications` are not modelled. They are logging, messaging, a fixed stub list or scheduler wiring.
- AnonymousCoffee: the bot's messaging is not modelled: initial notifications, `send_message_via_bot`, the emergency stop and the moderator notice. The partner chosen in those paths is Partner, which is proved to be the other participant.
- TempData: `clear_all_form_data` only logs and answers True. SessionDataManager, ActivityTempDataManager, `store_quick_data` and `get_quick_data` are not modelled separately. They are fixed-namespace calls of the modelled TempDataManager operations.
- TempData: the pickle format is not modelled. What `pickle.loads(bytes.fromhex(text))` does with a text is an input of the read: a value, a ValueError or another exception.
- MenuCacheModel: `get_cached_users` always answers [] and is not modelled. `build_preferences_menu` is not modelled; it follows the same cache-or-build pattern as `build_main_menu` with a fixed option list.
- RedisUtils: `async_invalidate_employee_cache`, `is_redis_available` and EnhancedRedisManager are not modelled. They are an async wrapper, a health probe, and thin wrappers over other cache layers and pub/sub.
- RedisUtils.RedisManager.InvalidateEmployeeCache: reaching Redis is all-or-nothing in the model. A failure between the two deletes, which would remove only the first key, is not modelled.
- TempData.TempDataManager.StoreTempData, MenuCacheModel.MenuCache.SetUserMenu: `fails` stands for a cache call that raises into the code's own handler. The deployed backend swallows Redis errors (IGNORE_EXCEPTIONS at config/settings.py:102). There, an outage makes a store answer True without storing anything, which these two do not model. RedisManager and the Data API model that silent case.
- DataApi.Serve: a TTL variable that is not an integer is not modelled. There `int()` raises at data_api.py:103, outside the endpoint's handler. Only the three endpoints' shared flow is modelled; the health endpoint is not.
- CacheUtils: `_delete_pattern_with_redis` is reached only when the Redis client library is missing, and then it returns 0 at once. That is the not-Live case of RedisConnection.
- ActivityServices.ActivityManager: database exceptions are not modelled. They would make `create_weekly_sessions` answer False and the other two operations answer []. A query's result order is taken as the order in which rows were recorded.

## Findings

| source | as written | input that shows it | evidently intended | confidence | as-written member | corrected member |
|---|---|---|---|---|---|---|
| python_app/api/data_api.py:119-121 | the endpoint stores its response through Django's cache, which writes the Redis key "connectbot:1:" + cache_key (config/settings.py:104). It then registers the bare cache_key in the prefix index, and invalidation deletes only the registered keys (python_app/services/cache_utils.py:89-93) | a served miss for employees_for_matching, then `invalidate_all_data_api()`, then the same request | invalidating a prefix makes the next request compute afresh | not executed | DataApi.StaleAfterInvalidation | DataApi.FreshAfterInvalidationFixed |
| employees/models.py:198 | `update_telegram_data` saves with `update_fields=['telegram_id', 'telegram_username']`. The normalised username that `save` computes is never written | an employee row with no Telegram data, updated from a Telegram user "Ivan_Petrov" with id 42 | the stored normalized_username follows the stored telegram_username | not executed | EmployeeModels.UpdateConsistentExactly | EmployeeModels.FixedUpdateKeepsRowConsistent |

The rest of the model follows the code as written; the corrected behaviour is stated by separate members.

For the first finding:
- DataApi.StoreAndRegister, and through it DataApi.ServeSpec, DataApi.CacheFresh and DataApi.Serve, register the bare cache key as the code does.
- DataApi.EntrySurvivesInvalidation and DataApi.StaleAfterInvalidation show the stored response surviving an invalidation.
- DataApi.StoreAndRegisterFixed registers the Redis key Django actually wrote; DataApi.EntryGoneAfterInvalidationFixed and DataApi.FreshAfterInvalidationFixed are proved about it.

For the second finding:
- EmployeeModels.Employee.UpdateTelegramData and EmployeeUtils.AuthorizeEmployee save only the Telegram id and username, as the code does.
- EmployeeModels.UpdateConsistentExactly says for every row when that leaves it inconsistent; EmployeeModels.UpdateLeavesNormalizedNameUnsaved is the concrete case above.
- EmployeeModels.FixedUpdateKeepsRowConsistent saves the normalised name too and keeps every consistent row consistent.
