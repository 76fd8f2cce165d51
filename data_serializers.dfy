// The Data API's serialisers: departments, interests and employees rendered
// as JSON without personal data (no Telegram id or username, e-mail or
// phone), and the summary of a request body that is safe to log.
//
// A Django model instance is a record whose attributes may be missing
// (`None` here); getattr's default then applies, and str(None) is "None".
module DataSerializers {
  import opened Wrappers
  import opened Text
  import opened Json

  /** A department or business centre: both have an id, a name and a code. */
  datatype Department = Department(id: Option<int>, name: Option<string>, code: Option<string>)

  datatype Interest = Interest(id: Option<int>, name: Option<string>, category: Option<string>)

  /** A row linking an employee to an interest; `interest` is None when the link has no interest attribute. */
  datatype InterestLink = InterestLink(id: Option<int>, interest: Option<Interest>)

  /** Where the interests come from: a related manager of link rows, or a plain list of interests. */
  datatype InterestSource = Manager(links: seq<InterestLink>) | PlainList(items: seq<Interest>)

  datatype Employee = Employee(
    id: Option<int>,
    fullName: Option<string>,
    displayName: Option<string>,
    department: Option<Department>,
    position: Option<string>,
    businessCenter: Option<Department>,
    interests: Option<InterestSource>,
    employeeInterestSet: Option<InterestSource>,
    isActive: Option<bool>,
    telegramId: Option<int>,
    telegramUsername: Option<string>,
    email: Option<string>,
    phone: Option<string>)

  /** str(getattr(obj, 'id', None)). */
  function IdString(id: Option<int>): (r: string)
    ensures id.None? ==> r == "None"
    ensures id.Some? ==> r == IntToString(id.value)
  {
    if id.None? then "None" else IntToString(id.value)
  }

  /** An optional string as JSON: None becomes null. */
  function OptStr(s: Option<string>): (v: Value)
    ensures v.Null? || v.Str?
  {
    if s.None? then Null else Str(s.value)
  }

  /** serialize_department: None for a missing department, else its id (as a string), name and code. */
  function SerializeDepartment(dept: Option<Department>): (v: Value)
    ensures dept.None? <==> v.Null?
    ensures dept.Some? ==> (v.Dict? && DistinctKeys(v.entries)
      && v.entries == [("id", Str(IdString(dept.value.id))), ("name", OptStr(dept.value.name)), ("code", OptStr(dept.value.code))])
  {
    if dept.None? then Null
    else Dict([("id", Str(IdString(dept.value.id))), ("name", OptStr(dept.value.name)), ("code", OptStr(dept.value.code))])
  }

  function SerializeInterest(it: Interest): (v: Value)
    ensures v.Dict? && |v.entries| == 3 && v.entries[0] == ("id", Str(IdString(it.id)))
  {
    Dict([("id", Str(IdString(it.id))), ("name", OptStr(it.name)), ("category", OptStr(it.category))])
  }

  /** A link row serialises its interest, or itself when it has none (then only its id is known). */
  function LinkedInterest(link: InterestLink): Interest
  {
    if link.interest.Some? then link.interest.value else Interest(link.id, None, None)
  }

  /** A source is falsy only when it is an empty plain list; a related manager is always truthy. */
  predicate SourceTruthy(src: InterestSource)
  {
    src.Manager? || src.items != []
  }

  /** `getattr(emp, 'interests', None) or getattr(emp, 'employeeinterest_set', None)`. */
  function InterestSourceOf(emp: Employee): Option<InterestSource>
  {
    if emp.interests.Some? && SourceTruthy(emp.interests.value) then emp.interests else emp.employeeInterestSet
  }

  /** The serialised interests: one per link row of a manager (`.all()`), or one per item of a plain list. */
  function SerializeInterests(src: Option<InterestSource>): (r: seq<Value>)
    ensures src.None? ==> r == []
    ensures src.Some? && src.value.Manager? ==> (|r| == |src.value.links|
      && forall i :: 0 <= i < |r| ==> r[i] == SerializeInterest(LinkedInterest(src.value.links[i])))
    ensures src.Some? && src.value.PlainList? ==> (|r| == |src.value.items|
      && forall i :: 0 <= i < |r| ==> r[i] == SerializeInterest(src.value.items[i]))
  {
    match src
    case None => []
    case Some(Manager(links)) => seq(|links|, i requires 0 <= i < |links| => SerializeInterest(LinkedInterest(links[i])))
    case Some(PlainList(items)) => seq(|items|, i requires 0 <= i < |items| => SerializeInterest(items[i]))
  }

  /** `full_name or display_name`: an empty full name falls back to the display name. */
  function FullName(emp: Employee): (v: Value)
    ensures emp.fullName.Some? && emp.fullName.value != "" ==> v == Str(emp.fullName.value)
    ensures (emp.fullName.None? || emp.fullName.value == "") ==> v == OptStr(emp.displayName)
  {
    if emp.fullName.Some? && emp.fullName.value != "" then Str(emp.fullName.value) else OptStr(emp.displayName)
  }

  /** The keys an employee is rendered with, in order. */
  const EmployeeFields: seq<string> := ["id", "full_name", "department", "position", "business_center", "interests", "is_active"]

  /** The personal-data attributes that must never be rendered. */
  const PiiFields: set<string> := {"telegram_id", "telegram_username", "email", "phone"}

  function SerializeEmployee(emp: Employee): (v: Value)
    ensures v.Dict? && |v.entries| == |EmployeeFields|
    ensures forall i :: 0 <= i < |v.entries| ==> v.entries[i].0 == EmployeeFields[i]
    ensures v.entries[0].1 == Str(IdString(emp.id))
    ensures v.entries[6].1 == Bool(emp.isActive == Some(true))
  {
    Dict([
      ("id", Str(IdString(emp.id))),
      ("full_name", FullName(emp)),
      ("department", SerializeDepartment(emp.department)),
      ("position", OptStr(emp.position)),
      ("business_center", SerializeDepartment(emp.businessCenter)),
      ("interests", List(SerializeInterests(InterestSourceOf(emp)))),
      ("is_active", Bool(emp.isActive == Some(true)))])
  }

  /** The rendered employee has distinct keys, none of them a personal-data field. */
  lemma EmployeeKeysAreSafe(emp: Employee)
    ensures DistinctKeys(SerializeEmployee(emp).entries)
    ensures forall k :: k in Keys(SerializeEmployee(emp).entries) ==> k !in PiiFields
  {
    var e := SerializeEmployee(emp).entries;
    forall k | k in Keys(e) ensures k !in PiiFields {
      var i :| 0 <= i < |e| && e[i].0 == k;
      assert k == EmployeeFields[i];
    }
  }

  /** The rendering does not depend on the personal-data attributes at all. */
  lemma SerializeIgnoresPii(emp: Employee, telegramId: Option<int>, telegramUsername: Option<string>,
                            email: Option<string>, phone: Option<string>)
    ensures SerializeEmployee(emp) ==
      SerializeEmployee(emp.(telegramId := telegramId, telegramUsername := telegramUsername, email := email, phone := phone))
  {
  }

  // ------------------------------------------------------------ logging

  /** Python's `key in v` for a string key: TypeError for None, booleans and integers. */
  function PyIn(key: string, v: Value): (r: Result<bool, string>)
    ensures v.Dict? ==> r == Ok(key in Keys(v.entries))
    ensures v.List? ==> r == Ok(Str(key) in v.items)
    ensures (v.Null? || v.Bool? || v.Int?) ==> r.Err?
  {
    match v
    case Str(s) => Ok(Contains(s, key))
    case List(items) => Ok(Str(key) in items)
    case Dict(entries) => Ok(key in Keys(entries))
    case _ => Err("TypeError")
  }

  /** Python's len(): strings, lists and dicts have one. */
  function PyLen(v: Value): (r: Result<int, string>)
    ensures r.Ok? <==> (v.Str? || v.List? || v.Dict?)
    ensures r.Ok? ==> r.value >= 0
  {
    match v
    case Str(s) => Ok(|s|)
    case List(items) => Ok(|items|)
    case Dict(entries) => Ok(|entries|)
    case _ => Err("TypeError")
  }

  /**
   * sanitize_request_for_logging: {} for a falsy body, else the number of
   * employees and the `since` value when the body has them.  A body that is
   * not a dict but "contains" either key has no .get and raises, as does a
   * body that supports no `in` at all, or a truthy employees value without len().
   */
  function SanitizeForLogging(body: Value): (r: Result<Value, string>)
  {
    if !Truthy(body) then Ok(Dict([]))
    else
      match PyIn("employees", body)
      case Err(e) => Err(e)
      case Ok(hasEmployees) =>
        if hasEmployees && !body.Dict? then Err("AttributeError")
        else
          var counted: Result<seq<(string, Value)>, string> :=
            if !hasEmployees then Ok([])
            else
              var employees := Get(body, "employees", Null);
              var n := if Truthy(employees) then PyLen(employees) else Ok(0);
              if n.Err? then Err(n.error) else Ok([("employees_count", Int(n.value))]);
          if counted.Err? then Err(counted.error)
          else
            match PyIn("since", body)
            case Err(e) => Err(e)
            case Ok(hasSince) =>
              if hasSince && !body.Dict? then Err("AttributeError")
              else Ok(Dict(counted.value + (if hasSince then [("since", Get(body, "since", Null))] else [])))
  }

  /** The summary is {} for a falsy body, and never holds anything but the count and `since`. */
  lemma SanitizeKeepsOnlySummary(body: Value)
    ensures !Truthy(body) ==> SanitizeForLogging(body) == Ok(Dict([]))
    ensures SanitizeForLogging(body).Ok? ==> SanitizeForLogging(body).value.Dict?
    ensures SanitizeForLogging(body).Ok? ==>
      forall k :: k in Keys(SanitizeForLogging(body).value.entries) ==> k == "employees_count" || k == "since"
  {
  }

  /**
   * For a dict body, the summary counts exactly the listed employees and
   * copies `since` verbatim.
   */
  lemma SanitizeOfDict(entries: seq<(string, Value)>, employees: seq<Value>, since: Value)
    requires entries != [] && DistinctKeys(entries)
    requires Lookup(entries, "employees") == Some(List(employees))
    requires Lookup(entries, "since") == Some(since)
    ensures SanitizeForLogging(Dict(entries)) == Ok(Dict([("employees_count", Int(|employees|)), ("since", since)]))
  {
    assert "employees" in Keys(entries) && "since" in Keys(entries);
    assert Get(Dict(entries), "employees", Null) == List(employees);
    assert Get(Dict(entries), "since", Null) == since;
    var body := Dict(entries);
    assert Truthy(body);
    assert PyIn("employees", body) == Ok(true);
    assert PyIn("since", body) == Ok(true);
    var n := if Truthy(List(employees)) then PyLen(List(employees)) else Ok(0);
    assert n == Ok(|employees|);
    assert [("employees_count", Int(|employees|))] + [("since", since)]
        == [("employees_count", Int(|employees|)), ("since", since)];
  }

  /** A truthy body that is no container at all makes the summary raise. */
  lemma SanitizeRaisesOnScalars(body: Value)
    requires Truthy(body) && (body.Bool? || body.Int?)
    ensures SanitizeForLogging(body).Err?
  {
  }

  /** A list naming "employees" has no .get: the summary raises. */
  lemma SanitizeRaisesOnListNamingEmployees(items: seq<Value>)
    requires Str("employees") in items
    ensures SanitizeForLogging(List(items)).Err?
  {
  }
}
