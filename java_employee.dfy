// The matching service's employee record: a mutable Java object whose
// setters overwrite one field each.  `Long` and `String` fields that may be
// null are `Option`s; the interest list is held by value.
module JavaEmployee {
  import opened Wrappers

  class Employee {
    var id: Option<int>
    var displayName: Option<string>
    var position: Option<string>
    var department: Option<string>
    var businessCode: Option<string>
    var employeeNumber: Option<int>
    var username: Option<string>
    var interests: Option<seq<string>>
    var activeEmployee: bool

    /** The no-argument constructor: every reference field null, the employee active. */
    constructor Blank()
      ensures id == None && displayName == None && position == None && department == None
      ensures businessCode == None && employeeNumber == None && username == None
      ensures interests == None && activeEmployee
    {
      id := None;
      displayName := None;
      position := None;
      department := None;
      businessCode := None;
      employeeNumber := None;
      username := None;
      interests := None;
      activeEmployee := true;
    }

    /** The (id, displayName) constructor: the other fields keep their defaults. */
    constructor Named(id: Option<int>, displayName: Option<string>)
      ensures this.id == id && this.displayName == displayName
      ensures position == None && department == None && businessCode == None
      ensures employeeNumber == None && username == None && interests == None
      ensures activeEmployee
    {
      this.id := id;
      this.displayName := displayName;
      position := None;
      department := None;
      businessCode := None;
      employeeNumber := None;
      username := None;
      interests := None;
      activeEmployee := true;
    }

    /** The nine-argument convenience constructor: every field taken from its argument. */
    constructor (id: Option<int>, displayName: Option<string>, position: Option<string>,
                 department: Option<string>, businessCode: Option<string>, employeeNumber: Option<int>,
                 username: Option<string>, interests: Option<seq<string>>, activeEmployee: bool)
      ensures this.id == id && this.displayName == displayName && this.position == position
      ensures this.department == department && this.businessCode == businessCode
      ensures this.employeeNumber == employeeNumber && this.username == username
      ensures this.interests == interests && this.activeEmployee == activeEmployee
    {
      this.id := id;
      this.displayName := displayName;
      this.position := position;
      this.department := department;
      this.businessCode := businessCode;
      this.employeeNumber := employeeNumber;
      this.username := username;
      this.interests := interests;
      this.activeEmployee := activeEmployee;
    }

    method SetId(v: Option<int>)
      modifies this
      ensures id == v
      ensures displayName == old(displayName) && position == old(position) && department == old(department)
      ensures businessCode == old(businessCode) && employeeNumber == old(employeeNumber)
      ensures username == old(username) && interests == old(interests) && activeEmployee == old(activeEmployee)
    {
      id := v;
    }

    method SetDisplayName(v: Option<string>)
      modifies this
      ensures displayName == v
      ensures id == old(id) && position == old(position) && department == old(department)
      ensures businessCode == old(businessCode) && employeeNumber == old(employeeNumber)
      ensures username == old(username) && interests == old(interests) && activeEmployee == old(activeEmployee)
    {
      displayName := v;
    }

    method SetPosition(v: Option<string>)
      modifies this
      ensures position == v
      ensures id == old(id) && displayName == old(displayName) && department == old(department)
      ensures businessCode == old(businessCode) && employeeNumber == old(employeeNumber)
      ensures username == old(username) && interests == old(interests) && activeEmployee == old(activeEmployee)
    {
      position := v;
    }

    method SetDepartment(v: Option<string>)
      modifies this
      ensures department == v
      ensures id == old(id) && displayName == old(displayName) && position == old(position)
      ensures businessCode == old(businessCode) && employeeNumber == old(employeeNumber)
      ensures username == old(username) && interests == old(interests) && activeEmployee == old(activeEmployee)
    {
      department := v;
    }

    method SetBusinessCode(v: Option<string>)
      modifies this
      ensures businessCode == v
      ensures id == old(id) && displayName == old(displayName) && position == old(position)
      ensures department == old(department) && employeeNumber == old(employeeNumber)
      ensures username == old(username) && interests == old(interests) && activeEmployee == old(activeEmployee)
    {
      businessCode := v;
    }

    method SetEmployeeNumber(v: Option<int>)
      modifies this
      ensures employeeNumber == v
      ensures id == old(id) && displayName == old(displayName) && position == old(position)
      ensures department == old(department) && businessCode == old(businessCode)
      ensures username == old(username) && interests == old(interests) && activeEmployee == old(activeEmployee)
    {
      employeeNumber := v;
    }

    method SetUsername(v: Option<string>)
      modifies this
      ensures username == v
      ensures id == old(id) && displayName == old(displayName) && position == old(position)
      ensures department == old(department) && businessCode == old(businessCode)
      ensures employeeNumber == old(employeeNumber) && interests == old(interests) && activeEmployee == old(activeEmployee)
    {
      username := v;
    }

    method SetInterests(v: Option<seq<string>>)
      modifies this
      ensures interests == v
      ensures id == old(id) && displayName == old(displayName) && position == old(position)
      ensures department == old(department) && businessCode == old(businessCode)
      ensures employeeNumber == old(employeeNumber) && username == old(username) && activeEmployee == old(activeEmployee)
    {
      interests := v;
    }

    method SetActiveEmployee(v: bool)
      modifies this
      ensures activeEmployee == v
      ensures id == old(id) && displayName == old(displayName) && position == old(position)
      ensures department == old(department) && businessCode == old(businessCode)
      ensures employeeNumber == old(employeeNumber) && username == old(username) && interests == old(interests)
    {
      activeEmployee := v;
    }

    /** Whether the interest list is present and holds `interest`; a null list holds nothing. */
    function HasInterest(interest: string): (b: bool)
      reads this
      ensures interests == None ==> !b
      ensures interests.Some? ==> (b <==> exists k :: 0 <= k < |interests.value| && interests.value[k] == interest)
    {
      interests.Some? && interest in interests.value
    }
  }
}
