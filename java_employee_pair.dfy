// A pair produced by the matching engine.  The pair keeps references to the
// two employee objects, either of which may be null after a setter call.
module JavaEmployeePair {
  import opened Wrappers
  import opened JavaEmployee

  class EmployeePair {
    var employee1: Employee?
    var employee2: Employee?

    /** The no-argument constructor: both members null. */
    constructor Blank()
      ensures employee1 == null && employee2 == null
    {
      employee1 := null;
      employee2 := null;
    }

    constructor (e1: Employee?, e2: Employee?)
      ensures employee1 == e1 && employee2 == e2
    {
      employee1 := e1;
      employee2 := e2;
    }

    method SetEmployee1(e: Employee?)
      modifies this
      ensures employee1 == e && employee2 == old(employee2)
    {
      employee1 := e;
    }

    method SetEmployee2(e: Employee?)
      modifies this
      ensures employee2 == e && employee1 == old(employee1)
    {
      employee2 := e;
    }

    /**
     * A pair is valid when both members are present, both have an id, and
     * the ids differ (compared by value, as Long.equals does).
     */
    function IsValid(): (b: bool)
      reads this, employee1, employee2
      ensures b ==> employee1 != null && employee2 != null && employee1 != employee2
      ensures b ==> employee1.id.Some? && employee2.id.Some?
      ensures employee1 != null && employee2 != null && employee1.id.Some? && employee2.id.Some? ==>
                (b <==> employee1.id.value != employee2.id.value)
    {
      employee1 != null && employee2 != null && employee1.id.Some? && employee2.id.Some?
      && employee1.id.value != employee2.id.value
    }
  }
}
