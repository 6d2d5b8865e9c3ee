/** The in-memory employee store: a fixed list of fifteen records and its
    two queries. */
module EmployeeData {
  import opened Ascii
  import opened Model
  import opened Filtering

  /** The fixture, in ascending id order. */
  function MockEmployees(): (r: seq<Employee>)
    ensures |r| == 15
    ensures forall i :: 0 <= i < |r| ==> r[i].id == i + 1
  {
    seq(15, i requires 0 <= i < 15 => Record(i + 1))
  }

  /** The fixture record with the given id. */
  function Record(id: int): (e: Employee)
    requires 1 <= id <= 15
    ensures e.id == id
  {
    match id
    case 1 => Employee(1, "John Smith", "john.smith@company.com", "Engineering", 75000.0, "2022-01-15")
    case 2 => Employee(2, "Sarah Johnson", "sarah.johnson@company.com", "Marketing", 65000.0, "2022-03-20")
    case 3 => Employee(3, "Michael Brown", "michael.brown@company.com", "Sales", 60000.0, "2021-11-10")
    case 4 => Employee(4, "Emily Davis", "emily.davis@company.com", "HR", 55000.0, "2023-02-05")
    case 5 => Employee(5, "David Wilson", "david.wilson@company.com", "Engineering", 80000.0, "2021-09-12")
    case 6 => Employee(6, "Lisa Anderson", "lisa.anderson@company.com", "Finance", 70000.0, "2022-07-18")
    case 7 => Employee(7, "Robert Garcia", "robert.garcia@company.com", "Engineering", 78000.0, "2023-01-25")
    case 8 => Employee(8, "Jennifer Martinez", "jennifer.martinez@company.com", "Marketing", 62000.0, "2022-05-30")
    case 9 => Employee(9, "Christopher Lee", "christopher.lee@company.com", "Sales", 58000.0, "2023-04-14")
    case 10 => Employee(10, "Amanda Taylor", "amanda.taylor@company.com", "Operations", 67000.0, "2021-12-08")
    case 11 => Employee(11, "James Thompson", "james.thompson@company.com", "Engineering", 82000.0, "2020-10-22")
    case 12 => Employee(12, "Michelle White", "michelle.white@company.com", "HR", 59000.0, "2022-08-03")
    case 13 => Employee(13, "Kevin Harris", "kevin.harris@company.com", "Finance", 72000.0, "2021-06-17")
    case 14 => Employee(14, "Rachel Clark", "rachel.clark@company.com", "Marketing", 64000.0, "2023-03-11")
    case _ => Employee(15, "Daniel Lewis", "daniel.lewis@company.com", "Sales", 61000.0, "2022-09-26")
  }

  /** The ids of a list of records, in order. */
  function Ids(s: seq<Employee>): seq<int> {
    seq(|s|, i requires 0 <= i < |s| => s[i].id)
  }

  /** `getEmployeesByDepartment`: the fixture records whose department equals
      `department` ignoring case, in fixture order. */
  function ByDepartment(department: string): (r: seq<Employee>)
    ensures IsSubsequence(r, MockEmployees())
    ensures forall e :: e in r <==> e in MockEmployees() && EqualsIgnoreCase(e.department, department)
  {
    WhereIsSubsequence(MockEmployees(), [DepartmentIs(department)]);
    WhereSingle(MockEmployees(), DepartmentIs(department));
    Where(MockEmployees(), [DepartmentIs(department)])
  }

  /** `getEmployeesWithSalaryRange`: the fixture records with
      `minSalary <= salary <= maxSalary`, in fixture order; the bounds are
      never swapped, so an inverted range selects nothing. */
  function WithSalaryRange(minSalary: real, maxSalary: real): (r: seq<Employee>)
    ensures IsSubsequence(r, MockEmployees())
    ensures forall e :: e in r <==> e in MockEmployees() && minSalary <= e.salary <= maxSalary
    ensures minSalary > maxSalary ==> r == []
  {
    WhereIsSubsequence(MockEmployees(), [SalaryBetween(minSalary, maxSalary)]);
    WhereSingle(MockEmployees(), SalaryBetween(minSalary, maxSalary));
    var r := Where(MockEmployees(), [SalaryBetween(minSalary, maxSalary)]);
    assert r != [] ==> r[0] in r;
    r
  }

  /** The two service queries compose in either order: narrowing the
      department query by a salary range equals narrowing the salary-range
      query by the department. */
  lemma ByDepartmentThenSalary(department: string, minSalary: real, maxSalary: real)
    ensures Where(ByDepartment(department), [SalaryBetween(minSalary, maxSalary)])
         == Where(WithSalaryRange(minSalary, maxSalary), [DepartmentIs(department)])
  {
    WhereThen(MockEmployees(), [DepartmentIs(department)], [SalaryBetween(minSalary, maxSalary)]);
    WhereThen(MockEmployees(), [SalaryBetween(minSalary, maxSalary)], [DepartmentIs(department)]);
    WhereCommutes(MockEmployees(), [DepartmentIs(department)], [SalaryBetween(minSalary, maxSalary)]);
  }

  /** The departments that occur in the fixture, lower-cased. */
  function KnownDepartments(): set<string> {
    {"engineering", "marketing", "sales", "hr", "finance", "operations"}
  }

  /** The department query does not depend on the case of its argument. */
  lemma ByDepartmentCaseInsensitive(department: string)
    ensures ByDepartment(department) == ByDepartment(Lower(department))
  {
    forall e: Employee
      ensures MatchesAll(e, [DepartmentIs(department)]) <==> MatchesAll(e, [DepartmentIs(Lower(department))])
    {
      assert MatchesAll(e, [DepartmentIs(department)]) <==> Matches(e, DepartmentIs(department));
      assert MatchesAll(e, [DepartmentIs(Lower(department))]) <==> Matches(e, DepartmentIs(Lower(department)));
      EqualsIgnoreCaseIffLower(e.department, department);
      EqualsIgnoreCaseIffLower(e.department, Lower(department));
      LowerIdempotent(department);
    }
    WhereSameCriteria(MockEmployees(), [DepartmentIs(department)], [DepartmentIs(Lower(department))]);
  }

  /** The six department names of the fixture, folded to lower case. */
  lemma DepartmentNamesFold()
    ensures Lower("Engineering") == "engineering"
    ensures Lower("Marketing") == "marketing"
    ensures Lower("Sales") == "sales"
    ensures Lower("HR") == "hr"
    ensures Lower("Finance") == "finance"
    ensures Lower("Operations") == "operations"
  {
  }

  /** Every fixture record belongs to one of the six known departments. */
  lemma FixtureDepartmentsKnown()
    ensures forall k :: 0 <= k < 15 ==> Lower(MockEmployees()[k].department) in KnownDepartments()
  {
    var f := MockEmployees();
    DepartmentNamesFold();
    forall k | 0 <= k < 15 ensures Lower(f[k].department) in KnownDepartments() {
      if k == 0 {
        assert f[k] == Record(1);
      } else if k == 1 {
        assert f[k] == Record(2);
      } else if k == 2 {
        assert f[k] == Record(3);
      } else if k == 3 {
        assert f[k] == Record(4);
      } else if k == 4 {
        assert f[k] == Record(5);
      } else if k == 5 {
        assert f[k] == Record(6);
      } else if k == 6 {
        assert f[k] == Record(7);
      } else if k == 7 {
        assert f[k] == Record(8);
      } else if k == 8 {
        assert f[k] == Record(9);
      } else if k == 9 {
        assert f[k] == Record(10);
      } else if k == 10 {
        assert f[k] == Record(11);
      } else if k == 11 {
        assert f[k] == Record(12);
      } else if k == 12 {
        assert f[k] == Record(13);
      } else if k == 13 {
        assert f[k] == Record(14);
      } else if k == 14 {
        assert f[k] == Record(15);
      }
    }
  }

  /** Each known department has a record in the fixture. */
  lemma KnownDepartmentFound(department: string)
    requires Lower(department) in KnownDepartments()
    ensures ByDepartment(department) != []
  {
    var f := MockEmployees();
    DepartmentNamesFold();
    var k :=
      if Lower(department) == "engineering" then 0
      else if Lower(department) == "marketing" then 1
      else if Lower(department) == "sales" then 2
      else if Lower(department) == "hr" then 3
      else if Lower(department) == "finance" then 5
      else 9;
    assert f[k] == Record(k + 1);
    EqualsIgnoreCaseIffLower(f[k].department, department);
    assert f[k] in ByDepartment(department);
  }

  /** A department query finds nothing exactly when the (lower-cased)
      department is not one of the six in the fixture. */
  lemma ByDepartmentEmptyIff(department: string)
    ensures ByDepartment(department) == [] <==> Lower(department) !in KnownDepartments()
  {
    var f := MockEmployees();
    if Lower(department) in KnownDepartments() {
      KnownDepartmentFound(department);
    } else if ByDepartment(department) != [] {
      var e := ByDepartment(department)[0];
      assert e in ByDepartment(department);
      var k :| 0 <= k < |f| && f[k] == e;
      FixtureDepartmentsKnown();
      EqualsIgnoreCaseIffLower(e.department, department);
      assert false;
    }
  }

  /** Which of records 1 to 8 a department equal to "engineering" (ignoring case) matches. */
  lemma EngineeringMatchesFirst(department: string)
    requires Lower(department) == "engineering"
    ensures forall k :: 0 <= k < 8 ==> (MatchesAll(MockEmployees()[k], [DepartmentIs(department)]) <==> k in [0, 4, 6, 10])
  {
    var f := MockEmployees();
    var d := [DepartmentIs(department)];
    assert |department| == 11;
    DepartmentNamesFold();
    EqualsIgnoreCaseIffLower("Engineering", department);
    forall k | 0 <= k < 8 ensures MatchesAll(f[k], d) <==> k in [0, 4, 6, 10] {
      assert MatchesAll(f[k], d) <==> Matches(f[k], DepartmentIs(department));
      if k == 0 {
        assert f[k] == Record(1);
      } else if k == 1 {
        assert f[k] == Record(2);
      } else if k == 2 {
        assert f[k] == Record(3);
      } else if k == 3 {
        assert f[k] == Record(4);
      } else if k == 4 {
        assert f[k] == Record(5);
      } else if k == 5 {
        assert f[k] == Record(6);
      } else if k == 6 {
        assert f[k] == Record(7);
      } else if k == 7 {
        assert f[k] == Record(8);
      }
    }
  }

  /** Which of records 9 to 15 a department equal to "engineering" (ignoring case) matches. */
  lemma EngineeringMatchesRest(department: string)
    requires Lower(department) == "engineering"
    ensures forall k :: 8 <= k < 15 ==> (MatchesAll(MockEmployees()[k], [DepartmentIs(department)]) <==> k in [0, 4, 6, 10])
  {
    var f := MockEmployees();
    var d := [DepartmentIs(department)];
    assert |department| == 11;
    DepartmentNamesFold();
    EqualsIgnoreCaseIffLower("Engineering", department);
    forall k | 8 <= k < 15 ensures MatchesAll(f[k], d) <==> k in [0, 4, 6, 10] {
      assert MatchesAll(f[k], d) <==> Matches(f[k], DepartmentIs(department));
      if k == 8 {
        assert f[k] == Record(9);
      } else if k == 9 {
        assert f[k] == Record(10);
      } else if k == 10 {
        assert f[k] == Record(11);
      } else if k == 11 {
        assert f[k] == Record(12);
      } else if k == 12 {
        assert f[k] == Record(13);
      } else if k == 13 {
        assert f[k] == Record(14);
      } else if k == 14 {
        assert f[k] == Record(15);
      }
    }
  }

  /** Which fixture records a department equal to "engineering" (ignoring case) matches. */
  lemma EngineeringMatches(department: string)
    requires Lower(department) == "engineering"
    ensures forall k :: 0 <= k < 15 ==> (MatchesAll(MockEmployees()[k], [DepartmentIs(department)]) <==> k in [0, 4, 6, 10])
  {
    EngineeringMatchesFirst(department);
    EngineeringMatchesRest(department);
  }

  /** The records a department equal to "engineering" (ignoring case) selects. */
  lemma EngineeringSelection(department: string)
    requires Lower(department) == "engineering"
    ensures Where(MockEmployees(), [DepartmentIs(department)]) == Pick(MockEmployees(), [0, 4, 6, 10])
  {
    EngineeringMatches(department);
    var idx := [0, 4, 6, 10];
    assert forall j, j' :: 0 <= j < j' < |idx| ==> idx[j] < idx[j'];
    WhereAt(MockEmployees(), [DepartmentIs(department)], idx);
  }

  /** Querying "engineering", in any case, yields exactly records 1, 5, 7 and 11, in that order. */
  lemma EngineeringIds(department: string)
    requires Lower(department) == "engineering"
    ensures Ids(ByDepartment(department)) == [1, 5, 7, 11]
  {
    EngineeringSelection(department);
    PickedIds();
  }

  /** The ids of fixture positions 0, 4, 6 and 10 are 1, 5, 7 and 11. */
  lemma PickedIds()
    ensures Ids(Pick(MockEmployees(), [0, 4, 6, 10])) == [1, 5, 7, 11]
  {
  }

  /** Every fixture salary lies within the controller's default bounds. */
  lemma FixtureSalariesWithinDefaults()
    ensures forall k :: 0 <= k < 15 ==> 0.0 <= MockEmployees()[k].salary <= 999999.0
  {
    var f := MockEmployees();
    forall k | 0 <= k < 15 ensures 0.0 <= f[k].salary <= 999999.0 {
      if k == 0 {
        assert f[k] == Record(1);
      } else if k == 1 {
        assert f[k] == Record(2);
      } else if k == 2 {
        assert f[k] == Record(3);
      } else if k == 3 {
        assert f[k] == Record(4);
      } else if k == 4 {
        assert f[k] == Record(5);
      } else if k == 5 {
        assert f[k] == Record(6);
      } else if k == 6 {
        assert f[k] == Record(7);
      } else if k == 7 {
        assert f[k] == Record(8);
      } else if k == 8 {
        assert f[k] == Record(9);
      } else if k == 9 {
        assert f[k] == Record(10);
      } else if k == 10 {
        assert f[k] == Record(11);
      } else if k == 11 {
        assert f[k] == Record(12);
      } else if k == 12 {
        assert f[k] == Record(13);
      } else if k == 13 {
        assert f[k] == Record(14);
      } else if k == 14 {
        assert f[k] == Record(15);
      }
    }
  }

  /** The controller's default bounds, 0 and 999999, select the whole fixture, in order. */
  lemma DefaultRangeSelectsAll()
    ensures WithSalaryRange(0.0, 999999.0) == MockEmployees()
  {
    FixtureSalariesWithinDefaults();
    WhereKeepsAll(MockEmployees(), [SalaryBetween(0.0, 999999.0)]);
  }
}
