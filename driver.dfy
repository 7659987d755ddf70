/** The demonstration script: three employees, their display lines, two
    comparisons, and one construction that must fail. Console output and the
    closing key press are not modelled; the values the script prints are
    returned instead. */
module Driver {
  import opened Wrappers
  import opened DotNet
  import opened Employees

  lemma ScenarioNamesNotBlank()
    ensures !IsNullOrWhiteSpace(Some("Sarah")) && !IsNullOrWhiteSpace(Some("Wilson"))
    ensures !IsNullOrWhiteSpace(Some("Michael")) && !IsNullOrWhiteSpace(Some("Brown"))
    ensures !IsNullOrWhiteSpace(Some("Emma")) && !IsNullOrWhiteSpace(Some("Davis"))
  {
    VisibleCharNotBlank("Sarah", 0);
    VisibleCharNotBlank("Wilson", 0);
    VisibleCharNotBlank("Michael", 0);
    VisibleCharNotBlank("Brown", 0);
    VisibleCharNotBlank("Emma", 0);
    VisibleCharNotBlank("Davis", 0);
  }

  lemma ScenarioIdText()
    ensures IntToDecimal(101) == "101" && IntToDecimal(102) == "102"
  {
    assert NatToDecimal(1) == "1";
    assert NatToDecimal(10) == "10";
  }

  lemma DisplaySarahWilson()
    ensures Display(101, "Sarah", "Wilson") == "Employee(ID: 101, Full Name: Sarah Wilson)"
  {
    ScenarioIdText();
  }

  lemma DisplayMichaelBrown()
    ensures Display(101, "Michael", "Brown") == "Employee(ID: 101, Full Name: Michael Brown)"
  {
    ScenarioIdText();
  }

  lemma DisplayEmmaDavis()
    ensures Display(102, "Emma", "Davis") == "Employee(ID: 102, Full Name: Emma Davis)"
  {
    ScenarioIdText();
  }

  lemma ScenarioTraces()
    ensures TraceLine(SameId(101)) == "Employees are equal (Same ID: 101)"
    ensures TraceLine(DifferentIds(101, 102)) == "Employees are different (IDs: 101 vs 102)"
  {
    ScenarioIdText();
  }

  /** Runs the script and returns what it prints: the three display lines,
      the result of employee1 == employee2 and of employee1 != employee3
      with the trace lines of the two comparisons, and the message of the
      exception the invalid construction throws. */
  method RunScenario() returns (details: seq<string>, result1: bool, result2: bool,
                                traces: seq<string>, validationError: Option<string>)
    ensures details == ["Employee(ID: 101, Full Name: Sarah Wilson)",
                        "Employee(ID: 101, Full Name: Michael Brown)",
                        "Employee(ID: 102, Full Name: Emma Davis)"]
    ensures result1 && result2
    ensures traces == ["Employees are equal (Same ID: 101)",
                       "Employees are different (IDs: 101 vs 102)"]
    ensures validationError == Some("Employee ID must be a positive number.")
  {
    ScenarioNamesNotBlank();
    DisplaySarahWilson();
    DisplayMichaelBrown();
    DisplayEmmaDavis();
    ScenarioTraces();
    var r1 := Employee.New(101, Some("Sarah"), Some("Wilson"));
    var r2 := Employee.New(101, Some("Michael"), Some("Brown"));
    var r3 := Employee.New(102, Some("Emma"), Some("Davis"));
    var employee1, employee2, employee3 := r1.value, r2.value, r3.value;

    var line1 := employee1.ToString();
    assert line1 == Display(101, "Sarah", "Wilson");
    var line2 := employee2.ToString();
    assert line2 == Display(101, "Michael", "Brown");
    var line3 := employee3.ToString();
    assert line3 == Display(102, "Emma", "Davis");
    details := [line1, line2, line3];

    var c1 := CompareTraced(employee1, employee2);
    result1 := c1.0;
    var c2 := CompareTraced(employee1, employee3);
    result2 := OpInequality(employee1, employee3);
    traces := [TraceLine(c1.1), TraceLine(c2.1)];

    var invalid := Employee.New(-1, Some("Invalid"), Some("Employee"));
    validationError := if invalid.Failure? then Some(invalid.error) else None;
  }
}
