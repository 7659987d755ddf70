/** The Employee value object: three fields guarded by validating setters,
    a display template, and equality decided by the identifier alone. */
module Employees {
  import opened Wrappers
  import opened DotNet

  // ---------------------------------------------------------------------
  // Validation gates
  // ---------------------------------------------------------------------

  const IdMessage := "Employee ID must be a positive number."
  const FirstNameMessage := "First name cannot be empty."
  const LastNameMessage := "Last name cannot be empty."

  /** The check the Id setter makes before assigning. */
  function IdGate(value: int): (o: Outcome)
    ensures o.Pass? <==> value > 0
    ensures o.Fail? ==> o.message == IdMessage
  {
    if value <= 0 then Fail(IdMessage) else Pass
  }

  /** The check a name setter makes before assigning; `message` is the
      setter's own text. */
  function NameGate(value: Option<string>, message: string): (o: Outcome)
    ensures o.Pass? <==> !IsNullOrWhiteSpace(value)
    ensures o.Fail? ==> o.message == message
  {
    if IsNullOrWhiteSpace(value) then Fail(message) else Pass
  }

  /** The outcome of the constructor: the gates in the order the constructor
      calls the setters, so the exception seen is the first failing one. */
  function ConstructionOutcome(id: int, first: Option<string>, last: Option<string>): (o: Outcome)
    ensures o.Pass? <==> id > 0 && !IsNullOrWhiteSpace(first) && !IsNullOrWhiteSpace(last)
    ensures id <= 0 ==> o == Fail(IdMessage)
    ensures id > 0 && IsNullOrWhiteSpace(first) ==> o == Fail(FirstNameMessage)
    ensures id > 0 && !IsNullOrWhiteSpace(first) && IsNullOrWhiteSpace(last) ==> o == Fail(LastNameMessage)
  {
    AndThen(IdGate(id), AndThen(NameGate(first, FirstNameMessage), NameGate(last, LastNameMessage)))
  }

  // ---------------------------------------------------------------------
  // Display
  // ---------------------------------------------------------------------

  const DisplayPrefix := "Employee(ID: "
  const NameLabel := ", Full Name: "

  /** A string in an interpolation hole: null is written as nothing. */
  function Render(s: Option<string>): string {
    match s
    case None => ""
    case Some(t) => t
  }

  /** The display template of ToString. */
  function Display(id: int, first: string, last: string): string {
    DisplayPrefix + IntToDecimal(id) + NameLabel + first + " " + last + ")"
  }

  /** First index of `c` in `s`, or `|s|` when there is none. */
  function IndexOf(s: string, c: char): (k: nat)
    ensures k <= |s|
    ensures k < |s| ==> s[k] == c
    ensures forall j | 0 <= j < k :: s[j] != c
  {
    if s == [] then 0 else if s[0] == c then 0 else 1 + IndexOf(s[1..], c)
  }

  /** Reads a display string back into its identifier and its full name. */
  function ParseDisplay(s: string): Option<(int, string)> {
    if |s| < |DisplayPrefix| || s[..|DisplayPrefix|] != DisplayPrefix then None
    else ParseAfterPrefix(s[|DisplayPrefix|..])
  }

  /** The identifier runs up to the first comma; the name part follows. */
  function ParseAfterPrefix(rest: string): Option<(int, string)> {
    var k := IndexOf(rest, ',');
    match ParseInt(rest[..k])
    case None => None
    case Some(id) =>
      match ParseFullName(rest[k..])
      case None => None
      case Some(name) => Some((id, name))
  }

  /** The full name sits between the label and the closing parenthesis. */
  function ParseFullName(tail: string): Option<string> {
    if |tail| < |NameLabel| + 1 || tail[..|NameLabel|] != NameLabel || tail[|tail| - 1] != ')' then None
    else Some(tail[|NameLabel|..|tail| - 1])
  }

  /** The first comma of `text + tail` opens `tail` when `text` has none. */
  lemma CommaAfterText(text: string, tail: string)
    requires forall k | 0 <= k < |text| :: text[k] != ','
    requires |tail| >= 1 && tail[0] == ','
    ensures IndexOf(text + tail, ',') == |text|
  {
    assert (text + tail)[|text|] == ',';
  }

  lemma ParseFullNameOf(name: string)
    ensures ParseFullName(NameLabel + name + ")") == Some(name)
  {
    var tail := NameLabel + name + ")";
    assert tail[..|NameLabel|] == NameLabel;
    assert tail[|NameLabel|..|tail| - 1] == name;
  }

  lemma ParseAfterPrefixOf(idText: string, id: int, name: string)
    requires forall k | 0 <= k < |idText| :: idText[k] != ','
    requires ParseInt(idText) == Some(id)
    ensures ParseAfterPrefix(idText + (NameLabel + name + ")")) == Some((id, name))
  {
    var tail := NameLabel + name + ")";
    var rest := idText + tail;
    CommaAfterText(idText, tail);
    assert rest[..|idText|] == idText;
    assert rest[|idText|..] == tail;
    ParseFullNameOf(name);
  }

  /** The display string determines the identifier and the full name
      "first last". */
  lemma {:induction false} DisplayRoundTrip(id: int, first: string, last: string)
    ensures ParseDisplay(Display(id, first, last)) == Some((id, first + " " + last))
  {
    var idText := IntToDecimal(id);
    var name := first + " " + last;
    var rest := idText + (NameLabel + name + ")");
    var s := Display(id, first, last);
    assert s == DisplayPrefix + rest;
    assert s[..|DisplayPrefix|] == DisplayPrefix;
    assert s[|DisplayPrefix|..] == rest;
    IntTextCharacters(id);
    IntDecimalRoundTrip(id);
    ParseAfterPrefixOf(idText, id, name);
  }

  /** Two names can share one display: the template does not mark where the
      first name ends. */
  lemma DisplayNameBoundaryLost()
    ensures Display(1, "Mary Ann", "Lee") == Display(1, "Mary", "Ann Lee")
  {
  }

  // ---------------------------------------------------------------------
  // The class
  // ---------------------------------------------------------------------

  /** A reference of static type `object`, as Equals receives it. */
  datatype AnyObject = NullRef | EmployeeRef(emp: Employee) | OtherRef {
    function Refs(): set<object> {
      if EmployeeRef? then {emp} else {}
    }
  }

  class Employee {
    var id: int                     // a 32-bit int in the source; only compared and formatted
    var firstName: Option<string>   // None is null
    var lastName: Option<string>

    /** What the setters guarantee of every constructed employee. */
    ghost predicate Valid()
      reads this
    {
      id > 0 && !IsNullOrWhiteSpace(firstName) && !IsNullOrWhiteSpace(lastName)
    }

    /** The freshly allocated object, before the constructor body runs:
        every field holds its default value. */
    constructor Blank()
      ensures id == 0 && firstName == None && lastName == None
    {
      id := 0;
      firstName := None;
      lastName := None;
    }

    /** The Id setter: throws before assigning when `value` is not positive. */
    method SetId(value: int) returns (o: Outcome)
      modifies this`id
      ensures o == IdGate(value)
      ensures id == (if o.Pass? then value else old(id))
      ensures old(Valid()) ==> Valid()
    {
      if value <= 0 {
        return Fail(IdMessage);
      }
      id := value;
      return Pass;
    }

    /** The FirstName setter: throws before assigning on null, empty or
        all-white-space text. */
    method SetFirstName(value: Option<string>) returns (o: Outcome)
      modifies this`firstName
      ensures o == NameGate(value, FirstNameMessage)
      ensures firstName == (if o.Pass? then value else old(firstName))
      ensures old(Valid()) ==> Valid()
    {
      if IsNullOrWhiteSpace(value) {
        return Fail(FirstNameMessage);
      }
      firstName := value;
      return Pass;
    }

    /** The LastName setter, with its own message. */
    method SetLastName(value: Option<string>) returns (o: Outcome)
      modifies this`lastName
      ensures o == NameGate(value, LastNameMessage)
      ensures lastName == (if o.Pass? then value else old(lastName))
      ensures old(Valid()) ==> Valid()
    {
      if IsNullOrWhiteSpace(value) {
        return Fail(LastNameMessage);
      }
      lastName := value;
      return Pass;
    }

    /** `new Employee(id, firstName, lastName)`: allocate, then run the three
        setters in order; the first exception escapes and no object is
        produced. */
    static method New(id: int, first: Option<string>, last: Option<string>) returns (r: Result<Employee>)
      ensures r.Success? <==> ConstructionOutcome(id, first, last).Pass?
      ensures r.Failure? ==> r.error == ConstructionOutcome(id, first, last).message
      ensures r.Success? ==> fresh(r.value) && r.value.Valid()
      ensures r.Success? ==> r.value.id == id && r.value.firstName == first && r.value.lastName == last
    {
      var e := new Employee.Blank();
      var o := e.SetId(id);
      if o.Fail? {
        return Failure(o.message);
      }
      o := e.SetFirstName(first);
      if o.Fail? {
        return Failure(o.message);
      }
      o := e.SetLastName(last);
      if o.Fail? {
        return Failure(o.message);
      }
      return Success(e);
    }

    /** ToString: the display template over the current fields; the text
        gives back the identifier and the full name. */
    function ToString(): (s: string)
      reads this
      ensures ParseDisplay(s) == Some((id, Render(firstName) + " " + Render(lastName)))
    {
      DisplayRoundTrip(id, Render(firstName), Render(lastName));
      Display(id, Render(firstName), Render(lastName))
    }

    /** Equals(object): false for null and for anything that is not an
        Employee; otherwise `this == obj`. */
    function Equals(obj: AnyObject): (r: bool)
      reads this, obj.Refs()
      ensures !obj.EmployeeRef? ==> !r
      ensures obj.EmployeeRef? ==> (r <==> id == obj.emp.id)
    {
      match obj
      case EmployeeRef(e) => OpEquality(this, e)
      case _ => false
    }

    /** GetHashCode: the hash of the identifier. */
    function GetHashCode(): int
      reads this
    {
      Int32Hash(id)
    }
  }

  /** Int32.GetHashCode returns the value itself. */
  function Int32Hash(i: int): int {
    i
  }

  // ---------------------------------------------------------------------
  // operator == and operator !=
  // ---------------------------------------------------------------------

  /** The line operator == writes for the branch it takes. A null first
      operand writes FirstIsNull whether or not the second is null too. */
  datatype Trace = FirstIsNull | SecondIsNull | SameId(id: int) | DifferentIds(first: int, second: int)

  /** The text of each trace line. */
  function TraceLine(t: Trace): string {
    match t
    case FirstIsNull => "First employee is null"
    case SecondIsNull => "Second employee is null"
    case SameId(i) => "Employees are equal (Same ID: " + IntToDecimal(i) + ")"
    case DifferentIds(i, j) => "Employees are different (IDs: " + IntToDecimal(i) + " vs " + IntToDecimal(j) + ")"
  }

  /** operator == together with the trace of the branch it took. */
  function CompareTraced(a: Employee?, b: Employee?): (r: (bool, Trace))
    reads a, b
    ensures a == null ==> (r.0 <==> b == null)
    ensures a != null && b == null ==> !r.0
    ensures a != null && b != null ==> (r.0 <==> a.id == b.id)
    ensures r.1.FirstIsNull? <==> a == null
    ensures r.1.SecondIsNull? <==> a != null && b == null
    ensures r.1.SameId? ==> r.0 && a != null && r.1.id == a.id
    ensures r.1.DifferentIds? ==> !r.0 && a != null && b != null && r.1.first == a.id && r.1.second == b.id
  {
    if a == null then (b == null, FirstIsNull)
    else if b == null then (false, SecondIsNull)
    else
      var areEqual := a.id == b.id;
      (areEqual, if areEqual then SameId(a.id) else DifferentIds(a.id, b.id))
  }

  /** operator ==: null equals only null; two employees are equal exactly
      when their identifiers are, whatever their names. */
  function OpEquality(a: Employee?, b: Employee?): (r: bool)
    reads a, b
    ensures a == null && b == null ==> r
    ensures (a == null) != (b == null) ==> !r
    ensures a != null && b != null ==> (r <==> a.id == b.id)
  {
    CompareTraced(a, b).0
  }

  /** operator !=: the negation of operator ==. */
  function OpInequality(a: Employee?, b: Employee?): (r: bool)
    reads a, b
    ensures r <==> (a == null) != (b == null) || (a != null && b != null && a.id != b.id)
  {
    !OpEquality(a, b)
  }

  // ---------------------------------------------------------------------
  // Properties of equality and hashing
  // ---------------------------------------------------------------------

  lemma InequalityNegatesEquality(a: Employee?, b: Employee?)
    ensures OpInequality(a, b) == !OpEquality(a, b)
  {
  }

  /** Names play no part: two employees with one identifier are equal under
      ==, under Equals, and hash alike. */
  lemma NamesIgnored(a: Employee, b: Employee)
    requires a.id == b.id
    ensures OpEquality(a, b) && a.Equals(EmployeeRef(b))
    ensures a.GetHashCode() == b.GetHashCode()
  {
  }

  /** Employees equal under == have equal hashes. */
  lemma HashConsistentWithEquality(a: Employee, b: Employee)
    requires OpEquality(a, b)
    ensures a.GetHashCode() == b.GetHashCode()
  {
  }

  /** operator == is an equivalence on nullable employees. */
  lemma OpEqualityIsEquivalence(a: Employee?, b: Employee?, c: Employee?)
    ensures OpEquality(a, a)
    ensures OpEquality(a, b) == OpEquality(b, a)
    ensures OpEquality(a, b) && OpEquality(b, c) ==> OpEquality(a, c)
  {
  }

  /** Equals is reflexive, symmetric and transitive over employees. */
  lemma EqualsIsEquivalence(a: Employee, b: Employee, c: Employee)
    ensures a.Equals(EmployeeRef(a))
    ensures a.Equals(EmployeeRef(b)) == b.Equals(EmployeeRef(a))
    ensures a.Equals(EmployeeRef(b)) && b.Equals(EmployeeRef(c)) ==> a.Equals(EmployeeRef(c))
  {
  }
}
