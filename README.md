# Employee: validated value object with identifier-only equality

This project models the `Employee` class of a small C# demonstration program
(`Program.cs`) and proves what it promises:

- **Validation gates.** The fields `_id`, `_firstName` and `_lastName` are written only
  through the `Id`, `FirstName` and `LastName` setters. Each setter throws an
  `ArgumentException` with a fixed message before it assigns: `Id` rejects values `<= 0`,
  and the name setters reject null, empty or all-white-space text. The constructor calls
  the three setters in the order id, first name, last name. The first exception escapes,
  and no object is produced.
- **Custom equality.** `operator ==` handles null operands first and then compares only
  `Id`; names are never compared. `operator !=` negates it. `Equals(object)` is false for
  anything that is not an `Employee` and otherwise uses `==`. `GetHashCode` is the hash of
  `Id`.
- **Display.** `ToString` fills the template `Employee(ID: {Id}, Full Name: {FirstName} {LastName})`.

Files and modules:

- `wrappers.dfy` (`Wrappers`): `Option` stands for a nullable value. `Outcome` is what a
  setter does: assign, or throw with a message. `Result` is what the constructor does.
  `AndThen` gives "the first exception wins".
- `dotnet.dfy` (`DotNet`): the base-library behaviour the class relies on.
  `char.IsWhiteSpace` is the documented set of white-space code points.
  `string.IsNullOrWhiteSpace` is built on it. The decimal text of an `int` is proved
  against a parser by a round-trip lemma. A uniqueness lemma shows it is the one canonical
  text of that number.
- `employee.dfy` (`Employees`): the class `Employee` with its fields, setters and
  constructor. It also holds the gate functions that specify them, the display template
  with its parser, and the `==`/`!=` operators with their branch trace. The parser
  (`ParseDisplay` with its helpers `ParseAfterPrefix`, `ParseFullName` and `IndexOf`)
  is not part of the source; it exists to state what the display text determines. Lemmas cover
  equality and hashing.
- `driver.dfy` (`Driver`): the script of `Main` as a method that returns the values the
  script prints.

Modelling decisions:

- A C# constructor either returns an object or throws; a Dafny constructor cannot fail.
  `new Employee(id, first, last)` is therefore `Employee.New`. It allocates a `Blank`
  object (every field at its default: `0`, null, null), then runs the three setter methods
  in order. It returns `Failure(message)` at the first rejection, or `Success(e)`. The
  blank object never escapes on failure, just as the half-built C# object is unreachable
  after the exception.
- Null strings are `Option<string>`; an interpolated null renders as the empty string
  (`Render`).
- Nullable operands of `==`/`!=` are nullable references `Employee?`. An `object`
  argument of `Equals` is `AnyObject`: null, an employee, or any other object.
- The `Console.WriteLine` inside `operator ==` is modelled as a returned `Trace` value,
  with `TraceLine` giving the text. The code writes "First employee is null" whenever the
  first operand is null, **including when both are null**. A separate "both null" line
  does not exist in the code, and the model follows the code (`CompareTraced`).
- `Int32.GetHashCode` returns the value itself, so `Int32Hash` is the identity.

## Model

| member | source | states |
|---|---|---|
| `Wrappers.AndThen` | Program.cs:50-52 | a sequence of throwing calls passes only if every call passes; when the first throws its exception is reported, otherwise the outcome is the second call's |
| `Employees.IdGate` | Program.cs:18-19 | the Id setter accepts exactly the positive values, and otherwise throws "Employee ID must be a positive number." |
| `Employees.NameGate` | Program.cs:29-30 | a name setter accepts exactly the text that is not null, not empty and not all white space, and otherwise throws its own message |
| `Employees.ConstructionOutcome` | Program.cs:47-53 | construction succeeds iff id > 0 and both names are non-blank; the error is the id message when id <= 0, otherwise the first-name message when that name is blank, otherwise the last-name message |
| `Employees.Employee.Valid` | Program.cs:13-44 | no contract; the invariant the setters guard (id > 0, both names non-blank). `SetId`, `SetFirstName`, `SetLastName` preserve it and `New` establishes it |
| `Employees.Employee.Blank` | Program.cs:8-10 | a freshly allocated employee holds the default values 0, null, null |
| `Employees.Employee.SetId` | Program.cs:16-21 | the result is the id gate's outcome; on success `id` becomes the value, on rejection it is unchanged; only `id` may change; a valid employee stays valid |
| `Employees.Employee.SetFirstName` | Program.cs:27-32 | the result is the first-name gate's outcome; on success `firstName` becomes the value, on rejection it is unchanged; only `firstName` may change; validity is preserved |
| `Employees.Employee.SetLastName` | Program.cs:38-43 | the same for `lastName` with the last-name message |
| `Employees.Employee.New` | Program.cs:47-53 | succeeds iff the construction outcome passes; the error is its message; on success the employee is fresh and valid, and its fields hold exactly the arguments |
| `Employees.Employee.ToString` | Program.cs:56-59 | the display text reads back, through `ParseDisplay`, to the employee's id and the full name "first last" |
| `Employees.Render` | Program.cs:58 | no contract; a null string fills an interpolation hole with nothing |
| `Employees.Display` | Program.cs:58 | no contract; the template of `ToString`. What it promises is stated by `DisplayRoundTrip` and the scenario lemmas |
| `Employees.DisplayRoundTrip` | Program.cs:58 | for every id and every pair of names, parsing the display template gives back the id and "first last" |
| `Employees.DisplayNameBoundaryLost` | Program.cs:58 | the template does not mark where the first name ends: ("Mary Ann", "Lee") and ("Mary", "Ann Lee") display alike |
| `Employees.CompareTraced` | Program.cs:62-84 | a null first operand gives true iff the second is null, a null second operand alone gives false, two employees give true iff their ids are equal; the trace reports first-null exactly when the first operand is null (also when both are), second-null exactly when only the second is, same-id with the id when the result is true, and different-ids with both ids when it is false |
| `Employees.TraceLine` | Program.cs:67-81 | no contract; the text of each trace line. The scenario lines are stated by `Driver.ScenarioTraces` |
| `Employees.OpEquality` | Program.cs:62-84 | two nulls are equal; exactly one null is unequal; two employees are equal iff their ids are equal |
| `Employees.OpInequality` | Program.cs:87-90 | `!=` is true iff exactly one operand is null or both are employees with different ids |
| `Employees.InequalityNegatesEquality` | Program.cs:87-90 | `a != b` is the negation of `a == b` for every pair of operands |
| `Employees.OpEqualityIsEquivalence` | Program.cs:62-84 | `==` is reflexive, symmetric and transitive over nullable employees |
| `Employees.Employee.Equals` | Program.cs:93-98 | false for null and for any non-employee; for an employee, true iff the ids are equal |
| `Employees.EqualsIsEquivalence` | Program.cs:93-98 | `Equals` over employees is reflexive, symmetric and transitive |
| `Employees.NamesIgnored` | Program.cs:77-104 | two employees with the same id are equal under `==` and under `Equals`, and hash alike, whatever their names |
| `Employees.HashConsistentWithEquality` | Program.cs:101-104 | employees equal under `==` have equal hash codes |
| `Employees.Employee.GetHashCode` | Program.cs:101-104 | no contract; the hash of `Id`. What it promises is stated by `NamesIgnored` and `HashConsistentWithEquality` |
| `Employees.Int32Hash` | Program.cs:103 | no contract; `Int32.GetHashCode` returns the value itself |
| `DotNet.VisibleCharNotBlank` | Program.cs:29 | text with one non-white-space character is not null-or-white-space |
| `DotNet.NatToDecimal` | Program.cs:58 | the decimal text of a natural number is canonical (one or more digits, a leading zero only in "0" itself) and starts with '0' exactly when the number is 0 |
| `DotNet.NatDecimalRoundTrip` | Program.cs:58 | reading the decimal text of n gives back n |
| `DotNet.IntToDecimal` | Program.cs:58 | the text of an int is canonical (never "-0", no leading zeros), starts with '-' iff the int is negative, and everything after the sign is digits |
| `DotNet.IntDecimalRoundTrip` | Program.cs:58 | parsing the text of any int gives back that int, so the display text determines the id |
| `DotNet.CanonicalNatUnique` | Program.cs:58 | every canonical digit string is the text `NatToDecimal` writes for the number it denotes |
| `DotNet.CanonicalIntUnique` | Program.cs:58 | a canonical text that parses to i is exactly the text of i, so `{Id}` writes the one canonical form of the id |
| `DotNet.IsWhiteSpace` | Program.cs:29 | no contract; the definition is the documented set of white-space code points of `char.IsWhiteSpace` |
| `DotNet.IsNullOrWhiteSpace` | Program.cs:29 | no contract; the definition is `string.IsNullOrWhiteSpace`: null, or every character white space (so the empty string too). The gates' contracts are stated over it |
| `Driver.ScenarioNamesNotBlank` | Program.cs:116-118 | the six names in the script pass the name gates |
| `Driver.DisplaySarahWilson` | Program.cs:122 | employee1 displays as "Employee(ID: 101, Full Name: Sarah Wilson)" |
| `Driver.DisplayMichaelBrown` | Program.cs:123 | employee2 displays as "Employee(ID: 101, Full Name: Michael Brown)" |
| `Driver.DisplayEmmaDavis` | Program.cs:124 | employee3 displays as "Employee(ID: 102, Full Name: Emma Davis)" |
| `Driver.ScenarioTraces` | Program.cs:79-81 | the trace lines for ids 101/101 and 101/102 are "Employees are equal (Same ID: 101)" and "Employees are different (IDs: 101 vs 102)" |
| `Driver.RunScenario` | Program.cs:111-144 | the script shows the three display lines; 101/101 compare equal and 101/102 compare unequal, each with its trace line; constructing with id -1 fails with "Employee ID must be a positive number." |

## Left out

- Console output: the lines written by `Main` and by `operator ==`, and `Console.ReadKey`. The trace of `==` is returned as a value (`Trace`, `TraceLine`), and the driver returns what it would print. The "Validation Error: " prefix and the headings are not modelled.
- Exceptions are modelled as `Outcome`/`Result` values carrying the message. The exception type is always `ArgumentException` and is not recorded.
- `Employee.GetHashCode` has no contract of its own. It is `Int32Hash(id)`, and what the source promises of it is stated by `NamesIgnored` and `HashConsistentWithEquality`.
- The property getters are plain field reads of `id`, `firstName` and `lastName`.
- `int` is unbounded here. `Id` is only compared and formatted, so 32-bit range and overflow play no part.
- Number formatting assumes the culture's negative sign is "-". Only positive ids reach `ToString` in valid employees.
- C# `char` is a UTF-16 code unit, while Dafny's `char` is a Unicode scalar value. Every white-space character is in the Basic Multilingual Plane, so the white-space test agrees.
- `ReferenceEquals` is modelled only as the null tests; non-null equality never uses identity.
- `Equals` of a subclass instance: the class has no subclasses, so an `AnyObject` is either an `Employee`, null, or some other object.
