/** The admin's employee roster: a table of employees with add, edit, delete, activation and a filter. */
module Roster {
  import opened Common
  import opened Sequences
  import opened Text

  datatype Status = Active | Inactive

  /**
   * An employee record. The same type serves as the modal's draft (a partial employee):
   * a field the draft does not have yet is the empty string, since the page reads draft
   * fields only through their truthiness or as `value || ''`.
   */
  datatype Employee = Employee(
    id: string, name: string, code: string, email: string, phone: string,
    serviceType: ServiceType, position: string, status: Status)

  /** The filter buttons above the table: 'all' or one kind of business. */
  datatype ServiceFilter = All | Only(service: ServiceType)

  /** One input of the modal form changing its field of the draft. */
  datatype DraftEdit =
    | NameTo(name: string)
    | EmailTo(email: string)
    | PhoneTo(phone: string)
    | ServiceTypeTo(serviceType: ServiceType)
    | PositionTo(position: string)
    | StatusTo(status: Status)

  /** The draft `handleAddEmployee` opens the modal with. */
  function NewDraft(): (d: Employee)
    ensures d.serviceType == Barbearia && d.status == Active
    ensures d.id == "" && d.name == "" && d.email == "" && d.code == ""
  {
    Employee("", "", "", "", "", Barbearia, "", Active)
  }

  /** `{ ...prev, [field]: value }` for the field the edit names. */
  function ApplyEdit(d: Employee, edit: DraftEdit): Employee
  {
    match edit
    case NameTo(v) => d.(name := v)
    case EmailTo(v) => d.(email := v)
    case PhoneTo(v) => d.(phone := v)
    case ServiceTypeTo(v) => d.(serviceType := v)
    case PositionTo(v) => d.(position := v)
    case StatusTo(v) => d.(status := v)
  }

  /**
   * The code a new employee gets:
   * `${name.substring(0, 2).toUpperCase()}${count + 1}`.padStart(4, '0').
   * The padding applies to the whole string, so the fifth employee "Pedro" gets "0PE5".
   */
  function EmployeeCode(name: string, count: nat): (code: string)
    ensures |code| >= 4
    ensures var n := NatToString(count + 1); |n| <= |code| && code[|code| - |n|..] == n
  {
    var n := NatToString(count + 1);
    var s := ToUpperAscii(Prefix(name, 2)) + n;
    var code := PadStart(s, 4, '0');
    assert code[|code| - |s|..] == s;
    assert code[|code| - |n|..] == s[|s| - |n|..];
    code
  }

  /** Saving needs a draft with a name and an e-mail. */
  predicate CanSave(draft: Option<Employee>)
  {
    draft.Some? && draft.value.name != "" && draft.value.email != ""
  }

  /** Every employee whose id is the draft's is replaced by the draft. */
  function ReplaceById(employees: seq<Employee>, d: Employee): seq<Employee>
  {
    seq(|employees|, i requires 0 <= i < |employees| => if employees[i].id == d.id then d else employees[i])
  }

  /** The employee a draft becomes when it is added: a new id and a generated code. */
  function Hire(d: Employee, newId: string, count: nat): Employee
  {
    d.(id := newId, code := EmployeeCode(d.name, count))
  }

  /**
   * The list after `handleSaveEmployee`; `newId` stands for `emp-${Date.now()}`.
   * Editing a draft that has an id replaces; anything else appends.
   */
  function SaveList(employees: seq<Employee>, draft: Option<Employee>, isEditing: bool, newId: string): (r: seq<Employee>)
    ensures !CanSave(draft) ==> r == employees
    ensures CanSave(draft) && isEditing && draft.value.id != "" ==> |r| == |employees|
    ensures CanSave(draft) && !(isEditing && draft.value.id != "") ==>
      |r| == |employees| + 1 && r[..|employees|] == employees && r[|employees|].id == newId
  {
    if !CanSave(draft) then employees
    else if isEditing && draft.value.id != "" then ReplaceById(employees, draft.value)
    else employees + [Hire(draft.value, newId, |employees|)]
  }

  /** `handleDeleteEmployee`: keeps the employees whose id is not `id`. */
  function Delete(employees: seq<Employee>, id: string): (r: seq<Employee>)
    ensures |r| <= |employees| && forall i :: 0 <= i < |r| ==> r[i].id != id
  {
    var kept := Filter(employees, (e: Employee) => e.id != id);
    assert forall i :: 0 <= i < |kept| ==> kept[i] in kept;
    kept
  }

  function Flip(s: Status): Status
  {
    if s == Active then Inactive else Active
  }

  /** `handleToggleStatus`: flips active and inactive on the employees with that id. */
  function ToggleStatus(employees: seq<Employee>, id: string): (r: seq<Employee>)
    ensures |r| == |employees|
    ensures forall i :: 0 <= i < |r| ==> r[i].id == employees[i].id && (r[i].status != employees[i].status <==> employees[i].id == id)
  {
    seq(|employees|, i requires 0 <= i < |employees| =>
      if employees[i].id == id then employees[i].(status := Flip(employees[i].status)) else employees[i])
  }

  predicate Offers(t: ServiceType, e: Employee) { e.serviceType == t }

  /** `filteredEmployees`: everyone for 'all', else the employees of that kind of business. */
  function FilterByService(employees: seq<Employee>, f: ServiceFilter): (r: seq<Employee>)
    ensures |r| <= |employees|
    ensures f.Only? ==> forall i :: 0 <= i < |r| ==> r[i].serviceType == f.service
  {
    match f
    case All => employees
    case Only(t) =>
      var kept := Filter(employees, (e: Employee) => Offers(t, e));
      assert forall i :: 0 <= i < |kept| ==> kept[i] in kept;
      kept
  }

  // ---------------------------------------------------------------------------
  // Properties

  /**
   * The code is at least four characters long, ends with the upper-cased first two letters
   * of the name followed by the decimal number `count + 1`, and is padded in front with '0'.
   */
  lemma EmployeeCodeShape(name: string, count: nat)
    ensures var code := EmployeeCode(name, count);
      var n := NatToString(count + 1);
      var initials := ToUpperAscii(Prefix(name, 2));
      && |code| >= 4
      && |code| == (if |initials| + |n| < 4 then 4 else |initials| + |n|)
      && code[|code| - |n|..] == n
      && code[|code| - |n| - |initials|..|code| - |n|] == initials
      && (forall i :: 0 <= i < |code| - |n| - |initials| ==> code[i] == '0')
      && |initials| == (if |name| < 2 then |name| else 2)
      && (forall i :: 0 <= i < |initials| ==> initials[i] == UpperChar(name[i]))
  {
    var n := NatToString(count + 1);
    var p := Prefix(name, 2);
    var initials := ToUpperAscii(p);
    assert EmployeeCode(name, count) == PadStart(initials + n, 4, '0');
    PaddedPair(initials, n, 4, '0');
    assert forall i :: 0 <= i < |initials| ==> p[i] == name[i];
  }

  /** Padding `a + b` in front leaves `b` at the end, `a` just before it and fill before that. */
  lemma PaddedPair(a: string, b: string, w: nat, fill: char)
    ensures var code := PadStart(a + b, w, fill);
      && |code| == (if |a| + |b| < w then w else |a| + |b|)
      && code[|code| - |b|..] == b
      && code[|code| - |b| - |a|..|code| - |b|] == a
      && forall i :: 0 <= i < |code| - |b| - |a| ==> code[i] == fill
  {
    var s := a + b;
    var code := PadStart(s, w, fill);
    assert code[|code| - |s|..] == s;
    assert code[|code| - |b|..] == s[|a|..];
    assert code[|code| - |b| - |a|..|code| - |b|] == s[..|a|];
  }

  /** The number in the code reads back as the roster's new size. */
  lemma EmployeeCodeNumber(name: string, count: nat)
    ensures var code := EmployeeCode(name, count);
      var k := |NatToString(count + 1)|;
      k <= |code| && AllDigits(code[|code| - k..]) && ParseNat(code[|code| - k..]) == count + 1
  {
    EmployeeCodeShape(name, count);
    ParseNatToString(count + 1);
  }

  /** The fifth employee "Pedro" is given "0PE5". */
  lemma EmployeeCodeExample()
    ensures EmployeeCode("Pedro", 4) == "0PE5"
  {
    assert Prefix("Pedro", 2) == "Pe";
    assert ToUpperAscii("Pe") == "PE";
    assert NatToString(5) == "5";
    assert Repeat('0', 1) == "0";
  }

  /** A draft without name or e-mail (or no draft at all) leaves the list as it is. */
  lemma SaveRejected(employees: seq<Employee>, draft: Option<Employee>, isEditing: bool, newId: string)
    requires draft.None? || draft.value.name == "" || draft.value.email == ""
    ensures SaveList(employees, draft, isEditing, newId) == employees
  {
  }

  /** Saving an edit replaces the records with the draft's id; length, order and the rest stay. */
  lemma SaveEdits(employees: seq<Employee>, d: Employee, newId: string)
    requires d.name != "" && d.email != "" && d.id != ""
    ensures var r := SaveList(employees, Some(d), true, newId);
      && |r| == |employees|
      && forall i :: 0 <= i < |employees| ==> r[i] == if employees[i].id == d.id then d else employees[i]
  {
  }

  /**
   * Saving a new employee appends exactly one record, which is the draft with the new id
   * and the generated code; the earlier records stay as they were.
   */
  lemma SaveAppends(employees: seq<Employee>, d: Employee, isEditing: bool, newId: string)
    requires d.name != "" && d.email != ""
    requires !isEditing || d.id == ""
    ensures var r := SaveList(employees, Some(d), isEditing, newId);
      && |r| == |employees| + 1
      && r[..|employees|] == employees
      && r[|employees|].id == newId
      && r[|employees|].code == EmployeeCode(d.name, |employees|)
      && r[|employees|] == d.(id := newId, code := r[|employees|].code)
  {
  }

  /** Toggling flips the status of exactly the employees with that id and nothing else. */
  lemma ToggleStatusFrame(employees: seq<Employee>, id: string)
    ensures var r := ToggleStatus(employees, id);
      && |r| == |employees|
      && forall i :: 0 <= i < |employees| ==>
           && r[i].(status := employees[i].status) == employees[i]
           && (r[i].status == Active <==> (employees[i].status == Active) != (employees[i].id == id))
  {
  }

  /** Toggling the same id twice is the identity. */
  lemma ToggleStatusTwice(employees: seq<Employee>, id: string)
    ensures ToggleStatus(ToggleStatus(employees, id), id) == employees
  {
    var once := ToggleStatus(employees, id);
    var twice := ToggleStatus(once, id);
    forall i | 0 <= i < |employees| ensures twice[i] == employees[i] {
      assert once[i].id == employees[i].id;
    }
  }

  /** Deleting drops every record with the id and keeps all others in their order. */
  lemma DeleteSpec(employees: seq<Employee>, id: string)
    ensures var r := Delete(employees, id);
      && (forall i :: 0 <= i < |r| ==> r[i].id != id)
      && IsSubsequence(r, employees)
      && forall e: Employee :: e in employees && e.id != id ==> multiset(r)[e] == multiset(employees)[e]
  {
    var r := Delete(employees, id);
    FilterSpec(employees, (e: Employee) => e.id != id);
    assert forall i :: 0 <= i < |r| ==> r[i] in r;
  }

  /** 'all' shows the whole list. */
  lemma FilterAllIsIdentity(employees: seq<Employee>)
    ensures FilterByService(employees, All) == employees
  {
  }

  /**
   * Any one kind of business shows, in their order, exactly the employees of that kind:
   * each as often as in the roster, and nobody else.
   */
  lemma FilterOnlyExact(employees: seq<Employee>, t: ServiceType)
    ensures var r := FilterByService(employees, Only(t));
      && (forall i :: 0 <= i < |r| ==> r[i].serviceType == t)
      && IsSubsequence(r, employees)
      && (forall e: Employee :: e.serviceType == t ==> multiset(r)[e] == multiset(employees)[e])
      && (r == employees <==> forall e :: e in employees ==> e.serviceType == t)
  {
    var p := (e: Employee) => Offers(t, e);
    var r := FilterByService(employees, Only(t));
    FilterSpec(employees, p);
    FilterKeepsAll(employees, p);
    assert forall i :: 0 <= i < |r| ==> r[i] in r;
  }

  // ---------------------------------------------------------------------------

  /** The employee-management page: each field is one of its state variables. */
  class EmployeeManagement {
    var employees: seq<Employee>
    var modalOpen: bool
    var currentEmployee: Option<Employee>
    var isEditing: bool
    var selectedServiceType: ServiceFilter

    /** The modal is only ever open on a draft. */
    ghost predicate Valid()
      reads this
    {
      modalOpen ==> currentEmployee.Some?
    }

    /** The page once its mock roster is loaded. */
    constructor ()
      ensures Valid()
      ensures employees == [
        Employee("1", "Carlos Silva", "CS001", "carlos@example.com", "(11) 99999-9999", Barbearia, "Barbeiro Sênior", Active),
        Employee("2", "Maria Oliveira", "MO002", "maria@example.com", "(11) 88888-8888", Barbearia, "Barbeira", Active),
        Employee("3", "João Santos", "JS003", "joao@example.com", "(11) 77777-7777", Lavagem, "Lavador", Active),
        Employee("4", "Ana Lima", "AL004", "ana@example.com", "(11) 66666-6666", Estetica, "Esteticista Automotiva", Inactive)]
      ensures !modalOpen && currentEmployee == None && !isEditing && selectedServiceType == All
    {
      employees := [
        Employee("1", "Carlos Silva", "CS001", "carlos@example.com", "(11) 99999-9999", Barbearia, "Barbeiro Sênior", Active),
        Employee("2", "Maria Oliveira", "MO002", "maria@example.com", "(11) 88888-8888", Barbearia, "Barbeira", Active),
        Employee("3", "João Santos", "JS003", "joao@example.com", "(11) 77777-7777", Lavagem, "Lavador", Active),
        Employee("4", "Ana Lima", "AL004", "ana@example.com", "(11) 66666-6666", Estetica, "Esteticista Automotiva", Inactive)];
      modalOpen := false;
      currentEmployee := None;
      isEditing := false;
      selectedServiceType := All;
    }

    /** `handleAddEmployee`: opens the modal on a fresh draft. */
    method AddEmployee()
      requires Valid()
      modifies this
      ensures Valid()
      ensures currentEmployee == Some(NewDraft()) && !isEditing && modalOpen
      ensures employees == old(employees) && selectedServiceType == old(selectedServiceType)
    {
      currentEmployee := Some(NewDraft());
      isEditing := false;
      modalOpen := true;
    }

    /** `handleEditEmployee`: opens the modal on a copy of the employee. */
    method EditEmployee(e: Employee)
      requires Valid()
      modifies this
      ensures Valid()
      ensures currentEmployee == Some(e) && isEditing && modalOpen
      ensures employees == old(employees) && selectedServiceType == old(selectedServiceType)
    {
      currentEmployee := Some(e);
      isEditing := true;
      modalOpen := true;
    }

    /** One of the modal's inputs changes its field of the draft. */
    method EditDraft(edit: DraftEdit)
      requires Valid() && modalOpen
      modifies this
      ensures Valid()
      ensures currentEmployee == Some(ApplyEdit(old(currentEmployee).value, edit))
      ensures modalOpen && isEditing == old(isEditing)
      ensures employees == old(employees) && selectedServiceType == old(selectedServiceType)
    {
      currentEmployee := Some(ApplyEdit(currentEmployee.value, edit));
    }

    /**
     * `handleSaveEmployee`: without a name or an e-mail nothing happens; otherwise the list
     * is updated, the modal closes and the draft is cleared.
     */
    method SaveEmployee(newId: string)
      requires Valid()
      modifies this
      ensures Valid()
      ensures employees == SaveList(old(employees), old(currentEmployee), old(isEditing), newId)
      ensures CanSave(old(currentEmployee)) ==> !modalOpen && currentEmployee == None
      ensures !CanSave(old(currentEmployee)) ==> modalOpen == old(modalOpen) && currentEmployee == old(currentEmployee)
      ensures isEditing == old(isEditing) && selectedServiceType == old(selectedServiceType)
    {
      if currentEmployee.None? || currentEmployee.value.name == "" || currentEmployee.value.email == "" {
        return;
      }
      var d := currentEmployee.value;
      if isEditing && d.id != "" {
        employees := ReplaceById(employees, d);
      } else {
        var newEmployee := d.(id := newId, code := EmployeeCode(d.name, |employees|));
        employees := employees + [newEmployee];
      }
      modalOpen := false;
      currentEmployee := None;
    }

    /** `handleDeleteEmployee(id)`. */
    method DeleteEmployee(id: string)
      requires Valid()
      modifies this
      ensures Valid()
      ensures employees == Delete(old(employees), id)
      ensures modalOpen == old(modalOpen) && currentEmployee == old(currentEmployee)
      ensures isEditing == old(isEditing) && selectedServiceType == old(selectedServiceType)
    {
      employees := Filter(employees, (e: Employee) => e.id != id);
    }

    /** `handleToggleStatus(id)`. */
    method ToggleEmployeeStatus(id: string)
      requires Valid()
      modifies this
      ensures Valid()
      ensures employees == ToggleStatus(old(employees), id)
      ensures modalOpen == old(modalOpen) && currentEmployee == old(currentEmployee)
      ensures isEditing == old(isEditing) && selectedServiceType == old(selectedServiceType)
    {
      employees := ToggleStatus(employees, id);
    }

    /** A filter button. */
    method SelectServiceType(f: ServiceFilter)
      requires Valid()
      modifies this
      ensures Valid()
      ensures selectedServiceType == f
      ensures employees == old(employees) && modalOpen == old(modalOpen)
      ensures currentEmployee == old(currentEmployee) && isEditing == old(isEditing)
    {
      selectedServiceType := f;
    }

    /** The modal's close control: closes and drops the draft. */
    method CloseModal()
      requires Valid()
      modifies this
      ensures Valid()
      ensures !modalOpen && currentEmployee == None
      ensures employees == old(employees) && isEditing == old(isEditing)
      ensures selectedServiceType == old(selectedServiceType)
    {
      modalOpen := false;
      currentEmployee := None;
    }

    /** The modal's cancel button: closes, but keeps the draft. */
    method CancelModal()
      requires Valid()
      modifies this
      ensures Valid()
      ensures !modalOpen && currentEmployee == old(currentEmployee)
      ensures employees == old(employees) && isEditing == old(isEditing)
      ensures selectedServiceType == old(selectedServiceType)
    {
      modalOpen := false;
    }

    /** The rows the table shows: `filteredEmployees`. */
    function FilteredEmployees(): (r: seq<Employee>)
      reads this
      ensures selectedServiceType == All ==> r == employees
      ensures selectedServiceType.Only? ==> forall i :: 0 <= i < |r| ==> r[i].serviceType == selectedServiceType.service
      ensures forall i :: 0 <= i < |r| ==> r[i] in employees
      ensures selectedServiceType.Only? ==>
        && IsSubsequence(r, employees)
        && forall e: Employee :: e.serviceType == selectedServiceType.service ==> multiset(r)[e] == multiset(employees)[e]
    {
      var f := selectedServiceType;
      var r := FilterByService(employees, f);
      if f.Only? then
        FilterOnlyExact(employees, f.service);
        assert forall i :: 0 <= i < |r| ==> r[i] in r;
        r
      else r
    }
  }
}
