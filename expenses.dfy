/** The employee's expense log: a form that prepends expenses to a list, and its date display. */
module Expenses {
  import opened Common
  import opened Text

  /**
   * A logged expense. `amount` is the text entered in the amount field, the string the
   * form hands to `parseFloat`; the floating-point value itself is not modelled.
   */
  datatype Expense = Expense(id: string, name: string, amount: string, date: string, receipt: Option<File>)

  /**
   * Element `i` of an array destructuring `const [year, month, day] = parts`: a missing
   * element is `undefined`, which a template literal prints as "undefined".
   */
  function Segment(parts: seq<string>, i: nat): (r: string)
    ensures r in parts || r == "undefined"
  {
    if i < |parts| then parts[i] else "undefined"
  }

  /** `formatDate`: shows a `YYYY-MM-DD` date as `DD/MM/YYYY` by reordering its '-' pieces. */
  function FormatDate(dateString: string): (r: string)
    ensures '/' !in dateString ==> multiset(r)['/'] == 2
  {
    var parts := Split(dateString, '-');
    var day, month, year := Segment(parts, 2), Segment(parts, 1), Segment(parts, 0);
    assert '/' !in dateString ==> multiset(day + "/" + month + "/" + year)['/'] == 2 by {
      if '/' !in dateString {
        SegmentWithout(parts, 2, dateString, '/');
        SegmentWithout(parts, 1, dateString, '/');
        SegmentWithout(parts, 0, dateString, '/');
        CountSeparators(day, month, year, '/');
      }
    }
    day + "/" + month + "/" + year
  }

  /** A piece of a split, or the "undefined" of a missing one, lacks what the text lacks. */
  lemma SegmentWithout(parts: seq<string>, i: nat, s: string, c: char)
    requires parts == Split(s, '-') && c !in s && c !in "undefined"
    ensures c !in Segment(parts, i)
  {
    SplitPiecesWithin(s, '-', c);
    if i < |parts| {
      assert parts[i] in parts;
    }
  }

  /** Two separators between three pieces free of the separator. */
  lemma CountSeparators(a: string, b: string, c: string, sep: char)
    requires sep !in a && sep !in b && sep !in c
    ensures multiset(a + [sep] + b + [sep] + c)[sep] == 2
  {
    assert multiset(a + [sep] + b + [sep] + c) == multiset(a) + multiset([sep]) + multiset(b) + multiset([sep]) + multiset(c);
  }

  /** The date part of an ISO timestamp: `new Date().toISOString().split('T')[0]`. */
  function DatePart(isoTimestamp: string): (r: string)
    ensures 'T' !in r
    ensures |r| <= |isoTimestamp| && r == isoTimestamp[..|r|]
    ensures |r| < |isoTimestamp| ==> isoTimestamp[|r|] == 'T'
  {
    var parts := Split(isoTimestamp, 'T');
    assert parts[0] in parts;
    if 'T' in isoTimestamp then
      assert parts[0] == isoTimestamp[..IndexOf(isoTimestamp, 'T')];
      parts[0]
    else parts[0]
  }

  /** Joining three pieces puts the separator between the first two and the last two. */
  lemma JoinThree(a: string, b: string, c: string, sep: char)
    ensures Join([a, b, c], sep) == a + [sep] + b + [sep] + c
  {
    assert [a, b, c][1..] == [b, c];
    assert [b, c][1..] == [c];
    assert Join([c], sep) == c;
    assert Join([b, c], sep) == b + [sep] + c;
  }

  /** On a well-formed date the three pieces come out day first, separated by '/'. */
  lemma FormatDateReorders(year: string, month: string, day: string)
    requires '-' !in year && '-' !in month && '-' !in day
    ensures FormatDate(year + "-" + month + "-" + day) == day + "/" + month + "/" + year
  {
    JoinThree(year, month, day, '-');
    SplitJoin([year, month, day], '-');
  }

  /**
   * For an input with exactly two '-' and no '/', splitting the output on '/' gives the
   * input's '-' pieces in reverse order, and the output is as long as the input.
   */
  lemma FormatDateRoundTrip(s: string)
    requires multiset(s)['-'] == 2
    requires '/' !in s
    ensures var p := Split(s, '-');
      && |p| == 3
      && Split(FormatDate(s), '/') == [p[2], p[1], p[0]]
      && |FormatDate(s)| == |s|
  {
    var p := Split(s, '-');
    SplitCount(s, '-');
    var y, m, d := p[0], p[1], p[2];
    assert p == [y, m, d];
    JoinThree(y, m, d, '-');
    NoSlashInPieces(y, m, d, '-');
    FormatDateOfThree(s);
    SplitThree(d, m, y, '/');
  }

  /** Three pieces free of the separator come back from splitting their join. */
  lemma SplitThree(a: string, b: string, c: string, sep: char)
    requires sep !in a && sep !in b && sep !in c
    ensures Split(a + [sep] + b + [sep] + c, sep) == [a, b, c]
  {
    JoinThree(a, b, c, sep);
    SplitJoin([a, b, c], sep);
  }

  /** With three '-' pieces, the output is those pieces reversed around two '/'. */
  lemma FormatDateOfThree(s: string)
    requires |Split(s, '-')| == 3
    ensures var p := Split(s, '-');
      FormatDate(s) == p[2] + "/" + p[1] + "/" + p[0]
  {
  }

  /** A character absent from a joined string is absent from each of its pieces. */
  lemma NoSlashInPieces(a: string, b: string, c: string, sep: char)
    requires '/' !in a + [sep] + b + [sep] + c
    ensures '/' !in a && '/' !in b && '/' !in c
  {
    var j := a + [sep] + b + [sep] + c;
    assert forall i :: 0 <= i < |a| ==> a[i] == j[i];
    assert forall i :: 0 <= i < |b| ==> b[i] == j[|a| + 1 + i];
    assert forall i :: 0 <= i < |c| ==> c[i] == j[|a| + |b| + 2 + i];
  }

  /** A date without any '-' is printed with its missing month and day as "undefined". */
  lemma FormatDateWithoutDashes(s: string)
    requires '-' !in s
    ensures FormatDate(s) == "undefined/undefined/" + s
  {
  }

  /** The expense form: its input fields and the list of logged expenses, newest first. */
  class ExpenseForm {
    var expenseName: string
    var expenseAmount: string
    var expenseDate: string
    var expenseReceipt: Option<File>
    var expenses: seq<Expense>

    /** The form as first shown: empty fields, today's date, and the two sample expenses. */
    constructor (nowIso: string)
      ensures expenseName == "" && expenseAmount == "" && expenseReceipt == None
      ensures expenseDate == DatePart(nowIso)
      ensures expenses == [
        Expense("1", "Produtos de limpeza", "120", "2023-09-15", None),
        Expense("2", "Manutenção de equipamentos", "350", "2023-09-10", None)]
    {
      expenseName := "";
      expenseAmount := "";
      expenseDate := DatePart(nowIso);
      expenseReceipt := None;
      expenses := [
        Expense("1", "Produtos de limpeza", "120", "2023-09-15", None),
        Expense("2", "Manutenção de equipamentos", "350", "2023-09-10", None)];
    }

    /** Typing in the name field. */
    method SetExpenseName(value: string)
      modifies this
      ensures expenseName == value
      ensures expenseAmount == old(expenseAmount) && expenseDate == old(expenseDate)
      ensures expenseReceipt == old(expenseReceipt) && expenses == old(expenses)
    {
      expenseName := value;
    }

    /** Typing in the amount field. */
    method SetExpenseAmount(value: string)
      modifies this
      ensures expenseAmount == value
      ensures expenseName == old(expenseName) && expenseDate == old(expenseDate)
      ensures expenseReceipt == old(expenseReceipt) && expenses == old(expenses)
    {
      expenseAmount := value;
    }

    /** Picking a date. */
    method SetExpenseDate(value: string)
      modifies this
      ensures expenseDate == value
      ensures expenseName == old(expenseName) && expenseAmount == old(expenseAmount)
      ensures expenseReceipt == old(expenseReceipt) && expenses == old(expenses)
    {
      expenseDate := value;
    }

    /** `handleFileChange`: the first selected file becomes the receipt; no selection changes nothing. */
    method HandleFileChange(files: seq<File>)
      modifies this
      ensures |files| > 0 ==> expenseReceipt == Some(files[0])
      ensures |files| == 0 ==> expenseReceipt == old(expenseReceipt)
      ensures expenseName == old(expenseName) && expenseAmount == old(expenseAmount)
      ensures expenseDate == old(expenseDate) && expenses == old(expenses)
    {
      if |files| > 0 {
        expenseReceipt := Some(files[0]);
      }
    }

    /**
     * `handleSubmit`: the entered expense goes in front of the list, which otherwise keeps
     * its order, and the form is reset. `newId` stands for `Date.now().toString()` and
     * `nowIso` for the clock's ISO timestamp.
     */
    method HandleSubmit(newId: string, nowIso: string)
      modifies this
      ensures expenses == [Expense(newId, old(expenseName), old(expenseAmount), old(expenseDate), old(expenseReceipt))] + old(expenses)
      ensures |expenses| == |old(expenses)| + 1 && expenses[1..] == old(expenses)
      ensures expenseName == "" && expenseAmount == "" && expenseReceipt == None
      ensures expenseDate == DatePart(nowIso)
    {
      var newExpense := Expense(newId, expenseName, expenseAmount, expenseDate, expenseReceipt);
      expenses := [newExpense] + expenses;
      expenseName := "";
      expenseAmount := "";
      expenseDate := DatePart(nowIso);
      expenseReceipt := None;
    }
  }
}
