/** The bill-splitter view: a list of shared bills, an add form, and the summary figures. */
module BillSplitter {
  import opened Expenses

  /** A bill has exactly the shape of an expense. */
  type Bill = Expense

  /** The three bills the view starts with. */
  const MockBills: seq<Bill> := [
    Expense("1", "Monthly Rent - July", 2400.0, "rent", You, ["Sarah Chen"], "2024-07-01", true),
    Expense("2", "Electricity Bill", 120.0, "utilities", "Sarah Chen", [You], "2024-07-05", false),
    Expense("3", "Groceries - Week 1", 85.0, "groceries", You, ["Sarah Chen"], "2024-07-08", false)
  ]

  /** On the starting data the view shows a total of 2605, a balance of +1182.50 and 2 pending. */
  lemma MockFigures()
    ensures Total(MockBills) == 2605.0
    ensures YourBalance(MockBills) == 1182.5
    ensures UnsettledCount(MockBills) == 2
  {
    var es := MockBills;
    var t1 := es[1..];
    var t2 := t1[1..];
    assert t2[1..] == [];
    assert Contribution(es[2]) == 42.5 && Contribution(es[1]) == -60.0;
    assert Sum(t2) == 85.0 && NetBalance(t2) == 42.5 && CountPending(t2) == 1;
    assert Sum(t1) == 205.0 && NetBalance(t1) == -17.5 && CountPending(t1) == 2;
  }

  /** The component's state. */
  class Splitter {
    var bills: seq<Bill>
    var showForm: bool
    var formData: ExpenseForm

    constructor ()
      ensures bills == MockBills && !showForm && formData == DefaultForm
    {
      bills := MockBills;
      showForm := false;
      formData := DefaultForm;
    }

    /** The "Add Bill" button (`setShowForm(true)`). */
    method OpenForm()
      modifies this
      ensures showForm && bills == old(bills) && formData == old(formData)
    {
      showForm := true;
    }

    /** The form's "Cancel" button (`setShowForm(false)`). */
    method CancelForm()
      modifies this
      ensures !showForm && bills == old(bills) && formData == old(formData)
    {
      showForm := false;
    }

    /** One input of the form changed. */
    method Edit(e: FormEdit)
      modifies this
      ensures formData == ApplyEdit(old(formData), e)
      ensures bills == old(bills) && showForm == old(showForm)
    {
      formData := ApplyEdit(formData, e);
    }

    /**
     * `handleSubmit`: prepend a new unsettled bill built from the form,
     * hide the form and reset it. `id` (from the clock), `amount` (the form's
     * amount text, parsed) and `date` (today) are supplied by the caller.
     */
    method Submit(id: string, amount: real, date: string)
      modifies this
      ensures bills == [NewExpense(old(formData), id, amount, date)] + old(bills)
      ensures !showForm && formData == DefaultForm
      ensures Total(bills) == amount + Total(old(bills))
      ensures UnsettledCount(bills) == UnsettledCount(old(bills)) + 1
    {
      var newBill := NewExpense(formData, id, amount, date);
      Prepend(bills, newBill);
      bills := [newBill] + bills;
      showForm := false;
      formData := DefaultForm;
    }
  }
}
