/**
 * The shared-expense record and the three summary figures shown above the
 * expense list (total, the viewer's balance, the number of pending splits),
 * plus the category table. ExpenseTracker and BillSplitter use exactly this
 * logic; only their names differ.
 */
module Expenses {
  import opened Wrappers

  /** The viewer's own name, as it appears in `paidBy` and `splitWith`. */
  const You: string := "You"

  datatype Expense = Expense(
    id: string,
    description: string,
    amount: real,
    category: string,
    paidBy: string,
    splitWith: seq<string>,
    date: string,
    settled: bool)

  /** The add-expense form; the amount is still the text typed in. */
  datatype ExpenseForm = ExpenseForm(
    description: string,
    amount: string,
    category: string,
    paidBy: string,
    splitWith: seq<string>)

  /** The form as first shown and as reset after a submission. */
  const DefaultForm: ExpenseForm := ExpenseForm("", "", "other", You, ["Sarah Chen"])

  /** One input of the form changed (`setFormData({ ...formData, field: value })`). */
  datatype FormEdit =
    | EditDescription(description: string)
    | EditAmount(amount: string)
    | EditCategory(category: string)
    | EditPaidBy(paidBy: string)

  function ApplyEdit(f: ExpenseForm, e: FormEdit): (r: ExpenseForm)
    ensures r.splitWith == f.splitWith
    ensures r.description == (if e.EditDescription? then e.description else f.description)
    ensures r.amount == (if e.EditAmount? then e.amount else f.amount)
    ensures r.category == (if e.EditCategory? then e.category else f.category)
    ensures r.paidBy == (if e.EditPaidBy? then e.paidBy else f.paidBy)
  {
    match e
    case EditDescription(d) => f.(description := d)
    case EditAmount(a) => f.(amount := a)
    case EditCategory(c) => f.(category := c)
    case EditPaidBy(p) => f.(paidBy := p)
  }

  /**
   * The record a submission adds: the form's fields, the parsed amount, a
   * fresh id and today's date (both supplied by the caller), and unsettled.
   */
  function NewExpense(f: ExpenseForm, id: string, amount: real, date: string): (e: Expense)
    ensures !e.settled && e.amount == amount && e.id == id && e.date == date
    ensures e.description == f.description && e.category == f.category
    ensures e.paidBy == f.paidBy && e.splitWith == f.splitWith
  {
    Expense(id, f.description, amount, f.category, f.paidBy, f.splitWith, date, false)
  }

  // ---------------------------------------------------------------------------
  // The equal split

  /** Everyone named on the expense, the payer included; never zero. */
  function Parties(e: Expense): (n: nat)
    ensures n >= 1 && n == |e.splitWith| + 1
  {
    |e.splitWith| + 1
  }

  /** `amount / (splitWith.length + 1)`: one party's share of the expense. */
  function Share(e: Expense): (s: real)
    ensures s * Parties(e) as real == e.amount
  {
    e.amount / (|e.splitWith| + 1) as real
  }

  /** For a non-negative amount a share lies between 0 and the whole amount. */
  lemma ShareBounds(e: Expense)
    ensures e.amount >= 0.0 ==> 0.0 <= Share(e) <= e.amount
  {
    var s, n := Share(e), Parties(e) as real;
    assert s * n == e.amount && n >= 1.0;
    if e.amount >= 0.0 {
      assert s * n - s == s * (n - 1.0);
      assert s * (n - 1.0) >= 0.0;
    }
  }

  /**
   * What one expense adds to the viewer's balance: a payer is owed every
   * co-payer's share, anyone else owes one share. Note that "anyone else"
   * includes a viewer who is not named in `splitWith` at all. It is the
   * `reduce` callback applied to a zero balance.
   */
  function Contribution(e: Expense): (c: real)
    ensures e.paidBy == You ==> c == Share(e) * |e.splitWith| as real
    ensures e.paidBy != You ==> c == -Share(e)
    ensures e.amount >= 0.0 && e.paidBy == You ==> 0.0 <= c <= e.amount
    ensures e.amount >= 0.0 && e.paidBy != You ==> -e.amount <= c <= 0.0
  {
    ShareBounds(e);
    BalanceStep(0.0, e)
  }

  /** A viewer who neither paid nor shares the expense is still charged a share. */
  lemma PhantomCharge(e: Expense)
    requires e.paidBy != You && You !in e.splitWith && e.amount > 0.0
    ensures Contribution(e) < 0.0
    ensures Contribution(e) * Parties(e) as real == -e.amount
  {
  }

  // ---------------------------------------------------------------------------
  // The three figures, as the reductions compute them

  /** The callback of `reduce((sum, e) => sum + e.amount, 0)`. */
  function TotalStep(sum: real, e: Expense): real {
    sum + e.amount
  }

  /** `es.reduce(TotalStep, acc)`: a left fold from `acc`. */
  function TotalFrom(acc: real, es: seq<Expense>): real
    decreases |es|
  {
    if es == [] then acc else TotalFrom(TotalStep(acc, es[0]), es[1..])
  }

  /** The "Total Expenses" figure. */
  function Total(es: seq<Expense>): (t: real)
    ensures t == Sum(es)
  {
    TotalFromIsSum(0.0, es);
    TotalFrom(0.0, es)
  }

  /** The callback of the balance `reduce`. */
  function BalanceStep(balance: real, e: Expense): real {
    var splitAmount := e.amount / (|e.splitWith| + 1) as real;
    if e.paidBy == You then balance + (e.amount - splitAmount)
    else balance - splitAmount
  }

  /** `es.reduce(BalanceStep, acc)`. */
  function BalanceFrom(acc: real, es: seq<Expense>): real
    decreases |es|
  {
    if es == [] then acc else BalanceFrom(BalanceStep(acc, es[0]), es[1..])
  }

  /** The "Your Balance" figure. */
  function YourBalance(es: seq<Expense>): (b: real)
    ensures b == NetBalance(es)
  {
    BalanceFromIsNet(0.0, es);
    BalanceFrom(0.0, es)
  }

  /**
   * `es.filter(e => !e.settled)`: the records still pending, in order.
   * Its length is the "Pending" figure.
   */
  function Unsettled(es: seq<Expense>): (r: seq<Expense>)
    ensures forall e :: multiset(r)[e] == if e.settled then 0 else multiset(es)[e]
    ensures forall e :: e in r ==> !e.settled && e in es
  {
    if es == [] then []
    else
      assert es == [es[0]] + es[1..];
      if es[0].settled then Unsettled(es[1..]) else [es[0]] + Unsettled(es[1..])
  }

  /** The "Pending" figure. */
  function UnsettledCount(es: seq<Expense>): (n: nat)
    ensures n == CountPending(es) && n <= |es|
  {
    UnsettledCountIsPending(es);
    |Unsettled(es)|
  }

  // ---------------------------------------------------------------------------
  // Reference definitions and the lemmas that connect them to the reductions

  /** The sum of all amounts, element by element from the front. */
  function Sum(es: seq<Expense>): real {
    if es == [] then 0.0 else es[0].amount + Sum(es[1..])
  }

  /** The viewer's net position: the sum of every expense's contribution. */
  function NetBalance(es: seq<Expense>): real {
    if es == [] then 0.0 else Contribution(es[0]) + NetBalance(es[1..])
  }

  /** The number of records with `settled == false`. */
  function CountPending(es: seq<Expense>): nat {
    if es == [] then 0 else (if es[0].settled then 0 else 1) + CountPending(es[1..])
  }

  lemma {:induction false} TotalFromIsSum(acc: real, es: seq<Expense>)
    ensures TotalFrom(acc, es) == acc + Sum(es)
    decreases |es|
  {
    if es != [] {
      TotalFromIsSum(acc + es[0].amount, es[1..]);
    }
  }

  /** The total is the sum of the amounts: 0 for no records, and one record adds its amount. */
  lemma TotalIsSum(es: seq<Expense>)
    ensures Total(es) == Sum(es)
    ensures Total([]) == 0.0
    ensures forall e :: Total([e] + es) == e.amount + Total(es)
  {
    TotalFromIsSum(0.0, es);
    forall e ensures Total([e] + es) == e.amount + Total(es) {
      TotalFromIsSum(0.0, [e] + es);
      assert ([e] + es)[1..] == es;
    }
  }

  /** The callback adds the same contribution whatever balance it starts from. */
  lemma BalanceStepAdds(balance: real, e: Expense)
    ensures BalanceStep(balance, e) == balance + Contribution(e)
  {
  }

  lemma {:induction false} BalanceFromIsNet(acc: real, es: seq<Expense>)
    ensures BalanceFrom(acc, es) == acc + NetBalance(es)
    decreases |es|
  {
    if es != [] {
      BalanceStepAdds(acc, es[0]);
      BalanceFromIsNet(BalanceStep(acc, es[0]), es[1..]);
    }
  }

  /** The balance is the sum of the contributions; one more record adds its own. */
  lemma YourBalanceIsNet(es: seq<Expense>)
    ensures YourBalance(es) == NetBalance(es)
    ensures YourBalance([]) == 0.0
    ensures forall e :: YourBalance([e] + es) == Contribution(e) + YourBalance(es)
  {
    BalanceFromIsNet(0.0, es);
    forall e ensures YourBalance([e] + es) == Contribution(e) + YourBalance(es) {
      BalanceFromIsNet(0.0, [e] + es);
      assert ([e] + es)[1..] == es;
    }
  }

  /** The pending figure counts exactly the records with `settled == false`. */
  lemma {:induction false} UnsettledCountIsPending(es: seq<Expense>)
    ensures |Unsettled(es)| == CountPending(es) && CountPending(es) <= |es|
  {
    if es != [] {
      UnsettledCountIsPending(es[1..]);
    }
  }

  /** With non-negative amounts the balance never exceeds the total in either direction. */
  lemma {:induction false} BalanceBounded(es: seq<Expense>)
    requires forall i :: 0 <= i < |es| ==> es[i].amount >= 0.0
    ensures -Sum(es) <= NetBalance(es) <= Sum(es)
  {
    if es != [] {
      BalanceBounded(es[1..]);
    }
  }

  /**
   * Submitting prepends an unsettled record: one more element, the new one
   * first, the old ones after it unchanged; the total grows by its amount,
   * the balance by its contribution, and the pending count by exactly one.
   */
  lemma Prepend(es: seq<Expense>, e: Expense)
    requires !e.settled
    ensures |[e] + es| == |es| + 1 && ([e] + es)[0] == e && ([e] + es)[1..] == es
    ensures Total([e] + es) == e.amount + Total(es)
    ensures YourBalance([e] + es) == Contribution(e) + YourBalance(es)
    ensures UnsettledCount([e] + es) == UnsettledCount(es) + 1
  {
    TotalIsSum(es);
    YourBalanceIsNet(es);
    assert ([e] + es)[1..] == es;
  }

  // ---------------------------------------------------------------------------
  // Category table

  datatype Category = Category(value: string, labelText: string, color: string)

  const Categories: seq<Category> := [
    Category("rent", "Rent", "bg-blue-500"),
    Category("utilities", "Utilities", "bg-yellow-500"),
    Category("groceries", "Groceries", "bg-green-500"),
    Category("maintenance", "Maintenance", "bg-red-500"),
    Category("other", "Other", "bg-gray-500")
  ]

  /** The position of the first entry whose value is `v`, or `|cats|` when there is none. */
  function IndexOf(cats: seq<Category>, v: string): (i: nat)
    ensures i <= |cats|
    ensures i < |cats| ==> cats[i].value == v
    ensures forall j :: 0 <= j < i ==> cats[j].value != v
  {
    if cats == [] then 0
    else if cats[0].value == v then 0
    else 1 + IndexOf(cats[1..], v)
  }

  /** `cats.find(cat => cat.value === v)`. */
  function Find(cats: seq<Category>, v: string): (r: Option<Category>)
    ensures r.None? <==> forall c :: c in cats ==> c.value != v
    ensures r.Some? ==> r.value in cats && r.value.value == v
    ensures r.Some? ==> exists i :: 0 <= i < |cats| && cats[i] == r.value &&
                                    forall j :: 0 <= j < i ==> cats[j].value != v
  {
    var i := IndexOf(cats, v);
    if i < |cats| then Some(cats[i]) else None
  }

  /** `find(...)?.color || 'bg-gray-500'`. */
  function CategoryColor(category: string): (color: string)
    ensures forall c :: c in Categories && c.value == category ==> color == c.color
    ensures (forall c :: c in Categories ==> c.value != category) ==> color == "bg-gray-500"
  {
    match Find(Categories, category)
    case Some(c) => if c.color != "" then c.color else "bg-gray-500"
    case None => "bg-gray-500"
  }

  /** `find(...)?.label || 'Other'`. */
  function CategoryLabel(category: string): (text: string)
    ensures forall c :: c in Categories && c.value == category ==> text == c.labelText
    ensures (forall c :: c in Categories ==> c.value != category) ==> text == "Other"
  {
    match Find(Categories, category)
    case Some(c) => if c.labelText != "" then c.labelText else "Other"
    case None => "Other"
  }

  /** The label falls back to "Other" exactly for the "other" value and for every unknown value. */
  lemma LabelOther(category: string)
    ensures CategoryLabel(category) == "Other" <==>
            category !in {"rent", "utilities", "groceries", "maintenance"}
    ensures CategoryColor(category) == "bg-gray-500" <==>
            category !in {"rent", "utilities", "groceries", "maintenance"}
  {
    assert Categories[0] in Categories && Categories[1] in Categories;
    assert Categories[2] in Categories && Categories[3] in Categories;
    assert Categories[4] in Categories;
  }
}
