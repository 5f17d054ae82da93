/** The client component: its state (`transactions`, `formData`, `showForm`,
    `error`), the state each handler leaves behind once its request has settled,
    and the income, expense and balance totals shown in the summary cards. The
    requests themselves are not modelled: each handler is split into the state it
    reaches when the request resolves and the state it reaches when it rejects. */
module ExpenseApp {
  import opened Optional
  import Seqs

  /** A transaction as the client receives it from the API. */
  datatype Tx = Tx(
    id: string,
    title: string,
    amount: int,
    category: string,
    description: string,
    transactionType: string,
    date: string)

  /** The controlled form inputs, by input name. */
  type Form = map<string, string>

  /** The form the component starts with and returns to after an add: every text
      input empty, type "expense", date today. */
  function DefaultForm(today: string): Form {
    map["title" := "", "amount" := "", "category" := "", "description" := "",
        "transactionType" := "expense", "date" := today]
  }

  datatype State = State(transactions: seq<Tx>, form: Form, showForm: bool, error: Option<string>)

  function Initial(today: string): State {
    State([], DefaultForm(today), false, None)
  }

  /** A rejected request: `err.message`, and `err.response?.data?.message` when the
      server answered with one. */
  datatype RequestError = RequestError(message: string, serverMessage: Option<string>)

  const NetworkError := "Network Error"
  const FetchNetworkMessage :=
    "Failed to load transactions. Cannot connect to the backend. Please make sure your backend server is running on http://localhost:3001."
  const FetchMessage := "Failed to load transactions. Is the backend server running?"
  const IncompleteForm := "Please fill out all fields."
  const AddNetworkMessage :=
    "Failed to add transaction. Cannot connect to the backend. Please make sure your backend server is running."
  const AddMessage := "Failed to add transaction."
  const DeleteNetworkMessage :=
    "Failed to delete transaction. Cannot connect to the backend. Please make sure your backend server is running."
  const DeleteMessage := "Failed to delete transaction."

  // ---------------------------------------------------------------------------
  // Fetching

  /** The fetch resolved: the list is the response body and the error is cleared. */
  function FetchSucceeded(s: State, data: seq<Tx>): (r: State)
    ensures r.transactions == data && r.error == None
    ensures r.form == s.form && r.showForm == s.showForm
  {
    s.(transactions := data, error := None)
  }

  /** The fetch rejected: the list stays, and the error names a missing backend
      when the request never reached it. */
  function FetchFailed(s: State, e: RequestError): (r: State)
    ensures r.transactions == s.transactions && r.form == s.form && r.showForm == s.showForm
    ensures r.error.Some?
    ensures e.message == NetworkError <==> r.error == Some(FetchNetworkMessage)
  {
    s.(error := Some(if e.message == NetworkError then FetchNetworkMessage else FetchMessage))
  }

  // ---------------------------------------------------------------------------
  // The form

  /** handleInputChange: `{ ...formData, [name]: value }`. */
  function InputChanged(s: State, name: string, value: string): (r: State)
    ensures name in r.form && r.form[name] == value
    ensures forall k :: k != name ==> (k in r.form <==> k in s.form)
    ensures forall k :: k != name && k in s.form ==> r.form[k] == s.form[k]
    ensures r.transactions == s.transactions && r.showForm == s.showForm && r.error == s.error
  {
    s.(form := s.form[name := value])
  }

  /** The toggle button. */
  function ToggleForm(s: State): (r: State)
    ensures r.showForm != s.showForm
    ensures r.transactions == s.transactions && r.form == s.form && r.error == s.error
  {
    s.(showForm := !s.showForm)
  }

  lemma ToggleTwice(s: State)
    ensures ToggleForm(ToggleForm(s)) == s
  {
  }

  /** The component mounts with no transactions, the form hidden, no error and the
      default form, which the submit check rejects until it is filled in. */
  lemma InitialState(today: string)
    ensures var s := Initial(today);
      && s.transactions == [] && !s.showForm && s.error == None
      && s.form["transactionType"] == "expense" && s.form["date"] == today
      && Submit(s).Rejected? && Submit(s).next.error == Some(IncompleteForm)
  {
    assert !Filled(Initial(today).form, "title");
  }

  /** An input counts as filled when it holds a non-empty string. */
  predicate Filled(f: Form, name: string) {
    name in f && f[name] != ""
  }

  /** The submit handler's check; the type is not checked (the select always holds one). */
  predicate FormComplete(f: Form) {
    Filled(f, "title") && Filled(f, "amount") && Filled(f, "category") && Filled(f, "date")
      && Filled(f, "description")
  }

  /** What submitting does before any answer: either the check fails and nothing is
      sent, or the form is sent. */
  datatype Submission = Rejected(next: State) | Sending(next: State, request: Form)

  function Submit(s: State): (r: Submission)
    ensures r.Rejected? <==> !FormComplete(s.form)
    ensures r.Rejected? ==> r.next.error == Some(IncompleteForm)
    ensures r.Sending? ==> r.next.error == None && r.request == s.form
    ensures r.next.transactions == s.transactions && r.next.form == s.form && r.next.showForm == s.showForm
  {
    if !FormComplete(s.form) then Rejected(s.(error := Some(IncompleteForm)))
    else Sending(s.(error := None), s.form)
  }

  /** The add resolved with `created`: it goes to the front of the list, the form
      is reset and hidden. */
  function AddSucceeded(s: State, created: Tx, today: string): (r: State)
    ensures |r.transactions| == |s.transactions| + 1
    ensures r.transactions[0] == created && r.transactions[1..] == s.transactions
    ensures r.form == DefaultForm(today) && r.form["transactionType"] == "expense"
    ensures !r.showForm && r.error == s.error
  {
    s.(transactions := [created] + s.transactions, form := DefaultForm(today), showForm := false)
  }

  /** The add rejected: the list and the form stay; the error is the network
      message, else the server's message if it sent one, else the generic one. */
  function AddFailed(s: State, e: RequestError): (r: State)
    ensures r.transactions == s.transactions && r.form == s.form && r.showForm == s.showForm
    ensures r.error.Some? && r.error.value != ""
    ensures e.message == NetworkError ==> r.error == Some(AddNetworkMessage)
    ensures e.message != NetworkError && (e.serverMessage.None? || e.serverMessage.value == "") ==>
      r.error == Some(AddMessage)
    ensures e.message != NetworkError && e.serverMessage.Some? && e.serverMessage.value != "" ==>
      r.error == Some(e.serverMessage.value)
  {
    var message :=
      if e.message == NetworkError then AddNetworkMessage
      else if e.serverMessage.Some? && e.serverMessage.value != "" then e.serverMessage.value
      else AddMessage;
    s.(error := Some(message))
  }

  // ---------------------------------------------------------------------------
  // Deleting

  function OtherThan(id: string): Tx -> bool {
    (t: Tx) => t.id != id
  }

  /** The delete resolved: every entry with that id leaves the list. */
  function DeleteSucceeded(s: State, id: string): (r: State)
    ensures r.form == s.form && r.showForm == s.showForm && r.error == None
  {
    s.(transactions := Seqs.Filter(s.transactions, OtherThan(id)), error := None)
  }

  /** The entries left after a delete are exactly those with another id, each as
      often as before, in their former relative order. */
  lemma {:induction false} DeleteRemovesExactly(s: State, id: string, t: Tx, front: seq<Tx>, back: seq<Tx>)
    ensures var after := DeleteSucceeded(s, id).transactions;
      && (t in after <==> t in s.transactions && t.id != id)
      && multiset(after)[t] == (if t.id != id then multiset(s.transactions)[t] else 0)
    ensures s.transactions == front + back ==>
      DeleteSucceeded(s, id).transactions
        == Seqs.Filter(front, OtherThan(id)) + Seqs.Filter(back, OtherThan(id))
  {
    Seqs.FilterMembership(s.transactions, OtherThan(id), t);
    Seqs.FilterMultiset(s.transactions, OtherThan(id), t);
    Seqs.FilterConcat(front, back, OtherThan(id));
  }

  /** The delete rejected: the list stays and an error is shown. */
  function DeleteFailed(s: State, e: RequestError): (r: State)
    ensures r.transactions == s.transactions && r.form == s.form && r.showForm == s.showForm
    ensures r.error.Some?
    ensures e.message == NetworkError <==> r.error == Some(DeleteNetworkMessage)
  {
    s.(error := Some(if e.message == NetworkError then DeleteNetworkMessage else DeleteMessage))
  }

  /** Deleting the entry just added, whose id was new, gives back the earlier list. */
  lemma {:induction false} AddThenDelete(s: State, created: Tx, today: string)
    requires forall i :: 0 <= i < |s.transactions| ==> s.transactions[i].id != created.id
    ensures DeleteSucceeded(AddSucceeded(s, created, today), created.id).transactions == s.transactions
  {
    var ts := [created] + s.transactions;
    assert ts[1..] == s.transactions;
    Seqs.FilterKeepsAll(s.transactions, OtherThan(created.id));
  }

  // ---------------------------------------------------------------------------
  // Totals

  predicate IsIncome(t: Tx) {
    t.transactionType == "income"
  }

  /** The sum of the income amounts. */
  function Income(ts: seq<Tx>): int
    decreases |ts|
  {
    if ts == [] then 0
    else Income(ts[..|ts| - 1]) + (if IsIncome(ts[|ts| - 1]) then ts[|ts| - 1].amount else 0)
  }

  /** The sum of every other amount: any type but "income" counts as an expense. */
  function Expense(ts: seq<Tx>): int
    decreases |ts|
  {
    if ts == [] then 0
    else Expense(ts[..|ts| - 1]) + (if IsIncome(ts[|ts| - 1]) then 0 else ts[|ts| - 1].amount)
  }

  /** The sum of all amounts. */
  function Total(ts: seq<Tx>): int
    decreases |ts|
  {
    if ts == [] then 0 else Total(ts[..|ts| - 1]) + ts[|ts| - 1].amount
  }

  /** The totals `useMemo`: one pass accumulating the income and the expense. */
  method Totals(transactions: seq<Tx>) returns (totalIncome: int, totalExpense: int, balance: int)
    ensures totalIncome == Income(transactions)
    ensures totalExpense == Expense(transactions)
    ensures balance == Income(transactions) - Expense(transactions)
  {
    var income, expense := 0, 0;
    for i := 0 to |transactions|
      invariant income == Income(transactions[..i])
      invariant expense == Expense(transactions[..i])
    {
      var t := transactions[i];
      assert transactions[..i + 1][..i] == transactions[..i];
      if t.transactionType == "income" {
        income := income + t.amount;
      } else {
        expense := expense + t.amount;
      }
    }
    assert transactions[..|transactions|] == transactions;
    totalIncome, totalExpense, balance := income, expense, income - expense;
  }

  /** Every amount is counted exactly once, as income or as expense. */
  lemma {:induction false} IncomeAndExpenseSplitTotal(ts: seq<Tx>)
    ensures Income(ts) + Expense(ts) == Total(ts)
    decreases |ts|
  {
    if ts != [] {
      IncomeAndExpenseSplitTotal(ts[..|ts| - 1]);
    }
  }

  /** The sums of a concatenation are the sums of its parts. */
  lemma {:induction false} SumsOfConcat(a: seq<Tx>, b: seq<Tx>)
    ensures Income(a + b) == Income(a) + Income(b)
    ensures Expense(a + b) == Expense(a) + Expense(b)
    decreases |b|
  {
    if b == [] {
      assert a + b == a;
    } else {
      var b' := b[..|b| - 1];
      assert (a + b)[..|a + b| - 1] == a + b';
      SumsOfConcat(a, b');
    }
  }

  /** An add moves the income or the expense total, by the new amount, and nothing else. */
  lemma AddShiftsTotals(s: State, created: Tx, today: string)
    ensures var after := AddSucceeded(s, created, today).transactions;
      && Income(after) == Income(s.transactions) + (if IsIncome(created) then created.amount else 0)
      && Expense(after) == Expense(s.transactions) + (if IsIncome(created) then 0 else created.amount)
  {
    SumsOfConcat([created], s.transactions);
    assert [created][..0] == [];
  }

  function WithId(id: string): Tx -> bool {
    (t: Tx) => t.id == id
  }

  /** A delete lowers each total by the amounts of the removed entries. */
  lemma {:induction false} DeleteShiftsTotals(ts: seq<Tx>, id: string)
    ensures Income(Seqs.Filter(ts, OtherThan(id))) + Income(Seqs.Filter(ts, WithId(id))) == Income(ts)
    ensures Expense(Seqs.Filter(ts, OtherThan(id))) + Expense(Seqs.Filter(ts, WithId(id))) == Expense(ts)
    decreases |ts|
  {
    if ts != [] {
      var t := ts[0];
      DeleteShiftsTotals(ts[1..], id);
      assert ts == [t] + ts[1..];
      SumsOfConcat([t], ts[1..]);
      SumsOfConcat([t], Seqs.Filter(ts[1..], OtherThan(id)));
      SumsOfConcat([t], Seqs.Filter(ts[1..], WithId(id)));
      assert [t][..0] == [];
    }
  }

  /** With no transactions the list shows its empty state and every total is zero. */
  predicate ShowsEmptyState(s: State) {
    |s.transactions| == 0
  }

  lemma EmptyFetchShowsEmptyState(s: State)
    ensures var r := FetchSucceeded(s, []);
      ShowsEmptyState(r) && Income(r.transactions) == 0 && Expense(r.transactions) == 0
  {
  }

  /** One income of 50000 and one expense of 1200 give a balance of 48800. */
  lemma SalaryAndGroceries()
    ensures var ts := [Tx("tx2", "Salary", 50000, "Pay", "Monthly salary", "income", "2025-01-01"),
                       Tx("tx1", "Groceries", 1200, "Food", "Weekly grocery shopping", "expense", "2025-01-15")];
      Income(ts) == 50000 && Expense(ts) == 1200 && Income(ts) - Expense(ts) == 48800
  {
    var ts := [Tx("tx2", "Salary", 50000, "Pay", "Monthly salary", "income", "2025-01-01"),
               Tx("tx1", "Groceries", 1200, "Food", "Weekly grocery shopping", "expense", "2025-01-15")];
    assert ts[..1][..0] == [];
    assert ts[..1] == [ts[0]];
  }
}
