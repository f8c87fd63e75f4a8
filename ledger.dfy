/**
 * The records shared by the balance calculator, the settlement planner and
 * both list-state front ends. Money is an exact `real`.
 */
module Ledger {
  import opened Wrappers

  /** The tolerance below which a balance counts as settled (two decimal places). */
  const Eps: real := 0.01

  /**
   * A recorded expense: `members` are the names it is split between, `paidBy`
   * the name of the payer. The single-screen variant has no category (`None`).
   */
  datatype Expense = Expense(
    id: string,
    desc: string,
    amount: real,
    members: seq<string>,
    paidBy: string,
    date: string,
    category: Option<string>)

  datatype Balance = Balance(paid: real, split: real, net: real)

  datatype Transaction = Transaction(from: string, to: string, amount: real)

  /** A debtor or a creditor of the settlement planner with its outstanding amount. */
  datatype Party = Party(name: string, amount: real)

  function Abs(x: real): (r: real)
    ensures r >= 0.0 && (r == x || r == -x)
  {
    if x < 0.0 then -x else x
  }

  function Min(a: real, b: real): (r: real)
    ensures r <= a && r <= b && (r == a || r == b)
  {
    if a <= b then a else b
  }

  /** `expenses.reduce((a, e) => a + e.amount, 0)`, folded from the left. */
  function TotalExpense(expenses: seq<Expense>): (t: real)
    ensures (forall e :: e in expenses ==> e.amount > 0.0) ==> t >= 0.0
    ensures (forall e :: e in expenses ==> e.amount > 0.0) && expenses != [] ==> t > 0.0
  {
    if expenses == [] then 0.0
    else TotalExpense(expenses[..|expenses| - 1]) + expenses[|expenses| - 1].amount
  }

  /** The total is additive over concatenation, so it does not depend on how the list was built. */
  lemma {:induction false} TotalExpenseConcat(a: seq<Expense>, b: seq<Expense>)
    ensures TotalExpense(a + b) == TotalExpense(a) + TotalExpense(b)
  {
    if b != [] {
      assert (a + b)[..|a + b| - 1] == a + b[..|b| - 1];
      TotalExpenseConcat(a, b[..|b| - 1]);
    } else {
      assert a + b == a;
    }
  }

  /** `expenses.filter(e => e.id !== id)`: drops every expense with that id and keeps the rest in order. */
  function WithoutExpense(expenses: seq<Expense>, id: string): (r: seq<Expense>)
    ensures |r| <= |expenses|
  {
    if expenses == [] then []
    else (if expenses[0].id != id then [expenses[0]] else []) + WithoutExpense(expenses[1..], id)
  }

  /** What survives the filter: exactly the expenses with another id; all of them when none has `id`. */
  lemma {:induction false} WithoutExpenseMembers(expenses: seq<Expense>, id: string)
    ensures forall e :: e in WithoutExpense(expenses, id) <==> e in expenses && e.id != id
    ensures (forall e :: e in expenses ==> e.id != id) ==> WithoutExpense(expenses, id) == expenses
  {
    if expenses != [] {
      var rest := expenses[1..];
      WithoutExpenseMembers(rest, id);
      assert expenses == [expenses[0]] + rest;
      assert forall e :: e in rest ==> e in expenses;
    }
  }

  /** Filtering distributes over concatenation: survivors keep their relative order. */
  lemma {:induction false} WithoutExpenseConcat(a: seq<Expense>, b: seq<Expense>, id: string)
    ensures WithoutExpense(a + b, id) == WithoutExpense(a, id) + WithoutExpense(b, id)
  {
    if a != [] {
      var head: seq<Expense> := if a[0].id != id then [a[0]] else [];
      assert (a + b)[0] == a[0] && (a + b)[1..] == a[1..] + b;
      assert WithoutExpense(a + b, id) == head + WithoutExpense(a[1..] + b, id);
      WithoutExpenseConcat(a[1..], b, id);
      assert WithoutExpense(a, id) == head + WithoutExpense(a[1..], id);
    } else {
      assert a + b == b;
    }
  }

  /** Removing expenses lowers the total by exactly the removed amounts. */
  lemma {:induction false} WithoutExpenseTotal(expenses: seq<Expense>, id: string)
    ensures TotalExpense(WithoutExpense(expenses, id))
            == TotalExpense(expenses) - TotalExpense(OnlyExpense(expenses, id))
  {
    if expenses != [] {
      var e, rest := expenses[0], expenses[1..];
      WithoutExpenseTotal(rest, id);
      assert expenses == [e] + rest;
      assert [e][..0] == [];
      assert TotalExpense([e]) == e.amount;
      var kept: seq<Expense> := if e.id != id then [e] else [];
      var gone: seq<Expense> := if e.id == id then [e] else [];
      assert TotalExpense(kept) + TotalExpense(gone) == e.amount;
      assert WithoutExpense(expenses, id) == kept + WithoutExpense(rest, id);
      assert OnlyExpense(expenses, id) == gone + OnlyExpense(rest, id);
      TotalExpenseConcat([e], rest);
      TotalExpenseConcat(kept, WithoutExpense(rest, id));
      TotalExpenseConcat(gone, OnlyExpense(rest, id));
    }
  }

  /** The expenses carrying `id`, in order. */
  function OnlyExpense(expenses: seq<Expense>, id: string): (r: seq<Expense>)
    ensures |r| <= |expenses|
  {
    if expenses == [] then []
    else (if expenses[0].id == id then [expenses[0]] else []) + OnlyExpense(expenses[1..], id)
  }

  /** The removed expenses are exactly those carrying `id`. */
  lemma {:induction false} OnlyExpenseMembers(expenses: seq<Expense>, id: string)
    ensures forall e :: e in OnlyExpense(expenses, id) <==> e in expenses && e.id == id
  {
    if expenses != [] {
      var rest := expenses[1..];
      OnlyExpenseMembers(rest, id);
      assert expenses == [expenses[0]] + rest;
      assert forall e :: e in rest ==> e in expenses;
    }
  }
}
