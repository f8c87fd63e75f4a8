/**
 * The shared provider's list operations (`AppProvider` in
 * app/context/AppContext.tsx): the member and expense lists as values, and each
 * operation as the function its `setMembers`/`setExpenses` updater computes
 * from the previous lists. Ids and timestamps, which the provider reads from the
 * clock, are parameters.
 */
module Store {
  import opened Wrappers
  import opened Text
  import opened Ledger
  import Balances
  import Settlement

  datatype Member = Member(id: string, name: string)

  /** What a caller hands to `addExpense`: an expense without its id and date. */
  datatype Draft = Draft(desc: string, amount: real, members: seq<string>, paidBy: string, category: string)

  datatype State = State(members: seq<Member>, expenses: seq<Expense>)

  /** The member names, in list order. */
  function NamesOf(ms: seq<Member>): (r: seq<string>)
    ensures |r| == |ms|
    ensures forall i :: 0 <= i < |ms| ==> r[i] == ms[i].name
  {
    if ms == [] then [] else NamesOf(ms[..|ms| - 1]) + [ms[|ms| - 1].name]
  }

  /** `prev.find(m => m.name.toLowerCase() === name.toLowerCase())` finds something. */
  predicate Known(ms: seq<Member>, name: string) {
    exists m :: m in ms && SameName(m.name, name)
  }

  /** The shape `addMember` gives the roster: trimmed, non-empty names that differ ignoring case. */
  predicate Roster(ms: seq<Member>) {
    && (forall m :: m in ms ==> m.name != [] && Trimmed(m.name))
    && CaseUnique(NamesOf(ms))
  }

  /**
   * `addMember(name)`: the flag it returns, and the state after its updater.
   * An empty trimmed name is refused; a name already present ignoring case is
   * accepted but adds nothing; any other name is appended, trimmed, with `id`.
   */
  function AddMember(s: State, name: string, id: string): (r: (bool, State))
    ensures r.0 <==> Trim(name) != []
    ensures r.1.expenses == s.expenses
    ensures !r.0 ==> r.1 == s
    ensures r.0 && Known(s.members, Trim(name)) ==> r.1 == s
    ensures r.0 && !Known(s.members, Trim(name)) ==> r.1.members == s.members + [Member(id, Trim(name))]
  {
    var trimmed := Trim(name);
    if trimmed == [] then (false, s)
    else if Known(s.members, trimmed) then (true, s)
    else (true, s.(members := s.members + [Member(id, trimmed)]))
  }

  /** The members whose id is not `id`, in their order (`prev.filter(m => m.id !== id)`). */
  function WithoutMember(ms: seq<Member>, id: string): (r: seq<Member>)
    ensures |r| <= |ms|
  {
    if ms == [] then []
    else WithoutMember(ms[..|ms| - 1], id) + (if ms[|ms| - 1].id != id then [ms[|ms| - 1]] else [])
  }

  /** What survives the filter: exactly the members with another id; all of them when none has `id`. */
  lemma {:induction false} WithoutMemberMembers(ms: seq<Member>, id: string)
    ensures forall m :: m in WithoutMember(ms, id) <==> m in ms && m.id != id
    ensures (forall m :: m in ms ==> m.id != id) ==> WithoutMember(ms, id) == ms
  {
    if ms != [] {
      var init, last := ms[..|ms| - 1], ms[|ms| - 1];
      assert ms == init + [last];
      WithoutMemberMembers(init, id);
    }
  }

  /** `removeMember(id)`: exactly the members with another id remain, in their order. */
  function RemoveMember(s: State, id: string): (r: State)
    ensures r.expenses == s.expenses
    ensures forall m :: m in r.members <==> m in s.members && m.id != id
  {
    WithoutMemberMembers(s.members, id);
    s.(members := WithoutMember(s.members, id))
  }

  /** `Omit<Expense, 'id' | 'date'>`: what is left of a record without its id and date. */
  function DraftOf(e: Expense): Draft {
    Draft(e.desc, e.amount, e.members, e.paidBy, if e.category.Some? then e.category.value else [])
  }

  /** The record `addExpense` appends: `{...expense, id, date}`. */
  function Record(d: Draft, id: string, date: string): (r: Expense)
    ensures DraftOf(r) == d && r.id == id && r.date == date
  {
    Expense(id, d.desc, d.amount, d.members, d.paidBy, date, Some(d.category))
  }

  /** `addExpense(draft)`: exactly one record is appended, the members stay. */
  function AddExpense(s: State, d: Draft, id: string, date: string): (r: State)
    ensures r.members == s.members
    ensures |r.expenses| == |s.expenses| + 1 && r.expenses[..|s.expenses|] == s.expenses
    ensures r.expenses[|s.expenses|] == Record(d, id, date)
  {
    s.(expenses := s.expenses + [Record(d, id, date)])
  }

  /** `removeExpense(id)`. */
  function RemoveExpense(s: State, id: string): (r: State)
    ensures r.members == s.members
    ensures forall e :: e in r.expenses <==> e in s.expenses && e.id != id
  {
    WithoutExpenseMembers(s.expenses, id);
    s.(expenses := WithoutExpense(s.expenses, id))
  }

  /** `clearAll()`. */
  function ClearAll(): (r: State)
    ensures r.members == [] && r.expenses == []
  {
    State([], [])
  }

  /** `getMemberBalances`, keyed by the member names. */
  function MemberBalances(s: State): (b: Balances.BalanceSheet)
    ensures b.WellFormed()
    ensures forall n :: n in b.entries <==> n in NamesOf(s.members)
  {
    Balances.Sheet(NamesOf(s.members), s.expenses)
  }

  // ---------------------------------------------------------------------------
  // Properties

  /** The duplicate test ignores case: names that are the same ignoring case are found alike. */
  lemma KnownIgnoresCase(ms: seq<Member>, a: string, b: string)
    requires SameName(a, b)
    ensures Known(ms, a) <==> Known(ms, b)
  {
  }

  lemma NamesOfSnoc(ms: seq<Member>, m: Member)
    ensures NamesOf(ms + [m]) == NamesOf(ms) + [m.name]
  {
    assert (ms + [m])[..|ms|] == ms;
  }

  /** Appending a member keeps the names case-unique exactly when it matches nobody. */
  lemma CaseUniqueSnoc(ms: seq<Member>, m: Member)
    requires CaseUnique(NamesOf(ms))
    ensures CaseUnique(NamesOf(ms + [m])) <==> !Known(ms, m.name)
  {
    NamesOfSnoc(ms, m);
    var names := NamesOf(ms + [m]);
    if Known(ms, m.name) {
      var k :| k in ms && SameName(k.name, m.name);
      var i :| 0 <= i < |ms| && ms[i] == k;
      assert names[i] == k.name && names[|ms|] == m.name;
    } else {
      forall i, j | 0 <= i < j < |names|
        ensures !SameName(names[i], names[j])
      {
        if j == |ms| {
          assert ms[i] in ms;
        }
      }
    }
  }

  /** `addMember` keeps the roster trimmed, non-empty and case-unique. */
  lemma AddMemberKeepsRoster(s: State, name: string, id: string)
    requires Roster(s.members)
    ensures Roster(AddMember(s, name, id).1.members)
  {
    var trimmed := Trim(name);
    if trimmed != [] && !Known(s.members, trimmed) {
      CaseUniqueSnoc(s.members, Member(id, trimmed));
    }
  }

  /** After an accepted `addMember`, the roster holds the name, ignoring case. */
  lemma AddMemberMakesKnown(s: State, name: string, id: string)
    requires Trim(name) != []
    ensures Known(AddMember(s, name, id).1.members, Trim(name))
  {
    var r := AddMember(s, name, id).1;
    if !Known(s.members, Trim(name)) {
      assert Member(id, Trim(name)) in r.members;
    }
  }

  /**
   * The screen that calls `addMember` passes a non-blank, already trimmed
   * name, so the flag it gets back is always `true`, even for a name already
   * on the roster: its "Duplicate" branch is never taken, and the state is
   * left as it was.
   */
  lemma DuplicateAccepted(s: State, name: string, id: string)
    requires Trim(name) != []
    ensures AddMember(s, Trim(name), id).0
    ensures Known(s.members, Trim(name)) ==> AddMember(s, Trim(name), id).1 == s
  {
    TrimIdempotent(name);
  }

  /** Adding a new member under a fresh id and removing that id restores the state. */
  lemma AddMemberThenRemove(s: State, name: string, id: string)
    requires forall m :: m in s.members ==> m.id != id
    ensures RemoveMember(AddMember(s, name, id).1, id) == s
  {
    var r := AddMember(s, name, id).1;
    WithoutMemberMembers(s.members, id);
    assert WithoutMember(s.members, id) == s.members;
    if r != s {
      var ms := s.members + [Member(id, Trim(name))];
      assert r == s.(members := ms);
      assert ms[..|ms| - 1] == s.members;
      assert WithoutMember(ms, id) == WithoutMember(s.members, id);
    }
  }

  /** Filtering distributes over concatenation: the surviving members keep their order. */
  lemma {:induction false} WithoutMemberConcat(a: seq<Member>, b: seq<Member>, id: string)
    ensures WithoutMember(a + b, id) == WithoutMember(a, id) + WithoutMember(b, id)
  {
    if b == [] {
      assert a + b == a;
    } else {
      var init, last := b[..|b| - 1], b[|b| - 1];
      var tail := if last.id != id then [last] else [];
      var ab := a + b;
      assert ab[..|ab| - 1] == a + init && ab[|ab| - 1] == last;
      assert WithoutMember(ab, id) == WithoutMember(a + init, id) + tail;
      assert WithoutMember(b, id) == WithoutMember(init, id) + tail;
      WithoutMemberConcat(a, init, id);
    }
  }

  /** Removing members keeps the names case-unique. */
  lemma {:induction false} WithoutMemberCaseUnique(ms: seq<Member>, id: string)
    requires CaseUnique(NamesOf(ms))
    ensures CaseUnique(NamesOf(WithoutMember(ms, id)))
  {
    if ms != [] {
      var init, last := ms[..|ms| - 1], ms[|ms| - 1];
      assert ms == init + [last];
      CaseUniqueSnoc(init, last);
      WithoutMemberCaseUnique(init, id);
      WithoutMemberMembers(init, id);
      var kept := WithoutMember(init, id);
      if last.id != id {
        CaseUniqueSnoc(kept, last);
      }
    }
  }

  /** Removing members keeps the roster trimmed, non-empty and case-unique. */
  lemma RemoveMemberKeepsRoster(s: State, id: string)
    requires Roster(s.members)
    ensures Roster(RemoveMember(s, id).members)
  {
    WithoutMemberCaseUnique(s.members, id);
  }

  /** The total grows by exactly the appended amount. */
  lemma AddExpenseTotal(s: State, d: Draft, id: string, date: string)
    ensures TotalExpense(AddExpense(s, d, id, date).expenses) == TotalExpense(s.expenses) + d.amount
  {
    TotalExpenseConcat(s.expenses, [Record(d, id, date)]);
    assert [Record(d, id, date)][..0] == [];
  }

  /** Adding an expense under a fresh id and removing that id restores the state. */
  lemma AddExpenseThenRemove(s: State, d: Draft, id: string, date: string)
    requires forall e :: e in s.expenses ==> e.id != id
    ensures RemoveExpense(AddExpense(s, d, id, date), id) == s
  {
    WithoutExpenseConcat(s.expenses, [Record(d, id, date)], id);
    WithoutExpenseMembers(s.expenses, id);
    assert WithoutExpense([Record(d, id, date)], id) == [] by {
      assert [Record(d, id, date)][1..] == [];
    }
  }

  /** Removing an expense takes exactly the removed amounts off the total. */
  lemma RemoveExpenseTotal(s: State, id: string)
    ensures TotalExpense(RemoveExpense(s, id).expenses)
            == TotalExpense(s.expenses) - TotalExpense(OnlyExpense(s.expenses, id))
  {
    WithoutExpenseTotal(s.expenses, id);
  }

  /**
   * A new expense credits its payer with the amount, charges each participant
   * one share per occurrence, and leaves every other member's balance as it was.
   */
  lemma AddExpenseBalances(s: State, d: Draft, id: string, date: string, n: string)
    requires n in NamesOf(s.members)
    ensures var before := MemberBalances(s).entries[n];
            var after := MemberBalances(AddExpense(s, d, id, date)).entries[n];
            var share := Balances.Share(Record(d, id, date));
            && after.paid == before.paid + (if d.paidBy == n then d.amount else 0.0)
            && after.split == before.split + Balances.Portion(n, d.members, share)
            && (n != d.paidBy && n !in d.members ==> after == before)
  {
    var e := Record(d, id, date);
    var s' := AddExpense(s, d, id, date);
    assert s'.expenses == s.expenses + [e];
    BalanceOf(s, n);
    BalanceOf(s', n);
    var share := Balances.Share(e);
    Balances.AppendExpense(n, s.expenses, e);
    var after := MemberBalances(s').entries[n];
    assert after.split == Balances.Split(n, s.expenses + [e]);
  }

  lemma BalanceOf(s: State, n: string)
    requires n in NamesOf(s.members)
    ensures n in MemberBalances(s).entries
    ensures MemberBalances(s).entries[n] == Balances.EntryFor(n, s.expenses)
  {
  }

  /** After `clearAll` there is nothing to show: no balances, no plan, a zero total. */
  lemma ClearAllSettles()
    ensures MemberBalances(ClearAll()).entries == map[]
    ensures Settlement.PlanFor(MemberBalances(ClearAll())) == []
    ensures TotalExpense(ClearAll().expenses) == 0.0
  {
    Settlement.PlanForLength(MemberBalances(ClearAll()));
  }
}
