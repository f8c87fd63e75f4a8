/**
 * The single-screen app (`Index` in app/index.tsx): the member and expense lists
 * and the form fields are the fields of `SplitScreen`, and each handler is a
 * method that replaces them. Members here also carry a running `totalSpent`,
 * the sum of the shares the member has been charged. Alerts and haptics are
 * left out; an action behind a confirmation dialog is modelled as its
 * confirming branch.
 */
module Screen {
  import opened Wrappers
  import opened Text
  import opened Ledger
  import Balances
  import Settlement

  datatype Member = Member(id: string, name: string, totalSpent: real)

  /** What `addMember` did: appended, refused a duplicate (alert), or found nothing to add. */
  datatype MemberOutcome = MemberAdded | DuplicateMember | NothingToAdd

  /** What `addExpense` did: recorded, refused the amount (alert), or refused missing details (alert). */
  datatype ExpenseOutcome = ExpenseAdded | InvalidAmount | MissingDetails

  const Untitled: string := "Untitled Expense"

  /** The member names, in list order. */
  function NamesOf(ms: seq<Member>): (r: seq<string>)
    ensures |r| == |ms|
    ensures forall i :: 0 <= i < |ms| ==> r[i] == ms[i].name
  {
    if ms == [] then [] else NamesOf(ms[..|ms| - 1]) + [ms[|ms| - 1].name]
  }

  /** `members.find(m => m.name.toLowerCase() === name.toLowerCase())` finds something. */
  predicate Known(ms: seq<Member>, name: string) {
    exists m :: m in ms && SameName(m.name, name)
  }

  /** The sum of the members' `totalSpent`. */
  function SpentTotal(ms: seq<Member>): real {
    if ms == [] then 0.0 else SpentTotal(ms[..|ms| - 1]) + ms[|ms| - 1].totalSpent
  }

  /** How many members have a name in `names`. */
  function CountIn(ms: seq<Member>, names: seq<string>): nat {
    if ms == [] then 0 else CountIn(ms[..|ms| - 1], names) + (if ms[|ms| - 1].name in names then 1 else 0)
  }

  /**
   * `prev.map(member => selectedMembers.includes(member.name) ? {...member,
   * totalSpent: member.totalSpent + splitAmount} : member)`.
   */
  function Credit(ms: seq<Member>, selected: seq<string>, share: real): (r: seq<Member>)
    ensures |r| == |ms|
  {
    if ms == [] then []
    else
      var init, last := ms[..|ms| - 1], ms[|ms| - 1];
      Credit(init, selected, share)
        + [if last.name in selected then last.(totalSpent := last.totalSpent + share) else last]
  }

  /** `prev.filter(m => m.name !== name)` on the members. */
  function WithoutName(ms: seq<Member>, name: string): (r: seq<Member>)
    ensures |r| <= |ms|
  {
    if ms == [] then []
    else
      var init, last := ms[..|ms| - 1], ms[|ms| - 1];
      WithoutName(init, name) + (if last.name != name then [last] else [])
  }

  /** `prev.filter(n => n !== name)` on the selected names. */
  function Unselect(names: seq<string>, name: string): (r: seq<string>)
    ensures |r| <= |names|
  {
    if names == [] then []
    else
      var init, last := names[..|names| - 1], names[|names| - 1];
      Unselect(init, name) + (if last != name then [last] else [])
  }

  /** `newExpenseDesc.trim() || 'Untitled Expense'`. */
  function Description(desc: string): (r: string)
    ensures r != []
    ensures r == Untitled || r == Trim(desc)
    ensures Trim(desc) != [] ==> r == Trim(desc)
  {
    var trimmed := Trim(desc);
    if trimmed == [] then Untitled else trimmed
  }

  /** Member names trimmed, non-empty and different ignoring case; spending never negative. */
  predicate Roster(ms: seq<Member>) {
    && (forall m :: m in ms ==> m.name != [] && Trimmed(m.name) && m.totalSpent >= 0.0)
    && CaseUnique(NamesOf(ms))
  }

  /** A split selection: distinct names, each a member's. */
  predicate Selection(selected: seq<string>, names: seq<string>) {
    Balances.Distinct(selected) && forall n :: n in selected ==> n in names
  }

  /** Every recorded expense has a positive amount, a payer and someone to split it. */
  predicate Records(expenses: seq<Expense>) {
    forall e :: e in expenses ==> e.amount > 0.0 && |e.members| > 0 && e.paidBy != []
  }

  /**
   * What the handlers keep: member names trimmed, non-empty and different
   * ignoring case, spending never negative, the split selection made of
   * distinct member names, the payer empty or a member, and every recorded
   * expense with a positive amount, a payer and someone to split it.
   */
  predicate Consistent(ms: seq<Member>, expenses: seq<Expense>, selected: seq<string>, payer: string) {
    && Roster(ms)
    && Selection(selected, NamesOf(ms))
    && (payer == [] || payer in NamesOf(ms))
    && Records(expenses)
  }

  class SplitScreen {
    var members: seq<Member>
    var expenses: seq<Expense>
    var newMemberName: string
    var newExpenseAmount: string
    var newExpenseDesc: string
    var paidBy: string
    var selectedMembers: seq<string>

    /** The invariant every handler keeps: `Consistent` of the current fields. */
    ghost predicate Valid()
      reads this
    {
      Consistent(members, expenses, selectedMembers, paidBy)
    }

    /** The state `useState` starts from before anything is loaded. */
    constructor ()
      ensures Valid()
      ensures members == [] && expenses == [] && selectedMembers == []
      ensures newMemberName == [] && newExpenseAmount == [] && newExpenseDesc == [] && paidBy == []
    {
      members, expenses, selectedMembers := [], [], [];
      newMemberName, newExpenseAmount, newExpenseDesc, paidBy := [], [], [], [];
    }

    /** The member-name text field (`onChangeText={setNewMemberName}`). */
    method SetNewMemberName(text: string)
      modifies this
      requires Valid()
      ensures Valid()
      ensures newMemberName == text
      ensures members == old(members) && expenses == old(expenses) && selectedMembers == old(selectedMembers)
      ensures newExpenseAmount == old(newExpenseAmount) && newExpenseDesc == old(newExpenseDesc)
      ensures paidBy == old(paidBy)
    {
      newMemberName := text;
    }

    /** The amount text field (`onChangeText={setNewExpenseAmount}`). */
    method SetNewExpenseAmount(text: string)
      modifies this
      requires Valid()
      ensures Valid()
      ensures newExpenseAmount == text
      ensures members == old(members) && expenses == old(expenses) && selectedMembers == old(selectedMembers)
      ensures newMemberName == old(newMemberName) && newExpenseDesc == old(newExpenseDesc)
      ensures paidBy == old(paidBy)
    {
      newExpenseAmount := text;
    }

    /** The description text field (`onChangeText={setNewExpenseDesc}`). */
    method SetNewExpenseDesc(text: string)
      modifies this
      requires Valid()
      ensures Valid()
      ensures newExpenseDesc == text
      ensures members == old(members) && expenses == old(expenses) && selectedMembers == old(selectedMembers)
      ensures newMemberName == old(newMemberName) && newExpenseAmount == old(newExpenseAmount)
      ensures paidBy == old(paidBy)
    {
      newExpenseDesc := text;
    }

    /** Tapping a member under "Paid by" (`setPaidBy(member.name)`). */
    method ChoosePayer(name: string)
      modifies this
      requires Valid() && name in NamesOf(members)
      ensures Valid()
      ensures paidBy == name
      ensures members == old(members) && expenses == old(expenses) && selectedMembers == old(selectedMembers)
      ensures newMemberName == old(newMemberName) && newExpenseAmount == old(newExpenseAmount)
      ensures newExpenseDesc == old(newExpenseDesc)
    {
      paidBy := name;
    }

    /** Tapping a member under "Split": drop the name if selected, append it otherwise. */
    method ToggleSplit(name: string)
      modifies this
      requires Valid() && name in NamesOf(members)
      ensures Valid()
      ensures name in old(selectedMembers) ==> selectedMembers == Unselect(old(selectedMembers), name)
      ensures name !in old(selectedMembers) ==> selectedMembers == old(selectedMembers) + [name]
      ensures name in selectedMembers <==> name !in old(selectedMembers)
      ensures members == old(members) && expenses == old(expenses) && paidBy == old(paidBy)
      ensures newMemberName == old(newMemberName) && newExpenseAmount == old(newExpenseAmount)
      ensures newExpenseDesc == old(newExpenseDesc)
    {
      UnselectMembers(selectedMembers, name);
      if name in selectedMembers {
        UnselectDistinct(selectedMembers, name);
        selectedMembers := Unselect(selectedMembers, name);
      } else {
        DistinctSnoc(selectedMembers, name);
        selectedMembers := selectedMembers + [name];
      }
    }

    /** "Select All" / "Deselect All": clear a full selection, otherwise select every member. */
    method ToggleAll()
      modifies this
      requires Valid()
      ensures Valid()
      ensures |old(selectedMembers)| == |members| ==> selectedMembers == []
      ensures |old(selectedMembers)| != |members| ==> selectedMembers == NamesOf(members)
      ensures members == old(members) && expenses == old(expenses) && paidBy == old(paidBy)
      ensures newMemberName == old(newMemberName) && newExpenseAmount == old(newExpenseAmount)
      ensures newExpenseDesc == old(newExpenseDesc)
    {
      if |selectedMembers| == |members| {
        selectedMembers := [];
      } else {
        CaseUniqueDistinct(NamesOf(members));
        selectedMembers := NamesOf(members);
      }
    }

    /**
     * `addMember`: a blank name does nothing; a name already present ignoring
     * case is refused and the field is kept; otherwise the trimmed name joins
     * with nothing spent and the field is cleared.
     */
    method AddMember(id: string) returns (outcome: MemberOutcome)
      modifies this
      requires Valid()
      ensures Valid()
      ensures var name := Trim(old(newMemberName));
              && (outcome == NothingToAdd <==> name == [])
              && (outcome == DuplicateMember <==> name != [] && Known(old(members), name))
              && (outcome == MemberAdded ==> members == old(members) + [Member(id, name, 0.0)] && newMemberName == [])
              && (outcome != MemberAdded ==> members == old(members) && newMemberName == old(newMemberName))
      ensures expenses == old(expenses) && selectedMembers == old(selectedMembers) && paidBy == old(paidBy)
      ensures newExpenseAmount == old(newExpenseAmount) && newExpenseDesc == old(newExpenseDesc)
    {
      var name := Trim(newMemberName);
      if name == [] {
        return NothingToAdd;
      }
      if Known(members, name) {
        return DuplicateMember;
      }
      Join(Member(id, name, 0.0));
      outcome := MemberAdded;
    }

    /** Appends `m`, whose trimmed name matches no member ignoring case, and clears the name field. */
    method Join(m: Member)
      modifies this`members, this`newMemberName
      requires Consistent(members, expenses, selectedMembers, paidBy)
      requires m.name != [] && Trimmed(m.name) && m.totalSpent == 0.0 && !Known(members, m.name)
      ensures Consistent(members, expenses, selectedMembers, paidBy)
      ensures members == old(members) + [m] && newMemberName == []
    {
      CaseUniqueSnoc(members, m);
      NamesOfSnoc(members, m);
      members := members + [m];
      newMemberName := [];
    }

    /**
     * The confirming branch of `removeMember(name)`: every member with that name
     * goes, the name leaves the split selection, and the payer is cleared if
     * it was that member.
     */
    method RemoveMember(name: string)
      modifies this
      requires Valid()
      ensures Valid()
      ensures members == WithoutName(old(members), name)
      ensures selectedMembers == Unselect(old(selectedMembers), name)
      ensures paidBy == if old(paidBy) == name then [] else old(paidBy)
      ensures name !in NamesOf(members)
      ensures expenses == old(expenses)
      ensures newMemberName == old(newMemberName) && newExpenseAmount == old(newExpenseAmount)
      ensures newExpenseDesc == old(newExpenseDesc)
    {
      Drop(name);
    }

    /** Removes `name` from the members, the selection and the payer. */
    method Drop(name: string)
      modifies this`members, this`selectedMembers, this`paidBy
      requires Consistent(members, expenses, selectedMembers, paidBy)
      ensures Consistent(members, expenses, selectedMembers, paidBy)
      ensures members == WithoutName(old(members), name)
      ensures selectedMembers == Unselect(old(selectedMembers), name)
      ensures paidBy == if old(paidBy) == name then [] else old(paidBy)
      ensures name !in NamesOf(members)
    {
      RemoveKeepsValid(members, expenses, selectedMembers, paidBy, name);
      var payer := if paidBy == name then [] else paidBy;
      members, selectedMembers, paidBy := WithoutName(members, name), Unselect(selectedMembers, name), payer;
    }

    /**
     * `addExpense` given `Number(newExpenseAmount)` as `parsed` (`None` for NaN):
     * with an empty amount field, no selection or no payer nothing changes;
     * with an amount that is not a positive number nothing changes either;
     * otherwise one expense is recorded, each selected member is charged an
     * equal share in `totalSpent`, and the form is reset.
     */
    method AddExpense(parsed: Option<real>, id: string, date: string) returns (outcome: ExpenseOutcome)
      modifies this
      requires Valid()
      ensures Valid()
      ensures outcome == MissingDetails
              <==> old(newExpenseAmount) == [] || old(selectedMembers) == [] || old(paidBy) == []
      ensures outcome == InvalidAmount
              <==> && old(newExpenseAmount) != [] && old(selectedMembers) != [] && old(paidBy) != []
                   && (parsed.None? || parsed.value <= 0.0)
      ensures outcome != ExpenseAdded ==>
                && members == old(members) && expenses == old(expenses)
                && selectedMembers == old(selectedMembers) && paidBy == old(paidBy)
                && newExpenseAmount == old(newExpenseAmount) && newExpenseDesc == old(newExpenseDesc)
      ensures outcome == ExpenseAdded ==>
                && parsed.Some?
                && var amount := parsed.value;
                   && expenses == old(expenses)
                                  + [Expense(id, Description(old(newExpenseDesc)), amount,
                                             old(selectedMembers), old(paidBy), date, None)]
                   && members == Credit(old(members), old(selectedMembers), amount / |old(selectedMembers)| as real)
                   && selectedMembers == [] && paidBy == []
                   && newExpenseAmount == [] && newExpenseDesc == []
      ensures newMemberName == old(newMemberName)
    {
      if newExpenseAmount == [] || selectedMembers == [] || paidBy == [] {
        return MissingDetails;
      }
      if parsed.None? || parsed.value <= 0.0 {
        return InvalidAmount;
      }
      Commit(Expense(id, Description(newExpenseDesc), parsed.value, selectedMembers, paidBy, date, None));
      outcome := ExpenseAdded;
    }

    /**
     * The success branch of `addExpense`: `item` is recorded, each selected
     * member is charged an equal share of its amount, and the form is reset.
     */
    method Commit(item: Expense)
      modifies this
      requires Valid()
      requires item.amount > 0.0 && item.members == selectedMembers && selectedMembers != []
      requires item.paidBy == paidBy && paidBy != []
      ensures Valid()
      ensures expenses == old(expenses) + [item]
      ensures members == Credit(old(members), item.members, item.amount / |item.members| as real)
      ensures selectedMembers == [] && paidBy == [] && newExpenseAmount == [] && newExpenseDesc == []
      ensures newMemberName == old(newMemberName)
    {
      Charge(item);
      ghost var ms, es := members, expenses;
      ResetForm();
      assert members == ms && expenses == es && selectedMembers == [] && paidBy == [];
    }

    /** Records `item` and charges each selected member an equal share of it. */
    method Charge(item: Expense)
      modifies this`members, this`expenses
      requires Consistent(members, expenses, selectedMembers, paidBy)
      requires item.amount > 0.0 && item.members == selectedMembers && selectedMembers != []
      requires item.paidBy == paidBy && paidBy != []
      ensures Consistent(members, expenses, [], [])
      ensures expenses == old(expenses) + [item]
      ensures members == Credit(old(members), item.members, item.amount / |item.members| as real)
    {
      ExpenseKeepsValid(members, expenses, item);
      expenses, members := expenses + [item], Credit(members, item.members, item.amount / |item.members| as real);
    }

    /** Empties the amount, description, selection and payer fields. */
    method ResetForm()
      modifies this`newExpenseAmount, this`newExpenseDesc, this`selectedMembers, this`paidBy
      ensures selectedMembers == [] && paidBy == [] && newExpenseAmount == [] && newExpenseDesc == []
    {
      newExpenseAmount, newExpenseDesc, selectedMembers, paidBy := [], [], [], [];
    }

    /** The confirming branch of `removeExpense(id)`; `totalSpent` is left as it was. */
    method RemoveExpense(id: string)
      modifies this
      requires Valid()
      ensures Valid()
      ensures expenses == WithoutExpense(old(expenses), id)
      ensures members == old(members) && selectedMembers == old(selectedMembers) && paidBy == old(paidBy)
      ensures newMemberName == old(newMemberName) && newExpenseAmount == old(newExpenseAmount)
      ensures newExpenseDesc == old(newExpenseDesc)
    {
      WithoutExpenseMembers(expenses, id);
      expenses := WithoutExpense(expenses, id);
    }

    /** The confirming branch of `clearAllData`; the member-name field is not reset. */
    method ClearAll()
      modifies this
      requires Valid()
      ensures Valid()
      ensures members == [] && expenses == [] && selectedMembers == []
      ensures paidBy == [] && newExpenseAmount == [] && newExpenseDesc == []
      ensures newMemberName == old(newMemberName)
    {
      members, expenses, selectedMembers := [], [], [];
      paidBy, newExpenseAmount, newExpenseDesc := [], [], [];
    }

    /** `getMemberBalances` of the current lists. */
    method MemberBalances() returns (b: Balances.BalanceSheet)
      ensures b == Balances.Sheet(NamesOf(members), expenses)
    {
      b := Balances.MemberBalances(NamesOf(members), expenses);
    }

    /** `settlementPlan` of the current balances. */
    method SettlementPlan() returns (txns: seq<Transaction>)
      ensures txns == Settlement.PlanFor(Balances.Sheet(NamesOf(members), expenses))
    {
      var b := MemberBalances();
      txns := Settlement.SettlementPlan(b);
    }
  }

  // ---------------------------------------------------------------------------
  // Lemmas about the list helpers

  /** Removing by name keeps exactly the members with another name. */
  lemma {:induction false} WithoutNameMembers(ms: seq<Member>, name: string)
    ensures forall m :: m in WithoutName(ms, name) <==> m in ms && m.name != name
  {
    if ms != [] {
      var init, last := ms[..|ms| - 1], ms[|ms| - 1];
      assert ms == init + [last];
      WithoutNameMembers(init, name);
    }
  }

  /** Unselecting keeps exactly the other names, and changes nothing when `name` is not selected. */
  lemma {:induction false} UnselectMembers(names: seq<string>, name: string)
    ensures forall n :: n in Unselect(names, name) <==> n in names && n != name
    ensures name !in names ==> Unselect(names, name) == names
  {
    if names != [] {
      var init, last := names[..|names| - 1], names[|names| - 1];
      assert names == init + [last];
      UnselectMembers(init, name);
    }
  }

  /** Removing by name distributes over concatenation: the surviving members keep their order. */
  lemma {:induction false} WithoutNameConcat(a: seq<Member>, b: seq<Member>, name: string)
    ensures WithoutName(a + b, name) == WithoutName(a, name) + WithoutName(b, name)
  {
    if b == [] {
      assert a + b == a;
    } else {
      var init, last := b[..|b| - 1], b[|b| - 1];
      assert b == init + [last];
      assert a + b == (a + init) + [last];
      WithoutNameConcat(a, init, name);
    }
  }

  /** Unselecting distributes over concatenation: the remaining names keep their order. */
  lemma {:induction false} UnselectConcat(a: seq<string>, b: seq<string>, name: string)
    ensures Unselect(a + b, name) == Unselect(a, name) + Unselect(b, name)
  {
    if b == [] {
      assert a + b == a;
    } else {
      var init, last := b[..|b| - 1], b[|b| - 1];
      assert b == init + [last];
      assert a + b == (a + init) + [last];
      UnselectConcat(a, init, name);
    }
  }

  lemma NamesOfSnoc(ms: seq<Member>, m: Member)
    ensures NamesOf(ms + [m]) == NamesOf(ms) + [m.name]
  {
    assert (ms + [m])[..|ms|] == ms;
  }

  /** Appending a member keeps the names case-unique exactly when it matches nobody. */
  lemma CaseUniqueSnoc(ms: seq<Member>, m: Member)
    requires CaseUnique(NamesOf(ms))
    ensures CaseUnique(NamesOf(ms + [m])) <==> !Known(ms, m.name)
  {
    NamesOfSnoc(ms, m);
    var names := NamesOf(ms + [m]);
    if Known(ms, m.name) {
      var k :| k in ms && SameName(k.name, m.name);
      var i :| 0 <= i < |ms| && ms[i] == k;
      assert names[i] == k.name && names[|ms|] == m.name;
    } else {
      forall i, j | 0 <= i < j < |names|
        ensures !SameName(names[i], names[j])
      {
        if j == |ms| {
          assert ms[i] in ms;
        }
      }
    }
  }

  /** Names that differ ignoring case differ. */
  lemma CaseUniqueDistinct(names: seq<string>)
    requires CaseUnique(names)
    ensures Balances.Distinct(names)
  {
  }

  lemma DistinctSnoc(names: seq<string>, n: string)
    requires Balances.Distinct(names) && n !in names
    ensures Balances.Distinct(names + [n])
  {
    forall i, j | 0 <= i < j < |names| + 1
      ensures (names + [n])[i] != (names + [n])[j]
    {
      if j == |names| {
        assert names[i] in names;
      }
    }
  }

  /** Unselecting keeps the selection free of repeats and shortens it by exactly one. */
  lemma {:induction false} UnselectDistinct(names: seq<string>, name: string)
    requires Balances.Distinct(names)
    ensures Balances.Distinct(Unselect(names, name))
    ensures |Unselect(names, name)| == if name in names then |names| - 1 else |names|
  {
    if names != [] {
      var init, last := names[..|names| - 1], names[|names| - 1];
      assert names == init + [last];
      forall i | 0 <= i < |init|
        ensures init[i] != last
      {
        assert names[i] == init[i];
      }
      UnselectDistinct(init, name);
      UnselectMembers(init, name);
      if last != name {
        DistinctSnoc(Unselect(init, name), last);
      }
    }
  }

  lemma {:induction false} WithoutNameNames(ms: seq<Member>, name: string)
    ensures name !in NamesOf(WithoutName(ms, name))
    ensures forall n :: n in NamesOf(WithoutName(ms, name)) ==> n in NamesOf(ms)
  {
    var r := WithoutName(ms, name);
    WithoutNameMembers(ms, name);
    forall n | n in NamesOf(r)
      ensures n != name && n in NamesOf(ms)
    {
      var i :| 0 <= i < |r| && NamesOf(r)[i] == n;
      assert r[i] in r;
      var j :| 0 <= j < |ms| && ms[j] == r[i];
      assert NamesOf(ms)[j] == n;
    }
  }

  /** Removing by name keeps the names case-unique. */
  lemma {:induction false} WithoutNameCaseUnique(ms: seq<Member>, name: string)
    requires CaseUnique(NamesOf(ms))
    ensures CaseUnique(NamesOf(WithoutName(ms, name)))
  {
    if ms != [] {
      var init, last := ms[..|ms| - 1], ms[|ms| - 1];
      assert ms == init + [last];
      CaseUniqueSnoc(init, last);
      WithoutNameCaseUnique(init, name);
      WithoutNameMembers(init, name);
      if last.name != name {
        CaseUniqueSnoc(WithoutName(init, name), last);
      }
    }
  }

  /**
   * Crediting changes only `totalSpent`, and only of the members whose name is
   * selected, each by exactly the share.
   */
  lemma {:induction false} CreditEffect(ms: seq<Member>, selected: seq<string>, share: real)
    ensures forall i :: 0 <= i < |ms| ==>
              var r := Credit(ms, selected, share);
              && r[i].id == ms[i].id && r[i].name == ms[i].name
              && r[i].totalSpent == ms[i].totalSpent + (if ms[i].name in selected then share else 0.0)
  {
    if ms != [] {
      CreditEffect(ms[..|ms| - 1], selected, share);
    }
  }

  lemma {:induction false} CreditKeepsNames(ms: seq<Member>, selected: seq<string>, share: real)
    ensures NamesOf(Credit(ms, selected, share)) == NamesOf(ms)
  {
    var r := Credit(ms, selected, share);
    CreditEffect(ms, selected, share);
    assert forall i :: 0 <= i < |ms| ==> NamesOf(r)[i] == NamesOf(ms)[i];
  }

  /** Crediting adds the share once for each member whose name is selected. */
  lemma {:induction false} CreditTotal(ms: seq<Member>, selected: seq<string>, share: real)
    ensures SpentTotal(Credit(ms, selected, share)) == SpentTotal(ms) + Balances.Repeat(CountIn(ms, selected), share)
  {
    if ms != [] {
      var init, last := ms[..|ms| - 1], ms[|ms| - 1];
      var r := Credit(ms, selected, share);
      assert r[..|r| - 1] == Credit(init, selected, share);
      CreditEffect(ms, selected, share);
      CreditTotal(init, selected, share);
    }
  }

  /** Members whose names are not in either list count the same for both. */
  lemma {:induction false} CountInAgrees(ms: seq<Member>, a: seq<string>, b: seq<string>)
    requires forall n :: n in NamesOf(ms) ==> (n in a <==> n in b)
    ensures CountIn(ms, a) == CountIn(ms, b)
  {
    if ms != [] {
      var init := ms[..|ms| - 1];
      assert forall i :: 0 <= i < |init| ==> NamesOf(init)[i] == NamesOf(ms)[i];
      assert NamesOf(ms)[|ms| - 1] == ms[|ms| - 1].name;
      CountInAgrees(init, a, b);
    }
  }

  /** A witness for a non-empty selection, stated where no other fact is in scope. */
  lemma NonEmptyHasHead(s: seq<string>)
    ensures s == [] || s[0] in s
  {
  }

  /**
   * With distinct member names, a selection of distinct member names selects
   * exactly as many members as it has names.
   */
  lemma {:induction false} CountInSelection(ms: seq<Member>, selected: seq<string>)
    requires Balances.Distinct(NamesOf(ms)) && Balances.Distinct(selected)
    requires forall n :: n in selected ==> n in NamesOf(ms)
    ensures CountIn(ms, selected) == |selected|
  {
    if ms == [] {
      NonEmptyHasHead(selected);
    } else {
      var init, last := ms[..|ms| - 1], ms[|ms| - 1];
      assert ms == init + [last];
      NamesOfSnoc(init, last);
      var names := NamesOf(init);
      forall i | 0 <= i < |names|
        ensures names[i] != last.name
      {
        assert NamesOf(ms)[i] == names[i];
      }
      assert Balances.Distinct(names) by {
        assert forall i :: 0 <= i < |names| ==> names[i] == NamesOf(ms)[i];
      }
      var rest := Unselect(selected, last.name);
      UnselectMembers(selected, last.name);
      UnselectDistinct(selected, last.name);
      CountInAgrees(init, selected, rest);
      CountInSelection(init, rest);
    }
  }

  /**
   * What `addExpense` does to `totalSpent` on a valid screen: the members'
   * total grows by exactly the amount, since each of the `k` selected names is
   * one member and is charged `amount / k`.
   */
  lemma CreditSharesOut(ms: seq<Member>, selected: seq<string>, amount: real)
    requires CaseUnique(NamesOf(ms)) && Balances.Distinct(selected) && |selected| > 0
    requires forall n :: n in selected ==> n in NamesOf(ms)
    ensures SpentTotal(Credit(ms, selected, amount / |selected| as real)) == SpentTotal(ms) + amount
  {
    var k := |selected|;
    var share := amount / k as real;
    CaseUniqueDistinct(NamesOf(ms));
    CreditTotal(ms, selected, share);
    CountInSelection(ms, selected);
    Balances.SharesAddUp(amount, k);
  }

  /** Crediting a non-negative share keeps every `totalSpent` non-negative. */
  lemma CreditKeepsSpending(ms: seq<Member>, selected: seq<string>, share: real)
    requires share >= 0.0 && forall m :: m in ms ==> m.totalSpent >= 0.0
    ensures forall m :: m in Credit(ms, selected, share) ==> m.totalSpent >= 0.0
  {
    var r := Credit(ms, selected, share);
    CreditEffect(ms, selected, share);
    forall m | m in r
      ensures m.totalSpent >= 0.0
    {
      var i :| 0 <= i < |r| && r[i] == m;
      assert ms[i] in ms;
    }
  }

  /** Crediting a non-negative share keeps the roster's shape. */
  lemma CreditKeepsRoster(ms: seq<Member>, selected: seq<string>, share: real)
    requires Roster(ms) && share >= 0.0
    ensures Roster(Credit(ms, selected, share))
    ensures NamesOf(Credit(ms, selected, share)) == NamesOf(ms)
  {
    CreditKeepsNames(ms, selected, share);
    CreditKeepsSpending(ms, selected, share);
    var r := Credit(ms, selected, share);
    CreditEffect(ms, selected, share);
    forall m | m in r
      ensures m.name != [] && Trimmed(m.name)
    {
      var i :| 0 <= i < |r| && r[i] == m;
      assert ms[i] in ms;
    }
  }

  /** A member name other than `name` survives removing `name`. */
  lemma {:induction false} WithoutNameKeeps(ms: seq<Member>, name: string, n: string)
    requires n in NamesOf(ms) && n != name
    ensures n in NamesOf(WithoutName(ms, name))
  {
    var i :| 0 <= i < |ms| && NamesOf(ms)[i] == n;
    var r := WithoutName(ms, name);
    WithoutNameMembers(ms, name);
    assert ms[i] in r;
    var j :| 0 <= j < |r| && r[j] == ms[i];
    assert NamesOf(r)[j] == n;
  }

  /**
   * Removing the member `name` keeps the roster's shape, the selection made of
   * distinct remaining names, and the payer empty or a remaining member.
   */
  lemma RemoveKeepsValid(ms: seq<Member>, expenses: seq<Expense>, selected: seq<string>, payer: string, name: string)
    requires Consistent(ms, expenses, selected, payer)
    ensures Consistent(WithoutName(ms, name), expenses, Unselect(selected, name), if payer == name then [] else payer)
    ensures name !in NamesOf(WithoutName(ms, name))
  {
    WithoutNameNames(ms, name);
    WithoutNameCaseUnique(ms, name);
    WithoutNameMembers(ms, name);
    UnselectDistinct(selected, name);
    UnselectMembers(selected, name);
    forall n | n in Unselect(selected, name)
      ensures n in NamesOf(WithoutName(ms, name))
    {
      WithoutNameKeeps(ms, name, n);
    }
    if payer != [] && payer != name {
      WithoutNameKeeps(ms, name, payer);
    }
  }

  /**
   * Recording an expense with a positive amount, a payer and someone to split
   * it, and charging its participants an equal share, keeps the roster's shape
   * and the records valid; the emptied selection and payer are consistent.
   */
  lemma ExpenseKeepsValid(ms: seq<Member>, expenses: seq<Expense>, item: Expense)
    requires Roster(ms) && Records(expenses)
    requires item.amount > 0.0 && |item.members| > 0 && item.paidBy != []
    ensures Consistent(Credit(ms, item.members, item.amount / |item.members| as real), expenses + [item], [], [])
  {
    var share := item.amount / |item.members| as real;
    assert share > 0.0;
    CreditKeepsRoster(ms, item.members, share);
    RecordsSnoc(expenses, item);
  }

  lemma RecordsSnoc(expenses: seq<Expense>, item: Expense)
    requires Records(expenses) && item.amount > 0.0 && |item.members| > 0 && item.paidBy != []
    ensures Records(expenses + [item])
  {
    assert forall e :: e in expenses + [item] ==> e in expenses || e == item;
  }
}
