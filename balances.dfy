/**
 * The balance calculator (`getMemberBalances`): every member name gets a
 * record `{paid, split, net}`; each expense credits its payer with the full
 * amount and charges each listed participant an equal share; names that are
 * not members are ignored; finally `net = paid - split`.
 */
module Balances {
  import opened Ledger

  /**
   * The calculator's result, a JavaScript record keyed by name: `order` is the
   * order in which `Object.keys`/`Object.entries` list the names, `entries`
   * the record itself.
   */
  datatype BalanceSheet = BalanceSheet(order: seq<string>, entries: map<string, Balance>) {
    /** Every listed name has an entry, every entry is listed, and no name is listed twice. */
    ghost predicate WellFormed() {
      Distinct(order) && forall n :: n in entries <==> n in order
    }
  }

  predicate Distinct(s: seq<string>) {
    forall i, j :: 0 <= i < j < |s| ==> s[i] != s[j]
  }

  /**
   * The key order of a record filled by `balances[name] = ...` for each name in
   * turn: a repeated name keeps the position of its first assignment.
   */
  function NameOrder(names: seq<string>): (r: seq<string>)
    ensures Distinct(r)
    ensures forall n :: n in r <==> n in names
  {
    if names == [] then []
    else
      var prior := NameOrder(names[..|names| - 1]);
      var n := names[|names| - 1];
      assert names == names[..|names| - 1] + [n];
      if n in prior then prior else prior + [n]
  }

  /** How often `n` occurs in a participant list. */
  function Count(n: string, ps: seq<string>): (c: nat)
    ensures c <= |ps|
    ensures c > 0 <==> n in ps
  {
    if ps == [] then 0
    else
      assert ps == ps[..|ps| - 1] + [ps[|ps| - 1]];
      Count(n, ps[..|ps| - 1]) + (if ps[|ps| - 1] == n then 1 else 0)
  }

  /**
   * The share `amount / members.length` of one participant. For an empty list
   * the source divides by zero but never uses the quotient; here it is 0.
   */
  function Share(e: Expense): (r: real)
    ensures |e.members| > 0 ==> Repeat(|e.members|, r) == e.amount
    ensures |e.members| > 0 && e.amount > 0.0 ==> r > 0.0
  {
    if |e.members| == 0 then 0.0
    else
      SharesAddUp(e.amount, |e.members|);
      e.amount / (|e.members| as real)
  }

  /** What `n` has paid: the amounts of the expenses whose payer is `n`. */
  function Paid(n: string, expenses: seq<Expense>): real {
    if expenses == [] then 0.0
    else
      var e := expenses[|expenses| - 1];
      Paid(n, expenses[..|expenses| - 1]) + (if e.paidBy == n then e.amount else 0.0)
  }

  /** What the participant list `ps` charges `n`: `share` for each occurrence of `n`. */
  function Portion(n: string, ps: seq<string>, share: real): (r: real)
    ensures n !in ps ==> r == 0.0
  {
    if ps == [] then 0.0
    else
      assert ps == ps[..|ps| - 1] + [ps[|ps| - 1]];
      Portion(n, ps[..|ps| - 1], share) + (if ps[|ps| - 1] == n then share else 0.0)
  }

  /** What `n` has been charged: one share per occurrence in each expense's participant list. */
  function Split(n: string, expenses: seq<Expense>): real {
    if expenses == [] then 0.0
    else
      var e := expenses[|expenses| - 1];
      Split(n, expenses[..|expenses| - 1]) + Portion(n, e.members, Share(e))
  }

  /** The entry of `n` once every expense has been applied. */
  function EntryFor(n: string, expenses: seq<Expense>): (r: Balance)
    ensures r.net == r.paid - r.split
  {
    Balance(Paid(n, expenses), Split(n, expenses), Paid(n, expenses) - Split(n, expenses))
  }

  /**
   * The record the calculator produces for the member names `names`: one entry
   * per distinct name, listed in first-occurrence order, with `net = paid - split`.
   */
  function Sheet(names: seq<string>, expenses: seq<Expense>): (b: BalanceSheet)
    ensures b.WellFormed()
    ensures forall n :: n in b.entries <==> n in names
    ensures forall n :: n in b.entries ==> b.entries[n].net == b.entries[n].paid - b.entries[n].split
  {
    BalanceSheet(NameOrder(names), map n | n in names :: EntryFor(n, expenses))
  }

  /**
   * `getMemberBalances`: fill the record with zeroes, add each expense to its
   * payer and participants, then compute every net.
   */
  method MemberBalances(names: seq<string>, expenses: seq<Expense>) returns (b: BalanceSheet)
    ensures b == Sheet(names, expenses)
  {
    var order, entries := StartBalances(names);
    entries := ApplyExpenses(entries, expenses);
    entries := ComputeNets(order, entries);
    SheetEntries(names, expenses, entries);
    b := BalanceSheet(order, entries);
  }

  /** `expenses.forEach(exp => ...)`: every expense in turn, starting from `entries`. */
  method ApplyExpenses(entries: map<string, Balance>, expenses: seq<Expense>) returns (r: map<string, Balance>)
    ensures r.Keys == entries.Keys
    ensures forall n :: n in r ==>
              r[n] == entries[n].(paid := entries[n].paid + Paid(n, expenses),
                                  split := entries[n].split + Split(n, expenses))
  {
    r := entries;
    for i := 0 to |expenses|
      invariant r.Keys == entries.Keys
      invariant forall n :: n in r ==>
                  r[n] == entries[n].(paid := entries[n].paid + Paid(n, expenses[..i]),
                                      split := entries[n].split + Split(n, expenses[..i]))
    {
      var exp := expenses[i];
      assert expenses[..i + 1] == expenses[..i] + [exp];
      forall n {
        AppendExpense(n, expenses[..i], exp);
      }
      r := ApplyExpense(r, exp);
    }
    assert expenses[..|expenses|] == expenses;
  }

  /** The record built by the three passes is the record `Sheet` describes. */
  lemma SheetEntries(names: seq<string>, expenses: seq<Expense>, entries: map<string, Balance>)
    requires entries.Keys == (set n | n in names)
    requires forall n :: n in entries ==> entries[n] == EntryFor(n, expenses)
    ensures entries == Sheet(names, expenses).entries
  {
    var expected := map n | n in names :: EntryFor(n, expenses);
    assert entries.Keys == expected.Keys;
    assert entries == expected;
  }

  /** `members.forEach(m => { balances[m.name] = {paid: 0, split: 0, net: 0} })`. */
  method StartBalances(names: seq<string>) returns (order: seq<string>, entries: map<string, Balance>)
    ensures order == NameOrder(names)
    ensures entries.Keys == (set n | n in names)
    ensures forall n :: n in entries ==> entries[n] == Balance(0.0, 0.0, 0.0)
  {
    order, entries := [], map[];
    for i := 0 to |names|
      invariant order == NameOrder(names[..i])
      invariant entries.Keys == (set n | n in names[..i])
      invariant forall n :: n in entries ==> entries[n] == Balance(0.0, 0.0, 0.0)
    {
      var name := names[i];
      assert names[..i + 1] == names[..i] + [name];
      if name !in entries {
        order := order + [name];
      }
      entries := entries[name := Balance(0.0, 0.0, 0.0)];
    }
    assert names[..|names|] == names;
  }

  /** `Object.keys(balances).forEach(name => { net = paid - split })`. */
  method ComputeNets(order: seq<string>, entries: map<string, Balance>) returns (r: map<string, Balance>)
    requires forall n :: n in order ==> n in entries
    ensures r.Keys == entries.Keys
    ensures forall n :: n in r ==>
              r[n] == entries[n].(net := if n in order then entries[n].paid - entries[n].split else entries[n].net)
  {
    r := entries;
    for k := 0 to |order|
      invariant r.Keys == entries.Keys
      invariant forall n :: n in r ==>
                  r[n] == entries[n].(net := if n in order[..k] then entries[n].paid - entries[n].split
                                             else entries[n].net)
    {
      var name := order[k];
      assert order[..k + 1] == order[..k] + [name];
      var data := r[name];
      r := r[name := data.(net := data.paid - data.split)];
    }
    assert order[..|order|] == order;
  }

  /**
   * The body of `expenses.forEach(exp => ...)`: the payer's `paid` grows by the
   * amount if the payer has an entry, then each participant with an entry gets
   * one share added to `split` per occurrence.
   */
  method ApplyExpense(entries: map<string, Balance>, exp: Expense) returns (r: map<string, Balance>)
    ensures r.Keys == entries.Keys
    ensures forall n :: n in r ==>
              r[n] == entries[n].(paid := entries[n].paid + (if exp.paidBy == n then exp.amount else 0.0),
                                  split := entries[n].split + Portion(n, exp.members, Share(exp)))
  {
    r := entries;
    if exp.paidBy in r {
      var p := r[exp.paidBy];
      r := r[exp.paidBy := p.(paid := p.paid + exp.amount)];
    }
    // With no participants the source's quotient is never used.
    var share := if |exp.members| == 0 then 0.0 else exp.amount / (|exp.members| as real);
    r := ChargeShares(r, exp.members, share);
  }

  /** `exp.members.forEach(...)`: each participant with an entry gets `share` added to `split`. */
  method ChargeShares(entries: map<string, Balance>, ps: seq<string>, share: real) returns (r: map<string, Balance>)
    ensures r.Keys == entries.Keys
    ensures forall n :: n in r ==> r[n] == entries[n].(split := entries[n].split + Portion(n, ps, share))
  {
    r := entries;
    for j := 0 to |ps|
      invariant r.Keys == entries.Keys
      invariant forall n :: n in r ==> r[n] == entries[n].(split := entries[n].split + Portion(n, ps[..j], share))
    {
      var name := ps[j];
      assert ps[..j + 1] == ps[..j] + [name];
      PortionSnoc(ps[..j], name, share);
      if name in r {
        var q := r[name];
        r := r[name := q.(split := q.split + share)];
      }
    }
    assert ps[..|ps|] == ps;
  }

  lemma PortionSnoc(ps: seq<string>, x: string, share: real)
    ensures forall n :: Portion(n, ps + [x], share) == Portion(n, ps, share) + (if x == n then share else 0.0)
  {
    assert (ps + [x])[..|ps|] == ps;
  }

  /**
   * Appending an expense adds its amount to its payer's `paid` and one share
   * per occurrence to each participant's `split`; nobody else's figures move.
   */
  lemma AppendExpense(n: string, expenses: seq<Expense>, e: Expense)
    ensures Paid(n, expenses + [e]) == Paid(n, expenses) + (if e.paidBy == n then e.amount else 0.0)
    ensures Split(n, expenses + [e]) == Split(n, expenses) + Portion(n, e.members, Share(e))
    ensures n != e.paidBy && n !in e.members ==> EntryFor(n, expenses + [e]) == EntryFor(n, expenses)
  {
    assert (expenses + [e])[..|expenses|] == expenses;
  }

  /** A name that paid for none of the expenses has paid nothing. */
  lemma {:induction false} NeverPaid(n: string, expenses: seq<Expense>)
    requires forall e :: e in expenses ==> e.paidBy != n
    ensures Paid(n, expenses) == 0.0
  {
    if expenses != [] {
      var init := expenses[..|expenses| - 1];
      assert forall e :: e in init ==> e in expenses;
      assert expenses[|expenses| - 1] in expenses;
      NeverPaid(n, init);
    }
  }

  /** A name listed in none of the expenses has been charged nothing. */
  lemma {:induction false} NeverCharged(n: string, expenses: seq<Expense>)
    requires forall e :: e in expenses ==> n !in e.members
    ensures Split(n, expenses) == 0.0
  {
    if expenses != [] {
      var init := expenses[..|expenses| - 1];
      assert forall e :: e in init ==> e in expenses;
      assert expenses[|expenses| - 1] in expenses;
      NeverCharged(n, init);
    }
  }

  /** A participant listed exactly once is charged exactly one share. */
  lemma {:induction false} PortionOfDistinct(n: string, ps: seq<string>, share: real)
    requires Distinct(ps) && n in ps
    ensures Portion(n, ps, share) == share
  {
    var init, last := ps[..|ps| - 1], ps[|ps| - 1];
    assert ps == init + [last];
    if last == n {
      assert n !in init by {
        forall i | 0 <= i < |init| ensures init[i] != n {
          assert ps[i] == init[i];
        }
      }
    } else {
      assert Distinct(init) by {
        forall i, j | 0 <= i < j < |init| ensures init[i] != init[j] {
          assert ps[i] == init[i] && ps[j] == init[j];
        }
      }
      PortionOfDistinct(n, init, share);
    }
  }

  /** A participant is charged one share per occurrence in the list. */
  lemma PortionIsCountTimesShare(n: string, ps: seq<string>, share: real)
    ensures Portion(n, ps, share) == Count(n, ps) as real * share
  {
    PortionIsRepeat(n, ps, share);
    RepeatIsProduct(Count(n, ps), share);
  }

  lemma {:induction false} PortionIsRepeat(n: string, ps: seq<string>, share: real)
    ensures Portion(n, ps, share) == Repeat(Count(n, ps), share)
  {
    if ps != [] {
      PortionIsRepeat(n, ps[..|ps| - 1], share);
    }
  }

  /** `k` copies of `x` added up. */
  function Repeat(k: nat, x: real): real {
    if k == 0 then 0.0 else Repeat(k - 1, x) + x
  }

  lemma {:induction false} RepeatIsProduct(k: nat, x: real)
    ensures Repeat(k, x) == k as real * x
  {
    if k > 0 {
      RepeatIsProduct(k - 1, x);
      assert ((k - 1) as real + 1.0) * x == (k - 1) as real * x + x;
    }
  }

  /** `k` equal shares of an amount add up to the amount. */
  lemma SharesAddUp(amount: real, k: nat)
    requires k > 0
    ensures Repeat(k, amount / k as real) == amount
  {
    RepeatIsProduct(k, amount / k as real);
  }
}

/**
 * Conservation: the nets of a balance record sum to what members paid minus
 * what members were charged, and to exactly zero when every payer and every
 * participant is a member.
 */
module Conservation {
  import opened Ledger
  import opened Balances

  /** The sum of the nets of the names listed in `order`. */
  function NetTotal(order: seq<string>, entries: map<string, Balance>): real
    requires forall n :: n in order ==> n in entries
  {
    if order == [] then 0.0 else entries[order[0]].net + NetTotal(order[1..], entries)
  }

  /** The `paid` column over `keys`. */
  function PaidTotal(keys: seq<string>, expenses: seq<Expense>): real {
    if keys == [] then 0.0 else Paid(keys[0], expenses) + PaidTotal(keys[1..], expenses)
  }

  /** The `split` column over `keys`. */
  function SplitTotal(keys: seq<string>, expenses: seq<Expense>): real {
    if keys == [] then 0.0 else Split(keys[0], expenses) + SplitTotal(keys[1..], expenses)
  }

  /** What one participant list charges the names in `keys`, summed over `keys`. */
  function PortionTotal(keys: seq<string>, ps: seq<string>, share: real): real {
    if keys == [] then 0.0 else Portion(keys[0], ps, share) + PortionTotal(keys[1..], ps, share)
  }

  /** The amounts of the expenses whose payer is a member. */
  function PaidByMembers(members: set<string>, expenses: seq<Expense>): real {
    if expenses == [] then 0.0
    else
      var e := expenses[|expenses| - 1];
      PaidByMembers(members, expenses[..|expenses| - 1]) + (if e.paidBy in members then e.amount else 0.0)
  }

  /** One share for each occurrence of a member in a participant list. */
  function MemberPortion(members: set<string>, ps: seq<string>, share: real): real {
    if ps == [] then 0.0
    else MemberPortion(members, ps[..|ps| - 1], share) + (if ps[|ps| - 1] in members then share else 0.0)
  }

  /** The shares the expenses charge to members. */
  function ChargedToMembers(members: set<string>, expenses: seq<Expense>): real {
    if expenses == [] then 0.0
    else
      var e := expenses[|expenses| - 1];
      ChargedToMembers(members, expenses[..|expenses| - 1]) + MemberPortion(members, e.members, Share(e))
  }

  lemma {:induction false} NetTotalOfEntries(keys: seq<string>, expenses: seq<Expense>, entries: map<string, Balance>)
    requires forall k :: k in keys ==> k in entries && entries[k] == EntryFor(k, expenses)
    ensures NetTotal(keys, entries) == PaidTotal(keys, expenses) - SplitTotal(keys, expenses)
  {
    if keys != [] {
      NetTotalOfEntries(keys[1..], expenses, entries);
    }
  }

  lemma {:induction false} PaidTotalAppend(keys: seq<string>, expenses: seq<Expense>, e: Expense)
    requires Distinct(keys)
    ensures PaidTotal(keys, expenses + [e]) == PaidTotal(keys, expenses) + (if e.paidBy in keys then e.amount else 0.0)
  {
    if keys != [] {
      AppendExpense(keys[0], expenses, e);
      PaidTotalAppend(keys[1..], expenses, e);
      assert e.paidBy in keys <==> e.paidBy == keys[0] || e.paidBy in keys[1..];
      assert keys[0] !in keys[1..];
    }
  }

  lemma {:induction false} PortionTotalAppend(keys: seq<string>, ps: seq<string>, p: string, share: real)
    requires Distinct(keys)
    ensures PortionTotal(keys, ps + [p], share) == PortionTotal(keys, ps, share) + (if p in keys then share else 0.0)
  {
    if keys != [] {
      assert (ps + [p])[..|ps|] == ps;
      PortionTotalAppend(keys[1..], ps, p, share);
      assert p in keys <==> p == keys[0] || p in keys[1..];
      assert keys[0] !in keys[1..];
    }
  }

  /** Summed over distinct keys, a participant list charges exactly its members' occurrences. */
  lemma {:induction false} PortionTotalIs(keys: seq<string>, ps: seq<string>, share: real)
    requires Distinct(keys)
    ensures PortionTotal(keys, ps, share) == MemberPortion((set k | k in keys), ps, share)
  {
    if ps == [] {
      PortionTotalOfEmpty(keys, share);
    } else {
      var init, p := ps[..|ps| - 1], ps[|ps| - 1];
      assert ps == init + [p];
      PortionTotalIs(keys, init, share);
      PortionTotalAppend(keys, init, p, share);
    }
  }

  lemma {:induction false} PortionTotalOfEmpty(keys: seq<string>, share: real)
    ensures PortionTotal(keys, [], share) == 0.0
  {
    if keys != [] {
      PortionTotalOfEmpty(keys[1..], share);
    }
  }

  lemma {:induction false} SplitTotalAppend(keys: seq<string>, expenses: seq<Expense>, e: Expense)
    ensures SplitTotal(keys, expenses + [e]) == SplitTotal(keys, expenses) + PortionTotal(keys, e.members, Share(e))
  {
    if keys != [] {
      AppendExpense(keys[0], expenses, e);
      SplitTotalAppend(keys[1..], expenses, e);
    }
  }

  /** Summed over distinct keys, the `paid` column is what the keys paid. */
  lemma {:induction false} PaidTotalIs(keys: seq<string>, expenses: seq<Expense>)
    requires Distinct(keys)
    ensures PaidTotal(keys, expenses) == PaidByMembers((set k | k in keys), expenses)
  {
    if expenses == [] {
      ColumnsOfNothing(keys);
    } else {
      var init, e := expenses[..|expenses| - 1], expenses[|expenses| - 1];
      assert expenses == init + [e];
      PaidTotalIs(keys, init);
      PaidTotalAppend(keys, init, e);
    }
  }

  /** Summed over distinct keys, the `split` column is what the expenses charged the keys. */
  lemma {:induction false} SplitTotalIs(keys: seq<string>, expenses: seq<Expense>)
    requires Distinct(keys)
    ensures SplitTotal(keys, expenses) == ChargedToMembers((set k | k in keys), expenses)
  {
    if expenses == [] {
      ColumnsOfNothing(keys);
    } else {
      var init, e := expenses[..|expenses| - 1], expenses[|expenses| - 1];
      assert expenses == init + [e];
      SplitTotalIs(keys, init);
      SplitTotalAppend(keys, init, e);
      PortionTotalIs(keys, e.members, Share(e));
    }
  }

  lemma {:induction false} ColumnsOfNothing(keys: seq<string>)
    ensures PaidTotal(keys, []) == 0.0 && SplitTotal(keys, []) == 0.0
  {
    if keys != [] {
      ColumnsOfNothing(keys[1..]);
    }
  }

  /**
   * The nets of the calculated record sum to the amounts paid by members minus
   * the shares charged to members; names that are not members drop out of both.
   */
  lemma NetConservation(names: seq<string>, expenses: seq<Expense>)
    ensures var b := Sheet(names, expenses);
            NetTotal(b.order, b.entries)
            == PaidByMembers((set n | n in names), expenses) - ChargedToMembers((set n | n in names), expenses)
  {
    var b := Sheet(names, expenses);
    assert (set k | k in b.order) == (set n | n in names);
    NetTotalOfEntries(b.order, expenses, b.entries);
    PaidTotalIs(b.order, expenses);
    SplitTotalIs(b.order, expenses);
  }

  /** When every payer is a member, the `paid` column adds up to `totalExpense`. */
  lemma {:induction false} PaidByMembersIsTotal(members: set<string>, expenses: seq<Expense>)
    requires forall e :: e in expenses ==> e.paidBy in members
    ensures PaidByMembers(members, expenses) == TotalExpense(expenses)
  {
    if expenses != [] {
      PaidByMembersIsTotal(members, expenses[..|expenses| - 1]);
    }
  }

  lemma {:induction false} MemberPortionOfMembers(members: set<string>, ps: seq<string>, share: real)
    requires forall p :: p in ps ==> p in members
    ensures MemberPortion(members, ps, share) == Repeat(|ps|, share)
  {
    if ps != [] {
      MemberPortionOfMembers(members, ps[..|ps| - 1], share);
    }
  }

  /** When every participant is a member and no list is empty, the charges add up to `totalExpense`. */
  lemma {:induction false} ChargedToMembersIsTotal(members: set<string>, expenses: seq<Expense>)
    requires forall e :: e in expenses ==> |e.members| > 0 && forall p :: p in e.members ==> p in members
    ensures ChargedToMembers(members, expenses) == TotalExpense(expenses)
  {
    if expenses != [] {
      var e := expenses[|expenses| - 1];
      ChargedToMembersIsTotal(members, expenses[..|expenses| - 1]);
      MemberPortionOfMembers(members, e.members, Share(e));
      SharesAddUp(e.amount, |e.members|);
    }
  }

  /**
   * Zero-sum: if every expense's payer and participants are members and no
   * participant list is empty, the nets of the record sum to exactly zero.
   */
  lemma ZeroSum(names: seq<string>, expenses: seq<Expense>)
    requires forall e :: e in expenses ==>
               && e.paidBy in names
               && |e.members| > 0
               && forall p :: p in e.members ==> p in names
    ensures var b := Sheet(names, expenses); NetTotal(b.order, b.entries) == 0.0
  {
    var members := set n | n in names;
    NetConservation(names, expenses);
    PaidByMembersIsTotal(members, expenses);
    ChargedToMembersIsTotal(members, expenses);
  }
}
