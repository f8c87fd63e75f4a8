/**
 * The settlement planner (`settlementPlan`): split the balance record into
 * debtors (net below -0.01, owing |net|) and creditors (net above 0.01), then,
 * while both lists are non-empty, re-sort both by descending amount, let the
 * first debtor pay the first creditor the smaller of their two amounts, and
 * shift off whichever head has dropped below 0.01.
 */
module Settlement {
  import opened Wrappers
  import opened Ledger
  import opened Balances
  import opened Sorting
  import Conservation

  /** The debtors in `Object.entries` order, each owing the magnitude of its net. */
  function Debtors(order: seq<string>, entries: map<string, Balance>): (r: seq<Party>)
    requires forall n :: n in order ==> n in entries
    ensures |r| <= |order|
  {
    if order == [] then []
    else
      var name := order[|order| - 1];
      var net := entries[name].net;
      Debtors(order[..|order| - 1], entries) + (if net < -Eps then [Party(name, Abs(net))] else [])
  }

  /** The creditors in `Object.entries` order (the `else if` branch), each owed its net. */
  function Creditors(order: seq<string>, entries: map<string, Balance>): (r: seq<Party>)
    requires forall n :: n in order ==> n in entries
    ensures |r| <= |order|
  {
    if order == [] then []
    else
      var name := order[|order| - 1];
      var net := entries[name].net;
      Creditors(order[..|order| - 1], entries)
        + (if net < -Eps then [] else if net > Eps then [Party(name, net)] else [])
  }

  /** How many listed names are outside the settled band [-0.01, 0.01]. */
  function Unsettled(order: seq<string>, entries: map<string, Balance>): (r: nat)
    requires forall n :: n in order ==> n in entries
    ensures r <= |order|
  {
    if order == [] then 0
    else
      var net := entries[order[|order| - 1]].net;
      Unsettled(order[..|order| - 1], entries) + (if net < -Eps || net > Eps then 1 else 0)
  }

  /**
   * `head.amount -= amount`, then `shift()` if the head has dropped below the
   * tolerance: the head either leaves or stays with its amount lowered, and
   * the other parties are kept as they were, in order.
   */
  function Reduce(s: seq<Party>, amount: real): (r: seq<Party>)
    requires |s| > 0
    ensures |r| == if s[0].amount - amount < Eps then |s| - 1 else |s|
    ensures s[0].amount - amount < Eps ==> r == s[1..]
    ensures s[0].amount - amount >= Eps ==> r == [Party(s[0].name, s[0].amount - amount)] + s[1..]
  {
    var head := s[0].(amount := s[0].amount - amount);
    if head.amount < Eps then s[1..] else s[0 := head]
  }

  /** The transactions the greedy loop emits from these debtor and creditor lists. */
  function Plan(debtors: seq<Party>, creditors: seq<Party>): seq<Transaction>
    decreases |debtors| + |creditors|
  {
    if |debtors| == 0 || |creditors| == 0 then []
    else
      var ds, cs := SortDesc(debtors), SortDesc(creditors);
      var amount := Min(ds[0].amount, cs[0].amount);
      [Transaction(ds[0].name, cs[0].name, amount)] + Plan(Reduce(ds, amount), Reduce(cs, amount))
  }

  /** The plan for a balance record. */
  function PlanFor(b: BalanceSheet): seq<Transaction>
    requires b.WellFormed()
  {
    Plan(Debtors(b.order, b.entries), Creditors(b.order, b.entries))
  }

  /**
   * `settlementPlan`: partition the record, then run the greedy loop on the two
   * lists, re-sorting, decrementing and shifting them in each round.
   */
  method SettlementPlan(b: BalanceSheet) returns (txns: seq<Transaction>)
    requires b.WellFormed()
    ensures txns == PlanFor(b)
    ensures txns == [] || |txns| + 1 <= Unsettled(b.order, b.entries)
    ensures forall t :: t in txns ==>
              && t.amount >= Eps
              && t.from in b.entries && b.entries[t.from].net < -Eps
              && t.to in b.entries && b.entries[t.to].net > Eps
  {
    var debtors, creditors := Partition(b);
    txns := Settle(debtors, creditors);
    PlanForLength(b);
    PlanForParties(b);
  }

  /** The first loop of `settlementPlan`: one pass over the record's entries. */
  method Partition(b: BalanceSheet) returns (debtors: seq<Party>, creditors: seq<Party>)
    requires b.WellFormed()
    ensures debtors == Debtors(b.order, b.entries)
    ensures creditors == Creditors(b.order, b.entries)
  {
    debtors, creditors := [], [];
    for i := 0 to |b.order|
      invariant debtors == Debtors(b.order[..i], b.entries)
      invariant creditors == Creditors(b.order[..i], b.entries)
    {
      var name := b.order[i];
      var data := b.entries[name];
      PartitionStep(b.order, b.entries, i);
      if data.net < -Eps {
        debtors := debtors + [Party(name, Abs(data.net))];
      } else if data.net > Eps {
        creditors := creditors + [Party(name, data.net)];
      }
    }
    assert b.order[..|b.order|] == b.order;
  }

  /** One more entry of the record: at most one new debtor or creditor, at the end. */
  lemma PartitionStep(order: seq<string>, entries: map<string, Balance>, i: nat)
    requires forall n :: n in order ==> n in entries
    requires i < |order|
    ensures var net := entries[order[i]].net;
            && Debtors(order[..i + 1], entries)
               == Debtors(order[..i], entries) + (if net < -Eps then [Party(order[i], Abs(net))] else [])
            && Creditors(order[..i + 1], entries)
               == Creditors(order[..i], entries)
                  + (if net < -Eps then [] else if net > Eps then [Party(order[i], net)] else [])
  {
    assert order[..i + 1][..i] == order[..i];
  }

  /** The `while` loop of `settlementPlan`. */
  method Settle(debtors: seq<Party>, creditors: seq<Party>) returns (txns: seq<Transaction>)
    ensures txns == Plan(debtors, creditors)
  {
    var ds, cs := debtors, creditors;
    txns := [];
    while |ds| > 0 && |cs| > 0
      invariant txns + Plan(ds, cs) == Plan(debtors, creditors)
      decreases |ds| + |cs|
    {
      var txn;
      txn, ds, cs := Round(ds, cs);
      AppendAssoc(txns, [txn], Plan(ds, cs));
      txns := txns + [txn];
    }
    PlanEmpty(ds, cs);
    assert txns + [] == txns;
  }

  /** The loop emits a payment exactly when both lists are non-empty. */
  lemma PlanEmpty(debtors: seq<Party>, creditors: seq<Party>)
    ensures Plan(debtors, creditors) == [] <==> |debtors| == 0 || |creditors| == 0
  {
  }

  /** Regrouping a concatenation, kept apart from the loop so the loop's proof stays small. */
  lemma AppendAssoc(a: seq<Transaction>, b: seq<Transaction>, c: seq<Transaction>)
    ensures (a + b) + c == a + (b + c)
  {
  }

  /** One pass of the loop body: sort both lists, emit one payment, decrement both heads. */
  method Round(debtors: seq<Party>, creditors: seq<Party>) returns (txn: Transaction, ds: seq<Party>, cs: seq<Party>)
    requires |debtors| > 0 && |creditors| > 0
    ensures Plan(debtors, creditors) == [txn] + Plan(ds, cs)
    ensures |ds| + |cs| < |debtors| + |creditors|
  {
    ds := SortDesc(debtors);
    cs := SortDesc(creditors);
    var amount := Min(ds[0].amount, cs[0].amount);
    txn := Transaction(ds[0].name, cs[0].name, amount);
    PlanStep(debtors, creditors);
    ds := Decrease(ds, amount);
    cs := Decrease(cs, amount);
  }

  /** `head.amount -= amount`, then `shift()` when the head has dropped below the tolerance. */
  method Decrease(s: seq<Party>, amount: real) returns (r: seq<Party>)
    requires |s| > 0
    ensures r == Reduce(s, amount)
  {
    var head := s[0].(amount := s[0].amount - amount);
    r := s[0 := head];
    if head.amount < Eps {
      assert r[1..] == s[1..];
      r := r[1..];
    }
  }

  /** One round of the loop: the first transaction, then the plan of the reduced lists. */
  lemma PlanStep(debtors: seq<Party>, creditors: seq<Party>)
    requires |debtors| > 0 && |creditors| > 0
    ensures var ds, cs := SortDesc(debtors), SortDesc(creditors);
            var amount := Min(ds[0].amount, cs[0].amount);
            Plan(debtors, creditors)
            == [Transaction(ds[0].name, cs[0].name, amount)] + Plan(Reduce(ds, amount), Reduce(cs, amount))
  {
  }

  // ---------------------------------------------------------------------------
  // The greedy loop

  predicate Pending(s: seq<Party>) {
    forall p :: p in s ==> p.amount >= Eps
  }

  function Names(s: seq<Party>): set<string> {
    set p | p in s :: p.name
  }

  lemma SortPending(s: seq<Party>)
    requires Pending(s)
    ensures Pending(SortDesc(s)) && Names(SortDesc(s)) == Names(s)
  {
    var r := SortDesc(s);
    forall p | p in r ensures p in s {
      assert p in multiset(r);
    }
    forall p | p in s ensures p in r {
      assert p in multiset(s);
    }
  }

  lemma ReducePending(s: seq<Party>, amount: real)
    requires |s| > 0 && Pending(s)
    ensures Pending(Reduce(s, amount)) && Names(Reduce(s, amount)) <= Names(s)
  {
    var r := Reduce(s, amount);
    forall p | p in r ensures p.amount >= Eps && p.name in Names(s) {
      var k :| 0 <= k < |r| && r[k] == p;
      if |r| == |s| {
        assert k == 0 || p == s[k];
      } else {
        assert p == s[k + 1];
      }
    }
  }

  /** Termination bound: every round shifts off at least one party. */
  lemma {:induction false} PlanLength(debtors: seq<Party>, creditors: seq<Party>)
    ensures Plan(debtors, creditors) == [] || |Plan(debtors, creditors)| + 1 <= |debtors| + |creditors|
    decreases |debtors| + |creditors|
  {
    if |debtors| > 0 && |creditors| > 0 {
      var ds, cs := SortDesc(debtors), SortDesc(creditors);
      var amount := Min(ds[0].amount, cs[0].amount);
      PlanLength(Reduce(ds, amount), Reduce(cs, amount));
    }
  }

  /**
   * Every transaction goes from a debtor to a creditor of the lists it started
   * from, for at least the tolerance.
   */
  lemma {:induction false} PlanParties(debtors: seq<Party>, creditors: seq<Party>)
    requires Pending(debtors) && Pending(creditors)
    ensures forall t :: t in Plan(debtors, creditors) ==>
              t.amount >= Eps && t.from in Names(debtors) && t.to in Names(creditors)
    decreases |debtors| + |creditors|
  {
    if |debtors| > 0 && |creditors| > 0 {
      var ds, cs := SortDesc(debtors), SortDesc(creditors);
      SortPending(debtors);
      SortPending(creditors);
      var amount := Min(ds[0].amount, cs[0].amount);
      ReducePending(ds, amount);
      ReducePending(cs, amount);
      PlanParties(Reduce(ds, amount), Reduce(cs, amount));
      assert ds[0] in ds && cs[0] in cs;
    }
  }

  /**
   * The first round matches the largest debtor with the largest creditor, each
   * the earliest of its list among equal amounts, for the smaller amount.
   */
  lemma PlanHead(debtors: seq<Party>, creditors: seq<Party>)
    requires |debtors| > 0 && |creditors| > 0
    ensures exists i, k ::
              && FirstLargest(debtors, i) && FirstLargest(creditors, k)
              && Plan(debtors, creditors)[0]
                 == Transaction(debtors[i].name, creditors[k].name, Min(debtors[i].amount, creditors[k].amount))
  {
    SortHead(debtors);
    SortHead(creditors);
  }

  /** The amounts sent by the parties `who` selects. */
  function Outflow(txns: seq<Transaction>, who: string -> bool): real {
    if txns == [] then 0.0 else (if who(txns[0].from) then txns[0].amount else 0.0) + Outflow(txns[1..], who)
  }

  /** The amounts received by the parties `who` selects. */
  function Inflow(txns: seq<Transaction>, who: string -> bool): real {
    if txns == [] then 0.0 else (if who(txns[0].to) then txns[0].amount else 0.0) + Inflow(txns[1..], who)
  }

  /**
   * One round takes `amount` off the head's total, and when it shifts the head
   * off, what is dropped with it is below the tolerance.
   */
  lemma ReduceSum(s: seq<Party>, amount: real, who: string -> bool)
    requires |s| > 0 && amount <= s[0].amount
    ensures var taken := if who(s[0].name) then amount else 0.0;
            && Sum(Reduce(s, amount), who) + taken <= Sum(s, who)
            && Sum(s, who) <= Sum(Reduce(s, amount), who) + taken
                              + (if |Reduce(s, amount)| < |s| && who(s[0].name) then Eps else 0.0)
  {
    assert s[0 := s[0].(amount := s[0].amount - amount)][1..] == s[1..];
  }

  /**
   * Nobody pays more than it owed: for any group of parties, what the group
   * sends is at most what its debtor entries owed.
   */
  lemma {:induction false} PlanOutflowWithinDebts(debtors: seq<Party>, creditors: seq<Party>, who: string -> bool)
    requires Pending(debtors)
    ensures Outflow(Plan(debtors, creditors), who) <= Sum(debtors, who)
    decreases |debtors| + |creditors|
  {
    if |debtors| == 0 || |creditors| == 0 {
      SumNonNegative(debtors, who);
    } else {
      var ds, cs := SortDesc(debtors), SortDesc(creditors);
      SortPending(debtors);
      var amount := Min(ds[0].amount, cs[0].amount);
      var ds', cs' := Reduce(ds, amount), Reduce(cs, amount);
      ReducePending(ds, amount);
      PlanOutflowWithinDebts(ds', cs', who);
      ReduceSum(ds, amount, who);
      SortSum(debtors, who);
      assert Plan(debtors, creditors) == [Transaction(ds[0].name, cs[0].name, amount)] + Plan(ds', cs');
    }
  }

  /** Nobody receives more than it was owed. */
  lemma {:induction false} PlanInflowWithinCredits(debtors: seq<Party>, creditors: seq<Party>, who: string -> bool)
    requires Pending(creditors)
    ensures Inflow(Plan(debtors, creditors), who) <= Sum(creditors, who)
    decreases |debtors| + |creditors|
  {
    if |debtors| == 0 || |creditors| == 0 {
      SumNonNegative(creditors, who);
    } else {
      var ds, cs := SortDesc(debtors), SortDesc(creditors);
      SortPending(creditors);
      var amount := Min(ds[0].amount, cs[0].amount);
      var ds', cs' := Reduce(ds, amount), Reduce(cs, amount);
      ReducePending(cs, amount);
      PlanInflowWithinCredits(ds', cs', who);
      ReduceSum(cs, amount, who);
      SortSum(creditors, who);
      assert Plan(debtors, creditors) == [Transaction(ds[0].name, cs[0].name, amount)] + Plan(ds', cs');
    }
  }

  lemma {:induction false} SumNonNegative(s: seq<Party>, who: string -> bool)
    requires Pending(s)
    ensures Sum(s, who) >= 0.0
  {
    if s != [] {
      assert s[0] in s;
      SumNonNegative(s[1..], who);
    }
  }

  /** Selects every party. */
  function Everyone(): string -> bool {
    _ => true
  }

  /**
   * Completeness up to the tolerance: on one side or the other, the plan moves
   * everything that was owed except less than 0.01 per party of that side.
   */
  lemma {:induction false} PlanNearlyComplete(debtors: seq<Party>, creditors: seq<Party>)
    ensures var moved := Outflow(Plan(debtors, creditors), Everyone());
            || Sum(debtors, Everyone()) <= moved + Eps * |debtors| as real
            || Sum(creditors, Everyone()) <= moved + Eps * |creditors| as real
    decreases |debtors| + |creditors|
  {
    var all := Everyone();
    if |debtors| == 0 {
      assert Sum(debtors, all) == 0.0;
    } else if |creditors| == 0 {
      assert Sum(creditors, all) == 0.0;
    } else {
      var ds, cs := SortDesc(debtors), SortDesc(creditors);
      var amount := Min(ds[0].amount, cs[0].amount);
      var ds', cs' := Reduce(ds, amount), Reduce(cs, amount);
      PlanNearlyComplete(ds', cs');
      ReduceSum(ds, amount, all);
      ReduceSum(cs, amount, all);
      SortSum(debtors, all);
      SortSum(creditors, all);
      assert Plan(debtors, creditors) == [Transaction(ds[0].name, cs[0].name, amount)] + Plan(ds', cs');
      assert Outflow(Plan(debtors, creditors), all) == amount + Outflow(Plan(ds', cs'), all);
    }
  }

  // ---------------------------------------------------------------------------
  // The plan of a balance record

  /** The debtors are exactly the listed names whose net is below -0.01, owing |net|. */
  lemma {:induction false} DebtorsExactly(order: seq<string>, entries: map<string, Balance>)
    requires forall n :: n in order ==> n in entries
    ensures forall p :: p in Debtors(order, entries) <==>
              p.name in order && entries[p.name].net < -Eps && p.amount == -entries[p.name].net
  {
    if order != [] {
      var init, name := order[..|order| - 1], order[|order| - 1];
      assert order == init + [name];
      DebtorsExactly(init, entries);
    }
  }

  /** The creditors are exactly the listed names whose net is above 0.01, owed their net. */
  lemma {:induction false} CreditorsExactly(order: seq<string>, entries: map<string, Balance>)
    requires forall n :: n in order ==> n in entries
    ensures forall p :: p in Creditors(order, entries) <==>
              p.name in order && entries[p.name].net > Eps && p.amount == entries[p.name].net
  {
    if order != [] {
      var init, name := order[..|order| - 1], order[|order| - 1];
      assert order == init + [name];
      CreditorsExactly(init, entries);
    }
  }

  lemma {:induction false} PartiesAreUnsettled(order: seq<string>, entries: map<string, Balance>)
    requires forall n :: n in order ==> n in entries
    ensures |Debtors(order, entries)| + |Creditors(order, entries)| == Unsettled(order, entries)
  {
    if order != [] {
      PartiesAreUnsettled(order[..|order| - 1], entries);
    }
  }

  lemma PartiesPending(b: BalanceSheet)
    requires b.WellFormed()
    ensures Pending(Debtors(b.order, b.entries)) && Pending(Creditors(b.order, b.entries))
  {
    DebtorsExactly(b.order, b.entries);
    CreditorsExactly(b.order, b.entries);
  }

  /** At most one fewer transaction than there are unsettled members. */
  lemma PlanForLength(b: BalanceSheet)
    requires b.WellFormed()
    ensures PlanFor(b) == [] || |PlanFor(b)| + 1 <= Unsettled(b.order, b.entries)
  {
    PlanLength(Debtors(b.order, b.entries), Creditors(b.order, b.entries));
    PartiesAreUnsettled(b.order, b.entries);
  }

  /**
   * Each transaction runs from a member whose net is below -0.01 to one whose
   * net is above 0.01, for at least 0.01; members in the settled band never appear.
   */
  lemma PlanForParties(b: BalanceSheet)
    requires b.WellFormed()
    ensures forall t :: t in PlanFor(b) ==>
              && t.amount >= Eps
              && t.from in b.entries && b.entries[t.from].net < -Eps
              && t.to in b.entries && b.entries[t.to].net > Eps
  {
    var debtors, creditors := Debtors(b.order, b.entries), Creditors(b.order, b.entries);
    DebtorsExactly(b.order, b.entries);
    CreditorsExactly(b.order, b.entries);
    PlanParties(debtors, creditors);
    forall t | t in PlanFor(b)
      ensures t.from in b.entries && b.entries[t.from].net < -Eps
      ensures t.to in b.entries && b.entries[t.to].net > Eps
    {
      var p :| p in debtors && p.name == t.from;
      var q :| q in creditors && q.name == t.to;
    }
  }

  /** If every net is within the tolerance, the plan is empty. */
  lemma SettledPlanIsEmpty(b: BalanceSheet)
    requires b.WellFormed()
    requires forall n :: n in b.entries ==> -Eps <= b.entries[n].net <= Eps
    ensures PlanFor(b) == []
  {
    PartiesAreUnsettledZero(b.order, b.entries);
    PartiesAreUnsettled(b.order, b.entries);
  }

  lemma {:induction false} PartiesAreUnsettledZero(order: seq<string>, entries: map<string, Balance>)
    requires forall n :: n in order ==> n in entries && -Eps <= entries[n].net <= Eps
    ensures Unsettled(order, entries) == 0
  {
    if order != [] {
      PartiesAreUnsettledZero(order[..|order| - 1], entries);
    }
  }

  /** Selects the one party named `n`. */
  function Named(n: string): string -> bool {
    m => m == n
  }

  lemma {:induction false} DebtorSum(order: seq<string>, entries: map<string, Balance>, n: string)
    requires Distinct(order) && forall k :: k in order ==> k in entries
    ensures Sum(Debtors(order, entries), Named(n))
            == if n in order && entries[n].net < -Eps then -entries[n].net else 0.0
  {
    if order != [] {
      var init, name := order[..|order| - 1], order[|order| - 1];
      assert order == init + [name];
      assert name !in init;
      DebtorSum(init, entries, n);
      var net := entries[name].net;
      SumConcat(Debtors(init, entries), if net < -Eps then [Party(name, Abs(net))] else [], Named(n));
    }
  }

  lemma {:induction false} CreditorSum(order: seq<string>, entries: map<string, Balance>, n: string)
    requires Distinct(order) && forall k :: k in order ==> k in entries
    ensures Sum(Creditors(order, entries), Named(n))
            == if n in order && entries[n].net > Eps then entries[n].net else 0.0
  {
    if order != [] {
      var init, name := order[..|order| - 1], order[|order| - 1];
      assert order == init + [name];
      assert name !in init;
      CreditorSum(init, entries, n);
      var net := entries[name].net;
      SumConcat(Creditors(init, entries),
                if net < -Eps then [] else if net > Eps then [Party(name, net)] else [], Named(n));
    }
  }

  /**
   * No debtor pays more than the magnitude of its net and no creditor receives
   * more than its net; everybody else neither pays nor receives.
   */
  lemma PlanForWithinBalances(b: BalanceSheet, n: string)
    requires b.WellFormed()
    ensures Outflow(PlanFor(b), Named(n)) <= if n in b.entries && b.entries[n].net < -Eps then -b.entries[n].net else 0.0
    ensures Inflow(PlanFor(b), Named(n)) <= if n in b.entries && b.entries[n].net > Eps then b.entries[n].net else 0.0
  {
    PartiesPending(b);
    PlanOutflowWithinDebts(Debtors(b.order, b.entries), Creditors(b.order, b.entries), Named(n));
    PlanInflowWithinCredits(Debtors(b.order, b.entries), Creditors(b.order, b.entries), Named(n));
    DebtorSum(b.order, b.entries, n);
    CreditorSum(b.order, b.entries, n);
  }

  // ---------------------------------------------------------------------------
  // Worked examples

  /** A round on lists that are already in descending order keeps their order. */
  lemma PlanStepSorted(debtors: seq<Party>, creditors: seq<Party>)
    requires |debtors| > 0 && |creditors| > 0
    requires SortedDesc(debtors) && SortedDesc(creditors)
    ensures var amount := Min(debtors[0].amount, creditors[0].amount);
            Plan(debtors, creditors)
            == [Transaction(debtors[0].name, creditors[0].name, amount)]
               + Plan(Reduce(debtors, amount), Reduce(creditors, amount))
  {
    SortedUnchanged(debtors);
    SortedUnchanged(creditors);
    PlanStep(debtors, creditors);
  }

  /** A round, given what the two lists sort to. */
  lemma PlanStepAfterSort(debtors: seq<Party>, creditors: seq<Party>, ds: seq<Party>, cs: seq<Party>)
    requires |debtors| > 0 && |creditors| > 0
    requires SortDesc(debtors) == ds && SortDesc(creditors) == cs
    ensures var amount := Min(ds[0].amount, cs[0].amount);
            Plan(debtors, creditors)
            == [Transaction(ds[0].name, cs[0].name, amount)] + Plan(Reduce(ds, amount), Reduce(cs, amount))
  {
    PlanStep(debtors, creditors);
  }

  /** One debtor and one creditor with the same amount: a single payment settles both. */
  lemma OneToOne(a: string, c: string, x: real)
    requires x >= Eps
    ensures Plan([Party(c, x)], [Party(a, x)]) == [Transaction(c, a, x)]
  {
    var d, k := [Party(c, x)], [Party(a, x)];
    PlanStepSorted(d, k);
    assert Reduce(d, x) == [];
  }

  /**
   * Two debtors owing the same amount and one creditor owed both: the creditor
   * is paid twice, and the tie between the debtors is settled in list order.
   */
  lemma OneCreditorTwoDebtors(a: string, b: string, c: string, x: real)
    requires x >= Eps
    ensures Plan([Party(b, x), Party(c, x)], [Party(a, 2.0 * x)])
            == [Transaction(b, a, x), Transaction(c, a, x)]
  {
    var d, k := [Party(b, x), Party(c, x)], [Party(a, 2.0 * x)];
    PlanStepSorted(d, k);
    var rd, rk := Reduce(d, x), Reduce(k, x);
    assert rd == [Party(c, x)];
    assert rk == [Party(a, x)];
    OneToOne(a, c, x);
    assert Plan(rd, rk) == [Transaction(c, a, x)];
    Pair(Transaction(b, a, x), Transaction(c, a, x));
  }

  /**
   * Members A, B, C, D: A paid 100 split four ways, B paid 40 split between B
   * and C. The debtors are B (5), C (45) and D (25) in member order, the one
   * creditor A (75); the largest debt is settled first.
   */
  lemma FourMembers(a: string, b: string, c: string, d: string)
    ensures Plan([Party(b, 5.0), Party(c, 45.0), Party(d, 25.0)], [Party(a, 75.0)])
            == [Transaction(c, a, 45.0), Transaction(d, a, 25.0), Transaction(b, a, 5.0)]
  {
    FourMembersFirstRound(a, b, c, d);
    TwoDebtorsLeft(a, b, d);
  }

  /** C, owing the most, pays A first; D and B are left, A is owed 30. */
  lemma FourMembersFirstRound(a: string, b: string, c: string, d: string)
    ensures Plan([Party(b, 5.0), Party(c, 45.0), Party(d, 25.0)], [Party(a, 75.0)])
            == [Transaction(c, a, 45.0)] + Plan([Party(d, 25.0), Party(b, 5.0)], [Party(a, 30.0)])
  {
    var debtors := [Party(b, 5.0), Party(c, 45.0), Party(d, 25.0)];
    var sorted := [Party(c, 45.0), Party(d, 25.0), Party(b, 5.0)];
    SortThree(b, c, d);
    SortedUnchanged([Party(a, 75.0)]);
    PlanStepAfterSort(debtors, [Party(a, 75.0)], sorted, [Party(a, 75.0)]);
  }

  lemma TwoDebtorsLeft(a: string, b: string, d: string)
    ensures Plan([Party(d, 25.0), Party(b, 5.0)], [Party(a, 30.0)])
            == [Transaction(d, a, 25.0), Transaction(b, a, 5.0)]
  {
    var ds, cs := [Party(d, 25.0), Party(b, 5.0)], [Party(a, 30.0)];
    PlanStepSorted(ds, cs);
    var rd, rc := Reduce(ds, 25.0), Reduce(cs, 25.0);
    assert rd == [Party(b, 5.0)];
    assert rc == [Party(a, 5.0)];
    OneToOne(a, b, 5.0);
    assert Plan(rd, rc) == [Transaction(b, a, 5.0)];
    Pair(Transaction(d, a, 25.0), Transaction(b, a, 5.0));
  }

  lemma Pair(t: Transaction, u: Transaction)
    ensures [t] + [u] == [t, u]
  {
  }

  /** The six friends of the tea example, A first. */
  function Friends(): seq<string> {
    ["A", "B", "C", "D", "E", "F"]
  }

  /** A pays 0.05 for tea split between the other five friends. */
  function Tea(): Expense {
    Expense("1", "Tea", 0.05, Friends()[1..], "A", "", None)
  }

  /** A is owed 0.05; each of the other five owes exactly 0.01. */
  lemma TeaNets(n: string)
    requires n in Friends()
    ensures EntryFor(n, [Tea()]).net == if n == "A" then 0.05 else -0.01
  {
    var e := Tea();
    OneExpense(n, e);
    TeaShare();
    FriendsDistinct();
    if n == "A" {
      assert Friends()[0] == n;
    } else {
      var i :| 0 <= i < |Friends()| && Friends()[i] == n;
      assert Friends()[1..][i - 1] == n;
      PortionOfDistinct(n, e.members, 0.01);
    }
  }

  lemma TeaShare()
    ensures Share(Tea()) == 0.01
  {
    assert |Friends()[1..]| == 5;
  }

  /** No friend is listed twice. */
  lemma FriendsDistinct()
    ensures Distinct(Friends()) && Distinct(Friends()[1..])
    ensures Friends()[0] == "A" && "A" !in Friends()[1..]
  {
    var f := Friends();
    assert f == ["A", "B", "C", "D", "E", "F"];
    assert f[1..] == ["B", "C", "D", "E", "F"];
  }

  /** The balance entry of one expense on its own. */
  lemma OneExpense(n: string, e: Expense)
    ensures EntryFor(n, [e]).net == (if e.paidBy == n then e.amount else 0.0) - Portion(n, e.members, Share(e))
  {
    AppendExpense(n, [], e);
    assert [] + [e] == [e];
  }

  /** Nobody is a debtor when no net is below the settled band. */
  lemma {:induction false} NoDebtors(order: seq<string>, entries: map<string, Balance>)
    requires forall n :: n in order ==> n in entries && entries[n].net >= -Eps
    ensures Debtors(order, entries) == []
  {
    if order != [] {
      NoDebtors(order[..|order| - 1], entries);
    }
  }

  /**
   * The settled band can hide a whole debt: after the tea, each debtor owes
   * exactly 0.01, which counts as settled, so the plan is empty although A is
   * still owed 0.05 and the nets sum to zero.
   */
  lemma BandHidesDebt()
    ensures var b := Sheet(Friends(), [Tea()]);
            && Conservation.NetTotal(b.order, b.entries) == 0.0
            && b.entries["A"].net == 0.05
            && (forall n :: n in b.entries && n != "A" ==> b.entries[n].net == -0.01)
            && PlanFor(b) == []
  {
    var b := Sheet(Friends(), [Tea()]);
    TeaSheet();
    NoDebtors(b.order, b.entries);
    assert Debtors(b.order, b.entries) == [];
    TeaByMembers();
    Conservation.ZeroSum(Friends(), [Tea()]);
  }

  /** The tea's payer and participants are all friends, and it has participants. */
  lemma TeaByMembers()
    ensures forall e :: e in [Tea()] ==>
              && e.paidBy in Friends()
              && |e.members| > 0
              && forall p :: p in e.members ==> p in Friends()
  {
    var e := Tea();
    assert e.paidBy == Friends()[0];
    forall p | p in e.members ensures p in Friends() {
      var k :| 0 <= k < |e.members| && e.members[k] == p;
      assert p == Friends()[k + 1];
    }
  }

  /** The record after the tea: every friend has an entry, A's net is 0.05, the others' -0.01. */
  lemma TeaSheet()
    ensures var b := Sheet(Friends(), [Tea()]);
            && "A" in b.entries
            && forall n :: n in b.entries ==> b.entries[n].net == if n == "A" then 0.05 else -0.01
  {
    var b := Sheet(Friends(), [Tea()]);
    FriendsDistinct();
    forall n | n in b.entries
      ensures b.entries[n].net == if n == "A" then 0.05 else -0.01
    {
      TeaNets(n);
    }
  }

  lemma SortThree(b: string, c: string, d: string)
    ensures SortDesc([Party(b, 5.0), Party(c, 45.0), Party(d, 25.0)])
            == [Party(c, 45.0), Party(d, 25.0), Party(b, 5.0)]
  {
    var pb, pc, pd := Party(b, 5.0), Party(c, 45.0), Party(d, 25.0);
    calc {
      SortDesc([pb, pc, pd]);
    == { assert [pb, pc, pd] == [pb, pc] + [pd]; }
      SortDesc([pb, pc] + [pd]);
    == { SortSnoc([pb, pc], pd); SortTwo(pb, pc); }
      Insert([pc, pb], pd);
    == { InsertMiddle(pc, pb, pd); }
      [pc, pd, pb];
    }
  }
}
