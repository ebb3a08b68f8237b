/** The debt ledger: how payouts are split between what a provider owes and what it is sent. */
module DebtLedger {
  import opened Common
  import opened TransferRow
  import TransferProtocol
  import opened PaymentStore
  import opened Settlement

  /** The sum of a provider's ledger entries of one kind. */
  function SumOf(debts: seq<Debt>, provider: string, reason: DebtReason): int {
    if |debts| == 0 then 0 else
      var last := debts[|debts| - 1];
      SumOf(debts[..|debts| - 1], provider, reason) +
      (if last.provider == provider && last.reason == reason then last.amount else 0)
  }

  function Commissions(debts: seq<Debt>, provider: string): int {
    SumOf(debts, provider, CashTaskCommission)
  }

  function Offsets(debts: seq<Debt>, provider: string): int {
    -SumOf(debts, provider, PayoutOffset)
  }

  function Payments(debts: seq<Debt>, provider: string): int {
    -SumOf(debts, provider, DebtPayment)
  }

  /** Nothing is owed but commissions, and nothing lowers the debt but payments and offsets. */
  lemma {:induction false} BalanceIsCommissionsLessPaid(debts: seq<Debt>, provider: string)
    ensures Balance(debts, provider) ==
      Commissions(debts, provider) - Payments(debts, provider) - Offsets(debts, provider)
  {
    if |debts| > 0 {
      BalanceIsCommissionsLessPaid(debts[..|debts| - 1], provider);
    }
  }

  lemma AppendedEntry(debts: seq<Debt>, entry: Debt, provider: string)
    ensures var debts' := debts + [entry];
      && Balance(debts', provider) == Balance(debts, provider) + (if entry.provider == provider then entry.amount else 0)
      && forall reason :: SumOf(debts', provider, reason) ==
           SumOf(debts, provider, reason) +
           (if entry.provider == provider && entry.reason == reason then entry.amount else 0)
  {
    assert (debts + [entry])[..|debts + [entry]| - 1] == debts;
  }

  // ── One payout ──────────────────────────────────────────────────────────

  function CreatedBy(s: Store, s': Store): set<TransferId> {
    s'.transfers.Keys - s.transfers.Keys
  }

  /** The amount not kept for debt leaves as exactly one fresh transfer, already enqueued. */
  ghost predicate NetIsSent(s: Store, s': Store, task: TaskId, provider: string)
    requires task in s.payouts
  {
    var net := Net(s, task, provider);
    if net <= 0 then CreatedBy(s, s') == {} else
      exists t | t in s'.transfers ::
        && CreatedBy(s, s') == {t} && s'.transfers[t].payoutId == task && s'.transfers[t].userId == provider
        && s'.transfers[t].amount == net && s'.transfers[t].status == TransferStatus.Pending && t in s'.jobs
  }

  /** gross = offset + net: the ledger falls by the offset, never below zero, for this provider alone. */
  lemma PayoutSplits(s: Store, task: TaskId, provider: string, now: Time)
    requires Inv(s) && Payable(s, task, provider)
    ensures var s' := ProcessPayout(s, task, provider, now);
      var gross := s.payouts[task].amount;
      var debt := Balance(s.debts, provider);
      var offset := gross - Net(s, task, provider);
      && 0 <= offset <= gross
      && offset == Min(gross, Max(0, debt))
      && Balance(s'.debts, provider) == debt - offset
      && (debt >= 0 ==> Balance(s'.debts, provider) >= 0)
      && (forall other | other != provider :: Balance(s'.debts, other) == Balance(s.debts, other))
  {
    assert PayoutFits(s, task);
    hide Balance, Inv;
    var s' := ProcessPayout(s, task, provider, now);
    var entry := Debt(provider, Some(task), -OffsetOf(Gross(s, task), Balance(s.debts, provider)), PayoutOffset);
    assert s'.debts == s.debts || s'.debts == s.debts + [entry];
    AppendedEntry(s.debts, entry, provider);
    forall other | other != provider ensures Balance(s'.debts, other) == Balance(s.debts, other) {
      AppendedEntry(s.debts, entry, other);
    }
  }

  lemma FreshTransferIsNew(s: Store, task: TaskId, provider: string, now: Time)
    requires Inv(s) && task in s.payouts && !TransferProtocol.HasPayout(s.transfers, task) && Net(s, task, provider) > 0
    ensures var s' := TransferStage(s, task, provider, now);
      CreatedBy(s, s') == {Uuid(s.drawn)} && s'.jobs == s.jobs + [Uuid(s.drawn)]
      && s'.transfers[Uuid(s.drawn)].amount == Net(s, task, provider)
  {
    hide Balance, RowOk, Net;
    forall t | t in s.transfers ensures t != Uuid(s.drawn) {
      DrawnIsFresh(s, t);
    }
  }

  /**
   A payout moves all of gross = offset + net exactly when nothing is left to send or the payout
   has no transfer yet. Otherwise the old transfer is returned and the net amount goes nowhere.
   */
  lemma NetIsSentExactlyWhenNew(s: Store, task: TaskId, provider: string, now: Time)
    requires Inv(s) && Payable(s, task, provider)
    ensures NetIsSent(s, ProcessPayout(s, task, provider, now), task, provider) <==>
      Net(s, task, provider) == 0 || !TransferProtocol.HasPayout(s.transfers, task)
  {
    PayoutSplits(s, task, provider, now);
    assert PayoutFits(s, task);
    var s' := ProcessPayout(s, task, provider, now);
    if Net(s, task, provider) > 0 && !TransferProtocol.HasPayout(s.transfers, task) {
      FreshTransferIsNew(s, task, provider, now);
      assert Uuid(s.drawn) in CreatedBy(s, s');
      hide Balance, Inv, Net;
      assert NetIsSent(s, s', task, provider);
    } else {
      assert CreatedBy(s, s') == {};
    }
  }

  // ── Whole runs ──────────────────────────────────────────────────────────

  /** What a step may append to the ledger. */
  predicate LegalEntry(s: Store, entry: Debt) {
    match entry.reason
    case CashTaskCommission => entry.amount > 0
    case DebtPayment => entry.amount <= 0
    case PayoutOffset => 0 <= -entry.amount <= Balance(s.debts, entry.provider)
  }

  predicate LedgerStep(s: Store, s': Store) {
    s'.debts == s.debts ||
    (|s'.debts| == |s.debts| + 1 && s'.debts[..|s.debts|] == s.debts && LegalEntry(s, s'.debts[|s.debts|]))
  }

  lemma PayoutLedgerStep(s: Store, task: TaskId, provider: string, now: Time)
    requires PayoutsFit(s)
    ensures LedgerStep(s, ProcessPayout(s, task, provider, now))
  {
    if Payable(s, task, provider) {
      assert PayoutFits(s, task);
      hide Balance;
    }
  }

  lemma AdvanceLedgerStep(s: Store, task: TaskId, now: Time)
    requires PayoutsFit(s) && task in s.tasks
    ensures LedgerStep(s, AdvanceTask(s, task, now))
  {
    hide ProcessPayout, Balance;
    var row := s.tasks[task];
    if AwaitingPayment(row.status) && PayoutProvider(row).Some? {
      var paid := MarkCustomerPaid(s, task);
      forall k | k in paid.payouts ensures PayoutFits(paid, k) {
        assert PayoutFits(s, k);
      }
      PayoutLedgerStep(paid, task, PayoutProvider(row).value, now);
      assert paid.debts == s.debts;
    }
  }

  lemma ChargeLedgerStep(s: Store, d: Charge, now: Time)
    requires PayoutsFit(s) && (d.kind == ForDebt ==> d.amount >= 0)
    ensures LedgerStep(s, ChargeSuccess(s, d, now))
  {
    hide AdvanceTask, Balance, Booked, Blank;
    if Accepted(s, d) && d.kind != ForDebt && NamesTask(d) {
      var booked := BookCharge(s, d);
      forall k | k in booked.payouts ensures PayoutFits(booked, k) {
        assert PayoutFits(s, k);
      }
      AdvanceLedgerStep(booked, d.task.value, now);
    }
  }

  lemma PayoutUpToLedgerStep(s: Store, task: TaskId, provider: string, now: Time, stage: PayStage)
    requires PayoutsFit(s) && StopsAt(s, task, provider, stage)
    ensures LedgerStep(s, PayoutUpTo(s, task, provider, now, stage))
  {
    assert PayoutFits(s, task);
    hide Balance, PayoutsFit;
    assert PayoutUpTo(s, task, provider, now, stage).debts == OffsetStage(s, task, provider).debts;
    hide PayoutUpTo;
  }

  lemma ChargeUpToLedgerStep(s: Store, d: Charge, now: Time, stage: ChargeStage)
    requires Inv(s) && ChargeStopsAt(s, d, stage)
    ensures LedgerStep(s, ChargeUpTo(s, d, now, stage))
  {
    hide Inv, Balance, Booked, Blank, PayoutUpTo;
    if stage.Paying? {
      var paid := BeforePayout(s, d);
      LogOnly(s, BookCharge(s, d));
      CustomerPaidKeeps(BookCharge(s, d), d.task.value);
      InvFits(paid);
      PayoutUpToLedgerStep(paid, d.task.value, ChargeProvider(s, d).value, now, stage.stage);
      assert paid.debts == s.debts;
    }
  }

  lemma InvFits(s: Store)
    requires Inv(s)
    ensures PayoutsFit(s)
  {
  }

  lemma ServeLedgerStep(s: Store, a: Action)
    requires Inv(s)
    ensures LedgerStep(s, Serve(s, a))
  {
    if (a.CrashInPayout? || a.CrashInCharge?) && Possible(s, a) {
      hide Inv, PayoutUpTo, ChargeUpTo, StopsAt, ChargeStopsAt, LedgerStep;
      if a.CrashInPayout? {
        InvFits(s);
        PayoutUpToLedgerStep(s, a.task, a.provider, a.at, a.paid);
      } else {
        ChargeUpToLedgerStep(s, a.charge, a.at, a.charged);
      }
    } else if a.AttemptTransfer? || a.Reconcile? {
      CallKeepsRows(s, a);
      hide Serve, Inv;
    } else if (a.TransferConfirmed? || a.TransferBounced?) && Possible(s, a) {
      NoticeKeepsRows(s, a);
      hide Serve, Inv;
    } else if a.ChargeArrives? && Possible(s, a) {
      ChargeLedgerStep(s, a.charge, a.at);
      hide ChargeSuccess;
    } else if a.PayOut? {
      PayoutLedgerStep(s, a.task, a.provider, a.at);
    } else {
      hide Balance, Inv, Booked;
    }
  }

  /** Attempts, reconciliation, transfer webhooks and crashes never touch the ledger. */
  lemma PerformLedgerStep(s: Store, a: Action)
    requires Inv(s)
    ensures LedgerStep(s, Perform(s, a))
  {
    hide Inv, Serve;
    ServeLedgerStep(s, a);
  }

  predicate BoundsHold(debts: seq<Debt>, provider: string) {
    0 <= Payments(debts, provider) && 0 <= Offsets(debts, provider) <= Commissions(debts, provider)
  }

  lemma LedgerKeepsBounds(s: Store, s': Store, provider: string)
    requires LedgerStep(s, s') && BoundsHold(s.debts, provider)
    ensures BoundsHold(s'.debts, provider)
  {
    hide SumOf, Balance;
    if s'.debts != s.debts {
      assert s'.debts == s.debts + [s'.debts[|s.debts|]];
      AppendedEntry(s.debts, s'.debts[|s.debts|], provider);
      BalanceIsCommissionsLessPaid(s.debts, provider);
    }
  }

  /** Over every run: payments and offsets are never negative, and offsets never pass commissions. */
  lemma {:induction false} OffsetsWithinCommissions(s: Store, run: seq<Action>, provider: string)
    requires Opening(s)
    ensures BoundsHold(Books(s, run).debts, provider)
  {
    if |run| > 0 {
      var before := Books(s, run[..|run| - 1]);
      OffsetsWithinCommissions(s, run[..|run| - 1], provider);
      RunKeeps(s, run[..|run| - 1]);
      PerformLedgerStep(before, run[|run| - 1]);
      LedgerKeepsBounds(before, Books(s, run), provider);
      hide Inv, Perform, SumOf;
    }
  }

  // ── The payment that goes nowhere ───────────────────────────────────────

  const TASKS: map<TaskId, Task> := map["k" := Task(100, 85, 15, Some("p"), None, Some("c"), None)]

  const OPENING: Store := Store(TASKS, map[], map[], [], [], [], [], 0)

  function ChargeFor(reference: string): Charge {
    Charge(reference, 100, Some("c"), Some("k"), ForTask, None)
  }

  /** One task, paid for twice because its first transfer failed for good. */
  const PAID_TWICE: seq<Action> :=
    [FinishOnline("k", "p", "r0")] + [ChargeArrives(ChargeFor("r1"), 0.0)]
    + [AttemptTransfer(Uuid(0), TransferProtocol.PermanentError(None), 0.0, 0.0)] + [ChargeArrives(ChargeFor("r2"), 0.0)]

  lemma AfterSnoc(s: Store, run: seq<Action>, a: Action)
    ensures Books(s, run + [a]) == Perform(Books(s, run), a)
  {
    assert (run + [a])[..|run + [a]| - 1] == run;
  }

  lemma FirstCharge()
    ensures var s := Books(OPENING, [FinishOnline("k", "p", "r0")] + [ChargeArrives(ChargeFor("r1"), 0.0)]);
      && s.payouts == map["k" := Payout("p", Some("c"), 85, 100, PayoutStatus.TransferInitiated, Some("r0"))]
      && s.tasks == map["k" := TASKS["k"].(status := Some(PaymentStatus.TransferInitiated))]
      && s.transfers == map[Uuid(0) := NewTransfer(Uuid(0), "k", "k", "p", 85, 0.0)]
      && s.transactions == [Transaction(100, TaskPayment, true, Some("r1"), Some("c"), Some("k"))]
      && s.debts == [] && s.drawn == 1
  {
    var a1, a2 := FinishOnline("k", "p", "r0"), ChargeArrives(ChargeFor("r1"), 0.0);
    AfterSnoc(OPENING, [], a1);
    assert [] + [a1] == [a1];
    AfterSnoc(OPENING, [a1], a2);
    var s1 := Perform(OPENING, a1);
    assert s1 == RequestOnline(OPENING, "k", "p", "r0");
    assert !Blank("r1") by { assert "r1"[0] == 'r'; }
    var s2 := MarkCustomerPaid(BookCharge(s1, ChargeFor("r1")), "k");
    assert Payable(s2, "k", "p") && Net(s2, "k", "p") == 85;
  }

  lemma FirstTransferFails()
    ensures var s := Books(OPENING, PAID_TWICE[..3]);
      && s.payouts == map["k" := Payout("p", Some("c"), 85, 100, PayoutStatus.Cancelled, Some("r0"))]
      && s.tasks == map["k" := TASKS["k"].(status := Some(PaymentStatus.Failed))]
      && s.transfers.Keys == {Uuid(0)} && s.transfers[Uuid(0)].status == TransferStatus.Failed
      && s.transfers[Uuid(0)].payoutId == "k"
      && s.transactions == [Transaction(100, TaskPayment, true, Some("r1"), Some("c"), Some("k"))]
      && s.debts == []
  {
    hide RowOk, KeyOf;
    FirstCharge();
    var a := AttemptTransfer(Uuid(0), TransferProtocol.PermanentError(None), 0.0, 0.0);
    AfterSnoc(OPENING, [FinishOnline("k", "p", "r0")] + [ChargeArrives(ChargeFor("r1"), 0.0)], a);
    assert PAID_TWICE[..3] == [FinishOnline("k", "p", "r0")] + [ChargeArrives(ChargeFor("r1"), 0.0)] + [a];
    var s := Books(OPENING, [FinishOnline("k", "p", "r0")] + [ChargeArrives(ChargeFor("r1"), 0.0)]);
    hide Books, Uuid, ChargeSuccess;
    var claimed := Claim(s.transfers[Uuid(0)], 0.0);
    assert Perform(s, a).debts == s.debts;
    assert Perform(s, a).transactions == StoreFailed(SaveRow(s, claimed), claimed, None, 0.0).transactions;
  }

  /**
   The second charge is booked and the payout reads TRANSFER_INITIATED again, but no transfer is
   created: the only one there is has failed for good.
   */
  lemma SecondChargeIsNotPaidOut()
    ensures Opening(OPENING)
    ensures var s := Books(OPENING, PAID_TWICE[..3]); var s' := Books(OPENING, PAID_TWICE);
      && Booked(s'.transactions, "r2", true)
      && "k" in s'.payouts && s'.payouts["k"].status == PayoutStatus.TransferInitiated
      && s'.transfers == s.transfers && Uuid(0) in s'.transfers && s'.transfers[Uuid(0)].status == TransferStatus.Failed
  {
    FirstTransferFails();
    var s := Books(OPENING, PAID_TWICE[..3]);
    var a := ChargeArrives(ChargeFor("r2"), 0.0);
    AfterSnoc(OPENING, PAID_TWICE[..3], a);
    assert PAID_TWICE[..3] + [a] == PAID_TWICE;
    hide Books, Uuid;
    assert !Blank("r2") by { assert "r2"[0] == 'r'; }
    assert "r1"[1] != "r2"[1];
    var booked := BookCharge(s, ChargeFor("r2"));
    assert booked.transactions[1].reference == Some("r2");
    var paid := MarkCustomerPaid(booked, "k");
    assert Payable(paid, "k", "p") && Net(paid, "k", "p") == 85;
    assert TransferProtocol.HasPayout(paid.transfers, "k");
  }

  function PlacesOf(debts: seq<Debt>, provider: string): set<int> {
    set i | 0 <= i < |debts| && debts[i].provider == provider
  }

  /** The number of entries reported is that of the provider's places in the ledger. */
  lemma {:induction false} EntriesAreCounted(debts: seq<Debt>, provider: string)
    ensures Entries(debts, provider) == |PlacesOf(debts, provider)|
  {
    if |debts| > 0 {
      var n := |debts| - 1;
      EntriesAreCounted(debts[..n], provider);
      assert PlacesOf(debts, provider) == PlacesOf(debts[..n], provider) + (if debts[n].provider == provider then {n} else {});
    }
  }
}
