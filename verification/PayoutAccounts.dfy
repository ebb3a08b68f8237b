/**
 What all calls of process_provider_payout for one payout add up to. A call commits its offset before
 it creates the transfer, and the payout can be paid out again after a crash in between, or after a
 failed transfer and a second charge.
 */
module PayoutAccounts {
  import opened Common
  import opened TransferRow
  import opened TransferProtocol
  import opened PaymentStore
  import opened Settlement
  import DebtLedger

  // ── What was taken and what was sent ────────────────────────────────────

  predicate IsOffset(entry: Debt, task: TaskId) {
    entry.reason == PayoutOffset && entry.task == Some(task)
  }

  /** All offsets taken from the payout of the task. */
  function OffsetsFor(debts: seq<Debt>, task: TaskId): int {
    if |debts| == 0 then 0 else
      OffsetsFor(debts[..|debts| - 1], task) +
      (if IsOffset(debts[|debts| - 1], task) then -debts[|debts| - 1].amount else 0)
  }

  lemma OffsetsOneMore(debts: seq<Debt>, entry: Debt, task: TaskId)
    ensures OffsetsFor(debts + [entry], task) == OffsetsFor(debts, task) + (if IsOffset(entry, task) then -entry.amount else 0)
  {
    assert (debts + [entry])[..|debts|] == debts;
  }

  /** The amount of the payout's transfer, if it has one. */
  ghost function SentFor(s: Store, task: TaskId): int {
    if HasPayout(s.transfers, task) then s.transfers[TransferFor(s.transfers, task)].amount else 0
  }

  // ── Calls ───────────────────────────────────────────────────────────────

  /** A call for a payout the service is willing to pay out; sends tells that it gets past its offset. */
  datatype PayCall = PayCall(task: TaskId, provider: string, sends: bool)

  predicate Sends(stage: PayStage) {
    !stage.OffsetEntry? && !stage.OffsetAudited?
  }

  function ChargeCall(s: Store, d: Charge, sends: bool): Option<PayCall> {
    if MovesTask(s, d) && ChargeProvider(s, d).Some?
       && Payable(BeforePayout(s, d), d.task.value, ChargeProvider(s, d).value)
    then Some(PayCall(d.task.value, ChargeProvider(s, d).value, sends)) else None
  }

  function CallIn(s: Store, a: Action): Option<PayCall> {
    if !Possible(s, a) then None else
      match a
      case PayOut(task, provider, _) => if Payable(s, task, provider) then Some(PayCall(task, provider, true)) else None
      case CrashInPayout(task, provider, _, stage) => Some(PayCall(task, provider, Sends(stage)))
      case ChargeArrives(d, _) => ChargeCall(s, d, true)
      case CrashInCharge(d, _, stage) => if stage.Paying? then ChargeCall(s, d, Sends(stage.stage)) else None
      case _ => None
  }

  predicate Calls(s: Store, a: Action, task: TaskId) {
    CallIn(s, a).Some? && CallIn(s, a).value.task == task
  }

  /** What a call takes off a payout of the given amount. */
  function Taken(s: Store, c: PayCall, gross: int): int {
    OffsetOf(gross, Balance(s.debts, c.provider))
  }

  /** How a call changes the accounts of its payout. */
  ghost predicate CallBooks(s: Store, s': Store, c: PayCall, gross: int) {
    var net := gross - Taken(s, c, gross);
    && OffsetsFor(s'.debts, c.task) == OffsetsFor(s.debts, c.task) + Taken(s, c, gross)
    && (HasPayout(s'.transfers, c.task) <==> HasPayout(s.transfers, c.task) || (c.sends && net > 0))
    && SentFor(s', c.task) == SentFor(s, c.task) + (if c.sends && net > 0 && !HasPayout(s.transfers, c.task) then net else 0)
  }

  ghost predicate SameAccounts(s: Store, s': Store, task: TaskId) {
    && OffsetsFor(s'.debts, task) == OffsetsFor(s.debts, task)
    && (HasPayout(s'.transfers, task) <==> HasPayout(s.transfers, task))
    && SentFor(s', task) == SentFor(s, task)
  }

  // ── The effect of one step ──────────────────────────────────────────────

  /** The transfer of a payout keeps its amount. */
  lemma SentStays(s: Store, s': Store, task: TaskId)
    requires Inv(s) && Inv(s') && Absorbs(s, s') && HasPayout(s.transfers, task)
    ensures HasPayout(s'.transfers, task) && SentFor(s', task) == SentFor(s, task)
  {
    var t := TransferFor(s.transfers, task);
    assert TransferFits(s, t) && TransferFits(s', t);
    assert s'.transfers[t].payoutId == task;
    assert TransferFor(s'.transfers, task) == t;
  }

  lemma SameTransfers(s: Store, s': Store, task: TaskId)
    requires s'.transfers == s.transfers
    ensures SentFor(s', task) == SentFor(s, task)
  {
  }

  lemma OffsetBooks(s: Store, task: TaskId, provider: string, k: TaskId)
    requires task in s.payouts
    ensures OffsetsFor(OffsetStage(s, task, provider).debts, k) ==
      OffsetsFor(s.debts, k) + (if k == task then OffsetOf(Gross(s, task), Balance(s.debts, provider)) else 0)
  {
    var offset := OffsetOf(Gross(s, task), Balance(s.debts, provider));
    OffsetsOneMore(s.debts, Debt(provider, Some(task), -offset, PayoutOffset), k);
    hide Balance, OffsetsFor, Gross;
  }

  /** A fresh transfer is the one of its payout, and of no other. */
  lemma FreshIsSent(s: Store, s': Store, row: Transfer, k: TaskId)
    requires Inv(s') && row.id !in s.transfers && s'.transfers == s.transfers[row.id := row] && !HasPayout(s.transfers, row.payoutId)
    ensures HasPayout(s'.transfers, k) <==> HasPayout(s.transfers, k) || k == row.payoutId
    ensures k == row.payoutId ==> SentFor(s', k) == row.amount
  {
    assert s'.transfers[row.id].payoutId == row.payoutId;
    if HasPayout(s.transfers, k) {
      var t :| t in s.transfers && s.transfers[t].payoutId == k;
      assert s'.transfers[t].payoutId == k;
    }
    hide TransfersFit, PayoutsFit;
  }

  ghost predicate AccountsAfter(s: Store, s': Store, c: PayCall, gross: int, k: TaskId) {
    if k == c.task then CallBooks(s, s', c, gross) else SameAccounts(s, s', k)
  }

  lemma GrossIsAmount(s: Store, task: TaskId)
    requires Inv(s) && task in s.payouts
    ensures Gross(s, task) == s.payouts[task].amount > 0
  {
    assert PayoutFits(s, task);
  }

  lemma StageTransfers(s: Store, task: TaskId, provider: string, now: Time)
    requires task in s.payouts
    ensures var s' := TransferStage(s, task, provider, now); var net := Net(s, task, provider);
      s'.transfers ==
        if net > 0 && !HasPayout(s.transfers, task)
        then s.transfers[Uuid(s.drawn) := NewTransfer(Uuid(s.drawn), task, task, provider, net, now)] else s.transfers
  {
    hide Balance, Net, Gross, OffsetOf, Uuid;
  }

  lemma StageSends(s: Store, task: TaskId, provider: string, now: Time, k: TaskId)
    requires Inv(s) && Payable(s, task, provider)
    ensures var s' := TransferStage(s, task, provider, now); var net := Net(s, task, provider);
      && (HasPayout(s'.transfers, k) <==> HasPayout(s.transfers, k) || (k == task && net > 0))
      && SentFor(s', k) == SentFor(s, k) + (if k == task && net > 0 && !HasPayout(s.transfers, k) then net else 0)
  {
    hide Inv, Absorbs, Net, SentFor, Uuid, TransferStage, HasPayout;
    var s', net := TransferStage(s, task, provider, now), Net(s, task, provider);
    TransferStageKeeps(s, task, provider, now);
    StageTransfers(s, task, provider, now);
    if net > 0 && !HasPayout(s.transfers, task) {
      if Uuid(s.drawn) in s.transfers {
        DrawnIsFresh(s, Uuid(s.drawn));
      }
      FreshIsSent(s, s', NewTransfer(Uuid(s.drawn), task, task, provider, net, now), k);
      NothingSent(s, k);
      NothingSent(s', k);
      if HasPayout(s.transfers, k) {
        SentStays(s, s', k);
      }
    } else {
      SameTransfers(s, s', k);
    }
  }

  lemma NothingSent(s: Store, k: TaskId)
    ensures !HasPayout(s.transfers, k) ==> SentFor(s, k) == 0
  {
  }

  /** A call, whole or cut off, from the offset on. */
  lemma CallAccounts(s: Store, s': Store, c: PayCall, now: Time, k: TaskId)
    requires Inv(s) && Payable(s, c.task, c.provider)
    requires s'.debts == OffsetStage(s, c.task, c.provider).debts
    requires s'.transfers == if c.sends then TransferStage(s, c.task, c.provider, now).transfers else s.transfers
    ensures AccountsAfter(s, s', c, s.payouts[c.task].amount, k)
  {
    hide Inv, Balance, OffsetsFor, SentFor, OffsetOf, HasPayout, OffsetStage, TransferStage;
    GrossIsAmount(s, c.task);
    OffsetBooks(s, c.task, c.provider, k);
    StageSends(s, c.task, c.provider, now, k);
    if c.sends {
      SameTransfers(TransferStage(s, c.task, c.provider, now), s', k);
    } else {
      SameTransfers(s, s', k);
    }
  }

  lemma PayoutCallAccounts(s: Store, task: TaskId, provider: string, now: Time, k: TaskId)
    requires Inv(s) && Payable(s, task, provider)
    ensures AccountsAfter(s, ProcessPayout(s, task, provider, now), PayCall(task, provider, true), s.payouts[task].amount, k)
  {
    assert TransferStage(s, task, provider, now).debts == OffsetStage(s, task, provider).debts;
    hide TransferStage, OffsetStage, Gross, Inv, AccountsAfter;
    CallAccounts(s, ProcessPayout(s, task, provider, now), PayCall(task, provider, true), now, k);
  }

  lemma CutCallAccounts(s: Store, task: TaskId, provider: string, now: Time, stage: PayStage, k: TaskId)
    requires Inv(s) && StopsAt(s, task, provider, stage)
    ensures AccountsAfter(s, PayoutUpTo(s, task, provider, now, stage), PayCall(task, provider, Sends(stage)), s.payouts[task].amount, k)
  {
    assert TransferStage(s, task, provider, now).debts == OffsetStage(s, task, provider).debts;
    assert OffsetStage(s, task, provider).transfers == s.transfers;
    hide TransferStage, OffsetStage, Gross, Inv, AccountsAfter, Net, Balance;
    CallAccounts(s, PayoutUpTo(s, task, provider, now, stage), PayCall(task, provider, Sends(stage)), now, k);
  }

  // ── Charges ─────────────────────────────────────────────────────────────

  /** Up to the payout a charge changes no account. */
  lemma ChargeBase(s: Store, d: Charge, k: TaskId)
    requires Inv(s) && MovesTask(s, d)
    ensures var b := BeforePayout(s, d);
      && Inv(b) && Absorbs(s, b) && b.debts == s.debts && b.transfers == s.transfers && SentFor(b, k) == SentFor(s, k)
      && (k in b.payouts <==> k in s.payouts)
  {
    hide Inv, Absorbs, SentFor, Booked, Blank;
    LogOnly(s, BookCharge(s, d));
    CustomerPaidKeeps(BookCharge(s, d), d.task.value);
    AbsorbsTransitive(s, BookCharge(s, d), BeforePayout(s, d));
    SameTransfers(s, BeforePayout(s, d), k);
  }

  lemma FromBase(s: Store, b: Store, s': Store, c: PayCall, gross: int, k: TaskId)
    requires b.debts == s.debts && b.transfers == s.transfers && SentFor(b, k) == SentFor(s, k)
    requires AccountsAfter(b, s', c, gross, k)
    ensures AccountsAfter(s, s', c, gross, k)
  {
    hide SentFor, OffsetsFor, HasPayout, Balance;
  }

  lemma AmountStays(s: Store, b: Store, task: TaskId)
    requires Absorbs(s, b) && task in s.payouts
    ensures task in b.payouts && b.payouts[task].amount == s.payouts[task].amount
  {
  }

  lemma ChargeCallAccounts(s: Store, a: Action, k: TaskId)
    requires Inv(s) && (a.ChargeArrives? || a.CrashInCharge?) && CallIn(s, a).Some?
    ensures var c := CallIn(s, a).value;
      c.task in s.payouts && AccountsAfter(s, Serve(s, a), c, s.payouts[c.task].amount, k)
  {
    var d, c := a.charge, CallIn(s, a).value;
    var b := BeforePayout(s, d);
    ChargeBase(s, d, k);
    hide Inv, Absorbs, AccountsAfter, ProcessPayout, PayoutUpTo, SentFor, Booked, Blank, StopsAt;
    AmountStays(s, b, c.task);
    if a.ChargeArrives? {
      PayoutCallAccounts(b, c.task, c.provider, a.at, k);
    } else {
      CutCallAccounts(b, c.task, c.provider, a.at, a.charged.stage, k);
    }
    FromBase(s, b, Serve(s, a), c, s.payouts[c.task].amount, k);
  }

  // ── Steps without a call ────────────────────────────────────────────────

  /** No transfer and no offset is added. */
  ghost predicate AddsNothing(s: Store, s': Store, k: TaskId) {
    s'.transfers.Keys == s.transfers.Keys && OffsetsFor(s'.debts, k) == OffsetsFor(s.debts, k)
  }

  lemma AddsNothingKeeps(s: Store, s': Store, k: TaskId)
    requires Inv(s) && Inv(s') && Absorbs(s, s') && AddsNothing(s, s', k)
    ensures SameAccounts(s, s', k)
  {
    if HasPayout(s'.transfers, k) {
      var t :| t in s'.transfers && s'.transfers[t].payoutId == k;
      assert TransferFits(s, t) && TransferFits(s', t);
      assert s.transfers[t].payoutId == k;
    }
    if HasPayout(s.transfers, k) {
      SentStays(s, s', k);
    }
    hide TransfersFit, PayoutsFit, UniquePayouts;
  }

  lemma ChargeAddsNothing(s: Store, d: Charge, now: Time, k: TaskId)
    requires Inv(s) && ChargeCall(s, d, true).None?
    ensures AddsNothing(s, ChargeSuccess(s, d, now), k)
  {
    hide Inv, Booked, Blank, OffsetsFor;
    if Accepted(s, d) && d.kind == ForDebt && Payer(d).Some? {
      OffsetsOneMore(s.debts, Debt(Payer(d).value, None, -d.amount, DebtPayment), k);
    }
  }

  lemma CashAddsNothing(s: Store, task: TaskId, provider: string, k: TaskId)
    requires task in s.tasks
    ensures AddsNothing(s, PayInCash(s, task, provider), k)
  {
    OffsetsOneMore(s.debts, Debt(provider, Some(task), s.tasks[task].platformFee, CashTaskCommission), k);
    hide OffsetsFor;
  }

  lemma ClaimAddsNothing(s: Store, id: TransferId, now: Time)
    requires Inv(s)
    ensures ClaimOnly(s, id, now).transfers.Keys == s.transfers.Keys && ClaimOnly(s, id, now).debts == s.debts
  {
    if id in s.transfers {
      RowId(s, id);
    }
    hide Inv;
  }

  lemma MarkAddsNothing(s: Store, a: Action, k: TaskId)
    requires Inv(s) && Possible(s, a)
    requires a.AttemptTransfer? || a.Reconcile? || a.TransferConfirmed? || a.TransferBounced?
    ensures AddsNothing(s, Serve(s, a), k)
  {
    hide Inv, Serve, OffsetsFor;
    if a.AttemptTransfer? || a.Reconcile? {
      CallKeepsRows(s, a);
      if a.AttemptTransfer? {
        ClaimAddsNothing(s, a.id, a.at);
      }
    } else {
      NoticeKeepsRows(s, a);
    }
    hide ClaimOnly;
  }

  lemma ServeAddsNothing(s: Store, a: Action, k: TaskId)
    requires Inv(s) && CallIn(s, a).None?
    ensures AddsNothing(s, Serve(s, a), k)
  {
    hide Inv, OffsetsFor, ProcessTransfer, ReconcileTransfer, ClaimOnly, PaymentStore.TransferFailed, TransferSuccess, PayInCash;
    hide ChargeSuccess, Booked, PayoutUpTo, ChargeStopsAt;
    if Possible(s, a) {
      match a
      case FinishInCash(task, provider) => CashAddsNothing(s, task, provider, k);
      case ChargeArrives(d, at) => ChargeAddsNothing(s, d, at, k);
      case CrashInCharge(d, at, stage) => StoppedChargeAddsNothing(s, d, at, stage, k);
      case AttemptTransfer(_, _, _, _) => MarkAddsNothing(s, a, k);
      case Reconcile(_, _, _, _) => MarkAddsNothing(s, a, k);
      case TransferConfirmed(_, _, _) => MarkAddsNothing(s, a, k);
      case TransferBounced(_, _, _) => MarkAddsNothing(s, a, k);
      case CrashAfterClaim(id, at) => ClaimAddsNothing(s, id, at);
      case _ =>
    }
  }

  lemma StoppedChargeAddsNothing(s: Store, d: Charge, now: Time, stage: ChargeStage, k: TaskId)
    requires ChargeStopsAt(s, d, stage) && (stage.Paying? ==> ChargeCall(s, d, true).None?)
    ensures AddsNothing(s, ChargeUpTo(s, d, now, stage), k)
  {
    hide Booked, Blank, OffsetsFor, PayoutUpTo, Balance, Net;
  }

  lemma CutAddsNothing(s: Store, a: Action, k: TaskId)
    requires Inv(s) && a.Cut? && Possible(s, a)
    ensures AddsNothing(s, Perform(s, a), k)
  {
    hide Inv, Serve, OffsetsFor, ClaimOnly;
    if a.call.AttemptTransfer? {
      ClaimAddsNothing(s, a.call.id, a.call.at);
    }
    MarkAddsNothing(s, a.call, k);
  }

  /** One step: a call changes the accounts of its payout as it should, everything else changes none. */
  lemma StepAccounts(s: Store, a: Action, k: TaskId)
    requires Inv(s)
    ensures match CallIn(s, a)
      case Some(c) => c.task in s.payouts && AccountsAfter(s, Perform(s, a), c, s.payouts[c.task].amount, k)
      case None => SameAccounts(s, Perform(s, a), k)
  {
    hide Inv, Absorbs, Serve, AccountsAfter, SameAccounts, AddsNothing, ChargeCall, StopsAt, ChargeStopsAt, CutShort;
    match CallIn(s, a)
    case Some(c) => CalledAccounts(s, a, k);
    case None =>
      if a.Cut? && Possible(s, a) {
        CutAddsNothing(s, a, k);
      } else {
        ServeAddsNothing(s, a, k);
      }
      PerformKeeps(s, a);
      AddsNothingKeeps(s, Perform(s, a), k);
  }

  lemma CalledAccounts(s: Store, a: Action, k: TaskId)
    requires Inv(s) && CallIn(s, a).Some?
    ensures var c := CallIn(s, a).value; c.task in s.payouts && AccountsAfter(s, Perform(s, a), c, s.payouts[c.task].amount, k)
  {
    hide Inv, AccountsAfter, ProcessPayout, PayoutUpTo, ChargeUpTo, ChargeSuccess, ChargeStopsAt;
    if a.PayOut? {
      PayoutCallAccounts(s, a.task, a.provider, a.at, k);
    } else if a.CrashInPayout? {
      CutCallAccounts(s, a.task, a.provider, a.at, a.paid, k);
    } else {
      ChargeCallAccounts(s, a, k);
      hide CallIn;
    }
  }

  // ── Whole runs ──────────────────────────────────────────────────────────

  /** Some call for the payout has got past its offset. */
  ghost predicate Reached(s: Store, run: seq<Action>, k: TaskId) {
    |run| > 0 &&
    var before, a := Books(s, run[..|run| - 1]), run[|run| - 1];
    Reached(s, run[..|run| - 1], k) || (Calls(before, a, k) && CallIn(before, a).value.sends)
  }

  /** Some call took an offset and was cut off before its transfer. */
  ghost predicate OffsetOnly(s: Store, run: seq<Action>, k: TaskId) {
    |run| > 0 &&
    var before, a := Books(s, run[..|run| - 1]), run[|run| - 1];
    || OffsetOnly(s, run[..|run| - 1], k)
    || (Calls(before, a, k) && !CallIn(before, a).value.sends && Balance(before.debts, CallIn(before, a).value.provider) > 0)
  }

  /** After a call had got past its offset, another one took an offset too, or found nothing sent. */
  ghost predicate PaidAgain(s: Store, run: seq<Action>, k: TaskId) {
    |run| > 0 &&
    var before, a := Books(s, run[..|run| - 1]), run[|run| - 1];
    || PaidAgain(s, run[..|run| - 1], k)
    || (&& Reached(s, run[..|run| - 1], k) && Calls(before, a, k) && CallIn(before, a).value.sends
        && (Balance(before.debts, CallIn(before, a).value.provider) > 0 || !HasPayout(before.transfers, k)))
  }

  ghost function Total(s: Store, k: TaskId): int {
    OffsetsFor(s.debts, k) + SentFor(s, k)
  }

  /** The accounts of a payout of the given amount; nothing was taken before its row exists. */
  ghost predicate AddUp(s: Store, k: TaskId, gross: int, reached: bool, more: bool) {
    if reached then Total(s, k) >= gross && (Total(s, k) == gross <==> !more)
    else !HasPayout(s.transfers, k) && Total(s, k) >= 0 && (Total(s, k) == 0 <==> !more)
  }

  lemma CallAddsUp(s: Store, s': Store, c: PayCall, gross: int, reached: bool, more: bool)
    requires gross > 0 && AddUp(s, c.task, gross, reached, more) && CallBooks(s, s', c, gross)
    ensures AddUp(s', c.task, gross, reached || c.sends,
      || more || (!c.sends && Balance(s.debts, c.provider) > 0)
      || (reached && c.sends && (Balance(s.debts, c.provider) > 0 || !HasPayout(s.transfers, c.task))))
  {
    var k := c.task;
    NothingSent(s, k);
    hide SentFor, OffsetsFor, HasPayout, Balance;
    assert Taken(s, c, gross) > 0 <==> Balance(s.debts, c.provider) > 0;
  }

  /** What holds of a payout's accounts in every run. */
  ghost predicate InBooks(s: Store, run: seq<Action>, k: TaskId) {
    var books, more := Books(s, run), OffsetOnly(s, run, k) || PaidAgain(s, run, k);
    if k in books.payouts then AddUp(books, k, books.payouts[k].amount, Reached(s, run, k), more)
    else !Reached(s, run, k) && !more && Total(books, k) == 0 && !HasPayout(books.transfers, k)
  }

  lemma SameAddsUp(s: Store, s': Store, k: TaskId, gross: int, reached: bool, more: bool)
    requires SameAccounts(s, s', k)
    ensures AddUp(s', k, gross, reached, more) <==> AddUp(s, k, gross, reached, more)
    ensures Total(s', k) == Total(s, k)
  {
    hide SentFor, OffsetsFor, HasPayout;
  }

  lemma NextAddsUp(s: Store, run: seq<Action>, k: TaskId)
    requires Opening(s) && |run| > 0 && InBooks(s, run[..|run| - 1], k)
    ensures InBooks(s, run, k)
  {
    var front := run[..|run| - 1];
    var before, a := Books(s, front), run[|run| - 1];
    RunKeeps(s, front);
    StepAccounts(before, a, k);
    PerformKeeps(before, a);
    var after := Books(s, run);
    assert after == Perform(before, a);
    hide Books, Perform, Inv, Absorbs, CallIn, AddUp, Total, SentFor, OffsetsFor, CallBooks, SameAccounts, HasPayout;
    if k in before.payouts {
      AmountIsPositive(s, front, k);
      AmountStays(before, after, k);
    }
    if Calls(before, a, k) {
      CallAddsUp(before, after, CallIn(before, a).value, before.payouts[k].amount, Reached(s, front, k),
                 OffsetOnly(s, front, k) || PaidAgain(s, front, k));
    } else {
      var gross := if k in after.payouts then after.payouts[k].amount else 0;
      SameAddsUp(before, after, k, gross, Reached(s, front, k), OffsetOnly(s, front, k) || PaidAgain(s, front, k));
      if k !in before.payouts {
        EmptyAddsUp(before, k, gross);
        SameHas(before, after, k);
      }
    }
  }

  lemma EmptyAddsUp(s: Store, k: TaskId, gross: int)
    requires Total(s, k) == 0 && !HasPayout(s.transfers, k)
    ensures AddUp(s, k, gross, false, false)
  {
    hide Total, HasPayout;
  }

  lemma SameHas(s: Store, s': Store, k: TaskId)
    requires SameAccounts(s, s', k)
    ensures HasPayout(s'.transfers, k) <==> HasPayout(s.transfers, k)
  {
    hide HasPayout, SentFor, OffsetsFor;
  }

  lemma AmountIsPositive(s: Store, run: seq<Action>, k: TaskId)
    requires Opening(s) && k in Books(s, run).payouts
    ensures Books(s, run).payouts[k].amount > 0
  {
    RunKeeps(s, run);
    assert PayoutFits(Books(s, run), k);
    hide Books;
  }

  lemma {:induction false} RunAddsUp(s: Store, run: seq<Action>, k: TaskId)
    requires Opening(s)
    ensures InBooks(s, run, k)
  {
    if |run| == 0 {
      assert OffsetsFor(s.debts, k) == 0;
      NothingSent(s, k);
      hide SentFor, OffsetsFor;
    } else {
      RunAddsUp(s, run[..|run| - 1], k);
      NextAddsUp(s, run, k);
    }
  }

  /**
   Once a call for a payout has got past its offset, all calls together have taken and sent at least
   the amount of the payout, and exactly this amount exactly when no call was cut off between its
   offset and its transfer and none paid out a second time.
   */
  lemma PayoutAddsUp(s: Store, run: seq<Action>, k: TaskId)
    requires Opening(s) && k in Books(s, run).payouts && Reached(s, run, k)
    ensures var books := Books(s, run); var total := OffsetsFor(books.debts, k) + SentFor(books, k);
      && total >= books.payouts[k].amount
      && (total == books.payouts[k].amount <==> !OffsetOnly(s, run, k) && !PaidAgain(s, run, k))
  {
    RunAddsUp(s, run, k);
    hide Books, Reached, OffsetOnly, PaidAgain, SentFor, OffsetsFor;
  }

  // ── An offset taken for nothing ─────────────────────────────────────────

  const TASK := Task(100, 85, 15, Some("p"), None, Some("c"), None)

  const OPENING: Store := Store(map["c" := TASK, "k" := TASK], map[], map[], [], [], [], [], 0)

  /** A commission of 15 is owed from a cash task; the payout of the other task is charged for, and paid out again after the crash. */
  const CUT_OFF: seq<Action> :=
    [FinishInCash("c", "p")] + [FinishOnline("k", "p", "r0")]
    + [CrashInCharge(DebtLedger.ChargeFor("r1"), 0.0, Paying(OffsetEntry))]

  lemma BothFinished()
    ensures var s := Books(OPENING, [FinishInCash("c", "p")] + [FinishOnline("k", "p", "r0")]);
      && s.debts == [Debt("p", Some("c"), 15, CashTaskCommission)] && s.transfers == map[] && s.drawn == 0
      && "k" in s.payouts && s.payouts["k"] == Payout("p", Some("c"), 85, 100, PayoutStatus.Pending, Some("r0"))
      && "k" in s.tasks && s.tasks["k"] == TASK.(status := Some(PaymentStatus.PaymentRequested))
      && s.transactions == []
  {
    var a1, a2 := FinishInCash("c", "p"), FinishOnline("k", "p", "r0");
    DebtLedger.AfterSnoc(OPENING, [], a1);
    assert [] + [a1] == [a1];
    DebtLedger.AfterSnoc(OPENING, [a1], a2);
    assert Books(OPENING, []) == OPENING;
    hide Books;
    assert "c"[0] != "k"[0];
    var s1 := PayInCash(OPENING, "c", "p");
    assert Perform(OPENING, a1) == s1;
    assert s1.tasks["k"] == TASK && "k" !in s1.payouts && Unfinished(s1, "k");
  }

  lemma CutOff()
    ensures var s := Books(OPENING, CUT_OFF);
      && s.debts == [Debt("p", Some("c"), 15, CashTaskCommission), Debt("p", Some("k"), -15, PayoutOffset)]
      && s.transfers == map[] && s.drawn == 0
      && "k" in s.payouts && s.payouts["k"] == Payout("p", Some("c"), 85, 100, PayoutStatus.CustomerPaid, Some("r0"))
  {
    BothFinished();
    var run := [FinishInCash("c", "p")] + [FinishOnline("k", "p", "r0")];
    var a := CrashInCharge(DebtLedger.ChargeFor("r1"), 0.0, Paying(OffsetEntry));
    DebtLedger.AfterSnoc(OPENING, run, a);
    var s := Books(OPENING, run);
    hide Books;
    assert !Blank("r1") by { assert "r1"[0] == 'r'; }
    assert MovesTask(s, a.charge);
    var b := BeforePayout(s, a.charge);
    assert Balance(b.debts, "p") == 15 by { assert b.debts[..0] == []; }
    assert Payable(b, "k", "p") && Gross(b, "k") == 85;
    assert Perform(s, a) == PayoutUpTo(b, "k", "p", 0.0, OffsetEntry);
  }

  lemma LedgerAfterCutOff(debts: seq<Debt>)
    requires debts == [Debt("p", Some("c"), 15, CashTaskCommission), Debt("p", Some("k"), -15, PayoutOffset)]
    ensures Balance(debts, "p") == 0 && OffsetsFor(debts, "k") == 15
  {
    var first, second := debts[0], debts[1];
    assert debts == ([] + [first]) + [second];
    DebtLedger.AppendedEntry([], first, "p");
    DebtLedger.AppendedEntry([] + [first], second, "p");
    OffsetsOneMore([], first, "k");
    OffsetsOneMore([] + [first], second, "k");
  }

  /** 15 are taken off the payout of 85, and then 85 are sent. */
  lemma OffsetForNothing()
    ensures var s := Books(OPENING, CUT_OFF + [PayOut("k", "p", 0.0)]);
      && "k" in s.payouts && s.payouts["k"].amount == 85
      && OffsetsFor(s.debts, "k") == 15 && SentFor(s, "k") == 85 && Balance(s.debts, "p") == 0
  {
    CutOff();
    DebtLedger.AfterSnoc(OPENING, CUT_OFF, PayOut("k", "p", 0.0));
    var s := Books(OPENING, CUT_OFF);
    hide Books, Uuid;
    LedgerAfterCutOff(s.debts);
    assert Payable(s, "k", "p") && Gross(s, "k") == 85 && Net(s, "k", "p") == 85;
    hide Balance, OffsetsFor;
    var s' := ProcessPayout(s, "k", "p", 0.0);
    assert s'.transfers == map[Uuid(0) := NewTransfer(Uuid(0), "k", "k", "p", 85, 0.0)];
    assert s'.transfers[Uuid(0)].payoutId == "k";
  }
}
