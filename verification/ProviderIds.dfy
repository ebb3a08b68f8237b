/**
 The id the provider gave a transfer, over whole runs of the payment system: it is the one in the call that
 completed the transfer, and a later webhook that carries nothing else still finds the transfer.
 */
module ProviderIds {
  import opened Common
  import opened TransferRow
  import opened TransferProtocol
  import opened TransferHistory
  import opened PaymentStore
  import opened Settlement
  import opened TornTransfers
  import opened PaymentTables

  /** The mark that the call commits, whether a crash cuts it off afterwards or not. */
  function MarkBy(s: Store, a: Action): Option<Marking> {
    if !Possible(s, a) then None else MarkIn(s, if a.Cut? then a.call else a)
  }

  predicate Settles(marking: Option<Marking>, id: TransferId) {
    marking.Some? && marking.value.id == id && marking.value.news.Settled?
  }

  /** The id in the answer, lookup or webhook that last said the transfer succeeded. */
  ghost function SettledUnder(s: Store, run: seq<Action>, id: TransferId): Option<string> {
    if |run| == 0 then None else
      var marking := MarkBy(Books(s, run[..|run| - 1]), run[|run| - 1]);
      if Settles(marking, id) then Some(marking.value.news.providerId) else SettledUnder(s, run[..|run| - 1], id)
  }

  /** The row is COMPLETED exactly when it was settled, under the given id. */
  predicate IsUnder(s: Store, id: TransferId, providerId: Option<string>) {
    if id !in s.transfers then providerId == None else
      && s.transfers[id].providerTransferId == providerId
      && (s.transfers[id].status == TransferStatus.Completed <==> providerId.Some?)
  }

  // ── One call ────────────────────────────────────────────────────────────

  /** A call settles the transfers it marks so, and no others. */
  predicate SettlesOnly(s: Store, s': Store, marking: Option<Marking>, id: TransferId) {
    if Settles(marking, id)
    then id in s.transfers && id in s'.transfers && s'.transfers[id].status == TransferStatus.Completed
         && s'.transfers[id].providerTransferId == Some(marking.value.news.providerId)
    else IsCompleted(s', id) ==> IsCompleted(s, id)
  }

  lemma MarkedSettles(s: Store, s': Store, marking: Marking, at: Time, id: TransferId)
    requires Inv(s) && marking.id in s.transfers && IsMarked(s, s', marking.id, marking.news, at)
    requires !marking.news.Taken?
    ensures SettlesOnly(s, s', Some(marking), id)
  {
    hide Inv, PayoutAfter, TaskAfter;
  }

  lemma NoticeSettles(s: Store, a: Action, id: TransferId)
    requires Inv(s) && Possible(s, a) && (a.TransferConfirmed? || a.TransferBounced?)
    ensures SettlesOnly(s, Serve(s, a), MarkIn(s, a), id)
  {
    hide Inv, IsMarked, IsEntered, IsHeard, Serve, Possible;
    NoticeTells(s, a);
    if MarkIn(s, a).Some? {
      MarkedSettles(s, Serve(s, a), MarkIn(s, a).value, a.at, id);
    }
  }

  lemma CallSettles(s: Store, a: Action, id: TransferId)
    requires Inv(s) && (a.AttemptTransfer? || a.Reconcile?)
    ensures SettlesOnly(s, Serve(s, a), MarkIn(s, a), id)
  {
    hide Inv, IsMarked, Serve, NewsOfReply, NewsOfLookup, SettlesOnly;
    if a.AttemptTransfer? {
      AttemptTells(s, a.id, a.reply, a.jitter, a.at);
    } else {
      ReconcileTells(s, a.id, a.lookup, a.jitter, a.at);
    }
    if MarkIn(s, a).Some? {
      NotTaken(s, a);
      MarkedSettles(s, Serve(s, a), MarkIn(s, a).value, a.at, id);
    } else {
      NothingSettles(s, id);
    }
  }

  lemma NotTaken(s: Store, a: Action)
    requires MarkIn(s, a).Some?
    ensures !MarkIn(s, a).value.news.Taken?
  {
    hide IsHeard, FindsProcessing;
  }

  lemma NothingSettles(s: Store, id: TransferId)
    ensures SettlesOnly(s, s, None, id)
  {
  }

  lemma ServeSettles(s: Store, a: Action, id: TransferId)
    requires Inv(s) && Possible(s, a)
    ensures SettlesOnly(s, Serve(s, a), MarkIn(s, a), id)
  {
    hide Inv, Serve, Possible, NewsOfReply, NewsOfLookup, IsHeard, FindsProcessing;
    if a.AttemptTransfer? || a.Reconcile? {
      CallSettles(s, a, id);
    } else if a.TransferConfirmed? || a.TransferBounced? {
      NoticeSettles(s, a, id);
    } else if a.CrashAfterClaim? {
      ClaimSettlesNothing(s, a, id);
    } else {
      OtherCallsUnsettle(s, a, id, "");
    }
  }

  lemma ClaimSettlesNothing(s: Store, a: Action, id: TransferId)
    requires Inv(s) && a.CrashAfterClaim?
    ensures IsCompleted(Serve(s, a), id) ==> IsCompleted(s, id)
  {
    if a.id in s.transfers {
      RowId(s, a.id);
    }
    hide Inv;
  }

  lemma PerformSettles(s: Store, a: Action, id: TransferId)
    requires Inv(s)
    ensures SettlesOnly(s, Perform(s, a), MarkBy(s, a), id)
  {
    hide Inv, Serve, MarkIn, Begun;
    if Possible(s, a) {
      ServeSettles(s, a, id);
      if a.Cut? {
        CallIsPossible(s, a);
        ServeSettles(s, a.call, id);
      }
    } else {
      ImpossibleDoesNothing(s, a);
    }
    hide Possible;
  }

  lemma CallIsPossible(s: Store, a: Action)
    requires a.Cut? && Possible(s, a)
    ensures Possible(s, a.call)
  {
  }

  lemma ImpossibleDoesNothing(s: Store, a: Action)
    requires !Possible(s, a)
    ensures Serve(s, a) == s
  {
  }

  lemma StepIsUnder(before: Store, after: Store, marking: Option<Marking>, id: TransferId, providerId: Option<string>)
    requires Inv(after) && Absorbs(before, after) && SettlesOnly(before, after, marking, id) && IsUnder(before, id, providerId)
    ensures IsUnder(after, id, if Settles(marking, id) then Some(marking.value.news.providerId) else providerId)
  {
    if id in after.transfers {
      assert TransferFits(after, id);
    }
    hide Inv;
  }

  // ── Whole runs ──────────────────────────────────────────────────────────

  /**
   In every run, crashes included, a transfer is COMPLETED exactly when an answer, a lookup or a webhook said
   so, and its provider id is the one that came with it.
   */
  lemma {:induction false} ProviderIdTells(s: Store, run: seq<Action>, id: TransferId)
    requires Opening(s)
    ensures IsUnder(Books(s, run), id, SettledUnder(s, run, id))
  {
    if |run| > 0 {
      var front, a := run[..|run| - 1], run[|run| - 1];
      ProviderIdTells(s, front, id);
      RunKeeps(s, front);
      PerformKeeps(Books(s, front), a);
      PerformSettles(Books(s, front), a, id);
      StepIsUnder(Books(s, front), Books(s, run), MarkBy(Books(s, front), a), id, SettledUnder(s, front, id));
    }
    hide Inv, Absorbs, Perform, MarkBy, SettlesOnly, Opening, IsUnder, Settles;
  }

  /** However the run goes on, a webhook with that id and no task finds the transfer, by its row. */
  lemma LaterNoticeFinds(s: Store, run: seq<Action>, more: seq<Action>, id: TransferId, d: Notice)
    requires Opening(s) && SettledUnder(s, run, id) == Some(d.reference) && d.task == None
    ensures var s' := Books(s, run + more);
      && id in s'.transfers && s'.transfers[id].status == TransferStatus.Completed
      && s'.transfers[id].providerTransferId == Some(d.reference)
      && IsHit(s', d, Some(id)) && !IsHit(s', d, None)
  {
    ProviderIdTells(s, run, id);
    SettledStatesAbsorb(s, run, more);
    hide Inv, Books, SettledUnder, Opening;
  }

  lemma RowIsFound(s: Store, id: TransferId, providerId: Option<string>, d: Notice)
    requires Inv(s) && id in s.transfers && IsUnder(s, id, providerId)
    ensures Matches(s.transfers[id], d) <==>
      providerId == Some(d.reference) || d.reference == "transfer:" + id || d.task == Some(s.transfers[id].payoutId)
  {
    assert TransferFits(s, id);
    hide Inv;
  }

  /** A webhook finds a transfer by provider id, by key, or by the task of its payout. */
  lemma QueryTells(s: Store, run: seq<Action>, d: Notice, id: TransferId)
    requires Opening(s)
    ensures var s' := Books(s, run);
      IsHit(s', d, Some(id)) <==>
        id in s'.transfers
        && (SettledUnder(s, run, id) == Some(d.reference) || d.reference == "transfer:" + id || d.task == Some(s'.transfers[id].payoutId))
  {
    hide Books, SettledUnder, Opening, Inv, IsUnder;
    RunKeeps(s, run);
    ProviderIdTells(s, run, id);
    if id in Books(s, run).transfers {
      RowIsFound(Books(s, run), id, SettledUnder(s, run, id), d);
    }
  }
}
