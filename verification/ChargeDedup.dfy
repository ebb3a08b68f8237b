/** Serial charge webhooks: delivering a message again changes nothing. */
module ChargeDedup {
  import opened Common
  import opened TransferRow
  import opened PaymentStore

  /** A charge.success or charge.failed message, and when it is handled. */
  datatype Delivery = Delivery(succeeded: bool, charge: Charge, at: Time)

  predicate SameMessage(x: Delivery, y: Delivery) {
    x.succeeded == y.succeeded && x.charge == y.charge
  }

  ghost function Deliver(s: Store, x: Delivery): Store {
    if x.succeeded then ChargeSuccess(s, x.charge, x.at) else ChargeFailed(s, x.charge)
  }

  ghost function DeliverAll(s: Store, xs: seq<Delivery>): Store {
    if |xs| == 0 then s else Deliver(DeliverAll(s, xs[..|xs| - 1]), xs[|xs| - 1])
  }

  predicate Seen(xs: seq<Delivery>, y: Delivery) {
    exists i | 0 <= i < |xs| :: SameMessage(xs[i], y)
  }

  /** Keeps the first delivery of each message. */
  function Dedup(xs: seq<Delivery>): seq<Delivery> {
    if |xs| == 0 then [] else
      var front, last := Dedup(xs[..|xs| - 1]), xs[|xs| - 1];
      if Seen(xs[..|xs| - 1], last) then front else front + [last]
  }

  /** Handling the message now would change nothing. */
  predicate Spent(s: Store, x: Delivery) {
    if x.succeeded then !Accepted(s, x.charge)
    else x.charge.reference == "" || x.charge.user.None? || Booked(s.transactions, x.charge.reference, false)
  }

  lemma SpentDoesNothing(s: Store, x: Delivery)
    requires Spent(s, x)
    ensures Deliver(s, x) == s
  {
  }

  /** Transactions are only added, and tasks keep their prices. */
  predicate Extends(s: Store, s': Store) {
    && s.transactions <= s'.transactions
    && s'.tasks.Keys == s.tasks.Keys
    && forall t | t in s.tasks :: s'.tasks[t].price == s.tasks[t].price
  }

  lemma BookedGrows(s: Store, s': Store, reference: string, succeeded: bool)
    requires s.transactions <= s'.transactions && Booked(s.transactions, reference, succeeded)
    ensures Booked(s'.transactions, reference, succeeded)
  {
    var i :| 0 <= i < |s.transactions| &&
      s.transactions[i].reference == Some(reference) && s.transactions[i].succeeded == succeeded;
    assert s'.transactions[i] == s.transactions[i];
  }

  lemma SpentStays(s: Store, s': Store, x: Delivery)
    requires Spent(s, x) && Extends(s, s')
    ensures Spent(s', x)
  {
    if Booked(s.transactions, x.charge.reference, x.succeeded) {
      BookedGrows(s, s', x.charge.reference, x.succeeded);
    }
    hide Booked, Blank;
  }

  lemma CreateExtends(s: Store, task: TaskId, user: string, amount: int, now: Time)
    ensures Extends(s, CreateAndEnqueue(s, task, task, user, amount, now))
  {
    hide NewTransfer, Uuid;
  }

  lemma PayoutExtends(s: Store, task: TaskId, provider: string, now: Time)
    ensures Extends(s, ProcessPayout(s, task, provider, now))
  {
    if Payable(s, task, provider) {
      CreateExtends(OffsetStage(s, task, provider), task, provider, Net(s, task, provider), now);
    }
    hide Balance, Gross, Net, CreateAndEnqueue;
  }

  lemma AdvanceExtends(s: Store, task: TaskId, now: Time)
    requires task in s.tasks
    ensures Extends(s, AdvanceTask(s, task, now))
  {
    hide ProcessPayout;
    var row := s.tasks[task];
    if AwaitingPayment(row.status) && PayoutProvider(row).Some? {
      PayoutExtends(MarkCustomerPaid(s, task), task, PayoutProvider(row).value, now);
    }
  }

  /** An accepted charge is booked under its reference, whatever else it sets off. */
  lemma DeliverExtends(s: Store, x: Delivery)
    ensures Extends(s, Deliver(s, x))
    ensures Spent(Deliver(s, x), x)
  {
    hide AdvanceTask, Blank;
    var d := x.charge;
    if x.succeeded && Accepted(s, d) {
      var booked := BookCharge(s, d);
      assert booked.transactions[|s.transactions|].reference == Some(d.reference);
      assert Booked(booked.transactions, d.reference, true);
      if d.kind != ForDebt && NamesTask(d) {
        AdvanceExtends(booked, d.task.value, x.at);
      }
      BookedGrows(booked, Deliver(s, x), d.reference, true);
    } else if !x.succeeded && !Spent(s, x) {
      assert Deliver(s, x).transactions[|s.transactions|].reference == Some(d.reference);
    }
  }

  lemma {:induction false} SeenIsSpent(s: Store, xs: seq<Delivery>, y: Delivery)
    requires Seen(xs, y)
    ensures Spent(DeliverAll(s, xs), y)
  {
    var front, last := xs[..|xs| - 1], xs[|xs| - 1];
    var before := DeliverAll(s, front);
    DeliverExtends(before, last);
    hide Spent, Deliver;
    if SameMessage(last, y) {
      SpentIgnoresTime(Deliver(before, last), last, y);
    } else {
      var i :| 0 <= i < |xs| && SameMessage(xs[i], y);
      assert front[i] == xs[i];
      SeenIsSpent(s, front, y);
      SpentStays(before, Deliver(before, last), y);
    }
  }

  lemma SpentIgnoresTime(s: Store, x: Delivery, y: Delivery)
    requires SameMessage(x, y) && Spent(s, x)
    ensures Spent(s, y)
  {
  }

  /** Any list of deliveries leaves the tables as the list without repeated messages does. */
  lemma {:induction false} DuplicatesAreHarmless(s: Store, xs: seq<Delivery>)
    ensures DeliverAll(s, xs) == DeliverAll(s, Dedup(xs))
  {
    if |xs| > 0 {
      var front, last := xs[..|xs| - 1], xs[|xs| - 1];
      DuplicatesAreHarmless(s, front);
      if Seen(front, last) {
        SeenIsSpent(s, front, last);
        SpentDoesNothing(DeliverAll(s, front), last);
      } else {
        assert Dedup(xs)[..|Dedup(xs)| - 1] == Dedup(front);
      }
    }
  }

  lemma {:induction false} DedupFromSeen(xs: seq<Delivery>, y: Delivery)
    requires Seen(Dedup(xs), y)
    ensures Seen(xs, y)
  {
    var kept := Dedup(xs);
    var i :| 0 <= i < |kept| && SameMessage(kept[i], y);
    if |xs| > 0 {
      var front, last := xs[..|xs| - 1], xs[|xs| - 1];
      if i < |Dedup(front)| {
        assert SameMessage(Dedup(front)[i], y);
        DedupFromSeen(front, y);
        var k :| 0 <= k < |front| && SameMessage(front[k], y);
        assert xs[k] == front[k];
      } else {
        assert xs[|xs| - 1] == last;
      }
    }
  }

  lemma {:induction false} SeenInDedup(xs: seq<Delivery>, y: Delivery)
    requires Seen(xs, y)
    ensures Seen(Dedup(xs), y)
  {
    var i :| 0 <= i < |xs| && SameMessage(xs[i], y);
    var front, last := xs[..|xs| - 1], xs[|xs| - 1];
    if i < |front| || Seen(front, last) {
      assert Seen(front, y) by {
        if i < |front| {
          assert front[i] == xs[i];
        } else {
          var k :| 0 <= k < |front| && SameMessage(front[k], last);
          assert SameMessage(front[k], y);
        }
      }
      SeenInDedup(front, y);
      var k :| 0 <= k < |Dedup(front)| && SameMessage(Dedup(front)[k], y);
      assert Dedup(xs)[k] == Dedup(front)[k];
    } else {
      assert Dedup(xs)[|Dedup(front)|] == last;
    }
  }

  /** Dedup keeps exactly the messages delivered, each once. */
  lemma {:induction false} DedupKeepsEachOnce(xs: seq<Delivery>)
    ensures forall y :: Seen(xs, y) <==> Seen(Dedup(xs), y)
    ensures forall i, j | 0 <= i < j < |Dedup(xs)| :: !SameMessage(Dedup(xs)[i], Dedup(xs)[j])
  {
    forall y ensures Seen(xs, y) <==> Seen(Dedup(xs), y) {
      if Seen(xs, y) {
        SeenInDedup(xs, y);
      }
      if Seen(Dedup(xs), y) {
        DedupFromSeen(xs, y);
      }
    }
    if |xs| > 0 {
      var front, last := xs[..|xs| - 1], xs[|xs| - 1];
      DedupKeepsEachOnce(front);
      assert forall i | 0 <= i < |Dedup(front)| :: SameMessage(Dedup(front)[i], last) ==> Seen(Dedup(front), last);
    }
  }
}
