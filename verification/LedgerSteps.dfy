/** Each action keeps the ledger's invariant. */
module LedgerSteps {
  import opened Coins
  import opened Ledger
  import opened LedgerCoins
  import opened LedgerInvariant
  import opened Sums

  lemma BalanceSnoc(log: seq<Event>, e: Event, t: Tx)
    ensures Balance(log + [e], t) == Balance(log, t) + if e == AttemptEvent(t) then 1 else if e == RefusedEvent(t) then -1 else 0
    ensures Newest(log + [e]) == if e.SignedEvent? then Some(e.tx) else Newest(log)
  {
    assert (log + [e])[..|log|] == log;
  }

  lemma QuietEvent(w: Withdrawal, e: Event, owned: set<Outpoint>, ownedSat: int)
    requires PayoutOk(w, owned, ownedSat) && w.payout.Some? && !e.SignedEvent?
    ensures PayoutOk(w.(log := w.log + [e]), owned, ownedSat)
    ensures NothingSigned(w.log, w.log + [e]) && Newest(w.log + [e]) == Newest(w.log)
  {
    assert (w.log + [e])[..|w.log|] == w.log;
  }

  lemma FactsSnoc(history: seq<Fact>, f: Fact, t: Tx)
    ensures Facts(history + [f], t) == Facts(history, t) + if f.tx == t && !f.Resent? then 1 else 0
  {
    assert (history + [f])[..|history|] == history;
  }

  lemma LogEventSigned(log: seq<Event>)
    ensures Newest(log).Some? ==> exists p :: 0 <= p < |log| && log[p] == SignedEvent(Newest(log).value)
  {
    if log != [] && !log[|log| - 1].SignedEvent? {
      LogEventSigned(log[..|log| - 1]);
    }
  }

  // ── Edits ────────────────────────────────────────────────────────────────

  lemma StateKeeps(s: State, i: nat, st: OutboundState)
    requires Inv(s) && i < |s.withdrawals| && !s.withdrawals[i].state.Signed?
    requires var from := s.withdrawals[i].state;
      || (from.Burned? && st.BurnConfirmed?) || (from.BurnConfirmed? && st.Queued?)
      || (from.Queued? && st.ManualReview?) || (from.ManualReview? && st.Queued?)
      || (from.Broadcast? && (st.ManualReview? || st.Confirmed?)) || (from.Confirmed? && st.Completed?)
    ensures Inv(SetState(s, i, st))
  {
    EditKeeps(s, SetState(s, i, st), i, s.withdrawals[i].(state := st));
  }

  lemma RetryKeeps(s: State, i: nat)
    requires Inv(s) && i < |s.withdrawals| && CanRetry(s.withdrawals[i], Owned(s.coins, ByPayout(i)))
    ensures Inv(SetOrder(s, i, s.withdrawals[i].(state := OutboundState.Signed, log := s.withdrawals[i].log + [RetryEvent])))
  {
    var w := s.withdrawals[i];
    var w' := w.(state := OutboundState.Signed, log := w.log + [RetryEvent]);
    forall t ensures Balance(w'.log, t) == Balance(w.log, t) && Newest(w'.log) == Newest(w.log) { BalanceSnoc(w.log, RetryEvent, t); }
    EditKeeps(s, SetOrder(s, i, w'), i, w');
  }

  lemma AttemptKeeps(s: State, i: nat)
    requires Inv(s) && Enabled(s, RecordAttempt(i))
    ensures Inv(AfterAttempt(s, i))
  {
    var w, s' := s.withdrawals[i], AfterAttempt(s, i);
    var t := Newest(w.log).value;
    var w' := w.(log := w.log + [AttemptEvent(t)]);
    forall u ensures Balance(w'.log, u) == Facts(w'.history, u) + Unsettled(s'.mem, i, u) && Newest(w'.log) == Newest(w.log) {
      BalanceSnoc(w.log, AttemptEvent(t), u);
    }
    forall h | 0 <= h < |w.history| && OnNetwork(w.history[h]) ensures Balance(w.log, t) != 0 {
      FactCounts(w.history, h);
      assert BooksBalance(w, i, s.mem);
    }
    EditKeeps(s, s', i, w');
  }

  /** A fact that counts makes the count positive, unless it is only a re-send. */
  lemma {:induction false} FactCounts(history: seq<Fact>, h: nat)
    requires h < |history|
    ensures !history[h].Resent? ==> Facts(history, history[h].tx) > 0
  {
    if h < |history| - 1 { FactCounts(history[..|history| - 1], h); }
  }

  lemma AnswerKeeps(s: State, outcome: Outcome)
    requires Inv(s) && Enabled(s, Answered(outcome))
    ensures Inv(AfterAnswer(s, outcome))
  {
    var m, s' := s.mem.value, AfterAnswer(s, outcome);
    var w := s.withdrawals[m.order];
    var w' := s'.withdrawals[m.order];
    forall u ensures Balance(w'.log, u) == Facts(w'.history, u) + Unsettled(s'.mem, m.order, u) {
      FactsSnoc(w.history, MaybeSent(m.tx), u);
    }
    EditKeeps(s, s', m.order, w');
  }

  lemma RefusalWrittenKeeps(s: State)
    requires Inv(s) && Enabled(s, RecordRefusal(true))
    ensures Inv(AfterRefusal(s, true))
  {
    var m, s' := s.mem.value, AfterRefusal(s, true);
    var w := s.withdrawals[m.order];
    var w' := w.(log := w.log + [RefusedEvent(m.tx)]);
    assert BooksBalance(w', m.order, s'.mem) by {
      assert BooksBalance(w, m.order, s.mem);
      forall u ensures Balance(w'.log, u) == Facts(w'.history, u) + Unsettled(s'.mem, m.order, u) {
        BalanceSnoc(w.log, RefusedEvent(m.tx), u);
      }
    }
    QuietEvent(w, RefusedEvent(m.tx), Owned(s.coins, ByPayout(m.order)), OwnedSat(s.coins, ByPayout(m.order)));
    EditKeeps(s, s', m.order, w');
  }

  lemma RefusalLostKeeps(s: State)
    requires Inv(s) && Enabled(s, RecordRefusal(false))
    ensures Inv(AfterRefusal(s, false))
  {
    var m, s' := s.mem.value, AfterRefusal(s, false);
    var w := s.withdrawals[m.order];
    var w' := w.(history := w.history + [RefusalLost(m.tx)]);
    forall u ensures Balance(w'.log, u) == Facts(w'.history, u) + Unsettled(s'.mem, m.order, u) {
      FactsSnoc(w.history, RefusalLost(m.tx), u);
    }
    EditKeeps(s, s', m.order, w');
  }

  lemma ForgetKeeps(s: State, sent: bool)
    requires Inv(s)
    ensures Inv(AfterForget(s, sent))
  {
    if InHand(s) {
      var m, s' := s.mem.value, AfterForget(s, sent);
      var w := s.withdrawals[m.order];
      LeftoverBalances(s, m, sent);
      EditKeeps(s, s', m.order, s'.withdrawals[m.order]);
    }
  }

  lemma LeftoverBalances(s: State, m: InFlight, sent: bool)
    requires PayoutsOk(s) && MemOk(s) && s.mem == Some(m)
    ensures var w := s.withdrawals[m.order]; BooksBalance(w.(history := w.history + Leftover(m, sent)), m.order, None)
  {
    var w := s.withdrawals[m.order];
    var more := Leftover(m, sent);
    forall u ensures Balance(w.log, u) == Facts(w.history + more, u) {
      assert BooksBalance(w, m.order, s.mem);
      if more == [] { assert w.history + more == w.history; } else { FactsSnoc(w.history, more[0], u); }
    }
  }

  lemma ParkHeldKeeps(s: State)
    requires Inv(s) && Enabled(s, ParkHeld)
    ensures Inv(SetState(s, s.mem.value.order, ManualReview).(mem := None))
  {
    var m := s.mem.value;
    LeftoverBalances(s, m, false);
    var w := s.withdrawals[m.order].(state := ManualReview);
    assert w.history + Leftover(m, false) == w.history;
    EditKeeps(s, SetState(s, m.order, ManualReview).(mem := None), m.order, w);
  }

  lemma ResendKeeps(s: State, i: nat)
    requires Inv(s) && Enabled(s, Resend(i))
    ensures Inv(SetOrder(s, i, s.withdrawals[i].(history := s.withdrawals[i].history + [Resent(s.withdrawals[i].payout.value.txid.value)])))
  {
    var w := s.withdrawals[i];
    var f := Resent(w.payout.value.txid.value);
    var w' := w.(history := w.history + [f]);
    assert BooksBalance(w, i, s.mem);
    forall u ensures Facts(w'.history, u) == Facts(w.history, u) { FactsSnoc(w.history, f, u); }
    EditKeeps(s, SetOrder(s, i, w'), i, w');
  }
}
