/** Runs showing that the assumptions of the run theorems cannot be dropped. */
module OrderWitnesses {
  import opened Api
  import opened Renewal
  import opened Orders
  import opened OrderRuns
  import opened OrderProgress

  /** A sync of a copy of the Route from before its first order opens another one. */
  lemma OldCopyOrders(cfg: Config, w: World, uri: string, a: Answers)
    requires w.route.status == NoText && Wanting(cfg, w) && a.evaluatedAt == w.clock
    requires a.accountUsable && a.newOrder == Ordered(uri, Pending)
    ensures Decide(cfg, w, a).Open? && Decide(cfg, w, a).uri == uri && Decide(cfg, w, a).status == Pending
  {
  }

  /** Conservation really needs each sync to read a fresh Route: whenever an order is open and
      recorded, syncing a cached copy from before it leaves two orders open, with no write lost. */
  lemma StaleCacheBreaksConservation(cfg: Config, w: World, uri: string, a: Answers, w': World)
    requires Inv(w) && LegalAnswers(w, a) && Wanting(cfg, w) && a.evaluatedAt == w.clock
    requires w.history.lost == {} && OpenOrders(w) == {Stored(w).orderURI}
    requires a.accountUsable && a.newOrder == Ordered(uri, Pending) && uri !in w.orders && a.write.Acknowledged?
    requires w' == After(w, Decide(cfg, w.(route := w.route.(status := NoText)), a), a)
    ensures w'.history.lost == {} && |OpenOrders(w')| == 2
  {
    OldCopyOrders(cfg, w.(route := w.route.(status := NoText)), uri, a);
    var u := Stored(w).orderURI;
    assert u in OpenOrders(w);
    assert OpenOrders(w') == {u, uri};
  }

  lemma RunOfThree(cfg: Config, w: World, e: Event, f: Event, g: Event)
    requires Legal(w, e) && Legal(Step(cfg, w, e), f) && Legal(Step(cfg, Step(cfg, w, e), f), g)
    ensures LegalRun(cfg, w, [e, f, g])
    ensures Exec(cfg, w, [e, f, g]) == Step(cfg, Step(cfg, Step(cfg, w, e), f), g)
  {
    var w1 := Step(cfg, w, e);
    var w2 := Step(cfg, w1, f);
    Prepend(cfg, w2, g, []);
    Prepend(cfg, w1, f, [g] + []);
    Prepend(cfg, w, e, [f] + ([g] + []));
    assert [e] + ([f] + ([g] + [])) == [e, f, g];
  }

  /** A poll that finds the order failed, but whose report is lost. */
  lemma LostReport(cfg: Config, w: World, a: Answers)
    requires Inv(w) && Wanting(cfg, w) && !Free(w) && w.orders[Stored(w).orderURI] == Live(Invalid)
    requires a == Smooth(w, NotOrdered, NotFinalized).(write := Dropped)
    ensures LegalAnswers(w, a)
    ensures var w' := Step(cfg, w, Sync(a)); var h := w.history;
            w' == w.(history := h.(polled := h.polled + {Stored(w).orderURI}))
  {
  }

  /** A failed order can escape the counter for good: its report is lost, and before it is polled
      again the server deletes it. This is so from every world with a pending order on record, and no
      legal continuation ever counts the order. */
  lemma LostReportThenNotFoundIsNeverCounted(cfg: Config, w: World, u: string) returns (es: seq<Event>)
    requires Inv(w) && Wanting(cfg, w) && !Free(w) && u == Stored(w).orderURI && w.orders[u] == Live(Pending)
    ensures LegalRun(cfg, w, es)
    ensures var w' := Exec(cfg, w, es);
            && u in w'.history.polled && u !in w'.history.counted
            && w'.orders == w.orders[u := Gone]
            && w'.route == w.route
            && (forall more :: LegalRun(cfg, w', more) ==> u !in Exec(cfg, w', more).history.counted)
  {
    var fails := ServerMoves(w.orders[u := Live(Invalid)]);
    ServerMoveIsLegal(w, u, Invalid);
    EnvironmentKeepsInv(cfg, w, fails);
    var w1 := Step(cfg, w, fails);
    var report := Sync(Smooth(w1, NotOrdered, NotFinalized).(write := Dropped));
    LostReport(cfg, w1, report.answers);
    var w2 := Step(cfg, w1, report);
    var vanishes := ServerMoves(w1.orders[u := Gone]);
    RunOfThree(cfg, w, fails, report, vanishes);
    es := [fails, report, vanishes];
    var w3 := Exec(cfg, w, es);
    RunKeepsInv(cfg, w, es);
    forall more | LegalRun(cfg, w3, more)
      ensures u !in Exec(cfg, w3, more).history.counted
    {
      GoneIsNeverCounted(cfg, w3, more, u);
    }
  }
}
