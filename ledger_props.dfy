/**
 * The request-correlation ledgers: every request is sent under a fresh id and
 * recorded under exactly that id, every transition keeps the ledgers in
 * agreement with what was sent, and every callback consumes the entry of the
 * response it handles.
 */
module LedgerProperties {
  import opened Wrappers
  import opened Feed
  import opened LeagueTable
  import opened Engine
  import opened Rounds

  /**
   * Ledger `mr` of wire `r` holds the entries of `ms` and exactly the requests
   * of its kind sent from position `lo` on.
   */
  ghost predicate LedgerGrows(ms: map<nat, Pending>, mr: map<nat, Pending>, r: Wire, lo: nat, kind: ResourceKind)
  {
    && (forall x :: x in mr <==> x in ms || (lo <= x < |r.outbox| && r.outbox[x].kind == kind))
    && (forall x :: x in ms ==> x in mr && mr[x] == ms[x])
  }

  /**
   * `r` only adds to what `w` sent: the outbox is extended, and the ledgers
   * gain exactly the requests sent in between, each under its own id.
   */
  ghost predicate WireGrows(w: Wire, r: Wire)
  {
    && |w.outbox| <= |r.outbox|
    && r.outbox[..|w.outbox|] == w.outbox
    && LedgerGrows(w.eventXs, r.eventXs, r, |w.outbox|, Events)
    && LedgerGrows(w.resultXs, r.resultXs, r, |w.outbox|, Results)
    && LedgerGrows(w.historyXs, r.historyXs, r, |w.outbox|, History)
    && LedgerGrows(w.statsXs, r.statsXs, r, |w.outbox|, Stats)
  }

  ghost predicate Grows(s: St, r: St)
  {
    WireGrows(s.wire, r.wire)
  }

  lemma LedgerGrowsTrans(ma: map<nat, Pending>, mb: map<nat, Pending>, mc: map<nat, Pending>,
                         a: Wire, b: Wire, c: Wire, kind: ResourceKind)
    requires |a.outbox| <= |b.outbox| <= |c.outbox| && c.outbox[..|b.outbox|] == b.outbox
    requires LedgerGrows(ma, mb, b, |a.outbox|, kind) && LedgerGrows(mb, mc, c, |b.outbox|, kind)
    ensures LedgerGrows(ma, mc, c, |a.outbox|, kind)
  {
    forall x ensures x in mc <==> x in ma || (|a.outbox| <= x < |c.outbox| && c.outbox[x].kind == kind) {
      if |a.outbox| <= x < |b.outbox| {
        assert c.outbox[x] == c.outbox[..|b.outbox|][x];
      }
    }
  }

  lemma WireGrowsTrans(a: Wire, b: Wire, c: Wire)
    requires WireGrows(a, b) && WireGrows(b, c)
    ensures WireGrows(a, c)
  {
    assert c.outbox[..|a.outbox|] == c.outbox[..|b.outbox|][..|a.outbox|];
    LedgerGrowsTrans(a.eventXs, b.eventXs, c.eventXs, a, b, c, Events);
    LedgerGrowsTrans(a.resultXs, b.resultXs, c.resultXs, a, b, c, Results);
    LedgerGrowsTrans(a.historyXs, b.historyXs, c.historyXs, a, b, c, History);
    LedgerGrowsTrans(a.statsXs, b.statsXs, c.statsXs, a, b, c, Stats);
  }

  lemma WireGrowsRefl(w: Wire)
    ensures WireGrows(w, w)
  {
    assert w.outbox[..|w.outbox|] == w.outbox;
  }

  /** Under `WireValid`, the next id is in no ledger. */
  lemma NextIdFresh(w: Wire)
    requires WireValid(w)
    ensures forall k :: |w.outbox| !in Ledger(w, k)
  {
    forall k ensures |w.outbox| !in Ledger(w, k) {
      assert LedgerAgrees(w, Ledger(w, k), k);
    }
  }

  lemma AgreesExtend(w: Wire, r: Wire, m: map<nat, Pending>, kind: ResourceKind)
    requires LedgerAgrees(w, m, kind)
    requires |w.outbox| <= |r.outbox| && r.outbox[..|w.outbox|] == w.outbox
    ensures LedgerAgrees(r, m, kind)
  {
    forall x | x in m ensures x < |r.outbox| && r.outbox[x] == Request(x, kind, m[x].eBlockId, m[x].n, m[x].retry) {
      assert r.outbox[x] == r.outbox[..|w.outbox|][x];
    }
  }

  lemma PostAgrees(w: Wire, kind: ResourceKind, k2: ResourceKind, b: Option<int>, n: int, retry: nat)
    requires WireValid(w)
    ensures var r := Post(w, kind, b, n, retry); LedgerAgrees(r, Ledger(r, k2), k2)
  {
    var r := Post(w, kind, b, n, retry);
    var x := |w.outbox|;
    assert LedgerAgrees(w, Ledger(w, k2), k2);
    assert r.outbox[..x] == w.outbox;
    AgreesExtend(w, r, Ledger(w, k2), k2);
    if kind == k2 {
      assert Ledger(r, k2) == Ledger(w, k2)[x := Pending(b, n, retry)];
    } else {
      assert Ledger(r, k2) == Ledger(w, k2);
    }
  }

  lemma PostValid(w: Wire, kind: ResourceKind, b: Option<int>, n: int, retry: nat)
    requires WireValid(w)
    ensures WireValid(Post(w, kind, b, n, retry))
  {
    var r := Post(w, kind, b, n, retry);
    PostAgrees(w, kind, Events, b, n, retry);
    PostAgrees(w, kind, Results, b, n, retry);
    PostAgrees(w, kind, History, b, n, retry);
    PostAgrees(w, kind, Stats, b, n, retry);
    assert forall i :: 0 <= i < |w.outbox| ==> r.outbox[i] == w.outbox[i];
  }

  lemma PostLedger(w: Wire, kind: ResourceKind, k: ResourceKind, b: Option<int>, n: int, retry: nat)
    ensures Ledger(Post(w, kind, b, n, retry), k) == if k == kind then Ledger(w, kind)[|w.outbox| := Pending(b, n, retry)] else Ledger(w, k)
  {
  }

  lemma LedgerAdd(ms: map<nat, Pending>, r: Wire, x: nat, kind: ResourceKind, e: Pending, add: bool)
    requires x == |r.outbox| - 1 && (r.outbox[x].kind == kind <==> add)
    requires x !in ms
    ensures LedgerGrows(ms, if add then ms[x := e] else ms, r, x, kind)
  {
  }

  lemma PostGrows(w: Wire, kind: ResourceKind, b: Option<int>, n: int, retry: nat)
    requires WireValid(w)
    ensures WireGrows(w, Post(w, kind, b, n, retry))
  {
    var r := Post(w, kind, b, n, retry);
    NextIdFresh(w);
    var x := |w.outbox|;
    assert r.outbox[..x] == w.outbox;
    var e := Pending(b, n, retry);
    assert r.outbox[x].kind == kind;
    assert x !in Ledger(w, Events) && x !in Ledger(w, Results) && x !in Ledger(w, History) && x !in Ledger(w, Stats);
    LedgerAdd(w.eventXs, r, x, Events, e, kind == Events);
    LedgerAdd(w.resultXs, r, x, Results, e, kind == Results);
    LedgerAdd(w.historyXs, r, x, History, e, kind == History);
    LedgerAdd(w.statsXs, r, x, Stats, e, kind == Stats);
  }

  /**
   * Sending a request: its id was in no ledger, it becomes exactly one entry in
   * the ledger of its kind, one request is appended, the other ledgers are
   * unchanged, and the wire stays valid.
   */
  lemma PostRecords(w: Wire, kind: ResourceKind, b: Option<int>, n: int, retry: nat)
    requires WireValid(w)
    ensures var r := Post(w, kind, b, n, retry);
      && (forall k :: |w.outbox| !in Ledger(w, k))
      && Ledger(r, kind) == Ledger(w, kind)[|w.outbox| := Pending(b, n, retry)]
      && (forall k :: k != kind ==> Ledger(r, k) == Ledger(w, k))
      && r.outbox == w.outbox + [Request(|w.outbox|, kind, b, n, retry)]
      && WireGrows(w, r) && WireValid(r)
  {
    NextIdFresh(w);
    PostValid(w, kind, b, n, retry);
    PostGrows(w, kind, b, n, retry);
    forall k ensures Ledger(Post(w, kind, b, n, retry), k) == if k == kind then Ledger(w, kind)[|w.outbox| := Pending(b, n, retry)] else Ledger(w, k) {
      PostLedger(w, kind, k, b, n, retry);
    }
  }

  /**
   * Consuming a response: the entry is removed from its ledger, the others and
   * the outbox are unchanged, and the wire stays valid.
   */
  lemma PopRecords(w: Wire, kind: ResourceKind, xs: nat)
    requires WireValid(w)
    ensures var r := Pop(w, kind, xs);
      && Ledger(r, kind) == Ledger(w, kind) - {xs}
      && (forall k :: k != kind ==> Ledger(r, k) == Ledger(w, k))
      && r.outbox == w.outbox
      && WireValid(r)
  {
  }

  /** The fresh-request builders start every request at retry count 0. */
  lemma FreshRequestsStartAtZero(cfg: Config, s: St, b: Option<int>)
    requires Valid(cfg, s)
    ensures NextBlockEvent(s).wire.outbox == s.wire.outbox + [Request(|s.wire.outbox|, Events, None, 1, 0)]
    ensures NextBlockResult(s).wire.outbox == s.wire.outbox + [Request(|s.wire.outbox|, Results, s.eBlockId, 1, 0)]
    ensures NextBlockFuture(s, b).wire.outbox == s.wire.outbox + [Request(|s.wire.outbox|, History, b, FutureDepth, 0)]
    ensures NextStats(s, b, 1).wire.outbox == s.wire.outbox + [Request(|s.wire.outbox|, Stats, b, 1, 0)]
  {
  }

  /** What the invariant says about the state outside the wire. */
  ghost predicate Calm(cfg: Config, s: St)
  {
    BlocksOrdered(s) && s.historyCount == 0 && s.table.maxWeek == cfg.maxWeek
  }

  /** Sending a request from a valid state keeps the invariant and only grows the wire. */
  lemma IssueKeeps(cfg: Config, s: St, kind: ResourceKind, b: Option<int>, n: int, retry: nat)
    requires Valid(cfg, s)
    ensures Grows(s, Issue(s, kind, b, n, retry)) && Valid(cfg, Issue(s, kind, b, n, retry))
  {
    PostRecords(s.wire, kind, b, n, retry);
  }

  /** Issuing a request is sending it and then recording it under the id the transport handed back. */
  lemma IssueSendsThenRecords(s: St, kind: ResourceKind, b: Option<int>, n: int, retry: nat)
    ensures Issue(s, kind, b, n, retry) == Record(Send(s, kind, b, n, retry), kind, |s.wire.outbox|, Pending(b, n, retry))
  {
    match kind
    case Events =>
    case Results =>
    case History =>
    case Stats =>
  }

  // ---------------------------------------------------------------------------
  // Every transition keeps the invariant and only grows the wire

  lemma {:induction false} FetchWeeksKeeps(cfg: Config, s: St, weeks: seq<int>)
    requires Valid(cfg, s)
    ensures var r := FetchWeeks(s, weeks);
      Grows(s, r) && Valid(cfg, r) && r.(wire := s.wire) == s
    decreases |weeks|
  {
    if weeks == [] {
      WireGrowsRefl(s.wire);
    } else {
      var init := weeks[..|weeks| - 1];
      FetchWeeksKeeps(cfg, s, init);
      var s1 := FetchWeeks(s, init);
      var r := FetchWeeks(s, weeks);
      PostRecords(s1.wire, Results, BlockByWeek(s1.blocks, s1.blockOrder, weeks[|weeks| - 1]), 1, 0);
      WireGrowsTrans(s.wire, s1.wire, r.wire);
    }
  }

  /** Changing only plain fields outside the wire, the blocks and the table keeps `Valid`. */
  lemma ValidFrame(cfg: Config, s: St, s1: St)
    requires Valid(cfg, s)
    requires s1.wire == s.wire && s1.blocks == s.blocks && s1.blockOrder == s.blockOrder
    requires s1.historyCount == 0 && s1.table.maxWeek == s.table.maxWeek
    ensures Valid(cfg, s1) && Grows(s, s1)
  {
    WireGrowsRefl(s.wire);
  }

  /**
   * `process_tickets` leaves exactly the given tickets active, registers each
   * of them in order, and changes nothing else.
   */
  lemma {:induction false} ProcessTicketsSpec(s: St, keys: seq<int>)
    ensures ProcessTickets(s, keys) == s.(activeTickets := keys, calls := s.calls + RegisterCalls(keys))
    decreases |keys|
  {
    if keys != [] {
      var init := keys[..|keys| - 1];
      ProcessTicketsSpec(s, init);
      assert init + [keys[|keys| - 1]] == keys;
    }
  }

  lemma DispatchKeeps(cfg: Config, s: St, env: Env)
    requires Valid(cfg, s)
    ensures Grows(s, Dispatch(cfg, s, env)) && Valid(cfg, Dispatch(cfg, s, env))
  {
    if MissingBlocks(cfg, s) != [] {
      DispatchFutureKeeps(cfg, s, env);
    } else if CheckWeeks(s.table, s.requiredWeeks) != [] {
      DispatchFetchKeeps(cfg, s, env);
    } else {
      DispatchSettledKeeps(cfg, s, env);
    }
  }

  lemma DispatchFutureKeeps(cfg: Config, s: St, env: Env)
    requires Valid(cfg, s) && MissingBlocks(cfg, s) != []
    ensures Grows(s, Dispatch(cfg, s, env)) && Valid(cfg, Dispatch(cfg, s, env))
  {
    var s1 := s.(cachingFuture := true).(cached := false);
    ValidFrame(cfg, s, s1);
    IssueKeeps(cfg, s1, History, s.eBlockId, FutureDepth, 0);
  }

  lemma DispatchFetchKeeps(cfg: Config, s: St, env: Env)
    requires Valid(cfg, s) && MissingBlocks(cfg, s) == [] && CheckWeeks(s.table, s.requiredWeeks) != []
    ensures Grows(s, Dispatch(cfg, s, env)) && Valid(cfg, Dispatch(cfg, s, env))
  {
    var s1 := s.(fetchingFuture := true);
    ValidFrame(cfg, s, s1);
    FetchWeeksKeeps(cfg, s1, CheckWeeks(s.table, s.requiredWeeks));
  }

  lemma DispatchSettledKeeps(cfg: Config, s: St, env: Env)
    requires Valid(cfg, s) && MissingBlocks(cfg, s) == [] && CheckWeeks(s.table, s.requiredWeeks) == []
    ensures Grows(s, Dispatch(cfg, s, env)) && Valid(cfg, Dispatch(cfg, s, env))
  {
    if env.tickets != [] {
      var s1 := s.(historyCount := 0).(phase := AwaitingTickets);
      ProcessTicketsSpec(s1, env.tickets);
      ValidFrame(cfg, s, ProcessTickets(s1, env.tickets));
    } else {
      var s1 := s.(historyCount := 0).(phase := AwaitingResults);
      ValidFrame(cfg, s, s1);
      IssueKeeps(cfg, s1, Results, s.eBlockId, 1, 0);
    }
  }

  lemma AfterFixturesKeeps(cfg: Config, s: St, stats: map<int, EventStats>, env: Env)
    requires Valid(cfg, s)
    ensures Grows(s, AfterFixtures(cfg, s, stats, env)) && Valid(cfg, AfterFixtures(cfg, s, stats, env))
  {
    if s.autoSkip {
      var s1 := s.(phase := AwaitingResults);
      ValidFrame(cfg, s, s1);
      IssueKeeps(cfg, s1, Results, s.eBlockId, 1, 0);
    } else {
      var t := FeedStats(OnEvent(s.table, s.league, s.week), s.league, s.week, stats);
      var s1 := s.(table := t);
      ValidFrame(cfg, s, s1);
      CatchUpKeeps(cfg, s1, env);
      WireGrowsTrans(s.wire, s1.wire, AfterFixtures(cfg, s, stats, env).wire);
    }
  }

  /** The tail of `AfterFixtures` once the table has the new fixtures. */
  lemma CatchUpKeeps(cfg: Config, s: St, env: Env)
    requires Valid(cfg, s)
    ensures Grows(s, CatchUp(cfg, s, env)) && Valid(cfg, CatchUp(cfg, s, env))
  {
    var missing := MissingWeeks(s.table);
    if missing == [] {
      DispatchKeeps(cfg, s, env);
    } else if s.cached {
      CatchUpFetchKeeps(cfg, s, missing);
    } else {
      CatchUpBackfillKeeps(cfg, s, missing);
    }
  }

  lemma CatchUpFetchKeeps(cfg: Config, s: St, missing: seq<int>)
    requires Valid(cfg, s)
    ensures var r := FetchWeeks(s.(cachingMultiple := true), missing); Grows(s, r) && Valid(cfg, r)
  {
    var s2 := s.(cachingMultiple := true);
    ValidFrame(cfg, s, s2);
    FetchWeeksKeeps(cfg, s2, missing);
  }

  lemma CatchUpBackfillKeeps(cfg: Config, s: St, missing: seq<int>)
    requires Valid(cfg, s) && |missing| > 0
    ensures var s2 := s.(caching := true);
      var r := NextHistory(s2, ProcessMissing(s2, missing), BackfillDepth, 0);
      Grows(s, r) && Valid(cfg, r)
  {
    var s2 := s.(caching := true);
    ValidFrame(cfg, s, s2);
    IssueKeeps(cfg, s2, History, ProcessMissing(s2, missing), BackfillDepth, 0);
  }

  /** Taking a fixture block keeps the wire and leaves the plain state calm. */
  lemma AdoptFixturesCalm(cfg: Config, s: St, d: FixtureBlock)
    requires Valid(cfg, s) && WellFormedFixtures(d)
    ensures AdoptFixtures(s, d).0.wire == s.wire && Calm(cfg, AdoptFixtures(s, d).0)
  {
    var league := LeagueOf(d);
    var s1 := s.(eBlockId := d.eBlockId);
    if league != s1.league || !Truthy(s1.league) {
      var s2 := LeagueReset(s1, league, MatchDayOf(d));
      assert s2.blocks == map[] && s2.blockOrder == [];
    }
  }

  lemma EventsProcessKeeps(cfg: Config, s: St, d: FixtureBlock, env: Env)
    requires Valid(cfg, s)
    ensures Grows(s, EventsProcess(cfg, s, d, env).0) && Valid(cfg, EventsProcess(cfg, s, d, env).0)
  {
    WireGrowsRefl(s.wire);
    if WellFormedFixtures(d) {
      AdoptFixturesCalm(cfg, s, d);
      var (s1, raised) := AdoptFixtures(s, d);
      if !raised {
        AfterFixturesKeeps(cfg, s1, StatsOf(d.events), env);
      }
    }
  }

  lemma EventsResumeKeeps(cfg: Config, s: St, d: FixtureBlock, env: Env)
    requires Valid(cfg, s)
    ensures Grows(s, EventsResume(cfg, s, d, env).0) && Valid(cfg, EventsResume(cfg, s, d, env).0)
  {
    if d.eBlockId == s.eBlockId {
      ResumeSameBlockKeeps(cfg, s, d, env);
    } else {
      ResumeOtherBlockKeeps(cfg, s, d, env);
    }
  }

  lemma ResumeSameBlockKeeps(cfg: Config, s: St, d: FixtureBlock, env: Env)
    requires Valid(cfg, s) && d.eBlockId == s.eBlockId
    ensures Grows(s, EventsResume(cfg, s, d, env).0) && Valid(cfg, EventsResume(cfg, s, d, env).0)
  {
    var s1 := s.(restoring := false);
    var s2 := if !env.demo then CallOn(s1, ResumeCompetition) else s1;
    ValidFrame(cfg, s, s2);
    IssueKeeps(cfg, s2, Results, s.eBlockId, 1, 0);
  }

  lemma ResumeOtherBlockKeeps(cfg: Config, s: St, d: FixtureBlock, env: Env)
    requires Valid(cfg, s) && d.eBlockId != s.eBlockId
    ensures Grows(s, EventsResume(cfg, s, d, env).0) && Valid(cfg, EventsResume(cfg, s, d, env).0)
  {
    var s2 := ResetTickets(CallOn(s.(restoring := false), ResetCompetitionTickets));
    ValidFrame(cfg, s, s2);
    EventsProcessKeeps(cfg, s2, d, env);
    WireGrowsTrans(s.wire, s2.wire, EventsProcess(cfg, s2, d, env).0.wire);
  }

  // ---------------------------------------------------------------------------
  // Callbacks

  /**
   * What every callback promises about the response with id `xs` of `kind`:
   * an unknown id changes nothing; a known one is consumed for good, while
   * whatever the callback sends afterwards is recorded, and the invariant holds.
   */
  ghost predicate Consumes(cfg: Config, s: St, kind: ResourceKind, xs: nat, o: Outcome)
  {
    if xs in Ledger(s.wire, kind) then
      && o.status != UnknownRequest
      && WireGrows(Pop(s.wire, kind, xs), o.st.wire)
      && Valid(cfg, o.st)
      && xs !in Ledger(o.st.wire, kind)
    else o == Outcome(s, UnknownRequest)
  }

  lemma PopKeeps(cfg: Config, s: St, kind: ResourceKind, xs: nat)
    requires Valid(cfg, s)
    ensures Valid(cfg, s.(wire := Pop(s.wire, kind, xs)))
  {
    PopRecords(s.wire, kind, xs);
  }

  /** A consumed id never reappears: later requests get later ids. */
  lemma ConsumedStaysGone(w: Wire, kind: ResourceKind, xs: nat, r: Wire)
    requires WireValid(w) && xs in Ledger(w, kind)
    requires WireGrows(Pop(w, kind, xs), r)
    ensures xs !in Ledger(r, kind)
  {
    assert LedgerAgrees(w, Ledger(w, kind), kind);
    PopRecords(w, kind, xs);
    match kind
    case Events =>
    case Results =>
    case History =>
    case Stats =>
  }

  lemma EventsTryKeeps(cfg: Config, s: St, valid: bool, body: Body<FixtureBlock>, env: Env)
    requires Valid(cfg, s)
    ensures Grows(s, EventsTry(cfg, s, valid, body, env).0) && Valid(cfg, EventsTry(cfg, s, valid, body, env).0)
  {
    if FirstIsDict(valid, body) {
      if s.restoring {
        EventsResumeKeeps(cfg, s, body.items[0].value, env);
      } else {
        EventsProcessKeeps(cfg, s, body.items[0].value, env);
      }
    } else {
      WireGrowsRefl(s.wire);
    }
  }

  lemma EventsCallbackConsumes(cfg: Config, s: St, xs: nat, valid: bool, body: Body<FixtureBlock>, env: Env)
    requires Valid(cfg, s)
    ensures Consumes(cfg, s, Events, xs, EventsCallback(cfg, s, xs, valid, body, env))
  {
    if xs in s.wire.eventXs {
      var p := s.wire.eventXs[xs];
      var s1 := s.(wire := Pop(s.wire, Events, xs));
      PopKeeps(cfg, s, Events, xs);
      EventsTryKeeps(cfg, s1, valid, body, env);
      var (s2, exit) := EventsTry(cfg, s1, valid, body, env);
      var o := EventsCallback(cfg, s, xs, valid, body, env);
      if exit == Invalid {
        IssueKeeps(cfg, s2, Events, None, p.n, 0);
        WireGrowsTrans(s1.wire, s2.wire, o.st.wire);
      }
      ConsumedStaysGone(s.wire, Events, xs, o.st.wire);
    }
  }

  /**
   * The fixtures handler raises out of `events_callback` exactly when it takes
   * a usable block (a new one, when resuming) one of whose fixtures has
   * participants or ids that cannot be read.
   */
  lemma EventsTryRaises(cfg: Config, s: St, valid: bool, body: Body<FixtureBlock>, env: Env)
    ensures EventsTry(cfg, s, valid, body, env).1 == Raised <==>
      && FirstIsDict(valid, body) && WellFormedFixtures(body.items[0].value)
      && (exists j :: 0 <= j < |body.items[0].value.events| && EventTags(body.items[0].value.events[j]).None?)
      && (s.restoring ==> body.items[0].value.eBlockId != s.eBlockId)
  {
    var r := EventsTry(cfg, s, valid, body, env);
    if FirstIsDict(valid, body) {
      var d := body.items[0].value;
      if !s.restoring {
        assert r == EventsProcess(cfg, s, d, env);
        EventsProcessRaises(cfg, s, d, env);
      } else if d.eBlockId != s.eBlockId {
        var s2 := ResetTickets(CallOn(s.(restoring := false), ResetCompetitionTickets));
        assert r == EventsResume(cfg, s, d, env) == EventsProcess(cfg, s2, d, env);
        EventsProcessRaises(cfg, s2, d, env);
      } else {
        assert r == EventsResume(cfg, s, d, env);
        assert r.1 == Normal;
      }
    } else {
      assert r.1 == Invalid;
    }
  }

  /** `resource_events_process` raises past `InvalidEvents` exactly when a usable block has an unreadable fixture. */
  lemma EventsProcessRaises(cfg: Config, s: St, d: FixtureBlock, env: Env)
    ensures EventsProcess(cfg, s, d, env).1 == Raised <==>
      WellFormedFixtures(d) && exists j :: 0 <= j < |d.events| && EventTags(d.events[j]).None?
  {
    if WellFormedFixtures(d) && exists j :: 0 <= j < |d.events| && EventTags(d.events[j]).None? {
      var j :| 0 <= j < |d.events| && EventTags(d.events[j]).None?;
      assert FirstBad(d.events) <= j;
    }
  }

  /** A known fixtures response crashes the callback exactly when `EventsTryRaises` says the handler raises. */
  lemma EventsCallbackCrashes(cfg: Config, s: St, xs: nat, valid: bool, body: Body<FixtureBlock>, env: Env)
    requires xs in s.wire.eventXs
    ensures EventsCallback(cfg, s, xs, valid, body, env).status == Crashed <==>
      && FirstIsDict(valid, body) && WellFormedFixtures(body.items[0].value)
      && (exists j :: 0 <= j < |body.items[0].value.events| && EventTags(body.items[0].value.events[j]).None?)
      && (s.restoring ==> body.items[0].value.eBlockId != s.eBlockId)
  {
    EventsTryRaises(cfg, s.(wire := Pop(s.wire, Events, xs)), valid, body, env);
  }

  lemma AfterResultKeeps(cfg: Config, s: St, b: Option<int>, env: Env)
    requires Valid(cfg, s)
    ensures Grows(s, AfterResult(cfg, s, b, env)) && Valid(cfg, AfterResult(cfg, s, b, env))
  {
    if s.cachingMultiple || s.fetchingFuture {
      CatchUpResultKeeps(cfg, s, b, env);
    } else {
      LiveResultKeeps(cfg, s, b, env);
    }
  }

  lemma CatchUpResultKeeps(cfg: Config, s: St, b: Option<int>, env: Env)
    requires Valid(cfg, s) && (s.cachingMultiple || s.fetchingFuture)
    ensures Grows(s, AfterResult(cfg, s, b, env)) && Valid(cfg, AfterResult(cfg, s, b, env))
  {
    WireGrowsRefl(s.wire);
    var s1 := if s.cachingMultiple then s.(cachingMultiple := false) else s.(fetchingFuture := false);
    ValidFrame(cfg, s, s1);
    DispatchKeeps(cfg, s1, env);
  }

  lemma CallsOnly(s: St, cfg: Config)
    ensures var r := if s.week == Some(cfg.maxWeek) then LeagueCompleted(s) else s;
      r == s.(calls := r.calls)
  {
  }

  lemma LiveResultKeeps(cfg: Config, s: St, b: Option<int>, env: Env)
    requires Valid(cfg, s) && !s.cachingMultiple && !s.fetchingFuture
    ensures Grows(s, AfterResult(cfg, s, b, env)) && Valid(cfg, AfterResult(cfg, s, b, env))
  {
    var s2 := CallOn(CallOn(s, NotifyResult), ValidateTickets);
    var s3 := AnnounceResult(cfg, s);
    CallsOnly(s2, cfg);
    ValidFrame(cfg, s, s3);
    var s4 := s3.(phase := AwaitingEvents);
    ValidFrame(cfg, s, s4);
    IssueKeeps(cfg, s4, Events, None, 1, 0);
    assert AfterResult(cfg, s, b, env) == if b == s3.eBlockId then Issue(s4, Events, None, 1, 0) else s3;
  }

  lemma ResultProcessKeeps(cfg: Config, s: St, d: ResultBlock, env: Env)
    requires Valid(cfg, s)
    ensures Grows(s, ResultProcess(cfg, s, d, env).0) && Valid(cfg, ResultProcess(cfg, s, d, env).0)
  {
    WireGrowsRefl(s.wire);
    match ResultOutcomes(d.events, s.teamLabels, cfg.markets)
    case None =>
    case Some(outcomes) =>
      if s.autoSkip {
        var s1 := s.(phase := AwaitingEvents);
        ValidFrame(cfg, s, s1);
        IssueKeeps(cfg, s1, Events, None, 1, 0);
      } else {
        var week := WeekByBlock(s.blocks, d.eBlockId);
        var s1 := s.(table := FeedResult(s.table, d.eBlockId, s.league, week, outcomes));
        ValidFrame(cfg, s, s1);
        AfterResultKeeps(cfg, s1, d.eBlockId, env);
      }
  }

  /** The handler of `InvalidResults` and `InvalidHistory`: retry the same request, or skip the league. */
  lemma RetryOrSkipKeeps(cfg: Config, s: St, kind: ResourceKind, p: Pending)
    requires Valid(cfg, s)
    ensures Grows(s, RetryOrSkip(s, kind, p)) && Valid(cfg, RetryOrSkip(s, kind, p))
  {
    if p.retry > RetryLimit {
      var s2 := s.(autoSkip := true);
      ValidFrame(cfg, s, s2);
      IssueKeeps(cfg, s2, Events, None, 1, 0);
      assert RetryOrSkip(s, kind, p) == Issue(s2, Events, None, 1, 0);
    } else {
      IssueKeeps(cfg, s, kind, p.eBlockId, p.n, p.retry + 1);
      assert RetryOrSkip(s, kind, p) == Issue(s, kind, p.eBlockId, p.n, p.retry + 1);
    }
  }

  lemma ResultsCallbackConsumes(cfg: Config, s: St, xs: nat, valid: bool, body: Body<ResultBlock>, env: Env)
    requires Valid(cfg, s)
    ensures Consumes(cfg, s, Results, xs, ResultsCallback(cfg, s, xs, valid, body, env))
  {
    if xs in s.wire.resultXs {
      var p := s.wire.resultXs[xs];
      var s1 := s.(wire := Pop(s.wire, Results, xs));
      PopKeeps(cfg, s, Results, xs);
      var o := ResultsCallback(cfg, s, xs, valid, body, env);
      if FirstIsDict(valid, body) {
        ResultProcessKeeps(cfg, s1, body.items[0].value, env);
        assert o.st == ResultProcess(cfg, s1, body.items[0].value, env).0;
      } else {
        RetryOrSkipKeeps(cfg, s1, Results, p);
        assert o.st == RetryOrSkip(s1, Results, p);
      }
      ConsumedStaysGone(s.wire, Results, xs, o.st.wire);
    }
  }

  /** `SetBlock` keeps the insertion order a faithful, duplicate-free list of the block keys. */
  lemma SetBlockOrdered(s: St, b: int, w: int)
    requires BlocksOrdered(s)
    ensures BlocksOrdered(SetBlock(s, b, w))
  {
    var r := SetBlock(s, b, w);
    if b !in s.blocks {
      assert b !in s.blockOrder;
      forall i, j | 0 <= i < j < |r.blockOrder| ensures r.blockOrder[i] != r.blockOrder[j] {
        if j == |s.blockOrder| {
          assert r.blockOrder[i] == s.blockOrder[i];
        }
      }
      forall c ensures c in r.blocks <==> c in r.blockOrder {
        assert c in r.blockOrder <==> c in s.blockOrder || c == b;
      }
    }
  }

  /** One week of history touches only the blocks, the fixtures and the table, and never the table's size. */
  lemma HistoryEntryFrame(cfg: Config, s: St, w: HistoryWeek)
    requires w.leagueId == s.league
    ensures var r := HistoryEntry(cfg, s, Dict(w)).0; var s1 := SetBlock(s, w.eBlockId, w.matchDay);
      && r.wire == s.wire && r.blocks == s1.blocks && r.blockOrder == s1.blockOrder
      && r.historyCount == s.historyCount && r.table.maxWeek == s.table.maxWeek
  {
    var s1 := SetBlock(s, w.eBlockId, w.matchDay);
    if s1.caching {
      match HistoryOutcomes(w.events, cfg.markets)
      case None =>
      case Some(outcomes) =>
        var t := FeedResult(s1.table, Some(w.eBlockId), w.leagueId, Some(w.matchDay), outcomes);
        assert t.maxWeek == s.table.maxWeek;
    }
  }

  lemma HistoryEntryKeeps(cfg: Config, s: St, e: Element<HistoryWeek>)
    requires Valid(cfg, s)
    ensures Grows(s, HistoryEntry(cfg, s, e).0) && Valid(cfg, HistoryEntry(cfg, s, e).0)
  {
    WireGrowsRefl(s.wire);
    match e
    case NotDict =>
    case Dict(w) =>
      if w.leagueId == s.league {
        SetBlockOrdered(s, w.eBlockId, w.matchDay);
        HistoryEntryFrame(cfg, s, w);
      }
  }

  lemma {:induction false} ApplyHistoryKeeps(cfg: Config, s: St, entries: seq<Element<HistoryWeek>>)
    requires Valid(cfg, s)
    ensures Grows(s, ApplyHistory(cfg, s, entries).0) && Valid(cfg, ApplyHistory(cfg, s, entries).0)
    decreases |entries|
  {
    if entries == [] {
      WireGrowsRefl(s.wire);
    } else {
      var init := entries[..|entries| - 1];
      ApplyHistoryKeeps(cfg, s, init);
      var (s1, crashed) := ApplyHistory(cfg, s, init);
      if !crashed {
        HistoryEntryKeeps(cfg, s1, entries[|entries| - 1]);
        WireGrowsTrans(s.wire, s1.wire, HistoryEntry(cfg, s1, entries[|entries| - 1]).0.wire);
      }
    }
  }

  /** `resource_history_process` after its loop, from the state the loop left. */
  lemma HistoryTailKeeps(cfg: Config, s: St, env: Env)
    requires Valid(cfg, s)
    ensures var r := HistoryTail(cfg, s, env).0; Grows(s, r) && Valid(cfg, r)
  {
    WireGrowsRefl(s.wire);
    if s.caching {
      var missing := MissingWeeks(s.table);
      if missing != [] {
        IssueKeeps(cfg, s, History, ProcessMissing(s, missing), BackfillDepth, 0);
      } else {
        var s1 := s.(caching := false);
        ValidFrame(cfg, s, s1);
        DispatchKeeps(cfg, s1, env);
      }
    } else if s.cachingFuture {
      FutureTailKeeps(cfg, s, env);
    }
  }

  lemma FutureTailKeeps(cfg: Config, s: St, env: Env)
    requires Valid(cfg, s)
    ensures var r := FutureTail(cfg, s, env).0; Grows(s, r) && Valid(cfg, r)
  {
    WireGrowsRefl(s.wire);
    if MissingBlocks(cfg, s) != [] {
      if s.blocks != map[] {
        IssueKeeps(cfg, s, History, Some(SetMax(s.blocks.Keys)), FutureDepth, 0);
      }
    } else {
      var s2 := s.(cachingFuture := false).(cached := true).(requiredWeeks := RequiredWeeks(cfg, env.playerWeeks));
      ValidFrame(cfg, s, s2);
      DispatchKeeps(cfg, s2, env);
    }
  }

  lemma HistoryProcessKeeps(cfg: Config, s: St, entries: seq<Element<HistoryWeek>>, env: Env)
    requires Valid(cfg, s)
    ensures Grows(s, HistoryProcess(cfg, s, entries, env).0) && Valid(cfg, HistoryProcess(cfg, s, entries, env).0)
  {
    ApplyHistoryKeeps(cfg, s, entries);
    var (s1, crashed) := ApplyHistory(cfg, s, entries);
    if !crashed {
      HistoryTailKeeps(cfg, s1, env);
      assert HistoryProcess(cfg, s, entries, env).0 == HistoryTail(cfg, s1, env).0;
      WireGrowsTrans(s.wire, s1.wire, HistoryProcess(cfg, s, entries, env).0.wire);
    }
  }

  lemma HistoryCallbackConsumes(cfg: Config, s: St, xs: nat, valid: bool, body: Body<HistoryWeek>, env: Env)
    requires Valid(cfg, s)
    ensures Consumes(cfg, s, History, xs, HistoryCallback(cfg, s, xs, valid, body, env))
  {
    if xs in s.wire.historyXs {
      var p := s.wire.historyXs[xs];
      var s1 := s.(wire := Pop(s.wire, History, xs));
      PopKeeps(cfg, s, History, xs);
      var o := HistoryCallback(cfg, s, xs, valid, body, env);
      if valid && body.List? {
        HistoryProcessKeeps(cfg, s1, body.items, env);
        assert o.st == HistoryProcess(cfg, s1, body.items, env).0;
      } else {
        RetryOrSkipKeeps(cfg, s1, History, p);
        assert o.st == RetryOrSkip(s1, History, p);
      }
      ConsumedStaysGone(s.wire, History, xs, o.st.wire);
    }
  }

  // ---------------------------------------------------------------------------
  // Entry points

  /** The state `__init__` builds satisfies the invariant and has sent nothing. */
  lemma InitialValid(cfg: Config)
    ensures Valid(cfg, Initial(cfg)) && Initial(cfg).wire.outbox == []
  {
  }

  /** `receive` routes a response to the callback of its kind; statistics responses change nothing. */
  lemma ReceiveConsumes(cfg: Config, s: St, xs: nat, resp: Response, env: Env)
    requires Valid(cfg, s)
    ensures var o := Receive(cfg, s, xs, resp, env);
      match resp
      case EventsBody(_) => Consumes(cfg, s, Events, xs, o)
      case ResultsBody(_) => Consumes(cfg, s, Results, xs, o)
      case HistoryBody(_) => Consumes(cfg, s, History, xs, o)
      case StatsBody => o == Outcome(s, Done)
  {
    match resp
    case EventsBody(b) => EventsCallbackConsumes(cfg, s, xs, true, b, env);
    case ResultsBody(b) => ResultsCallbackConsumes(cfg, s, xs, true, b, env);
    case HistoryBody(b) => HistoryCallbackConsumes(cfg, s, xs, true, b, env);
    case StatsBody =>
  }

  lemma StartKeeps(cfg: Config, s: St)
    requires Valid(cfg, s)
    ensures Grows(s, Start(s)) && Valid(cfg, Start(s))
  {
    var s1 := s.(restoring := s.restoring || s.lost).(lost := false);
    ValidFrame(cfg, s, s1);
    IssueKeeps(cfg, s1, Events, None, 1, 0);
  }

  lemma SetOnlineKeeps(cfg: Config, s: St, online: bool)
    requires Valid(cfg, s)
    ensures Grows(s, SetOnline(s, online)) && Valid(cfg, SetOnline(s, online))
  {
    var s1 := s.(online := online);
    ValidFrame(cfg, s, s1);
    StartKeeps(cfg, s1);
  }

  lemma TicketEventsKeep(cfg: Config, s: St)
    requires Valid(cfg, s)
    ensures Grows(s, OnTicketComplete(s)) && Valid(cfg, OnTicketComplete(s))
    ensures Grows(s, ResetTickets(s)) && Valid(cfg, ResetTickets(s))
  {
    var s1 := s.(phase := AwaitingResults);
    ValidFrame(cfg, s, s1);
    IssueKeeps(cfg, s1, Results, s.eBlockId, 1, 0);
    ValidFrame(cfg, s, ResetTickets(s));
  }
}
