/**
  The sync loop of main.py: for every entity in a fixed order it fetches
  the source API's pages 1, 2, ... up to 499, stops at the first page whose
  `count` is zero, and transforms and pushes every other page before it
  fetches the next one. The source API, the destination's push API and the
  clock are the collaborators in `Services`; the run's log of fetches and
  pushes is its observable behaviour.
 */
module SyncDriver {
  import opened Json
  import opened StitchApi

  /** The entities in the order the loop visits them. */
  const Order: seq<Entity> := [Contacts, Customers, Nps, Tasks]

  /** The loop runs over `range(1, PageLimit)`. */
  const PageLimit := 500

  /** The position of an entity in `Order`. */
  function Rank(e: Entity): nat {
    match e
    case Contacts => 0
    case Customers => 1
    case Nps => 2
    case Tasks => 3
  }

  /** Entity `Order[i]` is the `i`-th the loop visits. */
  lemma RankOrder(i: nat)
    requires i < |Order|
    ensures Rank(Order[i]) == i
  {
  }

  /** The collaborators of the loop. `fetch(name, page)` is
      get_entity_data's parsed response, or HttpFailed for a non-success
      status. `transform(name, rows, stamps)` is the record transformer's
      dispatch, given the clock reading it takes for each row.
      `accepts(name, page)` says whether the push of that page's batch
      succeeded. `clock(name, page, j)` is the reading taken for row `j` of
      that page. `clientId` is the configured client id. */
  datatype Services = Services(
    fetch: (string, int) -> Result<Json>,
    transform: (string, seq<Json>, seq<int>) -> Option<Result<seq<Envelope>>>,
    accepts: (string, int) -> bool,
    clock: (string, int, int) -> int,
    clientId: string)

  /** The transform collaborator is the record transformer of StitchApi,
      configured with `svc.clientId`. */
  ghost predicate Wired(svc: Services) {
    forall name: string, rows: seq<Json>, stamps: seq<int> | |stamps| == |rows| ::
      svc.transform(name, rows, stamps) ==
        match EntityNamed(name)
        case None => None
        case Some(e) => Some(Batch(ParserOf(e), svc.clientId, rows, stamps))
  }

  /** One call to a collaborator: a page fetched, or a batch pushed. */
  datatype Event =
    | Fetched(entity: Entity, page: int)
    | Pushed(entity: Entity, page: int, batch: seq<Envelope>)

  /** A run ends after its last iteration, or at the first exception. */
  datatype Status = Finished | Aborted

  /** The calls a run made, in order, and how it ended. */
  datatype Trace = Trace(events: seq<Event>, status: Status)

  /** What one iteration does after its fetch. */
  datatype PageStep =
    | Stop                            // `count == 0`: leave the entity
    | Deliver(batch: seq<Envelope>)   // transform succeeded: push `batch`
    | Fail                            // an exception: end the run

  /** The clock readings for the `n` rows of one page. */
  function Stamps(svc: Services, e: Entity, page: int, n: nat): (r: seq<int>)
    ensures |r| == n
  {
    seq(n, j => svc.clock(Name(e), page, j))
  }

  /** The rows of entity `e` in a fetched response: `temp_data[entity]`,
      which the loop takes `len` of and the transformer iterates. */
  function RowsOf(response: Json, e: Entity): (r: Result<seq<Json>>)
    ensures r.Failure? ==> r.fault == LookupFailed
  {
    var listing :- Get(response, Name(e));
    AsRows(listing)
  }

  /** The iteration for `page` of `e` (lines 24-35): fetch the page, test
      its `count`, then take the entity's rows and transform them. */
  function Step(svc: Services, e: Entity, page: int): PageStep {
    match svc.fetch(Name(e), page)
    case Failure(_) => Fail
    case Success(response) =>
      match Get(response, "count")
      case Failure(_) => Fail
      case Success(count) =>
        if IsZero(count) then Stop
        else
          match RowsOf(response, e)
          case Failure(_) => Fail
          case Success(rows) =>
            match svc.transform(Name(e), rows, Stamps(svc, e, page, |rows|))
            case Some(Success(batch)) => Deliver(batch)
            case _ => Fail
  }

  /** `prefix` followed by trace `t`. */
  function Then(prefix: seq<Event>, t: Trace): Trace {
    Trace(prefix + t.events, t.status)
  }

  /** The inner loop for one entity, seen through what each of its
      iterations does (`step`) and whether each of its pushes succeeds
      (`accepted`). */
  datatype Pager = Pager(entity: Entity, step: int -> PageStep, accepted: int -> bool)

  /** The inner loop of `e` under the collaborators of `svc`. */
  function PagerOf(svc: Services, e: Entity): Pager {
    Pager(e, page => Step(svc, e, page), page => svc.accepts(Name(e), page))
  }

  /** The inner loop from `page` on. */
  function Pages(p: Pager, page: int): Trace
    requires 1 <= page <= PageLimit
    decreases PageLimit - page
  {
    if page == PageLimit then Trace([], Finished)
    else
      match p.step(page)
      case Stop => Trace([Fetched(p.entity, page)], Finished)
      case Fail => Trace([Fetched(p.entity, page)], Aborted)
      case Deliver(batch) =>
        var visit := [Fetched(p.entity, page), Pushed(p.entity, page, batch)];
        if p.accepted(page) then Then(visit, Pages(p, page + 1))
        else Trace(visit, Aborted)
  }

  /** The inner loop of `e` from `page` on. */
  function PagesFrom(svc: Services, e: Entity, page: int): Trace
    requires 1 <= page <= PageLimit
  {
    Pages(PagerOf(svc, e), page)
  }

  /** An entity's pages `t`, then the `rest` of the run unless `t` aborted. */
  function After(t: Trace, rest: Trace): Trace {
    if t.status == Aborted then t else Then(t.events, rest)
  }

  /** One inner loop per entity of `Order`, in that order. */
  predicate OnePerEntity(ps: seq<Pager>) {
    |ps| == |Order| && forall i | 0 <= i < |ps| :: ps[i].entity == Order[i]
  }

  /** The inner loops of the entities of `Order` under `svc`. */
  function PagersOf(svc: Services): (ps: seq<Pager>)
    ensures OnePerEntity(ps)
  {
    seq(|Order|, i requires 0 <= i < |Order| => PagerOf(svc, Order[i]))
  }

  /** Entity `e`'s inner loop is the one at its rank. */
  lemma PagerAt(svc: Services, e: Entity)
    ensures Rank(e) < |PagersOf(svc)| && PagersOf(svc)[Rank(e)] == PagerOf(svc, e)
  {
    assert Order[Rank(e)] == e;
  }

  /** The outer loop from the `i`-th inner loop of `ps` on. */
  function Run(ps: seq<Pager>, i: nat): Trace
    requires i <= |ps|
    decreases |ps| - i
  {
    if i == |ps| then Trace([], Finished)
    else After(Pages(ps[i], 1), Run(ps, i + 1))
  }

  /** The outer loop from entity `i` of `Order` on. */
  function RunFrom(svc: Services, i: nat): Trace
    requires i <= |Order|
  {
    Run(PagersOf(svc), i)
  }

  /** A page whose `count` is zero ends the entity's pages: it is fetched
      but neither transformed nor pushed. */
  lemma PagesAtStop(svc: Services, e: Entity, page: int)
    requires 1 <= page < PageLimit && Step(svc, e, page) == Stop
    ensures PagesFrom(svc, e, page) == Trace([Fetched(e, page)], Finished)
  {
  }

  /** An exception after the fetch ends the run. */
  lemma PagesAtFail(svc: Services, e: Entity, page: int)
    requires 1 <= page < PageLimit && Step(svc, e, page) == Fail
    ensures PagesFrom(svc, e, page) == Trace([Fetched(e, page)], Aborted)
  {
  }

  /** A delivered page is pushed; a refused push ends the run, an accepted
      one goes on with the next page. */
  lemma PagesAtDeliver(svc: Services, e: Entity, page: int, batch: seq<Envelope>)
    requires 1 <= page < PageLimit && Step(svc, e, page) == Deliver(batch)
    ensures var visit := [Fetched(e, page), Pushed(e, page, batch)];
      PagesFrom(svc, e, page) ==
        if svc.accepts(Name(e), page) then Then(visit, PagesFrom(svc, e, page + 1))
        else Trace(visit, Aborted)
  {
  }

  /** Events logged before the rest of a trace join the log. */
  lemma ThenThen(log: seq<Event>, prefix: seq<Event>, t: Trace)
    ensures Then(log, Then(prefix, t)) == Then(log + prefix, t)
  {
    assert log + (prefix + t.events) == log + prefix + t.events;
  }

  /** The events of the pages from `page` on alternate fetch, push,
      fetch, push, ...: event `k` is about page `page + k / 2`, so the pages
      are requested in order, one after another, and none at or past
      `PageLimit`. */
  lemma {:induction false} PagesEvents(p: Pager, page: int)
    requires 1 <= page <= PageLimit
    ensures var ev := Pages(p, page).events;
      && |ev| <= 2 * (PageLimit - page)
      && forall k | 0 <= k < |ev| ::
           && ev[k].entity == p.entity
           && ev[k].page == page + k / 2
           && (ev[k].Fetched? <==> k % 2 == 0)
    decreases PageLimit - page
  {
    if page < PageLimit {
      match p.step(page)
      case Deliver(batch) =>
        if p.accepted(page) {
          PagesEvents(p, page + 1);
          var rest := Pages(p, page + 1).events;
          var ev := Pages(p, page).events;
          assert ev == [Fetched(p.entity, page), Pushed(p.entity, page, batch)] + rest;
          forall k | 2 <= k < |ev|
            ensures ev[k].entity == p.entity && ev[k].page == page + k / 2 && (ev[k].Fetched? <==> k % 2 == 0)
          {
            assert ev[k] == rest[k - 2];
          }
        }
      case Stop =>
      case Fail =>
    }
  }

  /** Every pushed batch is the one its page's iteration delivered. */
  lemma {:induction false} PagesPushes(p: Pager, page: int)
    requires 1 <= page <= PageLimit
    ensures forall x | x in Pages(p, page).events && x.Pushed? :: p.step(x.page) == Deliver(x.batch)
    decreases PageLimit - page
  {
    if page < PageLimit {
      match p.step(page)
      case Deliver(batch) =>
        if p.accepted(page) {
          PagesPushes(p, page + 1);
          assert Pages(p, page).events ==
            [Fetched(p.entity, page), Pushed(p.entity, page, batch)] + Pages(p, page + 1).events;
        }
      case Stop =>
      case Fail =>
    }
  }

  /** Every fetched page but the last event was delivered. */
  lemma {:induction false} PagesDelivered(p: Pager, page: int)
    requires 1 <= page <= PageLimit
    ensures var ev := Pages(p, page).events;
      forall k | 0 <= k < |ev| - 1 && ev[k].Fetched? :: p.step(ev[k].page).Deliver?
    decreases PageLimit - page
  {
    if page < PageLimit {
      match p.step(page)
      case Deliver(batch) =>
        if p.accepted(page) {
          PagesDelivered(p, page + 1);
          var rest := Pages(p, page + 1).events;
          assert var ev := Pages(p, page + 1).events;
            forall k | 0 <= k < |ev| - 1 && ev[k].Fetched? :: p.step(ev[k].page).Deliver?;
          var ev := Pages(p, page).events;
          assert ev == [Fetched(p.entity, page), Pushed(p.entity, page, batch)] + rest;
          forall k | 2 <= k < |ev| - 1 && ev[k].Fetched?
            ensures p.step(ev[k].page).Deliver?
          {
            assert ev[k] == rest[k - 2];
          }
        }
      case Stop =>
      case Fail =>
    }
  }

  /** Every push but the last event was accepted. */
  lemma {:induction false} PagesAccepted(p: Pager, page: int)
    requires 1 <= page <= PageLimit
    ensures var ev := Pages(p, page).events;
      forall k | 0 <= k < |ev| - 1 && ev[k].Pushed? :: p.accepted(ev[k].page)
    decreases PageLimit - page
  {
    if page < PageLimit {
      match p.step(page)
      case Deliver(batch) =>
        if p.accepted(page) {
          PagesAccepted(p, page + 1);
          var rest := Pages(p, page + 1).events;
          assert var ev := Pages(p, page + 1).events;
            forall k | 0 <= k < |ev| - 1 && ev[k].Pushed? :: p.accepted(ev[k].page);
          var ev := Pages(p, page).events;
          assert ev == [Fetched(p.entity, page), Pushed(p.entity, page, batch)] + rest;
          forall k | 2 <= k < |ev| - 1 && ev[k].Pushed?
            ensures p.accepted(ev[k].page)
          {
            assert ev[k] == rest[k - 2];
          }
        }
      case Stop =>
      case Fail =>
    }
  }

  /** How an entity's pages end. They abort exactly when the last event is
      a fetch whose iteration failed or a push that was refused. They finish
      either at a fetch whose `count` is zero, or with page `PageLimit - 1`
      pushed and accepted. */
  lemma {:induction false} PagesEnd(p: Pager, page: int)
    requires 1 <= page <= PageLimit
    ensures var t := Pages(p, page);
      var ev := t.events;
      && (t.status == Aborted <==>
            && |ev| > 0
            && ((ev[|ev| - 1].Fetched? && p.step(ev[|ev| - 1].page) == Fail)
                || (ev[|ev| - 1].Pushed? && !p.accepted(ev[|ev| - 1].page))))
      && (t.status == Finished && |ev| > 0 && ev[|ev| - 1].Fetched? ==>
            p.step(ev[|ev| - 1].page) == Stop)
      && (t.status == Finished && (|ev| == 0 || ev[|ev| - 1].Pushed?) ==>
            page + |ev| / 2 == PageLimit)
    decreases PageLimit - page
  {
    if page < PageLimit {
      match p.step(page)
      case Deliver(batch) =>
        if p.accepted(page) {
          PagesEnd(p, page + 1);
          PagesEvents(p, page + 1);
          var rest := Pages(p, page + 1).events;
          var ev := Pages(p, page).events;
          assert ev == [Fetched(p.entity, page), Pushed(p.entity, page, batch)] + rest;
          if rest != [] {
            assert ev[|ev| - 1] == rest[|rest| - 1];
          }
        }
      case Stop =>
      case Fail =>
    }
  }

  /** A page whose `count` is zero ends its entity's pages: it is the last
      event, it is not pushed, and the run goes on with the next entity. */
  lemma StopEndsPages(svc: Services, e: Entity, k: nat)
    requires var ev := PagesFrom(svc, e, 1).events;
      k < |ev| && ev[k].Fetched? && Step(svc, e, ev[k].page) == Stop
    ensures k == |PagesFrom(svc, e, 1).events| - 1
    ensures PagesFrom(svc, e, 1).status == Finished
  {
    PagesDelivered(PagerOf(svc, e), 1);
    PagesEnd(PagerOf(svc, e), 1);
  }

  /** The events of `events` about entity `e`, in order. */
  function EventsOf(events: seq<Event>, e: Entity): (r: seq<Event>)
    ensures |r| <= |events|
  {
    if events == [] then []
    else (if events[0].entity == e then [events[0]] else []) + EventsOf(events[1..], e)
  }

  lemma {:induction false} EventsOfConcat(a: seq<Event>, b: seq<Event>, e: Entity)
    ensures EventsOf(a + b, e) == EventsOf(a, e) + EventsOf(b, e)
  {
    if a == [] {
      assert a + b == b;
    } else {
      var head := if a[0].entity == e then [a[0]] else [];
      assert (a + b)[0] == a[0] && (a + b)[1..] == a[1..] + b;
      assert EventsOf(a + b, e) == head + EventsOf(a[1..] + b, e);
      EventsOfConcat(a[1..], b, e);
      assert EventsOf(a, e) == head + EventsOf(a[1..], e);
      assert head + (EventsOf(a[1..], e) + EventsOf(b, e)) == (head + EventsOf(a[1..], e)) + EventsOf(b, e);
    }
  }

  /** Keeping the events of the one entity they are all about keeps them
      all; keeping those of another keeps none. */
  lemma {:induction false} EventsOfSame(events: seq<Event>, e: Entity, other: Entity)
    requires forall k | 0 <= k < |events| :: events[k].entity == e
    ensures EventsOf(events, e) == events
    ensures other != e ==> EventsOf(events, other) == []
  {
    if events != [] {
      EventsOfSame(events[1..], e, other);
    }
  }

  /** None of the events is about `e` when all are about later entities. */
  lemma {:induction false} EventsOfLater(events: seq<Event>, e: Entity)
    requires forall x | x in events :: Rank(e) < Rank(x.entity)
    ensures EventsOf(events, e) == []
  {
    if events != [] {
      EventsOfLater(events[1..], e);
    }
  }

  /** The run reaches the `j`-th inner loop from the `i`-th: every one in
      between finished. */
  predicate Reached(ps: seq<Pager>, i: nat, j: nat)
    requires i <= j <= |ps|
  {
    forall k | i <= k < j :: Pages(ps[k], 1).status == Finished
  }

  /** The run's events from entity `i` on are about `Order[i]` and later
      entities only. */
  lemma {:induction false} RunEntities(ps: seq<Pager>, i: nat)
    requires OnePerEntity(ps) && i <= |ps|
    ensures forall x | x in Run(ps, i).events :: i <= Rank(x.entity)
    decreases |ps| - i
  {
    if i < |ps| {
      RankOrder(i);
      PagesEvents(ps[i], 1);
      RunEntities(ps, i + 1);
    }
  }

  /** The events go through the entities in the order of `Order`, never
      back to an earlier one. */
  predicate InOrder(events: seq<Event>) {
    forall k1, k2 | 0 <= k1 <= k2 < |events| :: Rank(events[k1].entity) <= Rank(events[k2].entity)
  }

  /** Events about one entity, followed by events in order about later
      entities, are in order. */
  lemma InOrderConcat(a: seq<Event>, b: seq<Event>, e: Entity)
    requires forall k | 0 <= k < |a| :: a[k].entity == e
    requires InOrder(b) && forall x | x in b :: Rank(e) < Rank(x.entity)
    ensures InOrder(a + b)
  {
    var ev := a + b;
    forall k1, k2 | 0 <= k1 <= k2 < |ev|
      ensures Rank(ev[k1].entity) <= Rank(ev[k2].entity)
    {
      if k2 >= |a| {
        assert ev[k2] == b[k2 - |a|] && ev[k2] in b;
        if k1 >= |a| {
          assert ev[k1] == b[k1 - |a|];
        }
      }
    }
  }

  /** The run goes through the entities in the order of `Order`. */
  lemma {:induction false} RunOrdered(ps: seq<Pager>, i: nat)
    requires OnePerEntity(ps) && i <= |ps|
    ensures InOrder(Run(ps, i).events)
    decreases |ps| - i
  {
    if i < |ps| {
      var e := Order[i];
      RankOrder(i);
      var t := Pages(ps[i], 1);
      PagesEvents(ps[i], 1);
      if t.status == Aborted {
        InOrderConcat(t.events, [], e);
        assert t.events + [] == t.events;
      } else {
        RunOrdered(ps, i + 1);
        RunEntities(ps, i + 1);
        InOrderConcat(t.events, Run(ps, i + 1).events, e);
      }
    }
  }

  /** Every batch the run pushes is the one its page's iteration
      delivered. */
  lemma {:induction false} RunPushes(ps: seq<Pager>, i: nat)
    requires OnePerEntity(ps) && i <= |ps|
    ensures forall x | x in Run(ps, i).events && x.Pushed? ::
      ps[Rank(x.entity)].step(x.page) == Deliver(x.batch)
    decreases |ps| - i
  {
    if i < |ps| {
      RankOrder(i);
      PagesEvents(ps[i], 1);
      PagesPushes(ps[i], 1);
      RunPushes(ps, i + 1);
    }
  }

  /** The run ends Finished exactly when every entity's pages finished: an
      exception anywhere ends the whole run. */
  lemma {:induction false} RunStatus(ps: seq<Pager>, i: nat)
    requires i <= |ps|
    ensures Run(ps, i).status == Finished <==> Reached(ps, i, |ps|)
    decreases |ps| - i
  {
    if i < |ps| {
      RunStatus(ps, i + 1);
      ReachedFirst(ps, i, |ps|);
    }
  }

  /** Reaching `j` from `i` is finishing the `i`-th inner loop and reaching
      `j` from the next one. */
  lemma ReachedFirst(ps: seq<Pager>, i: nat, j: nat)
    requires i < j <= |ps|
    ensures Reached(ps, i, j) <==> Pages(ps[i], 1).status == Finished && Reached(ps, i + 1, j)
  {
  }

  /** What the run does for entity `Order[j]`: all of its pages, if every
      earlier entity finished, and nothing otherwise. */
  lemma {:induction false} RunEntity(ps: seq<Pager>, i: nat, j: nat)
    requires OnePerEntity(ps) && i <= j < |ps|
    ensures EventsOf(Run(ps, i).events, Order[j]) ==
      if Reached(ps, i, j) then Pages(ps[j], 1).events else []
    decreases |ps| - i
  {
    if i == j {
      RunEntityFirst(ps, i);
    } else {
      var t := Pages(ps[i], 1);
      PagesEvents(ps[i], 1);
      RankOrder(i);
      RankOrder(j);
      EventsOfSame(t.events, Order[i], Order[j]);
      if t.status == Aborted {
        assert !Reached(ps, i, j);
      } else {
        var rest := Run(ps, i + 1).events;
        EventsOfConcat(t.events, rest, Order[j]);
        RunEntity(ps, i + 1, j);
        ReachedFirst(ps, i, j);
        assert [] + EventsOf(rest, Order[j]) == EventsOf(rest, Order[j]);
      }
    }
  }

  /** The run from the `i`-th inner loop holds all of `Order[i]`'s pages. */
  lemma RunEntityFirst(ps: seq<Pager>, i: nat)
    requires OnePerEntity(ps) && i < |ps|
    ensures EventsOf(Run(ps, i).events, Order[i]) == Pages(ps[i], 1).events
  {
    var t := Pages(ps[i], 1);
    PagesOwnEvents(ps[i], Order[i]);
    if t.status != Aborted {
      RunRest(ps, i);
    }
  }

  /** Keeping an inner loop's events about its own entity keeps them all,
      and keeping those about another entity keeps none. */
  lemma PagesOwnEvents(p: Pager, e: Entity)
    ensures EventsOf(Pages(p, 1).events, e) == if e == p.entity then Pages(p, 1).events else []
  {
    PagesEvents(p, 1);
    EventsOfSame(Pages(p, 1).events, p.entity, e);
  }

  /** After the `i`-th inner loop finishes, the rest of the run holds no
      event about its entity. */
  lemma {:induction false} RunRest(ps: seq<Pager>, i: nat)
    requires OnePerEntity(ps) && i < |ps| && Pages(ps[i], 1).status != Aborted
    ensures EventsOf(Run(ps, i).events, Order[i]) ==
      EventsOf(Pages(ps[i], 1).events, Order[i])
  {
    var t := Pages(ps[i], 1);
    var rest := Run(ps, i + 1).events;
    assert Run(ps, i).events == t.events + rest;
    EventsOfConcat(t.events, rest, Order[i]);
    RunEntities(ps, i + 1);
    RankOrder(i);
    EventsOfLater(rest, Order[i]);
    assert EventsOf(t.events, Order[i]) + [] == EventsOf(t.events, Order[i]);
  }

  /** Under a wired transformer, a delivered page's batch is the record
      transformer's batch for the page's rows: one upsert into the entity's
      table per row, in order, each with the clock reading for its row. */
  lemma WiredDeliver(svc: Services, e: Entity, page: int, batch: seq<Envelope>)
    requires Wired(svc) && Step(svc, e, page) == Deliver(batch)
    ensures svc.fetch(Name(e), page).Success?
    ensures var rows := RowsOf(svc.fetch(Name(e), page).value, e);
      && rows.Success?
      && Batch(ParserOf(e), svc.clientId, rows.value, Stamps(svc, e, page, |rows.value|)) == Success(batch)
      && |batch| == |rows.value|
      && forall j | 0 <= j < |batch| ::
           IsUpsert(batch[j], svc.clientId, svc.clock(Name(e), page, j), Name(e))
  {
    var rows := RowsOf(svc.fetch(Name(e), page).value, e).value;
    var stamps := Stamps(svc, e, page, |rows|);
    NamedEntity(e);
    assert svc.transform(Name(e), rows, stamps) == Some(Batch(ParserOf(e), svc.clientId, rows, stamps));
    BatchHeaders(e, svc.clientId, rows, stamps);
  }

  /** Under a wired transformer, every envelope the run pushes is an upsert
      keyed by `id` into the table of the entity being synced, for the
      configured client. */
  lemma WiredPushes(svc: Services)
    requires Wired(svc)
    ensures forall x, j | x in RunFrom(svc, 0).events && x.Pushed? && 0 <= j < |x.batch| ::
      IsUpsert(x.batch[j], svc.clientId, svc.clock(Name(x.entity), x.page, j), Name(x.entity))
  {
    RunPushes(PagersOf(svc), 0);
    forall x | x in RunFrom(svc, 0).events && x.Pushed?
      ensures forall j | 0 <= j < |x.batch| ::
        IsUpsert(x.batch[j], svc.clientId, svc.clock(Name(x.entity), x.page, j), Name(x.entity))
    {
      PagerAt(svc, x.entity);
      WiredDeliver(svc, x.entity, x.page, x.batch);
    }
  }

  /** One iteration's fetch and transform (lines 24-35): what it does
      after the fetch is what `Step` says. */
  method Visit(svc: Services, e: Entity, page: int) returns (s: PageStep)
    ensures s == Step(svc, e, page)
  {
    var response := svc.fetch(Name(e), page);
    if response.Failure? {
      return Fail;
    }
    var count := Get(response.value, "count");
    if count.Failure? {
      return Fail;
    }
    if IsZero(count.value) {
      return Stop;
    }
    var rows := RowsOf(response.value, e);
    if rows.Failure? {
      return Fail;
    }
    var out := svc.transform(Name(e), rows.value, Stamps(svc, e, page, |rows.value|));
    if out.None? || out.value.Failure? {
      return Fail;
    }
    return Deliver(out.value.value);
  }

  /** One iteration of the inner loop of main.py (lines 24-39): it logs
      the page's events after `log`, and either ends the entity's pages with
      `status` or leaves the rest to the next page. */
  method VisitPage(svc: Services, e: Entity, page: int, log: seq<Event>)
    returns (next: seq<Event>, ended: bool, status: Status)
    requires 1 <= page < PageLimit
    ensures ended ==> Trace(next, status) == Then(log, PagesFrom(svc, e, page))
    ensures !ended ==> Then(next, PagesFrom(svc, e, page + 1)) == Then(log, PagesFrom(svc, e, page))
  {
    var s := Visit(svc, e, page);
    next := log + [Fetched(e, page)];
    ended, status := true, Aborted;
    match s
    case Stop =>
      PagesAtStop(svc, e, page);
      status := Finished;
    case Fail =>
      PagesAtFail(svc, e, page);
    case Deliver(batch) =>
      PagesAtDeliver(svc, e, page, batch);
      next := next + [Pushed(e, page, batch)];
      if svc.accepts(Name(e), page) {
        ThenThen(log, [Fetched(e, page), Pushed(e, page, batch)], PagesFrom(svc, e, page + 1));
        assert next == log + [Fetched(e, page), Pushed(e, page, batch)];
        ended := false;
      }
  }

  /** The inner loop of main.py (lines 23-39) for entity `e`: the pages it
      fetches and pushes, and whether an exception ended the run. */
  method SyncPages(svc: Services, e: Entity) returns (events: seq<Event>, status: Status)
    ensures Trace(events, status) == PagesFrom(svc, e, 1)
  {
    events := [];
    for page := 1 to PageLimit
      invariant PagesFrom(svc, e, 1) == Then(events, PagesFrom(svc, e, page))
    {
      var ended;
      events, ended, status := VisitPage(svc, e, page, events);
      if ended {
        return;
      }
    }
    assert events + [] == events;
    status := Finished;
  }

  /** The loop of main.py (lines 19-39). */
  method Sync(svc: Services) returns (log: seq<Event>, status: Status)
    ensures Trace(log, status) == RunFrom(svc, 0)
  {
    log := [];
    for i := 0 to |Order|
      invariant RunFrom(svc, 0) == Then(log, RunFrom(svc, i))
    {
      var events, entityStatus := SyncPages(svc, Order[i]);
      ThenThen(log, events, RunFrom(svc, i + 1));
      log := log + events;
      if entityStatus == Aborted {
        return log, Aborted;
      }
    }
    assert log + [] == log;
    status := Finished;
  }
}
