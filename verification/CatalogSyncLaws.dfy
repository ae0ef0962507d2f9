/** What the catalog sync promises: crash safety, completeness, progress. */
module CatalogSyncLaws {
  import opened Outcomes
  import opened MachineInts
  import opened CatalogSync
  import Text
  import Sets

  // ----- The upstream directory -----

  datatype Listing = Listing(name: Option<string>, modified: Option<U32>)

  /** Application ids start at one. */
  type Catalog = c: map<U32, Listing> | 0 !in c witness map[]

  ghost predicate Matches(l: Listing, since: U32) {
    l.modified.Some? ==> l.modified.value >= since
  }

  /** What an incremental request past `last` still has to deliver. */
  ghost function Due(catalog: Catalog, since: U32, last: U32): set<U32> {
    set id <- catalog | id > last && Matches(catalog[id], since)
  }

  ghost function DtoOf(catalog: Catalog, id: U32): AppDto
    requires id in catalog
  {
    AppDto(id, catalog[id].name, catalog[id].modified)
  }

  ghost predicate Listed(body: ResponseBody, id: U32) {
    exists a <- body.apps :: a.appid == id
  }

  ghost function LastListed(body: ResponseBody): U32 {
    if body.apps == [] then 0 else body.apps[|body.apps| - 1].appid
  }

  /** A truthful page of any size: due entries in id order, with nothing skipped. */
  ghost predicate Honest(catalog: Catalog, last: U32, since: U32, body: ResponseBody) {
    && (forall a <- body.apps :: a.appid in Due(catalog, since, last) && a == DtoOf(catalog, a.appid))
    && (forall i, j :: 0 <= i < j < |body.apps| ==> body.apps[i].appid < body.apps[j].appid)
    && (forall id <- Due(catalog, since, last) :: !body.haveMore || id <= LastListed(body) ==> Listed(body, id))
    && (body.haveMore ==> body.apps != [] && body.lastAppid.GetOr(LastListed(body)) == LastListed(body))
  }

  ghost predicate HonestServer(catalog: Catalog, server: Server) {
    forall k, last, since :: server(k, last, since).Some? ==> Honest(catalog, last, since, server(k, last, since).value)
  }

  // ----- What the store and a cursor say together -----

  /** The store holds the entry as the directory lists it now. */
  ghost predicate Current(catalog: Catalog, apps: Apps, id: U32) {
    id in catalog && id in apps && apps[id] == ProposalOf(DtoOf(catalog, id))
  }

  ghost predicate AllCurrent(catalog: Catalog, apps: Apps) {
    forall id <- catalog :: Current(catalog, apps, id)
  }

  /**
    The cursor tells the truth: everything older than its watermark is stored, every
    matching entry up to last_appid is stored, and the next watermark is not too low.
   */
  ghost predicate Truthful(catalog: Catalog, apps: Apps, c: Cursor) {
    && c.ifModifiedSince <= c.highWater
    && (forall id <- catalog ::
          !Matches(catalog[id], c.ifModifiedSince) || id <= c.lastAppid ==> Current(catalog, apps, id))
    && (forall id <- catalog :: id <= c.lastAppid ==> catalog[id].modified.GetOr(0) <= c.highWater)
  }

  /** Nothing in the directory was modified after this. */
  ghost predicate Covers(catalog: Catalog, watermark: U32) {
    forall id <- catalog :: catalog[id].modified.GetOr(0) <= watermark
  }

  ghost predicate Durable(catalog: Catalog, store: Store) {
    store.saved.Some? ==> Truthful(catalog, store.apps, store.saved.value)
  }

  ghost function Watermark(store: Store): U32 {
    if store.saved.Some? then store.saved.value.ifModifiedSince else 0
  }

  // ----- Reading a page -----

  /** No entry without a number or a name, and something to go on from if more is to come. */
  ghost predicate Sensible(body: ResponseBody) {
    && (forall a <- body.apps :: a.appid > 0 && a.name.Some? && Text.Trim(a.name.value) != "")
    && (body.haveMore ==>
          && body.apps != []
          && if body.lastAppid.Some? then body.lastAppid.value > 0 else exists a <- body.apps :: a.appid > 0)
  }

  /** Each entry is proposed as it is listed, and the page ends at the largest number unless it says where. */
  ghost predicate Reads(body: ResponseBody, page: Page) {
    && |page.proposals| == |body.apps|
    && (forall i | 0 <= i < |body.apps| ::
          var p, a := page.proposals[i], body.apps[i];
          p.appId == a.appid && Some(p.name) == a.name && p.lastModified == a.lastModified)
    && page.haveMore == body.haveMore
    && (body.lastAppid.Some? ==> page.lastAppid == body.lastAppid.value)
    && (body.lastAppid.None? ==>
          && (forall a <- body.apps :: a.appid <= page.lastAppid)
          && (page.lastAppid == 0 || exists a <- body.apps :: a.appid == page.lastAppid))
    && (forall a <- body.apps :: a.lastModified.Some? ==> a.lastModified.value <= page.maxModified)
    && (page.maxModified == 0 || exists a <- body.apps :: a.lastModified == Some(page.maxModified))
  }

  lemma {:induction false} MaxAppidIsListed(apps: seq<AppDto>)
    ensures forall a <- apps :: a.appid <= MaxAppid(apps)
    ensures MaxAppid(apps) == 0 || exists a <- apps :: a.appid == MaxAppid(apps)
  {
    if apps != [] {
      var before, last := apps[..|apps| - 1], apps[|apps| - 1];
      assert apps == before + [last];
      MaxAppidIsListed(before);
      assert last in apps;
    }
  }

  /** A page is read exactly when all of it is sensible, and then as it stands. */
  lemma PagesAreReadIff(body: ResponseBody)
    ensures Parsed(body).Some? <==> Sensible(body)
    ensures Parsed(body).Some? ==> Reads(body, Parsed(body).value)
  {
    MaxAppidIsListed(body.apps);
    MaxModifiedBounds(body.apps);
    MaxModifiedIsListed(body.apps);
    assert forall a <- body.apps :: Usable(a) <==> a.appid > 0 && a.name.Some? && Text.Trim(a.name.value) != "";
    if Parsed(body).Some? {
      assert forall i | 0 <= i < |body.apps| :: body.apps[i] in body.apps;
    }
  }

  // ----- One page -----

  lemma {:induction false} IngestedIsCurrent(catalog: Catalog, apps: Apps, proposals: seq<Proposal>)
    requires forall p <- proposals :: p.appId in catalog && p == ProposalOf(DtoOf(catalog, p.appId))
    ensures forall id :: Current(catalog, apps, id) ==> Current(catalog, Ingested(apps, proposals), id)
    ensures forall p <- proposals :: Current(catalog, Ingested(apps, proposals), p.appId)
  {
    if proposals != [] {
      IngestedIsCurrent(catalog, apps, proposals[..|proposals| - 1]);
    }
  }

  lemma {:induction false} MaxModifiedBounds(apps: seq<AppDto>)
    ensures forall a <- apps :: a.lastModified.GetOr(0) <= MaxModified(apps)
  {
    if apps != [] {
      MaxModifiedBounds(apps[..|apps| - 1]);
    }
  }

  lemma {:induction false} MaxAppidIsLast(apps: seq<AppDto>)
    requires forall i, j :: 0 <= i < j < |apps| ==> apps[i].appid < apps[j].appid
    ensures apps != [] ==> MaxAppid(apps) == apps[|apps| - 1].appid
    ensures apps == [] ==> MaxAppid(apps) == 0
  {
    if apps != [] {
      MaxAppidIsLast(apps[..|apps| - 1]);
    }
  }

  lemma PageProposals(catalog: Catalog, last: U32, since: U32, body: ResponseBody)
    requires Honest(catalog, last, since, body) && Parsed(body).Some?
    ensures forall p <- Parsed(body).value.proposals :: p.appId in catalog && p == ProposalOf(DtoOf(catalog, p.appId))
    ensures forall a <- body.apps :: ProposalOf(a) in Parsed(body).value.proposals
  {
    var proposals := Parsed(body).value.proposals;
    forall p <- proposals ensures p.appId in catalog && p == ProposalOf(DtoOf(catalog, p.appId)) {
      var i :| 0 <= i < |proposals| && proposals[i] == p;
      assert body.apps[i] in body.apps;
    }
    forall a <- body.apps ensures ProposalOf(a) in proposals {
      var i :| 0 <= i < |body.apps| && body.apps[i] == a;
      assert proposals[i] == ProposalOf(a);
    }
  }

  lemma PageNumbers(catalog: Catalog, last: U32, since: U32, body: ResponseBody)
    requires Honest(catalog, last, since, body) && Parsed(body).Some?
    ensures forall id <- catalog :: Listed(body, id) ==> catalog[id].modified.GetOr(0) <= Parsed(body).value.maxModified
    ensures body.haveMore ==> Parsed(body).value.lastAppid == LastListed(body) > last
  {
    MaxModifiedBounds(body.apps);
    MaxAppidIsLast(body.apps);
    if body.haveMore {
      assert body.apps[|body.apps| - 1] in body.apps;
    }
  }

  lemma PageIsCurrent(catalog: Catalog, apps: Apps, last: U32, since: U32, body: ResponseBody)
    requires Honest(catalog, last, since, body) && Parsed(body).Some?
    ensures var after := Ingested(apps, Parsed(body).value.proposals);
            forall id :: Current(catalog, apps, id) || Listed(body, id) ==> Current(catalog, after, id)
  {
    var proposals := Parsed(body).value.proposals;
    PageProposals(catalog, last, since, body);
    IngestedIsCurrent(catalog, apps, proposals);
    forall id | Listed(body, id) ensures Current(catalog, Ingested(apps, proposals), id) {
      var a :| a in body.apps && a.appid == id;
      assert ProposalOf(a) in proposals;
    }
  }

  /** A page moves the cursor on truthfully; the last page of a pass leaves everything stored. */
  lemma PageKeepsTruth(catalog: Catalog, apps: Apps, c: Cursor, body: ResponseBody)
    requires Truthful(catalog, apps, c)
    requires Honest(catalog, c.lastAppid, c.ifModifiedSince, body) && Parsed(body).Some?
    ensures var page := Parsed(body).value;
            var after, next := Ingested(apps, page.proposals), Applied(c, page);
            && Truthful(catalog, after, next)
            && (next.InProgress() <==> page.haveMore)
            && (!next.InProgress() ==> AllCurrent(catalog, after))
            && c.ifModifiedSince <= next.ifModifiedSince
  {
    var page := Parsed(body).value;
    var after := Ingested(apps, page.proposals);
    PageIsCurrent(catalog, apps, c.lastAppid, c.ifModifiedSince, body);
    PageNumbers(catalog, c.lastAppid, c.ifModifiedSince, body);
    forall id <- catalog | !page.haveMore || id <= page.lastAppid
      ensures Current(catalog, after, id)
    {
      if id in Due(catalog, c.ifModifiedSince, c.lastAppid) {
        assert Listed(body, id);
      }
    }
    forall id <- catalog | page.haveMore && id <= page.lastAppid
      ensures catalog[id].modified.GetOr(0) <= Max(c.highWater, page.maxModified)
    {
      if id in Due(catalog, c.ifModifiedSince, c.lastAppid) {
        assert Listed(body, id);
      }
    }
  }

  /** The last page of a pass lifts the watermark to all that was modified. */
  lemma LastPageCovers(catalog: Catalog, apps: Apps, c: Cursor, body: ResponseBody)
    requires Truthful(catalog, apps, c)
    requires Honest(catalog, c.lastAppid, c.ifModifiedSince, body) && Parsed(body).Some? && !body.haveMore
    ensures Covers(catalog, Applied(c, Parsed(body).value).ifModifiedSince)
  {
    PageNumbers(catalog, c.lastAppid, c.ifModifiedSince, body);
    forall id <- catalog
      ensures catalog[id].modified.GetOr(0) <= Max(c.highWater, Parsed(body).value.maxModified)
    {
      if id in Due(catalog, c.ifModifiedSince, c.lastAppid) {
        assert Listed(body, id);
      }
    }
  }

  lemma GrowthKeepsTruth(catalog: Catalog, apps: Apps, more: Apps, c: Cursor)
    requires Truthful(catalog, apps, c)
    requires forall id :: Current(catalog, apps, id) ==> Current(catalog, more, id)
    ensures Truthful(catalog, more, c)
  {
  }

  // ----- One call, with any faults -----

  /** A store and a cursor in the middle of a call; the saved cursor may lag behind. */
  ghost predicate Underway(catalog: Catalog, store: Store, c: Cursor) {
    Durable(catalog, store) && Truthful(catalog, store.apps, c) && Watermark(store) <= c.ifModifiedSince
  }

  /** All that matters about a page: the stores on its way are in order. */
  ghost predicate PageInOrder(catalog: Catalog, store: Store, c: Cursor, page: Page) {
    var next, ingested := Applied(c, page), store.(apps := Ingested(store.apps, page.proposals));
    && Durable(catalog, store) && Durable(catalog, ingested) && Durable(catalog, ingested.(saved := Some(next)))
    && Watermark(store) <= next.ifModifiedSince
    && (!next.InProgress() ==> AllCurrent(catalog, ingested.apps) && Covers(catalog, next.ifModifiedSince))
  }

  /** Between ingesting a page and saving the cursor, and after, the store is in order. */
  lemma PageKeepsUnderway(catalog: Catalog, store: Store, c: Cursor, body: ResponseBody)
    requires Underway(catalog, store, c)
    requires Honest(catalog, c.lastAppid, c.ifModifiedSince, body) && Parsed(body).Some?
    ensures var page := Parsed(body).value;
            var next := Applied(c, page);
            && PageInOrder(catalog, store, c, page)
            && Underway(catalog, Store(Some(next), Ingested(store.apps, page.proposals)), next)
  {
    PageIsCurrent(catalog, store.apps, c.lastAppid, c.ifModifiedSince, body);
    PageKeepsTruth(catalog, store.apps, c, body);
    if !body.haveMore {
      LastPageCovers(catalog, store.apps, c, body);
    }
    if store.saved.Some? {
      GrowthKeepsTruth(catalog, store.apps, Ingested(store.apps, Parsed(body).value.proposals), store.saved.value);
    }
  }

  /**
    What a call may leave behind: a truthful store, no lower watermark, and after a completed pass
    a full store whose watermark has caught up with the directory.
   */
  ghost predicate LeftInOrder(catalog: Catalog, watermark: U32, out: Outcome) {
    && Durable(catalog, out.store)
    && watermark <= Watermark(out.store)
    && (out.ending == Finished ==> out.completed)
    && (out.completed ==> AllCurrent(catalog, out.store.apps) && Covers(catalog, Watermark(out.store)))
  }

  /** What happens to one page, given what the pages after it leave behind. */
  function PageThen(faults: nat -> Fault, store: Store, c: Cursor, k: nat, page: Page, later: Outcome): Outcome {
    var next, ingested := Applied(c, page), store.(apps := Ingested(store.apps, page.proposals));
    var saved := ingested.(saved := Some(next));
    match faults(k)
    case IngestFails => Outcome(store, Stopped, false)
    case SaveFails => Outcome(ingested, Stopped, false)
    case CrashAfterSave => Outcome(saved, Stopped, !next.InProgress())
    case Fine => if next.InProgress() then later else Outcome(saved, Finished, true)
  }

  lemma PageLeavesInOrder(catalog: Catalog, faults: nat -> Fault, store: Store, c: Cursor, k: nat, page: Page,
      later: Outcome)
    requires PageInOrder(catalog, store, c, page)
    requires LeftInOrder(catalog, Applied(c, page).ifModifiedSince, later)
    ensures LeftInOrder(catalog, Watermark(store), PageThen(faults, store, c, k, page, later))
  {
  }

  lemma PagesUnfold(server: Server, faults: nat -> Fault, store: Store, c: Cursor, k: nat, maxPages: nat, page: Page)
    requires k < maxPages && server(k, c.lastAppid, c.ifModifiedSince).Some?
    requires Parsed(server(k, c.lastAppid, c.ifModifiedSince).value) == Some(page)
    ensures var later := CollectPages(server, faults,
        Store(Some(Applied(c, page)), Ingested(store.apps, page.proposals)), Applied(c, page), k + 1, maxPages);
            CollectPages(server, faults, store, c, k, maxPages) == PageThen(faults, store, c, k, page, later)
  {
  }

  /** What must hold on the way, and of what is left behind above a watermark. */
  type OnTheWay = (Store, Cursor) -> bool
  type AtTheEnd = (U32, Outcome) -> bool

  /** What one page of a call must do to carry `ok` to `left`, whatever follows it. */
  ghost predicate PageRule(server: Server, faults: nat -> Fault, ok: OnTheWay, left: AtTheEnd,
                           store: Store, c: Cursor, k: nat, later: Outcome) {
    ok(store, c) ==>
      var body := server(k, c.lastAppid, c.ifModifiedSince);
      && left(Watermark(store), Outcome(store, OutOfPages, false))
      && left(Watermark(store), Outcome(store, Stopped, false))
      && (body.Some? && Parsed(body.value).Some? ==>
            var page := Parsed(body.value).value;
            var next := Applied(c, page);
            && ok(Store(Some(next), Ingested(store.apps, page.proposals)), next)
            && (left(next.ifModifiedSince, later) ==>
                  left(Watermark(store), PageThen(faults, store, c, k, page, later))))
  }

  lemma {:induction false} PagesInduction(server: Server, faults: nat -> Fault, ok: OnTheWay, left: AtTheEnd,
                                          store: Store, c: Cursor, k: nat, maxPages: nat)
    requires forall store, c, k, later :: PageRule(server, faults, ok, left, store, c, k, later)
    requires ok(store, c)
    ensures left(Watermark(store), CollectPages(server, faults, store, c, k, maxPages))
    decreases maxPages - k
  {
    var out := CollectPages(server, faults, store, c, k, maxPages);
    assert PageRule(server, faults, ok, left, store, c, k, out);
    var body := server(k, c.lastAppid, c.ifModifiedSince);
    if k < maxPages && body.Some? && Parsed(body.value).Some? {
      var page := Parsed(body.value).value;
      var next := Applied(c, page);
      var saved := Store(Some(next), Ingested(store.apps, page.proposals));
      PagesInduction(server, faults, ok, left, saved, next, k + 1, maxPages);
      PagesUnfold(server, faults, store, c, k, maxPages, page);
      assert PageRule(server, faults, ok, left, store, c, k,
        CollectPages(server, faults, saved, next, k + 1, maxPages));
    }
  }

  ghost function StaysUnderway(catalog: Catalog): OnTheWay {
    (store, c) => Underway(catalog, store, c)
  }

  ghost function EndsInOrder(catalog: Catalog): AtTheEnd {
    (watermark: U32, out) => LeftInOrder(catalog, watermark, out)
  }

  lemma PageIsInOrder(catalog: Catalog, server: Server, faults: nat -> Fault, store: Store, c: Cursor, k: nat,
      later: Outcome)
    requires HonestServer(catalog, server)
    ensures PageRule(server, faults, StaysUnderway(catalog), EndsInOrder(catalog), store, c, k, later)
  {
    var body := server(k, c.lastAppid, c.ifModifiedSince);
    if Underway(catalog, store, c) && body.Some? && Parsed(body.value).Some? {
      var page := Parsed(body.value).value;
      PageKeepsUnderway(catalog, store, c, body.value);
      if LeftInOrder(catalog, Applied(c, page).ifModifiedSince, later) {
        PageLeavesInOrder(catalog, faults, store, c, k, page, later);
      }
    }
  }

  lemma PagesKeepTruth(catalog: Catalog, server: Server, faults: nat -> Fault, store: Store, c: Cursor, k: nat,
      maxPages: nat)
    requires HonestServer(catalog, server) && Underway(catalog, store, c)
    ensures LeftInOrder(catalog, Watermark(store), CollectPages(server, faults, store, c, k, maxPages))
  {
    var ok, left := StaysUnderway(catalog), EndsInOrder(catalog);
    forall store, c, k: nat, later ensures PageRule(server, faults, ok, left, store, c, k, later) {
      PageIsInOrder(catalog, server, faults, store, c, k, later);
    }
    PagesInduction(server, faults, ok, left, store, c, k, maxPages);
  }

  lemma OpeningIsTruthful(catalog: Catalog, store: Store, version: string)
    requires Durable(catalog, store)
    ensures var c := Opening(store.saved, version);
            Truthful(catalog, store.apps, c) && c.ifModifiedSince == Watermark(store)
  {
  }

  /**
    Crash safety. Whatever page sizes the server chooses, wherever the call breaks off and
    whichever adapter version makes it, the saved cursor stays truthful, the watermark does
    not fall, and a completed pass has stored the whole directory and lifted the watermark to
    its latest modification.
   */
  lemma CallIsCrashSafe(catalog: Catalog, server: Server, faults: nat -> Fault, store: Store, maxPages: nat,
      version: string)
    requires HonestServer(catalog, server) && Durable(catalog, store)
    ensures LeftInOrder(catalog, Watermark(store), Collect(server, faults, store, maxPages, version))
  {
    OpeningIsTruthful(catalog, store, version);
    PagesKeepTruth(catalog, server, faults, store, Opening(store.saved, version), 0, maxPages);
  }

  // ----- Runs: many calls, and a directory that changes between passes -----

  datatype Event =
    | Call(server: Server, faults: nat -> Fault, maxPages: nat, version: string)
    | Change(catalog: Catalog)

  datatype World = World(catalog: Catalog, store: Store)

  /** New and changed entries carry a modification time at or past the watermark. */
  ghost predicate Evolves(from: Catalog, to: Catalog, watermark: U32) {
    forall id <- to :: Matches(to[id], watermark) || (id in from && from[id] == to[id])
  }

  /** The server is truthful during calls; the directory changes only between passes. */
  ghost predicate Fair(w: World, e: Event) {
    match e
    case Call(server, _, _, _) => HonestServer(w.catalog, server)
    case Change(to) =>
      w.store.saved.Some? ==> !w.store.saved.value.InProgress() && Evolves(w.catalog, to, Watermark(w.store))
  }

  ghost function Step(w: World, e: Event): World {
    match e
    case Call(server, faults, maxPages, version) =>
      w.(store := Collect(server, faults, w.store, maxPages, version).store)
    case Change(to) => w.(catalog := to)
  }

  ghost function After(w: World, run: seq<Event>): World
    decreases |run|
  {
    if run == [] then w else After(Step(w, run[0]), run[1..])
  }

  ghost predicate FairRun(w: World, run: seq<Event>)
    decreases |run|
  {
    run == [] || (Fair(w, run[0]) && FairRun(Step(w, run[0]), run[1..]))
  }

  lemma StepKeepsTruth(w: World, e: Event)
    requires Durable(w.catalog, w.store) && Fair(w, e)
    ensures var next := Step(w, e);
            Durable(next.catalog, next.store) && Watermark(w.store) <= Watermark(next.store)
  {
    if e.Call? {
      CallIsCrashSafe(w.catalog, e.server, e.faults, w.store, e.maxPages, e.version);
    }
  }

  /**
    The law of the cursor over whole histories: through any sequence of calls, crashes,
    upgrades and directory changes between passes, the saved cursor is truthful and the
    watermark never falls.
   */
  lemma {:induction false} CursorNeverLies(w: World, run: seq<Event>)
    requires Durable(w.catalog, w.store) && FairRun(w, run)
    ensures var end := After(w, run);
            Durable(end.catalog, end.store) && Watermark(w.store) <= Watermark(end.store)
    decreases |run|
  {
    if run != [] {
      StepKeepsTruth(w, run[0]);
      CursorNeverLies(Step(w, run[0]), run[1..]);
    }
  }

  /** Each pass completed in such a history leaves the store current with the directory of its time. */
  lemma CompletedPassIsComplete(w: World, run: seq<Event>, call: Event)
    requires Durable(w.catalog, w.store) && FairRun(w, run)
    requires call.Call? && Fair(After(w, run), call)
    requires Collect(call.server, call.faults, After(w, run).store, call.maxPages, call.version).completed
    ensures AllCurrent(After(w, run).catalog, Step(After(w, run), call).store.apps)
  {
    CursorNeverLies(w, run);
    var now := After(w, run);
    CallIsCrashSafe(now.catalog, call.server, call.faults, now.store, call.maxPages, call.version);
  }

  // ----- Where the watermark comes from -----

  /** What a cursor still has to deliver. */
  ghost function Left(catalog: Catalog, c: Cursor): set<U32> {
    Due(catalog, c.ifModifiedSince, c.lastAppid)
  }

  /** The times at which the directory lists something as modified. */
  ghost function Times(catalog: Catalog): set<U32> {
    set id <- catalog | catalog[id].modified.Some? :: catalog[id].modified.value
  }

  /** Both water marks of a cursor are such times, or zero. */
  ghost predicate Dated(c: Cursor, times: set<U32>) {
    && (c.ifModifiedSince == 0 || c.ifModifiedSince in times)
    && (c.highWater == 0 || c.highWater in times)
  }

  ghost predicate DatedStore(store: Store, times: set<U32>) {
    store.saved.Some? ==> Dated(store.saved.value, times)
  }

  lemma {:induction false} MaxModifiedIsListed(apps: seq<AppDto>)
    ensures MaxModified(apps) == 0 || exists a <- apps :: a.lastModified == Some(MaxModified(apps))
  {
    if apps != [] {
      var before, last := apps[..|apps| - 1], apps[|apps| - 1];
      assert apps == before + [last];
      MaxModifiedIsListed(before);
      assert last in apps;
    }
  }

  lemma PageStaysDated(catalog: Catalog, c: Cursor, body: ResponseBody, times: set<U32>)
    requires Honest(catalog, c.lastAppid, c.ifModifiedSince, body) && Parsed(body).Some?
    requires Dated(c, times) && Times(catalog) <= times
    ensures Dated(Applied(c, Parsed(body).value), times)
  {
    MaxModifiedIsListed(body.apps);
    var max := Parsed(body).value.maxModified;
    if max != 0 {
      var a :| a in body.apps && a.lastModified == Some(max);
      assert catalog[a.appid].modified == Some(max);
    }
  }

  ghost function StaysDated(times: set<U32>): OnTheWay {
    (store: Store, c: Cursor) => DatedStore(store, times) && Dated(c, times)
  }

  ghost function EndsDated(times: set<U32>): AtTheEnd {
    (watermark: U32, out: Outcome) => DatedStore(out.store, times)
  }

  lemma CallStaysDated(catalog: Catalog, server: Server, faults: nat -> Fault, store: Store, maxPages: nat,
                       version: string, times: set<U32>)
    requires HonestServer(catalog, server) && DatedStore(store, times) && Times(catalog) <= times
    ensures DatedStore(Collect(server, faults, store, maxPages, version).store, times)
  {
    var ok, left := StaysDated(times), EndsDated(times);
    forall s, c, k: nat, later ensures PageRule(server, faults, ok, left, s, c, k, later) {
      var body := server(k, c.lastAppid, c.ifModifiedSince);
      if Dated(c, times) && body.Some? && Parsed(body.value).Some? {
        PageStaysDated(catalog, c, body.value, times);
      }
    }
    PagesInduction(server, faults, ok, left, store, Opening(store.saved, version), 0, maxPages);
  }

  /** All times that a directory listed in the course of a history. */
  ghost function AllTimes(w: World, run: seq<Event>): set<U32>
    decreases |run|
  {
    Times(w.catalog) + if run == [] then {} else AllTimes(Step(w, run[0]), run[1..])
  }

  lemma {:induction false} HistoryStaysDated(w: World, run: seq<Event>, times: set<U32>)
    requires FairRun(w, run) && DatedStore(w.store, times) && AllTimes(w, run) <= times
    ensures DatedStore(After(w, run).store, times)
    decreases |run|
  {
    if run != [] {
      var e := run[0];
      if e.Call? {
        CallStaysDated(w.catalog, e.server, e.faults, w.store, e.maxPages, e.version, times);
      }
      HistoryStaysDated(Step(w, e), run[1..], times);
    }
  }

  /** The watermark is never invented: it is zero, or a modification time that some directory has listed. */
  lemma WatermarkIsGenuine(catalog: Catalog, run: seq<Event>)
    requires FairRun(World(catalog, Store(None, map[])), run)
    ensures var start := World(catalog, Store(None, map[]));
            var mark := Watermark(After(start, run).store);
            mark == 0 || mark in AllTimes(start, run)
  {
    var start := World(catalog, Store(None, map[]));
    HistoryStaysDated(start, run, AllTimes(start, run));
  }

  lemma {:induction false} SteadyTimes(w: World, run: seq<Event>)
    requires forall e <- run :: e.Call?
    ensures AllTimes(w, run) == Times(w.catalog) && After(w, run).catalog == w.catalog
    decreases |run|
  {
    if run != [] {
      SteadyTimes(Step(w, run[0]), run[1..]);
    }
  }

  /** The latest modification that a directory lists, or zero. */
  ghost predicate IsLatest(catalog: Catalog, mark: U32) {
    Covers(catalog, mark) && (mark == 0 || mark in Times(catalog))
  }

  /**
    A completed pass over a steady directory, after any calls from an empty store, moves the
    watermark exactly to the latest modification, so that the next pass is due nothing but what
    was modified at that very time and what has no time.
   */
  lemma PassesAreIncremental(catalog: Catalog, run: seq<Event>, call: Event)
    requires forall e <- run + [call] :: e.Call? && HonestServer(catalog, e.server)
    requires Collect(call.server, call.faults, After(World(catalog, Store(None, map[])), run).store, call.maxPages,
                     call.version).completed
    ensures var store := Step(After(World(catalog, Store(None, map[])), run), call).store;
            && IsLatest(catalog, Watermark(store))
            && forall version: string, id <- Left(catalog, Opening(store.saved, version)) ::
                 catalog[id].modified.None? || catalog[id].modified.value == Watermark(store)
  {
    var start := World(catalog, Store(None, map[]));
    assert call in run + [call];
    assert forall e <- run :: e in run + [call];
    SteadyIsFair(start, run);
    SteadyTimes(start, run);
    CursorNeverLies(start, run);
    HistoryStaysDated(start, run, Times(catalog));
    var store := After(start, run).store;
    CallStaysDated(catalog, call.server, call.faults, store, call.maxPages, call.version, Times(catalog));
    CallIsCrashSafe(catalog, call.server, call.faults, store, call.maxPages, call.version);
  }

  lemma {:induction false} SteadyIsFair(w: World, run: seq<Event>)
    requires forall e <- run :: e.Call? && HonestServer(w.catalog, e.server)
    ensures FairRun(w, run)
    decreases |run|
  {
    if run != [] {
      SteadyIsFair(Step(w, run[0]), run[1..]);
    }
  }

  // ----- Starting over -----

  lemma SavedIsIrrelevant(server: Server, faults: nat -> Fault, a: Store, b: Store, c: Cursor, k: nat, maxPages: nat)
    requires a.apps == b.apps
    ensures SameButUnsaved(a, b, CollectPages(server, faults, a, c, k, maxPages),
                           CollectPages(server, faults, b, c, k, maxPages))
  {
  }

  /** Equal outcomes, but for a cursor that neither call has replaced. */
  ghost predicate SameButUnsaved(a: Store, b: Store, x: Outcome, y: Outcome) {
    && x.ending == y.ending && x.completed == y.completed && x.store.apps == y.store.apps
    && (x.store.saved == y.store.saved || (x.store.saved == a.saved && y.store.saved == b.saved))
  }

  /**
    A finished pass, and a cursor of another version, are not resumed: the call does what it
    would do at the start of a new pass from the same watermark.
   */
  lemma NewPassesStartOver(server: Server, faults: nat -> Fault, store: Store, maxPages: nat, version: string)
    requires store.saved.Some?
    requires store.saved.value.adapterVersion != version
             || (store.saved.value.lastAppid == 0 && !store.saved.value.haveMore)
    ensures var mark := Watermark(store);
            var anew := store.(saved := Some(Cursor(0, mark, mark, true, version)));
            SameButUnsaved(store, anew, Collect(server, faults, store, maxPages, version),
                           Collect(server, faults, anew, maxPages, version))
  {
    var mark := Watermark(store);
    var anew := store.(saved := Some(Cursor(0, mark, mark, true, version)));
    SavedIsIrrelevant(server, faults, store, anew, Opening(store.saved, version), 0, maxPages);
  }

  // ----- Progress -----

  ghost predicate AllNamed(catalog: Catalog, ids: set<U32>) {
    forall id <- ids :: id in catalog && !Blank(catalog[id].name)
  }

  ghost predicate Answers(server: Server) {
    forall k, last, since :: server(k, last, since).Some?
  }

  lemma PageParsesIff(catalog: Catalog, last: U32, since: U32, body: ResponseBody)
    requires Honest(catalog, last, since, body)
    ensures Parsed(body).Some? <==> forall a <- body.apps :: !Blank(catalog[a.appid].name)
  {
    MaxAppidIsLast(body.apps);
    if body.haveMore {
      assert body.apps[|body.apps| - 1] in body.apps;
    }
    assert forall a <- body.apps :: a.appid in Due(catalog, since, last);
  }

  lemma PageShrinksDue(catalog: Catalog, last: U32, since: U32, body: ResponseBody)
    requires Honest(catalog, last, since, body) && Parsed(body).Some?
    ensures body.haveMore ==> Due(catalog, since, LastListed(body)) < Due(catalog, since, last)
    ensures AllNamed(catalog, Due(catalog, since, last)) ==
              (!body.haveMore || AllNamed(catalog, Due(catalog, since, LastListed(body))))
  {
    PageParsesIff(catalog, last, since, body);
    var due, rest := Due(catalog, since, last), Due(catalog, since, LastListed(body));
    if body.haveMore {
      var final := body.apps[|body.apps| - 1];
      assert final in body.apps && final.appid in due && final.appid !in rest;
    }
    forall id <- due | !body.haveMore || id !in rest ensures !Blank(catalog[id].name) {
      assert Listed(body, id);
    }
  }

  lemma SmallerSet(a: set<U32>, b: set<U32>)
    requires a < b
    ensures |a| < |b|
  {
    var x :| x in b && x !in a;
    Sets.SubsetSize(a, b - {x});
  }

  lemma PageAdvances(catalog: Catalog, c: Cursor, body: ResponseBody)
    requires Honest(catalog, c.lastAppid, c.ifModifiedSince, body) && Parsed(body).Some?
    ensures var next := Applied(c, Parsed(body).value);
            && next.InProgress() == body.haveMore
            && (!body.haveMore ==> AllNamed(catalog, Left(catalog, c)))
            && (body.haveMore ==>
                  && |Left(catalog, next)| < |Left(catalog, c)|
                  && AllNamed(catalog, Left(catalog, next)) == AllNamed(catalog, Left(catalog, c)))
  {
    PageNumbers(catalog, c.lastAppid, c.ifModifiedSince, body);
    PageShrinksDue(catalog, c.lastAppid, c.ifModifiedSince, body);
    if body.haveMore {
      SmallerSet(Due(catalog, c.ifModifiedSince, LastListed(body)), Left(catalog, c));
    }
  }

  lemma RefusedPageIsNameless(catalog: Catalog, c: Cursor, body: ResponseBody)
    requires Honest(catalog, c.lastAppid, c.ifModifiedSince, body) && Parsed(body).None?
    ensures !AllNamed(catalog, Left(catalog, c))
  {
    PageParsesIff(catalog, c.lastAppid, c.ifModifiedSince, body);
    var a :| a in body.apps && Blank(catalog[a.appid].name);
    assert a.appid in Left(catalog, c);
  }

  /** The cursor that the next call of this version resumes. */
  ghost predicate Resumes(store: Store, c: Cursor, version: string) {
    Opening(store.saved, version) == c && c.adapterVersion == version
  }

  /** The pages saved from one page on, given how many after it would be. */
  function SavedThen(fault: Fault, more: bool, later: nat): nat {
    match fault
    case IngestFails => 0
    case SaveFails => 0
    case CrashAfterSave => 1
    case Fine => 1 + if more then later else 0
  }

  /** How many pages of a call had their cursor saved, whatever broke off afterwards. */
  function SavedPages(server: Server, faults: nat -> Fault, c: Cursor, k: nat, maxPages: nat): nat
    decreases maxPages - k
  {
    if k >= maxPages then 0
    else
      var body := server(k, c.lastAppid, c.ifModifiedSince);
      if body.None? || Parsed(body.value).None? then 0
      else
        var next := Applied(c, Parsed(body.value).value);
        SavedThen(faults(k), next.InProgress(), SavedPages(server, faults, next, k + 1, maxPages))
  }

  /**
    What a call with `saved` saved pages makes of a cursor: it completes the pass, which takes
    names for all, or it leaves a cursor to resume with at least that many entries fewer; and an
    entry without a name stays due.
   */
  ghost predicate Advances(catalog: Catalog, c: Cursor, saved: nat, version: string, out: Outcome) {
    var next := Opening(out.store.saved, version);
    if out.completed then AllNamed(catalog, Left(catalog, c))
    else
      && |Left(catalog, next)| + saved <= |Left(catalog, c)|
      && AllNamed(catalog, Left(catalog, next)) == AllNamed(catalog, Left(catalog, c))
  }

  /** What a cursor, a number of saved pages and an outcome have to do with each other. */
  type Goal = (Cursor, nat, Outcome) -> bool

  /** What one page, saved or not, must do to carry `goal` back over it. */
  ghost predicate ProgressRule(server: Server, faults: nat -> Fault, version: string, goal: Goal,
                               store: Store, c: Cursor, k: nat, saved: nat, later: Outcome) {
    Resumes(store, c, version) ==>
      var body := server(k, c.lastAppid, c.ifModifiedSince);
      && goal(c, 0, Outcome(store, OutOfPages, false))
      && goal(c, 0, Outcome(store, Stopped, false))
      && (body.Some? && Parsed(body.value).Some? ==>
            var page := Parsed(body.value).value;
            var next := Applied(c, page);
            && (next.InProgress() ==> Resumes(Store(Some(next), Ingested(store.apps, page.proposals)), next, version))
            && ((next.InProgress() ==> goal(next, saved, later)) ==>
                  goal(c, SavedThen(faults(k), next.InProgress(), saved), PageThen(faults, store, c, k, page, later))))
  }

  lemma {:induction false} ProgressInduction(server: Server, faults: nat -> Fault, version: string, goal: Goal,
                                             store: Store, c: Cursor, k: nat, maxPages: nat)
    requires forall store, c, k, saved, later ::
               ProgressRule(server, faults, version, goal, store, c, k, saved, later)
    requires Resumes(store, c, version)
    ensures goal(c, SavedPages(server, faults, c, k, maxPages), CollectPages(server, faults, store, c, k, maxPages))
    decreases maxPages - k
  {
    var body := server(k, c.lastAppid, c.ifModifiedSince);
    if k < maxPages && body.Some? && Parsed(body.value).Some? {
      var page := Parsed(body.value).value;
      var next := Applied(c, page);
      var resumed := Store(Some(next), Ingested(store.apps, page.proposals));
      var saved, later := SavedPages(server, faults, next, k + 1, maxPages),
                          CollectPages(server, faults, resumed, next, k + 1, maxPages);
      assert ProgressRule(server, faults, version, goal, store, c, k, saved, later);
      PagesUnfold(server, faults, store, c, k, maxPages, page);
      if next.InProgress() {
        ProgressInduction(server, faults, version, goal, resumed, next, k + 1, maxPages);
      }
    } else {
      assert ProgressRule(server, faults, version, goal, store, c, k, 0, Outcome(store, Stopped, false));
    }
  }

  ghost function Progress(catalog: Catalog, version: string): Goal {
    (c, saved: nat, out) => Advances(catalog, c, saved, version, out)
  }

  lemma PageThenAdvances(catalog: Catalog, faults: nat -> Fault, store: Store, c: Cursor, k: nat, page: Page,
                         saved: nat, later: Outcome, version: string)
    requires var next := Applied(c, page);
             && Resumes(store, c, version)
             && (if next.InProgress() then
                   && |Left(catalog, next)| < |Left(catalog, c)|
                   && AllNamed(catalog, Left(catalog, next)) == AllNamed(catalog, Left(catalog, c))
                   && Advances(catalog, next, saved, version, later)
                 else AllNamed(catalog, Left(catalog, c)))
    ensures Advances(catalog, c, SavedThen(faults(k), Applied(c, page).InProgress(), saved), version,
                     PageThen(faults, store, c, k, page, later))
  {
  }

  lemma PageMakesProgress(catalog: Catalog, server: Server, faults: nat -> Fault, version: string, store: Store,
                          c: Cursor, k: nat, saved: nat, later: Outcome)
    requires HonestServer(catalog, server)
    ensures ProgressRule(server, faults, version, Progress(catalog, version), store, c, k, saved, later)
  {
    var body := server(k, c.lastAppid, c.ifModifiedSince);
    if Resumes(store, c, version) && body.Some? && Parsed(body.value).Some? {
      var page := Parsed(body.value).value;
      PageAdvances(catalog, c, body.value);
      if Applied(c, page).InProgress() ==> Advances(catalog, Applied(c, page), saved, version, later) {
        PageThenAdvances(catalog, faults, store, c, k, page, saved, later, version);
      }
    }
  }

  /** One call of a pass: the server it meets, where it breaks off, and its page budget. */
  datatype Sitting = Sitting(server: Server, faults: nat -> Fault, maxPages: nat)
  {
    function Run(store: Store, version: string): Outcome {
      Collect(server, faults, store, maxPages, version)
    }

    function Saved(store: Store, version: string): nat {
      SavedPages(server, faults, Opening(store.saved, version), 0, maxPages)
    }
  }

  /**
    Every saved page is progress: whatever breaks a call off, and wherever, it has completed the
    pass or the next call has at least as many entries fewer to deliver as pages were saved.
   */
  lemma CallAdvances(catalog: Catalog, store: Store, call: Sitting, version: string)
    requires HonestServer(catalog, call.server)
    ensures Advances(catalog, Opening(store.saved, version), call.Saved(store, version), version,
                     call.Run(store, version))
  {
    var goal := Progress(catalog, version);
    forall s, x, k: nat, saved: nat, later
      ensures ProgressRule(call.server, call.faults, version, goal, s, x, k, saved, later)
    {
      PageMakesProgress(catalog, call.server, call.faults, version, s, x, k, saved, later);
    }
    ProgressInduction(call.server, call.faults, version, goal, store, Opening(store.saved, version), 0, call.maxPages);
  }

  // ----- A crash costs at most one page -----

  /** How many pages of a call were fetched and could be read. */
  function FetchedPages(server: Server, faults: nat -> Fault, c: Cursor, k: nat, maxPages: nat): nat
    decreases maxPages - k
  {
    if k >= maxPages then 0
    else
      var body := server(k, c.lastAppid, c.ifModifiedSince);
      if body.None? || Parsed(body.value).None? then 0
      else
        var next := Applied(c, Parsed(body.value).value);
        1 + if faults(k) == Fine && next.InProgress() then FetchedPages(server, faults, next, k + 1, maxPages) else 0
  }

  /** The cursor past the next `n` pages of a server. */
  function Past(server: Server, c: Cursor, k: nat, n: nat): Cursor
    decreases n
  {
    if n == 0 then c
    else
      var body := server(k, c.lastAppid, c.ifModifiedSince);
      if body.None? || Parsed(body.value).None? then c
      else Past(server, Applied(c, Parsed(body.value).value), k + 1, n - 1)
  }

  /**
    A crash costs at most one page: a call fetches at most one page that it does not save, only
    if it breaks off, and the next call resumes exactly past the saved ones.
   */
  lemma {:induction false} BreakingOffCostsOnePage(server: Server, faults: nat -> Fault, store: Store, c: Cursor,
                                                   k: nat, maxPages: nat, version: string)
    requires Resumes(store, c, version)
    ensures var out := CollectPages(server, faults, store, c, k, maxPages);
            var saved := SavedPages(server, faults, c, k, maxPages);
            var fetched := FetchedPages(server, faults, c, k, maxPages);
            && saved <= fetched <= saved + 1
            && (fetched > saved ==> out.ending == Stopped && !out.completed)
            && (!out.completed ==> Opening(out.store.saved, version) == Past(server, c, k, saved))
    decreases maxPages - k
  {
    var body := server(k, c.lastAppid, c.ifModifiedSince);
    if k < maxPages && body.Some? && Parsed(body.value).Some? {
      var page := Parsed(body.value).value;
      var next := Applied(c, page);
      PagesUnfold(server, faults, store, c, k, maxPages, page);
      if next.InProgress() {
        BreakingOffCostsOnePage(server, faults, Store(Some(next), Ingested(store.apps, page.proposals)), next, k + 1,
                                maxPages, version);
      }
    }
  }

  // ----- Termination over many calls -----

  /** Whether one of these calls, each resuming the cursor that was saved last, completes a pass. */
  predicate SomeCallCompletes(store: Store, calls: seq<Sitting>, version: string)
    decreases |calls|
  {
    calls != [] &&
    var out := calls[0].Run(store, version);
    out.completed || SomeCallCompletes(out.store, calls[1..], version)
  }

  /** The pages that these calls save together. */
  function SavedByAll(store: Store, calls: seq<Sitting>, version: string): nat
    decreases |calls|
  {
    if calls == [] then 0
    else calls[0].Saved(store, version) + SavedByAll(calls[0].Run(store, version).store, calls[1..], version)
  }

  /**
    A pass terminates, wherever its calls break off: of calls of one version, one completes the
    pass as soon as they have saved more pages than entries were due. And a pass that completes
    had a name for every due entry.
   */
  lemma {:induction false} SavedPagesEndThePass(catalog: Catalog, store: Store, calls: seq<Sitting>, version: string)
    requires forall call <- calls :: HonestServer(catalog, call.server)
    ensures var left := Left(catalog, Opening(store.saved, version));
            && (SavedByAll(store, calls, version) > |left| ==> SomeCallCompletes(store, calls, version))
            && (SomeCallCompletes(store, calls, version) ==> AllNamed(catalog, left))
    decreases |calls|
  {
    if calls != [] {
      CallAdvances(catalog, store, calls[0], version);
      SavedPagesEndThePass(catalog, calls[0].Run(store, version).store, calls[1..], version);
    }
  }

  /** Nothing goes wrong in an undisturbed call. */
  ghost predicate Undisturbed(call: Sitting) {
    Answers(call.server) && forall k :: call.faults(k) == Fine
  }

  lemma {:induction false} UndisturbedPages(catalog: Catalog, call: Sitting, store: Store, c: Cursor, k: nat)
    requires HonestServer(catalog, call.server) && Undisturbed(call) && k <= call.maxPages
    ensures var out := CollectPages(call.server, call.faults, store, c, k, call.maxPages);
            && out.completed == (out.ending == Finished)
            && (out.ending == Stopped ==> !AllNamed(catalog, Left(catalog, c)))
            && (out.ending == OutOfPages ==>
                  SavedPages(call.server, call.faults, c, k, call.maxPages) == call.maxPages - k)
    decreases call.maxPages - k
  {
    if k < call.maxPages {
      var body := call.server(k, c.lastAppid, c.ifModifiedSince).value;
      if Parsed(body).None? {
        RefusedPageIsNameless(catalog, c, body);
      } else {
        var page := Parsed(body).value;
        PageAdvances(catalog, c, body);
        PagesUnfold(call.server, call.faults, store, c, k, call.maxPages, page);
        UndisturbedPages(catalog, call, Store(Some(Applied(c, page)), Ingested(store.apps, page.proposals)),
                         Applied(c, page), k + 1);
      }
    }
  }

  /** The page budgets of the undisturbed calls among these. */
  ghost function UndisturbedBudget(calls: seq<Sitting>): nat {
    if calls == [] then 0
    else (if Undisturbed(calls[0]) then calls[0].maxPages else 0) + UndisturbedBudget(calls[1..])
  }

  /**
    However small the page budgets of the calls, and however many other calls break off among
    them: once the budgets of the undisturbed ones together exceed the number of due entries, one
    call completes the pass, exactly when every due entry has a name. One nameless entry stops
    every call that meets it, because a structure error refuses the page as a whole.
   */
  lemma {:induction false} CallsFinishIff(catalog: Catalog, store: Store, calls: seq<Sitting>, version: string)
    requires forall call <- calls :: HonestServer(catalog, call.server)
    requires |Left(catalog, Opening(store.saved, version))| < UndisturbedBudget(calls)
    ensures SomeCallCompletes(store, calls, version)
         == AllNamed(catalog, Left(catalog, Opening(store.saved, version)))
    decreases |calls|
  {
    SavedPagesEndThePass(catalog, store, calls, version);
    var out := calls[0].Run(store, version);
    CallAdvances(catalog, store, calls[0], version);
    if Undisturbed(calls[0]) {
      UndisturbedPages(catalog, calls[0], store, Opening(store.saved, version), 0);
    }
    if !out.completed && AllNamed(catalog, Left(catalog, Opening(store.saved, version))) {
      CallsFinishIff(catalog, out.store, calls[1..], version);
    }
  }

  /** In particular a single undisturbed call with more pages than due entries finishes the pass exactly then. */
  lemma UndisturbedCallFinishesIff(catalog: Catalog, store: Store, call: Sitting, version: string)
    requires HonestServer(catalog, call.server) && Undisturbed(call)
    requires |Left(catalog, Opening(store.saved, version))| < call.maxPages
    ensures (call.Run(store, version).ending == Finished)
         == AllNamed(catalog, Left(catalog, Opening(store.saved, version)))
  {
    UndisturbedPages(catalog, call, store, Opening(store.saved, version), 0);
    CallsFinishIff(catalog, store, [call], version);
  }
}
