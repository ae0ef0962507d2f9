/**
  The resumable catalog sync: pages of the upstream application list are ingested one by
  one, and a durable cursor is saved after each, so that a crash costs at most one page.
 */
module CatalogSync {
  import opened Outcomes
  import opened MachineInts
  import Text

  // ----- The cursor -----

  datatype Cursor = Cursor(
    lastAppid: U32,
    ifModifiedSince: U32,
    highWater: U32,
    haveMore: bool,
    adapterVersion: string)
  {
    predicate InProgress() {
      haveMore || lastAppid > 0
    }
  }

  function FreshPass(since: U32, version: string): Cursor {
    Cursor(0, since, since, true, version)
  }

  function Advanced(c: Cursor, lastAppid: U32, maxModified: U32, haveMore: bool): Cursor {
    c.(lastAppid := lastAppid, haveMore := haveMore, highWater := Max(c.highWater, maxModified))
  }

  function Completed(c: Cursor): Cursor {
    c.(lastAppid := 0, haveMore := false, ifModifiedSince := c.highWater)
  }

  class AppListCursor {
    var lastAppid: U32
    var ifModifiedSince: U32
    var highWater: U32
    var haveMore: bool
    var adapterVersion: string

    function View(): Cursor
      reads this
    {
      Cursor(lastAppid, ifModifiedSince, highWater, haveMore, adapterVersion)
    }

    constructor NewPass(since: U32, version: string)
      ensures View() == FreshPass(since, version)
    {
      lastAppid, ifModifiedSince, highWater, haveMore, adapterVersion := 0, since, since, true, version;
    }

    constructor Load(c: Cursor)
      ensures View() == c
    {
      lastAppid, ifModifiedSince, highWater := c.lastAppid, c.ifModifiedSince, c.highWater;
      haveMore, adapterVersion := c.haveMore, c.adapterVersion;
    }

    method AdvancePage(pageLastAppid: U32, pageMaxModified: U32, more: bool)
      modifies this
      ensures View() == Advanced(old(View()), pageLastAppid, pageMaxModified, more)
    {
      lastAppid := pageLastAppid;
      haveMore := more;
      highWater := Max(highWater, pageMaxModified);
    }

    method CompletePass()
      modifies this
      ensures View() == Completed(old(View()))
    {
      lastAppid := 0;
      haveMore := false;
      ifModifiedSince := highWater;
    }

    method ApplyPage(page: Page)
      modifies this
      ensures View() == Applied(old(View()), page)
    {
      AdvancePage(page.lastAppid, page.maxModified, page.haveMore);
      if !page.haveMore {
        CompletePass();
      }
    }
  }

  // ----- Pages -----

  datatype AppDto = AppDto(appid: U32, name: Option<string>, lastModified: Option<U32>)
  datatype ResponseBody = ResponseBody(apps: seq<AppDto>, haveMore: bool, lastAppid: Option<U32>)
  datatype Proposal = Proposal(appId: U32, name: string, lastModified: Option<U32>)
  datatype Page = Page(proposals: seq<Proposal>, haveMore: bool, lastAppid: U32, maxModified: U32)

  predicate Blank(name: Option<string>) {
    name.None? || Text.Trim(name.value) == ""
  }

  predicate Usable(app: AppDto) {
    app.appid != 0 && !Blank(app.name)
  }

  function ProposalOf(app: AppDto): Proposal {
    Proposal(app.appid, app.name.GetOr(""), app.lastModified)
  }

  function Proposals(apps: seq<AppDto>): seq<Proposal> {
    seq(|apps|, i requires 0 <= i < |apps| => ProposalOf(apps[i]))
  }

  function MaxModified(apps: seq<AppDto>): U32 {
    if apps == [] then 0
    else Max(MaxModified(apps[..|apps| - 1]), apps[|apps| - 1].lastModified.GetOr(0))
  }

  function MaxAppid(apps: seq<AppDto>): U32 {
    if apps == [] then 0 else Max(MaxAppid(apps[..|apps| - 1]), apps[|apps| - 1].appid)
  }

  /** A structure error anywhere refuses the whole page. */
  function Parsed(body: ResponseBody): Option<Page> {
    if body.apps == [] && body.haveMore then None
    else if exists a <- body.apps :: !Usable(a) then None
    else
      var last := body.lastAppid.GetOr(MaxAppid(body.apps));
      if body.haveMore && last == 0 then None
      else Some(Page(Proposals(body.apps), body.haveMore, last, MaxModified(body.apps)))
  }

  method ParseAppListPage(body: ResponseBody) returns (r: Option<Page>)
    ensures r == Parsed(body)
  {
    if body.apps == [] && body.haveMore {
      return None;
    }
    var proposals: seq<Proposal> := [];
    var maxModified: U32, maxAppid: U32 := 0, 0;
    for i := 0 to |body.apps|
      invariant forall a <- body.apps[..i] :: Usable(a)
      invariant proposals == Proposals(body.apps[..i])
      invariant maxModified == MaxModified(body.apps[..i]) && maxAppid == MaxAppid(body.apps[..i])
    {
      var app := body.apps[i];
      assert body.apps[..i + 1][..i] == body.apps[..i];
      if app.appid == 0 {
        assert app in body.apps;
        return None;
      }
      maxAppid := Max(maxAppid, app.appid);
      if app.lastModified.Some? {
        maxModified := Max(maxModified, app.lastModified.value);
      }
      if Blank(app.name) {
        assert app in body.apps;
        return None;
      }
      proposals := proposals + [Proposal(app.appid, app.name.value, app.lastModified)];
    }
    assert body.apps[..|body.apps|] == body.apps;
    var last := body.lastAppid.GetOr(maxAppid);
    if body.haveMore && last == 0 {
      return None;
    }
    r := Some(Page(proposals, body.haveMore, last, maxModified));
  }

  function Applied(c: Cursor, page: Page): Cursor {
    var next := Advanced(c, page.lastAppid, page.maxModified, page.haveMore);
    if page.haveMore then next else Completed(next)
  }

  // ----- The durable store and the collector -----

  type Apps = map<U32, Proposal>

  datatype Store = Store(saved: Option<Cursor>, apps: Apps)

  function Ingested(apps: Apps, proposals: seq<Proposal>): Apps {
    if proposals == [] then apps
    else
      var last := proposals[|proposals| - 1];
      Ingested(apps, proposals[..|proposals| - 1])[last.appId := last]
  }

  class Repository {
    var saved: Option<Cursor>
    var apps: Apps

    function View(): Store
      reads this
    {
      Store(saved, apps)
    }

    constructor ()
      ensures View() == Store(None, map[])
    {
      saved, apps := None, map[];
    }

    method IngestPage(page: Page)
      modifies this
      ensures View() == old(View()).(apps := Ingested(old(apps), page.proposals))
    {
      for i := 0 to |page.proposals|
        invariant saved == old(saved)
        invariant apps == Ingested(old(apps), page.proposals[..i])
      {
        assert page.proposals[..i + 1][..i] == page.proposals[..i];
        apps := apps[page.proposals[i].appId := page.proposals[i]];
      }
      assert page.proposals[..|page.proposals|] == page.proposals;
    }

    method SaveCursor(c: Cursor)
      modifies this
      ensures View() == old(View()).(saved := Some(c))
    {
      saved := Some(c);
    }
  }

  /** What the k-th request of a call is answered, for last_appid and if_modified_since. */
  type Server = (nat, U32, U32) -> Option<ResponseBody>

  /** Where the k-th page of a call breaks off; an error and a crash leave the same store. */
  datatype Fault = Fine | IngestFails | SaveFails | CrashAfterSave

  datatype Ending = Finished | OutOfPages | Stopped

  datatype Outcome = Outcome(store: Store, ending: Ending, completed: bool)

  function Opening(saved: Option<Cursor>, version: string): Cursor {
    var c := saved.GetOr(FreshPass(0, version));
    if !c.InProgress() || c.adapterVersion != version then FreshPass(c.ifModifiedSince, version) else c
  }

  function CollectPages(server: Server, faults: nat -> Fault, store: Store, c: Cursor, k: nat, maxPages: nat): Outcome
    decreases maxPages - k
  {
    if k >= maxPages then Outcome(store, OutOfPages, false)
    else
      var body := server(k, c.lastAppid, c.ifModifiedSince);
      if body.None? || Parsed(body.value).None? then Outcome(store, Stopped, false)
      else
        var page := Parsed(body.value).value;
        if faults(k) == IngestFails then Outcome(store, Stopped, false)
        else
          var ingested := store.(apps := Ingested(store.apps, page.proposals));
          if faults(k) == SaveFails then Outcome(ingested, Stopped, false)
          else
            var next := Applied(c, page);
            var saved := ingested.(saved := Some(next));
            if faults(k) == CrashAfterSave then Outcome(saved, Stopped, !next.InProgress())
            else if !next.InProgress() then Outcome(saved, Finished, true)
            else CollectPages(server, faults, saved, next, k + 1, maxPages)
  }

  function Collect(server: Server, faults: nat -> Fault, store: Store, maxPages: nat, version: string): Outcome {
    CollectPages(server, faults, store, Opening(store.saved, version), 0, maxPages)
  }

  method CollectSteamCatalog(repo: Repository, server: Server, faults: nat -> Fault, maxPages: nat, version: string)
    returns (ending: Ending, completed: bool)
    modifies repo
    ensures Outcome(repo.View(), ending, completed) == Collect(server, faults, old(repo.View()), maxPages, version)
  {
    var cursor: AppListCursor;
    if repo.saved.Some? {
      cursor := new AppListCursor.Load(repo.saved.value);
    } else {
      cursor := new AppListCursor.NewPass(0, version);
    }
    if !cursor.View().InProgress() || cursor.adapterVersion != version {
      cursor := new AppListCursor.NewPass(cursor.ifModifiedSince, version);
    }
    ghost var start := repo.View();
    ghost var opening := cursor.View();
    assert opening == Opening(start.saved, version);
    completed := false;
    for k := 0 to maxPages
      invariant !completed
      invariant fresh(cursor)
      invariant CollectPages(server, faults, repo.View(), cursor.View(), k, maxPages)
             == CollectPages(server, faults, start, opening, 0, maxPages)
    {
      var body := server(k, cursor.lastAppid, cursor.ifModifiedSince);
      if body.None? {
        return Stopped, false;
      }
      var page := ParseAppListPage(body.value);
      if page.None? || faults(k) == IngestFails {
        return Stopped, false;
      }
      repo.IngestPage(page.value);
      if faults(k) == SaveFails {
        return Stopped, false;
      }
      cursor.ApplyPage(page.value);
      repo.SaveCursor(cursor.View());
      if faults(k) == CrashAfterSave {
        return Stopped, !cursor.View().InProgress();
      }
      if !cursor.View().InProgress() {
        return Finished, true;
      }
    }
    ending := OutOfPages;
  }
}
