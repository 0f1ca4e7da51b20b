/** The `POST /api/process-ambassador` handler: it checks the status row, marks
    the ambassador `processing`, looks the ambassador and their referred orders
    up, and either finishes at once (no referrals) or starts the background job
    that ranks their top products. */
module ProcessAmbassador {
  import opened Common
  import opened Shopify
  import opened Aggregation
  import opened Store
  import opened TopModelsJob

  /** The JSON body of a reply. */
  datatype Body =
    | ErrorBody(error: string)
      /** `{status}` for a job already processing or completed. */
    | StatusBody(status: string)
      /** `{status: 'completed', topModels: []}`. */
    | CompletedNone
      /** `{status: 'processing', message: 'Background job started'}`. */
    | Started

  datatype Reply = Reply(code: nat, body: Body)

  const BadRequest := Reply(400, ErrorBody("UUID required"))
  const NotFound := Reply(404, ErrorBody("Ambassador not found"))
  const ServerError := Reply(500, ErrorBody("Server error"))

  /** The background task handed to `context.waitUntil`: whose ranking to
      compute, and from which referred orders. */
  datatype Job = Job(uuid: string, orderIds: seq<string>)

  datatype Handled = Handled(reply: Reply, job: Option<Job>, after: Tables)

  /** What the handler does to the tables and what it replies, given the
      request's `uuid` (`None` when the body has none). Every statement that
      throws ends the request with a 500, keeping the writes made before it. */
  function HandlePost(t: Tables, outage: map<nat, string>, uuid: Option<string>): Handled {
    if !Truthy(uuid) then Handled(BadRequest, None, t)
    else
      var u := uuid.value;
      if t.issued in outage then Handled(ServerError, None, Tick(t))
      else
        var t1 := Tick(t);
        if u in t.status && (t.status[u] == Processing || t.status[u] == Completed) then
          Handled(Reply(200, StatusBody(StatusName(t.status[u]))), None, t1)
        else if t1.issued in outage then Handled(ServerError, None, Tick(t1))
        else
          var t2 := Tick(t1).(status := t1.status[u := Processing]);
          if t2.issued in outage then Handled(ServerError, None, Tick(t2))
          else
            var t3 := Tick(t2);
            if u !in t2.ambassadors then Handled(NotFound, None, t3)
            else if t3.issued in outage then Handled(ServerError, None, Tick(t3))
            else
              var t4 := Tick(t3);
              var orderIds := DistinctOrderIds(t3.referrals, Lower(t3.ambassadors[u]));
              if orderIds == [] then
                if t4.issued in outage then Handled(ServerError, None, Tick(t4))
                else Handled(Reply(200, CompletedNone), None, Tick(t4).(status := Update(t4.status, u, Completed)))
              else Handled(Reply(200, Started), Some(Job(u, orderIds)), t4)
  }

  /** The background task: rank and save; on an error, mark the row `failed`.
      An error of that last update is never observed. */
  function Background(t: Tables, outage: map<nat, string>, job: Job, fetch: string -> ShopifyResponse): Tables {
    var p := Process(t, outage, job.uuid, job.orderIds, fetch);
    if p.out.Threw? then MarkFailed(p.after, outage, job.uuid, p.out.message) else p.after
  }

  // ---------------------------------------------------------------------------

  /** onRequestPost, up to the point where it hands the job to `waitUntil`. */
  method OnRequestPost(db: Database, uuid: Option<string>) returns (reply: Reply, job: Option<Job>)
    modifies db`status, db`issued
    ensures Handled(reply, job, db.Snapshot()) == HandlePost(old(db.Snapshot()), db.outage, uuid)
  {
    job := None;
    if !Truthy(uuid) {
      return BadRequest, None;
    }
    var u := uuid.value;
    var status := db.SelectStatus(u);
    if status.Threw? {
      return ServerError, None;
    }
    if status.value == Some(Processing) || status.value == Some(Completed) {
      return Reply(200, StatusBody(StatusName(status.value.value))), None;
    }
    var marked := db.MarkProcessing(u);
    if marked.Threw? {
      return ServerError, None;
    }
    var ambassador := db.SelectEmail(u);
    if ambassador.Threw? {
      return ServerError, None;
    }
    if ambassador.value.None? {
      return NotFound, None;
    }
    var referrals := db.SelectOrderIds(Lower(ambassador.value.value));
    if referrals.Threw? {
      return ServerError, None;
    }
    if referrals.value == [] {
      var completed := db.SetStatus(u, Completed);
      if completed.Threw? {
        return ServerError, None;
      }
      return Reply(200, CompletedNone), None;
    }
    reply, job := Reply(200, Started), Some(Job(u, referrals.value));
  }

  /** The background job `waitUntil` runs after the reply has gone out. */
  method RunBackground(db: Database, job: Job, fetch: string -> ShopifyResponse)
    requires PlainCatalogue(fetch)
    modifies db`topModels, db`status, db`issued
    ensures db.Snapshot() == Background(old(db.Snapshot()), db.outage, job, fetch)
  {
    var r := ProcessIn(db, job.uuid, job.orderIds, fetch);
    if r.Threw? {
      MarkFailedIn(db, job.uuid, r.message);
    }
  }

  // ---------------------------------------------------------------------------
  // Properties

  /** A request without a uuid is refused with a 400 before the store is touched. */
  lemma MissingUuid(t: Tables, outage: map<nat, string>, uuid: Option<string>)
    requires !Truthy(uuid)
    ensures HandlePost(t, outage, uuid) == Handled(BadRequest, None, t)
  {
  }

  /** A job already processing or completed is reported as such, with no write
      and no new job. */
  lemma AlreadyStarted(t: Tables, outage: map<nat, string>, u: string)
    requires u != "" && u in t.status && (t.status[u] == Processing || t.status[u] == Completed)
    requires t.issued !in outage
    ensures var h := HandlePost(t, outage, Some(u));
      && h.reply == Reply(200, StatusBody(StatusName(t.status[u])))
      && h.job.None? && h.after == Tick(t)
  {
  }

  /** Every reply is one of the five the handler can give, and a job is started
      only with the `processing` reply. */
  lemma Replies(t: Tables, outage: map<nat, string>, uuid: Option<string>)
    ensures var h := HandlePost(t, outage, uuid);
      && h.reply in {BadRequest, NotFound, ServerError, Reply(200, CompletedNone), Reply(200, Started)} +
                    (if Truthy(uuid) && uuid.value in t.status then {Reply(200, StatusBody(StatusName(t.status[uuid.value])))} else {})
      && (h.job.Some? <==> h.reply == Reply(200, Started))
  {
  }

  /** An absent or `failed` status is set to `processing` before the ambassador
      is looked up: an unknown uuid gets a 404 and keeps a new `processing` row. */
  lemma ProcessingBeforeLookup(t: Tables, outage: map<nat, string>, u: string)
    requires u != "" && u !in t.ambassadors
    requires u !in t.status || t.status[u].Failed?
    requires Quiet(outage, t.issued, t.issued + 3)
    ensures var h := HandlePost(t, outage, Some(u));
      && h.reply == NotFound && h.job.None?
      && h.after.status == t.status[u := Processing]
  {
    assert t.issued !in outage && t.issued + 1 !in outage && t.issued + 2 !in outage;
  }

  /** A `failed` job is not short-circuited: the request starts it again (or
      finishes it at once when there are no referrals). */
  lemma FailedIsRetried(t: Tables, outage: map<nat, string>, u: string, message: string)
    requires u != "" && u in t.ambassadors && u in t.status && t.status[u] == Failed(message)
    requires Quiet(outage, t.issued, t.issued + 5)
    ensures var h := HandlePost(t, outage, Some(u));
      && h.reply in {Reply(200, Started), Reply(200, CompletedNone)}
      && (h.reply == Reply(200, Started) ==> h.after.status == t.status[u := Processing])
      && (h.reply == Reply(200, CompletedNone) ==> h.after.status == t.status[u := Completed])
  {
    assert t.issued !in outage && t.issued + 1 !in outage && t.issued + 2 !in outage;
    assert t.issued + 3 !in outage && t.issued + 4 !in outage;
  }

  /** With no referred orders the row becomes `completed`, the reply carries no
      top models, and no job is started. */
  lemma NoReferrals(t: Tables, outage: map<nat, string>, u: string)
    requires u != "" && u in t.ambassadors && (u !in t.status || t.status[u].Failed?)
    requires DistinctOrderIds(t.referrals, Lower(t.ambassadors[u])) == []
    requires Quiet(outage, t.issued, t.issued + 5)
    ensures var h := HandlePost(t, outage, Some(u));
      && h.reply == Reply(200, CompletedNone) && h.job.None?
      && h.after.status == t.status[u := Completed]
      && h.after.topModels == t.topModels
  {
    assert t.issued !in outage && t.issued + 1 !in outage && t.issued + 2 !in outage;
    assert t.issued + 3 !in outage && t.issued + 4 !in outage;
  }

  /** A started job is for the requested ambassador, over exactly their distinct
      referred order ids, and its row is `processing` when the reply goes out. */
  lemma JobStarted(t: Tables, outage: map<nat, string>, u: string)
    requires HandlePost(t, outage, Some(u)).job.Some?
    ensures var h := HandlePost(t, outage, Some(u));
      && u in t.ambassadors && h.job.value.uuid == u
      && h.job.value.orderIds == DistinctOrderIds(t.referrals, Lower(t.ambassadors[u])) != []
      && u in h.after.status && h.after.status[u] == Processing
  {
  }

  /** A background run leaves the row `completed` when no statement throws,
      with the ranked rows appended after the earlier ones. */
  lemma BackgroundCompletes(t: Tables, outage: map<nat, string>, job: Job, fetch: string -> ShopifyResponse)
    requires Quiet(outage, t.issued, t.issued + |RankingOf(job.orderIds, fetch)| + 1)
    ensures Background(t, outage, job, fetch).topModels == t.topModels + RowsOf(job.uuid, RankingOf(job.orderIds, fetch))
    ensures Background(t, outage, job, fetch).status == Update(t.status, job.uuid, Completed)
  {
    SaveWithoutOutage(t, outage, job.uuid, RankingOf(job.orderIds, fetch));
  }
}
