/** The work the request handler's background task and the queue consumer share
    once an ambassador's referred order ids are known: fetch the orders, rank
    the products, insert one `top_models` row per ranked product and mark the
    status `completed`; on an error, mark it `failed` with the error's message. */
module TopModelsJob {
  import opened Common
  import opened Shopify
  import opened Ranking
  import opened Aggregation
  import opened Store

  /** What a run of statements gives back, and the state after it. */
  datatype Step = Step(out: Outcome<()>, after: Tables)

  /** The `top_models` rows for a ranking, in rank order; the `.bind` arguments
      of each INSERT. */
  function RowsOf(uuid: string, models: seq<TopModel>): seq<TopModelRow> {
    seq(|models|, i requires 0 <= i < |models| =>
      TopModelRow(uuid, models[i].rank, models[i].name, models[i].image, models[i].count))
  }

  /** The INSERTs, one per row, stopping at the first that throws. */
  function InsertRows(t: Tables, outage: map<nat, string>, rows: seq<TopModelRow>): Step
    decreases |rows|
  {
    if rows == [] then Step(Done(()), t)
    else if t.issued in outage then Step(Threw(outage[t.issued]), Tick(t))
    else InsertRows(Tick(t).(topModels := t.topModels + [rows[0]]), outage, rows[1..])
  }

  /** One `UPDATE processing_status SET status = ?`. */
  function SetStatusStep(t: Tables, outage: map<nat, string>, uuid: string, s: Status): Step {
    if t.issued in outage then Step(Threw(outage[t.issued]), Tick(t))
    else Step(Done(()), Tick(t).(status := Update(t.status, uuid, s)))
  }

  /** Saving a ranking: its rows, then the `completed` update. */
  function Save(t: Tables, outage: map<nat, string>, uuid: string, models: seq<TopModel>): Step {
    var inserted := InsertRows(t, outage, RowsOf(uuid, models));
    if inserted.out.Threw? then inserted else SetStatusStep(inserted.after, outage, uuid, Completed)
  }

  /** The ranking a run computes from the referred order ids. */
  function RankingOf(orderIds: seq<string>, fetch: string -> ShopifyResponse): seq<TopModel> {
    TopModelsOf(FetchedUnits(orderIds[..Min(MaxOrders, |orderIds|)], fetch))
  }

  /** A whole run up to the catch: rank, then save. */
  function Process(t: Tables, outage: map<nat, string>, uuid: string, orderIds: seq<string>,
                   fetch: string -> ShopifyResponse): Step
  {
    Save(t, outage, uuid, RankingOf(orderIds, fetch))
  }

  /** The catch: the `failed` update, whose own error is dropped. */
  function MarkFailed(t: Tables, outage: map<nat, string>, uuid: string, message: string): Tables {
    SetStatusStep(t, outage, uuid, Failed(message)).after
  }

  // ---------------------------------------------------------------------------
  // Imperative versions, against the live database

  /** The `for (const model of topModels)` INSERT loop and the `completed` update. */
  method SaveTopModels(db: Database, uuid: string, models: seq<TopModel>) returns (r: Outcome<()>)
    modifies db`topModels, db`status, db`issued
    ensures Step(r, db.Snapshot()) == Save(old(db.Snapshot()), db.outage, uuid, models)
  {
    var rows := RowsOf(uuid, models);
    ghost var start := db.Snapshot();
    for k := 0 to |rows|
      invariant InsertRows(start, db.outage, rows) == InsertRows(db.Snapshot(), db.outage, rows[k..])
    {
      assert rows[k..][1..] == rows[k + 1..];
      r := db.InsertTopModel(rows[k]);
      if r.Threw? {
        return;
      }
    }
    r := db.SetStatus(uuid, Completed);
  }

  /** The catch's `failed` update; an error it throws is swallowed. */
  method MarkFailedIn(db: Database, uuid: string, message: string)
    modifies db`status, db`issued
    ensures db.Snapshot() == MarkFailed(old(db.Snapshot()), db.outage, uuid, message)
  {
    var _ := db.SetStatus(uuid, Failed(message));
  }

  /** Fetch the orders, rank the products, save the ranking. */
  method ProcessIn(db: Database, uuid: string, orderIds: seq<string>, fetch: string -> ShopifyResponse)
    returns (r: Outcome<()>)
    requires PlainCatalogue(fetch)
    modifies db`topModels, db`status, db`issued
    ensures Step(r, db.Snapshot()) == Process(old(db.Snapshot()), db.outage, uuid, orderIds, fetch)
  {
    var allProducts, _, _ := FetchOrders(orderIds, fetch);
    FetchedUnitsPlain(orderIds[..Min(MaxOrders, |orderIds|)], fetch);
    var topModels := CalculateTopModels(allProducts);
    r := SaveTopModels(db, uuid, topModels);
  }

  // ---------------------------------------------------------------------------
  // Properties

  /** No statement numbered `from` up to (not including) `to` throws. */
  predicate Quiet(outage: map<nat, string>, from: nat, to: nat) {
    forall n :: from <= n < to ==> n !in outage
  }

  /** The INSERTs leave the other tables alone and append a prefix of the rows:
      all of them when none throws, else those before the first that throws,
      whose error is what comes back. */
  lemma {:induction false} InsertRowsSpec(t: Tables, outage: map<nat, string>, rows: seq<TopModelRow>)
    ensures var s := InsertRows(t, outage, rows);
      && s.after.ambassadors == t.ambassadors && s.after.referrals == t.referrals && s.after.status == t.status
      && (s.out.Done? <==> Quiet(outage, t.issued, t.issued + |rows|))
      && (s.out.Done? ==> s.after.topModels == t.topModels + rows && s.after.issued == t.issued + |rows|)
      && (s.out.Threw? ==> exists k :: && 0 <= k < |rows| && Quiet(outage, t.issued, t.issued + k)
                                       && t.issued + k in outage
                                       && s.out == Threw(outage[t.issued + k])
                                       && s.after.topModels == t.topModels + rows[..k]
                                       && s.after.issued == t.issued + k + 1)
  {
    InsertRowsFrame(t, outage, rows);
    InsertRowsDone(t, outage, rows);
    InsertRowsThrew(t, outage, rows);
  }

  lemma {:induction false} InsertRowsFrame(t: Tables, outage: map<nat, string>, rows: seq<TopModelRow>)
    ensures var s := InsertRows(t, outage, rows);
      s.after.ambassadors == t.ambassadors && s.after.referrals == t.referrals && s.after.status == t.status
    decreases |rows|
  {
    if rows != [] && t.issued !in outage {
      InsertRowsFrame(Tick(t).(topModels := t.topModels + [rows[0]]), outage, rows[1..]);
    }
  }

  lemma {:induction false} InsertRowsDone(t: Tables, outage: map<nat, string>, rows: seq<TopModelRow>)
    ensures var s := InsertRows(t, outage, rows);
      && (s.out.Done? <==> Quiet(outage, t.issued, t.issued + |rows|))
      && (s.out.Done? ==> s.after.topModels == t.topModels + rows && s.after.issued == t.issued + |rows|)
    decreases |rows|
  {
    var s := InsertRows(t, outage, rows);
    if rows == [] {
      assert s.after.topModels == t.topModels + rows;
    } else if t.issued in outage {
      assert !Quiet(outage, t.issued, t.issued + |rows|);
    } else {
      var t' := Tick(t).(topModels := t.topModels + [rows[0]]);
      InsertRowsDone(t', outage, rows[1..]);
      assert Quiet(outage, t.issued, t.issued + |rows|) <==> Quiet(outage, t'.issued, t'.issued + |rows[1..]|);
      if s.out.Done? {
        assert t.topModels + [rows[0]] + rows[1..] == t.topModels + rows;
      }
    }
  }

  lemma {:induction false} InsertRowsThrew(t: Tables, outage: map<nat, string>, rows: seq<TopModelRow>)
    ensures var s := InsertRows(t, outage, rows);
      s.out.Threw? ==> exists k :: && 0 <= k < |rows| && Quiet(outage, t.issued, t.issued + k)
                                   && t.issued + k in outage
                                   && s.out == Threw(outage[t.issued + k])
                                   && s.after.topModels == t.topModels + rows[..k]
                                   && s.after.issued == t.issued + k + 1
    decreases |rows|
  {
    var s := InsertRows(t, outage, rows);
    if rows != [] && t.issued in outage {
      assert s.after.topModels == t.topModels + rows[..0];
      assert Quiet(outage, t.issued, t.issued + 0);
    } else if rows != [] {
      var t' := Tick(t).(topModels := t.topModels + [rows[0]]);
      InsertRowsThrew(t', outage, rows[1..]);
      if s.out.Threw? {
        var k :| && 0 <= k < |rows[1..]| && Quiet(outage, t'.issued, t'.issued + k)
                 && t'.issued + k in outage
                 && s.out == Threw(outage[t'.issued + k])
                 && s.after.topModels == t'.topModels + rows[1..][..k]
                 && s.after.issued == t'.issued + k + 1;
        assert t.topModels + [rows[0]] + rows[1..][..k] == t.topModels + rows[..k + 1];
        assert Quiet(outage, t.issued, t.issued + (k + 1));
      }
    }
  }

  /** Saving issues at least one statement and keeps the set of status rows.
      It succeeds only when none of its statements throws; when it fails, the
      error is that of its last statement, the first one that threw. */
  lemma SaveOutcome(t: Tables, outage: map<nat, string>, uuid: string, models: seq<TopModel>)
    ensures var s := Save(t, outage, uuid, models);
      && s.after.issued > t.issued
      && s.after.status.Keys == t.status.Keys
      && (s.out.Done? ==> Quiet(outage, t.issued, s.after.issued))
      && (s.out.Threw? ==> && Quiet(outage, t.issued, s.after.issued - 1)
                           && s.after.issued - 1 in outage
                           && s.out.message == outage[s.after.issued - 1])
  {
    var rows := RowsOf(uuid, models);
    InsertRowsSpec(t, outage, rows);
    var ins := InsertRows(t, outage, rows);
    if ins.out.Threw? {
      var k :| && 0 <= k < |rows| && Quiet(outage, t.issued, t.issued + k)
               && t.issued + k in outage
               && ins.out == Threw(outage[t.issued + k])
               && ins.after.issued == t.issued + k + 1;
    }
  }

  /** With no statement throwing, a run appends every ranked row (earlier rows
      stay) and sets an existing status row to `completed`. */
  lemma SaveWithoutOutage(t: Tables, outage: map<nat, string>, uuid: string, models: seq<TopModel>)
    requires Quiet(outage, t.issued, t.issued + |models| + 1)
    ensures Save(t, outage, uuid, models).out == Done(())
    ensures Save(t, outage, uuid, models).after.topModels == t.topModels + RowsOf(uuid, models)
    ensures Save(t, outage, uuid, models).after.status == Update(t.status, uuid, Completed)
  {
    InsertRowsSpec(t, outage, RowsOf(uuid, models));
    assert Quiet(outage, t.issued, t.issued + |models|);
    assert t.issued + |models| !in outage;
  }

  /** A run never creates or deletes a status row, whether it succeeds or fails. */
  lemma RunKeepsStatusRows(t: Tables, outage: map<nat, string>, uuid: string, orderIds: seq<string>,
                           fetch: string -> ShopifyResponse)
    ensures Process(t, outage, uuid, orderIds, fetch).after.status.Keys == t.status.Keys
    ensures var p := Process(t, outage, uuid, orderIds, fetch);
            p.out.Threw? ==> MarkFailed(p.after, outage, uuid, p.out.message).status.Keys == t.status.Keys
  {
    InsertRowsSpec(t, outage, RowsOf(uuid, RankingOf(orderIds, fetch)));
  }

  /** When a statement of the save throws and the `failed` update that follows
      does not, the status row ends `failed` with that statement's message and
      the rows inserted before it stay. */
  lemma FailureRecorded(t: Tables, outage: map<nat, string>, uuid: string, models: seq<TopModel>)
    requires uuid in t.status
    requires Save(t, outage, uuid, models).out.Threw?
    requires Save(t, outage, uuid, models).after.issued !in outage
    ensures var s := Save(t, outage, uuid, models);
      && uuid in MarkFailed(s.after, outage, uuid, s.out.message).status
      && MarkFailed(s.after, outage, uuid, s.out.message).status[uuid] == Failed(s.out.message)
      && s.out.message in outage.Values
      && |t.topModels| <= |s.after.topModels| && s.after.topModels[..|t.topModels|] == t.topModels
  {
    InsertRowsSpec(t, outage, RowsOf(uuid, models));
  }

  /** The rows inserted are ranked 1..k in order, for the ambassador's uuid. */
  lemma RowsOfSpec(uuid: string, orderIds: seq<string>, fetch: string -> ShopifyResponse)
    ensures var rows := RowsOf(uuid, RankingOf(orderIds, fetch));
      && |rows| <= 3
      && forall i :: 0 <= i < |rows| ==> rows[i].ambassadorUuid == uuid && rows[i].rank == i + 1 && rows[i].count > 0
  {
    TopModelsRanked(FetchedUnits(orderIds[..Min(MaxOrders, |orderIds|)], fetch));
  }
}
