/** The queue consumer: for each message `{uuid}` of a batch it ranks that
    ambassador's top products, as the request handler's background task does,
    and then acknowledges the message, or asks for it to be retried after an
    error. It never reads the status row and only updates existing ones. */
module QueueConsumer {
  import opened Common
  import opened Shopify
  import opened Aggregation
  import opened Store
  import opened TopModelsJob

  /** What the consumer did with a message: `ack()` or `retry()`. */
  datatype Call = Ack | Retry

  /** A queued message: its body's `uuid` and the calls made on it. */
  class Message {
    const uuid: string
    var calls: seq<Call>

    constructor (uuid: string)
      ensures this.uuid == uuid && calls == []
    {
      this.uuid := uuid;
      calls := [];
    }

    method Acknowledge()
      modifies this
      ensures calls == old(calls) + [Ack]
    {
      calls := calls + [Ack];
    }

    method AskRetry()
      modifies this
      ensures calls == old(calls) + [Retry]
    {
      calls := calls + [Retry];
    }
  }

  datatype Consumed = Consumed(call: Call, after: Tables)

  /** The catch: try to mark the row `failed`, drop that update's own error,
      and ask for a retry. */
  function Recover(t: Tables, outage: map<nat, string>, uuid: string, message: string): Consumed {
    Consumed(Retry, MarkFailed(t, outage, uuid, message))
  }

  /** The end of the `try`: a statement that threw goes to the catch, one that
      went through acknowledges the message. */
  function Caught(s: Step, outage: map<nat, string>, uuid: string): Consumed {
    if s.out.Threw? then Recover(s.after, outage, uuid, s.out.message) else Consumed(Ack, s.after)
  }

  /** What handling one message does to the tables, and which call ends it. */
  function Consume(t: Tables, outage: map<nat, string>, uuid: string, fetch: string -> ShopifyResponse): Consumed {
    if t.issued in outage then Recover(Tick(t), outage, uuid, outage[t.issued])
    else
      var t1 := Tick(t);
      if uuid !in t.ambassadors then Consumed(Ack, t1)
      else if t1.issued in outage then Recover(Tick(t1), outage, uuid, outage[t1.issued])
      else
        var t2 := Tick(t1);
        var orderIds := DistinctOrderIds(t1.referrals, Lower(t1.ambassadors[uuid]));
        if orderIds == [] then
          Caught(SetStatusStep(t2, outage, uuid, Completed), outage, uuid)
        else
          Caught(Process(t2, outage, uuid, orderIds, fetch), outage, uuid)
  }

  /** The tables after a batch, its messages handled in order. */
  function ConsumeAll(t: Tables, outage: map<nat, string>, uuids: seq<string>, fetch: string -> ShopifyResponse): Tables {
    if uuids == [] then t
    else Consume(ConsumeAll(t, outage, uuids[..|uuids| - 1], fetch), outage, uuids[|uuids| - 1], fetch).after
  }

  function Uuids(messages: seq<Message>): seq<string> {
    seq(|messages|, i requires 0 <= i < |messages| => messages[i].uuid)
  }

  // ---------------------------------------------------------------------------

  /** One iteration of the loop over `batch.messages`. */
  method HandleMessage(db: Database, message: Message, fetch: string -> ShopifyResponse)
    requires PlainCatalogue(fetch)
    modifies db`topModels, db`status, db`issued, message
    ensures var c := Consume(old(db.Snapshot()), db.outage, message.uuid, fetch);
      db.Snapshot() == c.after && message.calls == old(message.calls) + [c.call]
  {
    var uuid := message.uuid;
    var ambassador := db.SelectEmail(uuid);
    if ambassador.Threw? {
      MarkFailedIn(db, uuid, ambassador.message);
      message.AskRetry();
      return;
    }
    if ambassador.value.None? {
      message.Acknowledge();
      return;
    }
    var referrals := db.SelectOrderIds(Lower(ambassador.value.value));
    if referrals.Threw? {
      MarkFailedIn(db, uuid, referrals.message);
      message.AskRetry();
      return;
    }
    if referrals.value == [] {
      var completed := db.SetStatus(uuid, Completed);
      if completed.Threw? {
        MarkFailedIn(db, uuid, completed.message);
        message.AskRetry();
        return;
      }
      message.Acknowledge();
      return;
    }
    var r := ProcessIn(db, uuid, referrals.value, fetch);
    if r.Threw? {
      MarkFailedIn(db, uuid, r.message);
      message.AskRetry();
      return;
    }
    message.Acknowledge();
  }

  /** `queue(batch, env)`: every message is handled, in batch order, whatever
      happened to the ones before it, and ends with exactly one call. */
  method Queue(db: Database, messages: seq<Message>, fetch: string -> ShopifyResponse)
    requires PlainCatalogue(fetch)
    requires forall i, j :: 0 <= i < j < |messages| ==> messages[i] != messages[j]
    modifies db`topModels, db`status, db`issued, messages
    ensures db.Snapshot() == ConsumeAll(old(db.Snapshot()), db.outage, Uuids(messages), fetch)
    ensures forall i :: 0 <= i < |messages| ==>
              |messages[i].calls| == |old(messages[i].calls)| + 1 &&
              messages[i].calls[..|old(messages[i].calls)|] == old(messages[i].calls)
  {
    for k := 0 to |messages|
      invariant db.Snapshot() == ConsumeAll(old(db.Snapshot()), db.outage, Uuids(messages[..k]), fetch)
      invariant forall i :: 0 <= i < k ==>
                  |messages[i].calls| == |old(messages[i].calls)| + 1 &&
                  messages[i].calls[..|old(messages[i].calls)|] == old(messages[i].calls)
      invariant forall i :: k <= i < |messages| ==> messages[i].calls == old(messages[i].calls)
    {
      ConsumeAllSnoc(old(db.Snapshot()), db.outage, messages, k, fetch);
      HandleMessage(db, messages[k], fetch);
    }
    assert messages[..|messages|] == messages;
  }

  lemma ConsumeAllSnoc(t: Tables, outage: map<nat, string>, messages: seq<Message>, k: nat,
                       fetch: string -> ShopifyResponse)
    requires k < |messages|
    ensures ConsumeAll(t, outage, Uuids(messages[..k + 1]), fetch) ==
            Consume(ConsumeAll(t, outage, Uuids(messages[..k]), fetch), outage, messages[k].uuid, fetch).after
  {
    assert Uuids(messages[..k + 1]) == Uuids(messages[..k]) + [messages[k].uuid];
  }

  // ---------------------------------------------------------------------------
  // Properties

  /** An unknown ambassador's message is acknowledged and nothing is written. */
  lemma UnknownAmbassadorAcked(t: Tables, outage: map<nat, string>, uuid: string, fetch: string -> ShopifyResponse)
    requires uuid !in t.ambassadors && t.issued !in outage
    ensures Consume(t, outage, uuid, fetch) == Consumed(Ack, Tick(t))
  {
  }

  /** With no referrals the row is set to `completed` and the message acknowledged. */
  lemma NoReferralsAcked(t: Tables, outage: map<nat, string>, uuid: string, fetch: string -> ShopifyResponse)
    requires uuid in t.ambassadors && DistinctOrderIds(t.referrals, Lower(t.ambassadors[uuid])) == []
    requires Quiet(outage, t.issued, t.issued + 3)
    ensures Consume(t, outage, uuid, fetch).call == Ack
    ensures Consume(t, outage, uuid, fetch).after.status == Update(t.status, uuid, Completed)
  {
    assert t.issued !in outage && t.issued + 1 !in outage && t.issued + 2 !in outage;
  }

  /** The consumer only updates status rows: the set of rows never changes, so a
      missing row is never created. */
  lemma {:induction false} NeverCreatesStatusRows(t: Tables, outage: map<nat, string>, uuids: seq<string>,
                                                 fetch: string -> ShopifyResponse)
    ensures ConsumeAll(t, outage, uuids, fetch).status.Keys == t.status.Keys
  {
    if uuids != [] {
      NeverCreatesStatusRows(t, outage, uuids[..|uuids| - 1], fetch);
      ConsumeKeepsStatusRows(ConsumeAll(t, outage, uuids[..|uuids| - 1], fetch), outage, uuids[|uuids| - 1], fetch);
    }
  }

  lemma ConsumeKeepsStatusRows(t: Tables, outage: map<nat, string>, uuid: string, fetch: string -> ShopifyResponse)
    ensures Consume(t, outage, uuid, fetch).after.status.Keys == t.status.Keys
  {
    var t1 := Tick(t);
    if t.issued in outage {
      MarkFailedKeeps(t1, outage, uuid, outage[t.issued]);
    } else if uuid in t.ambassadors {
      var t2 := Tick(t1);
      if t1.issued in outage {
        MarkFailedKeeps(t2, outage, uuid, outage[t1.issued]);
      } else {
        var orderIds := DistinctOrderIds(t1.referrals, Lower(t1.ambassadors[uuid]));
        if orderIds == [] {
          var st := SetStatusStep(t2, outage, uuid, Completed);
          if st.out.Threw? {
            MarkFailedKeeps(st.after, outage, uuid, st.out.message);
          }
        } else {
          RunKeepsStatusRows(t2, outage, uuid, orderIds, fetch);
        }
      }
    }
  }

  lemma MarkFailedKeeps(t: Tables, outage: map<nat, string>, uuid: string, message: string)
    ensures MarkFailed(t, outage, uuid, message).status.Keys == t.status.Keys
  {
  }

  /** The status row is not consulted: a `completed` ambassador with referrals
      is ranked again, and its new rows are appended after the old ones. */
  lemma CompletedIsReprocessed(t: Tables, outage: map<nat, string>, uuid: string, fetch: string -> ShopifyResponse)
    requires uuid in t.ambassadors && uuid in t.status && t.status[uuid] == Completed
    requires DistinctOrderIds(t.referrals, Lower(t.ambassadors[uuid])) != []
    requires Quiet(outage, t.issued, t.issued + 3 + |RankingOf(DistinctOrderIds(t.referrals, Lower(t.ambassadors[uuid])), fetch)|)
    ensures var c := Consume(t, outage, uuid, fetch);
      && c.call == Ack
      && c.after.topModels ==
           t.topModels + RowsOf(uuid, RankingOf(DistinctOrderIds(t.referrals, Lower(t.ambassadors[uuid])), fetch))
  {
    var models := RankingOf(DistinctOrderIds(t.referrals, Lower(t.ambassadors[uuid])), fetch);
    assert t.issued !in outage && t.issued + 1 !in outage;
    assert Quiet(outage, t.issued + 2, t.issued + 2 + |models| + 1);
    SaveWithoutOutage(Tick(Tick(t)), outage, uuid, models);
  }

  /** How a message handled from `t` can end in a retry: the statement that
      threw is the last one before the catch's `failed` update, every earlier
      one went through, and that update, when it goes through itself, records
      the thrown message on an existing row. */
  predicate RetryRecorded(t: Tables, outage: map<nat, string>, uuid: string, c: Consumed) {
    c.call == Retry ==>
      && t.issued + 2 <= c.after.issued
      && Quiet(outage, t.issued, c.after.issued - 2)
      && c.after.issued - 2 in outage
      && (uuid in t.status && c.after.issued - 1 !in outage ==>
            uuid in c.after.status && c.after.status[uuid] == Failed(outage[c.after.issued - 2]))
  }

  /** A message is acknowledged exactly when none of its statements throws,
      and a retry is recorded as `RetryRecorded` says. */
  lemma ErrorsRetry(t: Tables, outage: map<nat, string>, uuid: string, fetch: string -> ShopifyResponse)
    ensures AckedIffQuiet(t, outage, Consume(t, outage, uuid, fetch))
    ensures RetryRecorded(t, outage, uuid, Consume(t, outage, uuid, fetch))
  {
    AckedWhenQuiet(t, outage, uuid, fetch);
    RetriedAfterThrow(t, outage, uuid, fetch);
  }

  /** A message is acknowledged exactly when none of the statements it issued
      threw. */
  predicate AckedIffQuiet(t: Tables, outage: map<nat, string>, c: Consumed) {
    c.call == Ack <==> Quiet(outage, t.issued, c.after.issued)
  }

  /** The statements a message issues before its outcome is decided: the two
      SELECTs, then the `completed` update or the whole run. */
  lemma AckedWhenQuiet(t: Tables, outage: map<nat, string>, uuid: string, fetch: string -> ShopifyResponse)
    ensures AckedIffQuiet(t, outage, Consume(t, outage, uuid, fetch))
  {
    if t.issued !in outage && uuid in t.ambassadors && t.issued + 1 !in outage
       && DistinctOrderIds(t.referrals, Lower(t.ambassadors[uuid])) != []
    {
      ConsumeRun(t, outage, uuid, fetch);
      RunAcked(t, outage, uuid, DistinctOrderIds(t.referrals, Lower(t.ambassadors[uuid])), fetch);
    }
  }

  lemma RunAcked(t: Tables, outage: map<nat, string>, uuid: string, orderIds: seq<string>,
                 fetch: string -> ShopifyResponse)
    requires t.issued !in outage && t.issued + 1 !in outage
    ensures AckedIffQuiet(t, outage, Caught(Process(Tick(Tick(t)), outage, uuid, orderIds, fetch), outage, uuid))
  {
    var p := Process(Tick(Tick(t)), outage, uuid, orderIds, fetch);
    assert p == Save(Tick(Tick(t)), outage, uuid, RankingOf(orderIds, fetch));
    SaveAfterSelects(t, outage, uuid, RankingOf(orderIds, fetch));
    if p.out.Threw? {
      RecoverRecords(p.after, outage, uuid, p.out.message);
    }
  }

  /** The run's save, after two SELECTs that went through: it succeeds exactly
      when every statement since the first SELECT went through, and a failure
      carries the error of its last statement. */
  lemma SaveAfterSelects(t: Tables, outage: map<nat, string>, uuid: string, models: seq<TopModel>)
    requires t.issued !in outage && t.issued + 1 !in outage
    ensures var p := Save(Tick(Tick(t)), outage, uuid, models);
      && (p.out.Done? <==> Quiet(outage, t.issued, p.after.issued))
      && (p.out.Threw? ==> !Quiet(outage, t.issued, p.after.issued + 1))
      && (p.out.Threw? ==> && Quiet(outage, t.issued, p.after.issued - 1)
                           && p.after.issued - 1 in outage
                           && p.out.message == outage[p.after.issued - 1])
      && p.after.issued >= t.issued + 3
      && p.after.status.Keys == t.status.Keys
  {
    var t2 := Tick(Tick(t));
    SaveOutcome(t2, outage, uuid, models);
    var p := Save(t2, outage, uuid, models);
    if p.out.Threw? {
      assert p.after.issued - 1 in outage;
      assert Quiet(outage, t.issued, p.after.issued - 1) by {
        forall n | t.issued <= n < p.after.issued - 1 ensures n !in outage {
          if n >= t2.issued {
            assert t2.issued <= n < p.after.issued - 1;
          }
        }
      }
    } else {
      assert Quiet(outage, t.issued, p.after.issued) by {
        forall n | t.issued <= n < p.after.issued ensures n !in outage {
          if n >= t2.issued {
            assert t2.issued <= n < p.after.issued;
          }
        }
      }
    }
  }

  lemma RetriedAfterThrow(t: Tables, outage: map<nat, string>, uuid: string, fetch: string -> ShopifyResponse)
    ensures RetryRecorded(t, outage, uuid, Consume(t, outage, uuid, fetch))
  {
    if t.issued in outage {
      RetryFirst(t, outage, uuid, fetch);
    } else if uuid in t.ambassadors && t.issued + 1 in outage {
      RetrySecond(t, outage, uuid, fetch);
    } else if uuid in t.ambassadors && DistinctOrderIds(t.referrals, Lower(t.ambassadors[uuid])) == [] {
      RetryCompleted(t, outage, uuid, fetch);
    } else if uuid in t.ambassadors {
      RetryRun(t, outage, uuid, fetch);
    }
  }

  lemma RetryFirst(t: Tables, outage: map<nat, string>, uuid: string, fetch: string -> ShopifyResponse)
    requires t.issued in outage
    ensures RetryRecorded(t, outage, uuid, Consume(t, outage, uuid, fetch))
  {
    RecoverRecords(Tick(t), outage, uuid, outage[t.issued]);
  }

  lemma RetrySecond(t: Tables, outage: map<nat, string>, uuid: string, fetch: string -> ShopifyResponse)
    requires t.issued !in outage && uuid in t.ambassadors && t.issued + 1 in outage
    ensures RetryRecorded(t, outage, uuid, Consume(t, outage, uuid, fetch))
  {
    assert Consume(t, outage, uuid, fetch) == Recover(Tick(Tick(t)), outage, uuid, outage[t.issued + 1]);
    CatchRecorded(t, outage, uuid, Tick(Tick(t)), outage[t.issued + 1]);
  }

  lemma RetryCompleted(t: Tables, outage: map<nat, string>, uuid: string, fetch: string -> ShopifyResponse)
    requires t.issued !in outage && uuid in t.ambassadors && t.issued + 1 !in outage
    requires DistinctOrderIds(t.referrals, Lower(t.ambassadors[uuid])) == []
    ensures RetryRecorded(t, outage, uuid, Consume(t, outage, uuid, fetch))
  {
    var st := SetStatusStep(Tick(Tick(t)), outage, uuid, Completed);
    assert Consume(t, outage, uuid, fetch) == Caught(st, outage, uuid);
    if st.out.Threw? {
      CatchRecorded(t, outage, uuid, st.after, st.out.message);
    }
  }

  lemma RetryRun(t: Tables, outage: map<nat, string>, uuid: string, fetch: string -> ShopifyResponse)
    requires t.issued !in outage && uuid in t.ambassadors && t.issued + 1 !in outage
    requires DistinctOrderIds(t.referrals, Lower(t.ambassadors[uuid])) != []
    ensures RetryRecorded(t, outage, uuid, Consume(t, outage, uuid, fetch))
  {
    ConsumeRun(t, outage, uuid, fetch);
    RunRetried(t, outage, uuid, DistinctOrderIds(t.referrals, Lower(t.ambassadors[uuid])), fetch);
  }

  lemma RunRetried(t: Tables, outage: map<nat, string>, uuid: string, orderIds: seq<string>,
                   fetch: string -> ShopifyResponse)
    requires t.issued !in outage && t.issued + 1 !in outage
    ensures RetryRecorded(t, outage, uuid, Caught(Process(Tick(Tick(t)), outage, uuid, orderIds, fetch), outage, uuid))
  {
    var p := Process(Tick(Tick(t)), outage, uuid, orderIds, fetch);
    assert p == Save(Tick(Tick(t)), outage, uuid, RankingOf(orderIds, fetch));
    SaveAfterSelects(t, outage, uuid, RankingOf(orderIds, fetch));
    RunThrew(t, outage, uuid, p, Caught(p, outage, uuid));
  }

  /** With both SELECTs through and referrals found, the message ends as the
      run and its catch say. */
  lemma ConsumeRun(t: Tables, outage: map<nat, string>, uuid: string, fetch: string -> ShopifyResponse)
    requires t.issued !in outage && uuid in t.ambassadors && t.issued + 1 !in outage
    requires DistinctOrderIds(t.referrals, Lower(t.ambassadors[uuid])) != []
    ensures var p := Process(Tick(Tick(t)), outage, uuid, DistinctOrderIds(t.referrals, Lower(t.ambassadors[uuid])), fetch);
      Consume(t, outage, uuid, fetch) == Caught(p, outage, uuid)
  {
  }

  /** A run that threw at its last statement ends, after the catch, as a retry
      that recorded that statement's message. */
  lemma RunThrew(t: Tables, outage: map<nat, string>, uuid: string, p: Step, c: Consumed)
    requires c == Caught(p, outage, uuid)
    requires p.after.issued >= t.issued + 3 && p.after.status.Keys == t.status.Keys
    requires p.out.Threw? ==> && Quiet(outage, t.issued, p.after.issued - 1)
                              && p.after.issued - 1 in outage
                              && p.out.message == outage[p.after.issued - 1]
    ensures RetryRecorded(t, outage, uuid, c)
  {
    if p.out.Threw? {
      RecoverRecords(p.after, outage, uuid, p.out.message);
    }
  }

  /** The catch after a statement that threw, every earlier one since `t`
      having gone through, records a retry as `RetryRecorded` says. */
  lemma CatchRecorded(t: Tables, outage: map<nat, string>, uuid: string, s: Tables, message: string)
    requires t.issued + 1 <= s.issued && s.status.Keys == t.status.Keys
    requires Quiet(outage, t.issued, s.issued - 1) && s.issued - 1 in outage && message == outage[s.issued - 1]
    ensures RetryRecorded(t, outage, uuid, Recover(s, outage, uuid, message))
  {
    RecoverRecords(s, outage, uuid, message);
  }

  /** The catch issues one statement, the `failed` update, which marks an
      existing row with the message when it goes through. */
  lemma RecoverRecords(s: Tables, outage: map<nat, string>, uuid: string, message: string)
    ensures var r := Recover(s, outage, uuid, message);
      && r.call == Retry && r.after.issued == s.issued + 1 && r.after.status.Keys == s.status.Keys
      && (uuid in s.status && s.issued !in outage ==> r.after.status[uuid] == Failed(message))
  {
  }
}
