/** The D1 database the request handler and the queue consumer share: the
    `ambassadors`, `referrals`, `processing_status` and `top_models` tables,
    and the statements the two issue against them. Every statement may throw;
    which ones do is fixed in advance by `outage`, keyed by the statement's
    position in the sequence of statements issued. Timestamps
    (`started_at`, `completed_at`) are not modelled. */
module Store {
  import opened Common
  import opened Ranking

  /** A `processing_status` row's state. */
  datatype Status = Processing | Completed | Failed(message: string)

  function StatusName(s: Status): string {
    match s
    case Processing => "processing"
    case Completed => "completed"
    case Failed(_) => "failed"
  }

  datatype Referral = Referral(orderId: string, affiliateEmail: string)

  datatype TopModelRow = TopModelRow(
    ambassadorUuid: string, rank: nat, productName: string, productImageUrl: Option<string>, count: nat)

  /** The tables, and how many statements have been issued so far. */
  datatype Tables = Tables(
    ambassadors: map<string, string>,
    referrals: seq<Referral>,
    status: map<string, Status>,
    topModels: seq<TopModelRow>,
    issued: nat)

  /** What a statement gives back: its result, or the message of the error it threw. */
  datatype Outcome<T> = Done(value: T) | Threw(message: string)

  /** The state after one more statement, whatever it did. */
  function Tick(t: Tables): Tables {
    t.(issued := t.issued + 1)
  }

  /** The order ids of the referrals credited to `email`, in table order. */
  function OrderIdsOf(referrals: seq<Referral>, email: string): seq<string> {
    if referrals == [] then []
    else
      var last := referrals[|referrals| - 1];
      OrderIdsOf(referrals[..|referrals| - 1], email) + (if last.affiliateEmail == email then [last.orderId] else [])
  }

  /** `SELECT DISTINCT order_id FROM referrals WHERE affiliate_email = ?`, in the
      order the rows are first met. */
  function DistinctOrderIds(referrals: seq<Referral>, email: string): seq<string> {
    FirstOccurrences(OrderIdsOf(referrals, email))
  }

  /** `UPDATE processing_status SET status = ? WHERE ambassador_uuid = ?`: an
      existing row changes; a missing one is not created. */
  function Update(status: map<string, Status>, uuid: string, s: Status): (r: map<string, Status>)
    ensures r.Keys == status.Keys
    ensures forall u :: u in r && u != uuid ==> r[u] == status[u]
    ensures uuid in status ==> r[uuid] == s
  {
    if uuid in status then status[uuid := s] else status
  }

  /** The referrals credited to an email are exactly its order ids, each once. */
  lemma DistinctOrderIdsSpec(referrals: seq<Referral>, email: string)
    ensures forall id :: id in DistinctOrderIds(referrals, email) <==>
              exists k :: 0 <= k < |referrals| && referrals[k] == Referral(id, email)
    ensures forall i, j :: 0 <= i < j < |DistinctOrderIds(referrals, email)| ==>
              DistinctOrderIds(referrals, email)[i] != DistinctOrderIds(referrals, email)[j]
  {
    OrderIdsOfSpec(referrals, email);
    FirstOccurrencesSpec(OrderIdsOf(referrals, email));
    FirstOccurrencesDistinct(OrderIdsOf(referrals, email));
  }

  lemma {:induction false} OrderIdsOfSpec(referrals: seq<Referral>, email: string)
    ensures forall id :: id in OrderIdsOf(referrals, email) <==>
              exists k :: 0 <= k < |referrals| && referrals[k] == Referral(id, email)
  {
    if referrals != [] {
      var init := referrals[..|referrals| - 1];
      OrderIdsOfSpec(init, email);
      forall id ensures id in OrderIdsOf(referrals, email) <==>
                        exists k :: 0 <= k < |referrals| && referrals[k] == Referral(id, email)
      {
        if exists k :: 0 <= k < |init| && init[k] == Referral(id, email) {
          var k :| 0 <= k < |init| && init[k] == Referral(id, email);
          assert referrals[k] == init[k];
        }
        if exists k :: 0 <= k < |referrals| && referrals[k] == Referral(id, email) {
          var k :| 0 <= k < |referrals| && referrals[k] == Referral(id, email);
          if k < |init| {
            assert init[k] == referrals[k];
          }
        }
      }
    }
  }

  lemma {:induction false} FirstOccurrencesDistinct(names: seq<string>)
    ensures forall i, j :: 0 <= i < j < |FirstOccurrences(names)| ==>
              FirstOccurrences(names)[i] != FirstOccurrences(names)[j]
  {
    if names != [] {
      FirstOccurrencesDistinct(names[..|names| - 1]);
    }
  }

  /** The live database. `outage` maps the position of each statement that
      throws to the message of its error. */
  class Database {
    var ambassadors: map<string, string>
    var referrals: seq<Referral>
    var status: map<string, Status>
    var topModels: seq<TopModelRow>
    var issued: nat
    const outage: map<nat, string>

    function Snapshot(): Tables
      reads this
    {
      Tables(ambassadors, referrals, status, topModels, issued)
    }

    constructor (t: Tables, outage: map<nat, string>)
      ensures Snapshot() == t && this.outage == outage
    {
      ambassadors, referrals, status, topModels, issued := t.ambassadors, t.referrals, t.status, t.topModels, t.issued;
      this.outage := outage;
    }

    /** `SELECT status FROM processing_status WHERE ambassador_uuid = ?`. */
    method SelectStatus(uuid: string) returns (r: Outcome<Option<Status>>)
      modifies this`issued
      ensures Snapshot() == Tick(old(Snapshot()))
      ensures r == if old(issued) in outage then Threw(outage[old(issued)])
                   else Done(if uuid in status then Some(status[uuid]) else None)
    {
      if issued in outage {
        r := Threw(outage[issued]);
      } else {
        r := Done(if uuid in status then Some(status[uuid]) else None);
      }
      issued := issued + 1;
    }

    /** `INSERT OR REPLACE INTO processing_status ... VALUES (?, 'processing', ...)`. */
    method MarkProcessing(uuid: string) returns (r: Outcome<()>)
      modifies this`status, this`issued
      ensures r == if old(issued) in outage then Threw(outage[old(issued)]) else Done(())
      ensures Snapshot() == if old(issued) in outage then Tick(old(Snapshot()))
                            else Tick(old(Snapshot())).(status := old(status)[uuid := Processing])
    {
      if issued in outage {
        r := Threw(outage[issued]);
      } else {
        r := Done(());
        status := status[uuid := Processing];
      }
      issued := issued + 1;
    }

    /** `SELECT email FROM ambassadors WHERE uuid = ?`. */
    method SelectEmail(uuid: string) returns (r: Outcome<Option<string>>)
      modifies this`issued
      ensures Snapshot() == Tick(old(Snapshot()))
      ensures r == if old(issued) in outage then Threw(outage[old(issued)])
                   else Done(if uuid in ambassadors then Some(ambassadors[uuid]) else None)
    {
      if issued in outage {
        r := Threw(outage[issued]);
      } else {
        r := Done(if uuid in ambassadors then Some(ambassadors[uuid]) else None);
      }
      issued := issued + 1;
    }

    /** `SELECT DISTINCT order_id FROM referrals WHERE affiliate_email = ?`. */
    method SelectOrderIds(email: string) returns (r: Outcome<seq<string>>)
      modifies this`issued
      ensures Snapshot() == Tick(old(Snapshot()))
      ensures r == if old(issued) in outage then Threw(outage[old(issued)])
                   else Done(DistinctOrderIds(referrals, email))
    {
      if issued in outage {
        r := Threw(outage[issued]);
      } else {
        r := Done(DistinctOrderIds(referrals, email));
      }
      issued := issued + 1;
    }

    /** `UPDATE processing_status SET status = ? ... WHERE ambassador_uuid = ?`. */
    method SetStatus(uuid: string, s: Status) returns (r: Outcome<()>)
      modifies this`status, this`issued
      ensures r == if old(issued) in outage then Threw(outage[old(issued)]) else Done(())
      ensures Snapshot() == if old(issued) in outage then Tick(old(Snapshot()))
                            else Tick(old(Snapshot())).(status := Update(old(status), uuid, s))
    {
      if issued in outage {
        r := Threw(outage[issued]);
      } else {
        r := Done(());
        status := Update(status, uuid, s);
      }
      issued := issued + 1;
    }

    /** `INSERT INTO top_models (...) VALUES (?, ?, ?, ?, ?)`: appends a row. */
    method InsertTopModel(row: TopModelRow) returns (r: Outcome<()>)
      modifies this`topModels, this`issued
      ensures r == if old(issued) in outage then Threw(outage[old(issued)]) else Done(())
      ensures Snapshot() == if old(issued) in outage then Tick(old(Snapshot()))
                            else Tick(old(Snapshot())).(topModels := old(topModels) + [row])
    {
      if issued in outage {
        r := Threw(outage[issued]);
      } else {
        r := Done(());
        topModels := topModels + [row];
      }
      issued := issued + 1;
    }
  }
}
