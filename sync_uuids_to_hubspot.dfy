/** The offline script that writes each qualifying ambassador's uuid to their
    HubSpot contact: it counts referrals per normalised email, keeps the
    ambassadors with at least one, and tallies each update's outcome as a
    success, a contact not found, or a failure. */
module SyncUuidsToHubspot {
  import opened Common
  import opened Ranking
  import opened SqlText

  // ---------------------------------------------------------------------------
  // Referral counts

  /** `row['Affiliate Email']?.toLowerCase().trim()`, or "" without a cell. */
  function EmailOf(cell: Option<string>): string {
    if cell.None? then "" else NormalizeEmail(cell.value)
  }

  function Emails(rows: seq<Option<string>>): (r: seq<string>)
    ensures |r| == |rows|
    ensures forall i :: 0 <= i < |rows| ==> r[i] == EmailOf(rows[i])
  {
    if rows == [] then [] else Emails(rows[..|rows| - 1]) + [EmailOf(rows[|rows| - 1])]
  }

  /** `referralCounts[email] = (referralCounts[email] || 0) + 1` when the
      email is not empty. */
  function Bump(counts: map<string, nat>, e: string): map<string, nat> {
    if e == "" then counts else counts[e := (if e in counts then counts[e] else 0) + 1]
  }

  /** The counts after each row in turn. */
  function ReferralCounts(rows: seq<Option<string>>): map<string, nat> {
    if rows == [] then map[] else Bump(ReferralCounts(rows[..|rows| - 1]), EmailOf(rows[|rows| - 1]))
  }

  lemma CountsSnoc(rows: seq<Option<string>>, i: nat)
    requires i < |rows|
    ensures ReferralCounts(rows[..i + 1]) == Bump(ReferralCounts(rows[..i]), EmailOf(rows[i]))
  {
    assert rows[..i + 1][..i] == rows[..i];
  }

  /** The tally. An email naming a member of Object.prototype would read that
      member instead of a count, so such emails are excluded. */
  method CountReferrals(rows: seq<Option<string>>) returns (counts: map<string, nat>)
    requires forall i :: 0 <= i < |rows| ==> EmailOf(rows[i]) !in InheritedNames
    ensures counts == ReferralCounts(rows)
  {
    counts := map[];
    for i := 0 to |rows|
      invariant counts == ReferralCounts(rows[..i])
    {
      var email := EmailOf(rows[i]);
      CountsSnoc(rows, i);
      if email != "" {
        var previous := if email in counts then counts[email] else 0;
        counts := counts[email := previous + 1];
      }
    }
    assert rows[..|rows|] == rows;
  }

  /** The keys are the non-empty emails that occur, each mapped to the number
      of rows carrying it. */
  lemma {:induction false} ReferralCountsSpec(rows: seq<Option<string>>)
    ensures "" !in ReferralCounts(rows)
    ensures forall e :: e != "" ==> (e in ReferralCounts(rows) <==> Occurrences(Emails(rows), e) > 0)
    ensures forall e :: e in ReferralCounts(rows) ==> ReferralCounts(rows)[e] == Occurrences(Emails(rows), e)
  {
    if rows != [] {
      var n := |rows| - 1;
      ReferralCountsSpec(rows[..n]);
      assert Emails(rows) == Emails(rows[..n]) + [EmailOf(rows[n])];
      assert Emails(rows)[..n] == Emails(rows[..n]);
    }
  }

  // ---------------------------------------------------------------------------
  // Qualifying ambassadors

  /** A record of the data file; only the email and the name are read. */
  datatype SyncProfile = SyncProfile(email: string, name: Cell)

  datatype Qualifying = Qualifying(uuid: string, email: string, name: Cell, referralCount: nat)

  /** `referralCounts[email] && referralCounts[email] > 0` for the normalised email. */
  predicate Qualifies(p: SyncProfile, counts: map<string, nat>) {
    var e := NormalizeEmail(p.email);
    e in counts && counts[e] > 0
  }

  /** The `filter` and `map` over the data file's entries. */
  function Qualify(entries: seq<(string, SyncProfile)>, counts: map<string, nat>): (r: seq<Qualifying>)
    ensures |r| <= |entries|
    ensures forall q :: q in r ==> q.email in counts && q.referralCount == counts[q.email] > 0
  {
    if entries == [] then []
    else
      var uuid := entries[0].0;
      var p := entries[0].1;
      var e := NormalizeEmail(p.email);
      (if Qualifies(p, counts) then [Qualifying(uuid, e, p.name, counts[e])] else []) + Qualify(entries[1..], counts)
  }

  /** An entry qualifies exactly when a record with its uuid, normalised email
      and name is in the list. */
  lemma {:induction false} QualifyMembers(entries: seq<(string, SyncProfile)>, counts: map<string, nat>)
    ensures forall i :: 0 <= i < |entries| ==>
      (Qualifies(entries[i].1, counts) <==>
       exists q :: q in Qualify(entries, counts) && q.uuid == entries[i].0 &&
         q.email == NormalizeEmail(entries[i].1.email) && q.name == entries[i].1.name)
  {
    if entries != [] {
      QualifyMembers(entries[1..], counts);
      var r := Qualify(entries, counts);
      var rest := Qualify(entries[1..], counts);
      forall i | 0 <= i < |entries|
        ensures Qualifies(entries[i].1, counts) <==>
          exists q :: q in r && q.uuid == entries[i].0 &&
            q.email == NormalizeEmail(entries[i].1.email) && q.name == entries[i].1.name
      {
        var e := NormalizeEmail(entries[i].1.email);
        if Qualifies(entries[i].1, counts) {
          var q := Qualifying(entries[i].0, e, entries[i].1.name, counts[e]);
          if i == 0 {
            assert q in r;
          } else {
            assert entries[i] == entries[1..][i - 1];
            var q' :| q' in rest && q'.uuid == entries[i].0 && q'.email == e && q'.name == entries[i].1.name;
            assert q' in r;
          }
        } else {
          forall q | q in r
            ensures q.email != e
          {
          }
        }
      }
    }
  }

  // ---------------------------------------------------------------------------
  // Outcomes

  /** What the request for one contact came to: a response, or an error
      raised by the request itself. */
  datatype Outcome = Responded(status: int, body: string) | RequestError(message: string)

  /** The promise of `updateHubSpotContact`: resolved with a success flag and
      an error text, or rejected. */
  datatype Attempt = Resolved(success: bool, error: string) | Rejected(error: string)

  const NotFoundText: string := "Contact not found in HubSpot"

  function Classify(o: Outcome): Attempt {
    match o
    case Responded(status, body) =>
      if status == 200 then Resolved(true, "")
      else if status == 404 then Resolved(false, NotFoundText)
      else Resolved(false, "HTTP " + IntToString(status) + ": " + body)
    case RequestError(message) => Rejected(message)
  }

  datatype Bucket = Succeeded | NotFound | Failed

  /** The counter an attempt increments: success, an error text including
      "not found", or anything else, a rejection included. */
  function BucketOf(a: Attempt): Bucket {
    match a
    case Rejected(_) => Failed
    case Resolved(success, error) =>
      if success then Succeeded else if Contains(error, "not found") then NotFound else Failed
  }

  lemma {:induction false} ContainsAt(s: string, part: string, k: nat)
    requires k + |part| <= |s| && s[k..k + |part|] == part
    ensures Contains(s, part)
  {
    if k > 0 {
      assert s[1..][k - 1..k - 1 + |part|] == s[k..k + |part|];
      ContainsAt(s[1..], part, k - 1);
    }
  }

  lemma ContainsMiddle(a: string, part: string, b: string)
    ensures Contains(a + part + b, part)
  {
    var s := a + part + b;
    assert s[|a|..|a| + |part|] == part;
    ContainsAt(s, part, |a|);
  }

  /** Text none of whose characters starts `part` adds no occurrence in front. */
  lemma {:induction false} ContainsAfter(p: string, b: string, part: string)
    requires part != [] && part[0] !in p
    ensures Contains(p + b, part) <==> Contains(b, part)
  {
    if p == [] {
      assert p + b == b;
    } else {
      assert part[0] !in p[1..] by {
        assert forall c :: c in p[1..] ==> c in p;
      }
      ContainsAfter(p[1..], b, part);
      assert (p + b)[1..] == p[1..] + b;
      assert !StartsWith(p + b, part) by {
        if |part| <= |p + b| {
          assert (p + b)[..|part|][0] == p[0] != part[0];
        }
      }
    }
  }

  /** 200 is a success, 404 a contact not found, any other status a failure
      unless its body says "not found", and a request error a failure. */
  lemma ClassifySpec(o: Outcome)
    ensures o.Responded? && o.status == 200 ==> BucketOf(Classify(o)) == Succeeded
    ensures o.Responded? && o.status == 404 ==> BucketOf(Classify(o)) == NotFound
    ensures o.Responded? && o.status != 200 && o.status != 404 ==>
      (BucketOf(Classify(o)) == NotFound <==> Contains(o.body, "not found"))
    ensures o.RequestError? ==> BucketOf(Classify(o)) == Failed
  {
    if o.Responded? {
      if o.status == 404 {
        assert NotFoundText == "Contact " + "not found" + " in HubSpot";
        ContainsMiddle("Contact ", "not found", " in HubSpot");
      } else if o.status != 200 {
        var p := "HTTP " + IntToString(o.status) + ": ";
        StatusPrefixPlain(o.status);
        ContainsAfter(p, o.body, "not found");
        assert "HTTP " + IntToString(o.status) + ": " + o.body == p + o.body;
      }
    }
  }

  /** The text in front of the body has no 'n': only letters of "HTTP", a
      sign, digits, a colon and spaces. */
  lemma StatusPrefixPlain(status: int)
    ensures 'n' !in "HTTP " + IntToString(status) + ": "
  {
    var digits := NatToString(if status < 0 then -status else status);
    assert forall c :: c in digits ==> '0' <= c <= '9';
    assert IntToString(status) == (if status < 0 then "-" + digits else digits);
    assert forall c :: c in "HTTP " + IntToString(status) + ": " ==> c in "HTTP -: " || c in digits;
  }

  // ---------------------------------------------------------------------------
  // The sync loop

  datatype Counters = Counters(success: nat, notFound: nat, failure: nat)

  function Count(outcomes: seq<Outcome>, b: Bucket): nat {
    if outcomes == [] then 0
    else Count(outcomes[..|outcomes| - 1], b) + (if BucketOf(Classify(outcomes[|outcomes| - 1])) == b then 1 else 0)
  }

  function Tally(outcomes: seq<Outcome>): Counters {
    Counters(Count(outcomes, Succeeded), Count(outcomes, NotFound), Count(outcomes, Failed))
  }

  /** `syncToHubSpot`: `outcomes[i]` is what the request for the i-th
      qualifying ambassador came to. */
  method SyncAll(ambassadors: seq<Qualifying>, outcomes: seq<Outcome>) returns (c: Counters)
    requires |outcomes| == |ambassadors|
    ensures c == Tally(outcomes)
  {
    c := Counters(0, 0, 0);
    for i := 0 to |ambassadors|
      invariant c == Tally(outcomes[..i])
    {
      assert outcomes[..i + 1][..i] == outcomes[..i];
      var result := Classify(outcomes[i]);
      if result.Rejected? {
        c := c.(failure := c.failure + 1);
      } else if result.success {
        c := c.(success := c.success + 1);
      } else if Contains(result.error, "not found") {
        c := c.(notFound := c.notFound + 1);
      } else {
        c := c.(failure := c.failure + 1);
      }
    }
    assert outcomes[..|outcomes|] == outcomes;
  }

  /** Each ambassador lands in exactly one counter. */
  lemma {:induction false} TallySum(outcomes: seq<Outcome>)
    ensures Tally(outcomes).success + Tally(outcomes).notFound + Tally(outcomes).failure == |outcomes|
  {
    if outcomes != [] {
      TallySum(outcomes[..|outcomes| - 1]);
    }
  }
}
