/** The year-in-review page: it loads the ambassador's data, polls for the top
    products while they are being computed, and steps through eight screens.
    React state becomes the fields of a class; the interval timer becomes a
    `Tick` method called once per firing; every `fetch` is an input. */
module YearInReview {
  import opened Common

  const Screens: seq<string> := ["welcome", "stats", "archetype", "timeline", "topmodels", "thankyou", "share", "final"]

  /** The poller gives up after this many ticks. */
  const MaxAttempts: nat := 60

  /** The ambassador payload of `/api/ambassador/:uuid`; only the field the page
      branches on is modelled. */
  datatype Payload = Payload(topModelsStatus: Option<string>)

  /** What `response.json()` gives: an error, JSON `null`, or an object. */
  datatype Json = Unparsable | Null | Object(payload: Payload)

  /** One `fetch`: the request threw, or a reply came back with `ok` and a body. */
  datatype Fetched = NetworkFailure | Reply(ok: bool, json: Json)

  // ---------------------------------------------------------------------------
  // The screen cursor

  /** `nextScreen`: one screen on, unless on the last one. */
  function NextIndex(i: nat): (r: nat)
    requires i < |Screens|
    ensures r < |Screens|
    ensures i < |Screens| - 1 ==> r == i + 1
    ensures i == |Screens| - 1 ==> r == i
  {
    if i < |Screens| - 1 then i + 1 else i
  }

  // ---------------------------------------------------------------------------
  // The poller

  /** The poller's state: whether the interval is set, how many times it has
      fired, how many fetches it made, and the payload shown. */
  datatype Poll = Poll(active: bool, attempts: nat, fetches: nat, data: Option<Payload>)

  predicate Finished(p: Payload) {
    p.topModelsStatus == Some("ready") || p.topModelsStatus == Some("none")
  }

  /** One firing of the interval: past the limit it clears itself without
      fetching; otherwise it fetches, and adopts the payload and stops only when
      the top products are `ready` or `none`. A thrown request, a reply that is
      not ok, a body that does not parse or a `null` body change nothing. */
  function TickPoll(p: Poll, r: Fetched): Poll {
    if !p.active then p
    else
      var attempts := p.attempts + 1;
      if attempts > MaxAttempts then p.(active := false, attempts := attempts)
      else
        var q := p.(attempts := attempts, fetches := p.fetches + 1);
        match r
        case Reply(true, Object(payload)) =>
          if Finished(payload) then q.(data := Some(payload), active := false) else q
        case _ => q
  }

  /** The poller after a run of firings. */
  function RunPoll(p: Poll, rs: seq<Fetched>): Poll {
    if rs == [] then p else TickPoll(RunPoll(p, rs[..|rs| - 1]), rs[|rs| - 1])
  }

  function StartPoll(data: Option<Payload>): Poll {
    Poll(true, 0, 0, data)
  }

  /** The poller never fetches more than 60 times, one fetch per firing, and is
      stopped by the 61st firing at the latest. */
  lemma {:induction false} PollBounded(data: Option<Payload>, rs: seq<Fetched>)
    ensures RunPoll(StartPoll(data), rs).fetches <= MaxAttempts
    ensures RunPoll(StartPoll(data), rs).fetches <= |rs|
    ensures |rs| > MaxAttempts ==> !RunPoll(StartPoll(data), rs).active
    ensures RunPoll(StartPoll(data), rs).active ==> RunPoll(StartPoll(data), rs).attempts == |rs| <= MaxAttempts
  {
    if rs != [] {
      PollBounded(data, rs[..|rs| - 1]);
      var p := RunPoll(StartPoll(data), rs[..|rs| - 1]);
      assert p.attempts <= MaxAttempts + 1 by {
        PollAttempts(data, rs[..|rs| - 1]);
      }
    }
  }

  lemma {:induction false} PollAttempts(data: Option<Payload>, rs: seq<Fetched>)
    ensures RunPoll(StartPoll(data), rs).attempts <= MaxAttempts + 1
    ensures RunPoll(StartPoll(data), rs).fetches <= MaxAttempts
    ensures RunPoll(StartPoll(data), rs).fetches <= RunPoll(StartPoll(data), rs).attempts
    ensures RunPoll(StartPoll(data), rs).attempts > MaxAttempts ==> !RunPoll(StartPoll(data), rs).active
    ensures RunPoll(StartPoll(data), rs).active ==> RunPoll(StartPoll(data), rs).attempts == |rs|
  {
    if rs != [] {
      PollAttempts(data, rs[..|rs| - 1]);
    }
  }

  /** The shown payload changes only to a `ready` or `none` payload, and the
      poller stops exactly when it adopts one (or gives up). */
  lemma TickAdoptsOnlyFinished(p: Poll, r: Fetched)
    ensures TickPoll(p, r).data != p.data ==>
              TickPoll(p, r).data.Some? && Finished(TickPoll(p, r).data.value) && !TickPoll(p, r).active
    ensures p.active && !TickPoll(p, r).active ==>
              p.attempts + 1 > MaxAttempts || (r.Reply? && r.ok && r.json.Object? && Finished(r.json.payload))
  {
  }

  /** A thrown request, a reply that is not ok, or a body without a finished
      status costs one attempt and leaves the poller running with its data. */
  lemma TickSkips(p: Poll, r: Fetched)
    requires p.active && p.attempts < MaxAttempts
    requires !(r.Reply? && r.ok && r.json.Object? && Finished(r.json.payload))
    ensures TickPoll(p, r) == p.(attempts := p.attempts + 1, fetches := p.fetches + 1)
  {
  }

  // ---------------------------------------------------------------------------
  // Loading

  /** What `loadAmbassadorData` ends with: the data shown, or the error screen. */
  datatype Loaded = Loaded(data: Option<Payload>, error: bool, polls: bool)

  /** The production path: any failure, or no data, shows the error screen; a
      payload whose top products are `loading` starts the poller. */
  function LoadFromApi(api: Fetched): Loaded {
    match api
    case Reply(true, Object(payload)) => Loaded(Some(payload), false, payload.topModelsStatus == Some("loading"))
    case _ => Loaded(None, true, false)
  }

  /** The local path: the bundled JSON file when it loads (`None` when its fetch
      or parse throws), else the API without polling. */
  function LoadLocal(file: Option<map<string, Payload>>, uuid: string, api: Fetched): Loaded {
    match file
    case Some(all) => if uuid in all then Loaded(Some(all[uuid]), false, false) else Loaded(None, true, false)
    case None =>
      match api
      case Reply(true, Object(payload)) => Loaded(Some(payload), false, false)
      case _ => Loaded(None, true, false)
  }

  /** Polling starts only on the production path and only for a `loading`
      payload; the page shows either data or the error, never both. */
  lemma LoadOutcomes(isLocalDev: bool, file: Option<map<string, Payload>>, uuid: string, api: Fetched)
    ensures var l := if isLocalDev then LoadLocal(file, uuid, api) else LoadFromApi(api);
      && (l.error <==> l.data.None?)
      && (l.polls <==> !isLocalDev && l.data.Some? && l.data.value.topModelsStatus == Some("loading"))
      && (!isLocalDev ==> (l.data.Some? <==> api.Reply? && api.ok && api.json.Object?))
  {
  }

  // ---------------------------------------------------------------------------
  // The page

  class Page {
    const uuid: string
    var currentScreenIndex: nat
    var ambassadorData: Option<Payload>
    var loading: bool
    var error: bool
    /** The poll interval's state. */
    var polling: bool
    var attempts: nat
    var fetches: nat

    ghost predicate Valid()
      reads this
    {
      && currentScreenIndex < |Screens|
      && fetches <= MaxAttempts && fetches <= attempts <= MaxAttempts + 1
      && (polling ==> attempts <= MaxAttempts)
    }

    function PollState(): Poll
      reads this
    {
      Poll(polling, attempts, fetches, ambassadorData)
    }

    constructor (uuid: string)
      ensures Valid() && this.uuid == uuid
      ensures currentScreenIndex == 0 && ambassadorData.None? && loading && !error && !polling
    {
      this.uuid := uuid;
      currentScreenIndex, ambassadorData, loading, error := 0, None, true, false;
      polling, attempts, fetches := false, 0, 0;
    }

    method NextScreen()
      requires Valid()
      modifies this`currentScreenIndex
      ensures Valid()
      ensures currentScreenIndex == NextIndex(old(currentScreenIndex))
    {
      if currentScreenIndex < |Screens| - 1 {
        currentScreenIndex := currentScreenIndex + 1;
      }
    }

    method ResetView()
      requires Valid()
      modifies this`currentScreenIndex
      ensures Valid() && currentScreenIndex == 0
    {
      currentScreenIndex := 0;
    }

    /** `pollForTopModels`: set the interval with a fresh attempt counter. */
    method StartPolling()
      requires Valid()
      modifies this`polling, this`attempts, this`fetches
      ensures Valid() && PollState() == StartPoll(ambassadorData)
    {
      polling, attempts, fetches := true, 0, 0;
    }

    /** One firing of the interval, with the outcome of the fetch it would make. */
    method Tick(response: Fetched)
      requires Valid()
      modifies this`polling, this`attempts, this`fetches, this`ambassadorData
      ensures Valid() && PollState() == TickPoll(old(PollState()), response)
    {
      if !polling {
        return;
      }
      attempts := attempts + 1;
      if attempts > MaxAttempts {
        polling := false;
        return;
      }
      fetches := fetches + 1;
      if response.Reply? && response.ok && response.json.Object? {
        var data := response.json.payload;
        if data.topModelsStatus == Some("ready") || data.topModelsStatus == Some("none") {
          ambassadorData := Some(data);
          polling := false;
        }
      }
    }

    /** `loadAmbassadorData`, with the outcome of each fetch as an input. */
    method LoadAmbassadorData(isLocalDev: bool, file: Option<map<string, Payload>>, api: Fetched)
      requires Valid()
      modifies this
      ensures Valid() && !loading && currentScreenIndex == old(currentScreenIndex)
      ensures var l := if isLocalDev then LoadLocal(file, uuid, api) else LoadFromApi(api);
        && error == (old(error) || l.error)
        && ambassadorData == (if l.data.Some? then l.data else old(ambassadorData))
        && (l.polls ==> PollState() == StartPoll(ambassadorData))
        && (!l.polls ==> polling == old(polling) && attempts == old(attempts) && fetches == old(fetches))
    {
      var data: Option<Payload> := None;
      if isLocalDev {
        if file.Some? {
          data := if uuid in file.value then Some(file.value[uuid]) else None;
        } else if api.Reply? && api.ok && api.json.Object? {
          data := Some(api.json.payload);
        }
      } else {
        if api.Reply? && api.ok && api.json.Object? {
          data := Some(api.json.payload);
          if data.value.topModelsStatus == Some("loading") {
            polling, attempts, fetches := true, 0, 0;
          }
        }
      }
      if data.Some? {
        ambassadorData := data;
        loading := false;
      } else {
        error := true;
        loading := false;
      }
    }
  }
}
