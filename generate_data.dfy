/** The offline script that turns the affiliate spreadsheet into the
    year-in-review data: it keeps the active affiliates, ranks each by revenue,
    orders and clicks as a percentile, picks an archetype, and writes a profile
    per fresh uuid plus a lowercased-email-to-uuid lookup. */
module GenerateData {
  import opened Common
  import opened StableSort
  import opened SqlText

  /** A spreadsheet row. The fields the script computes with are numbers and
      the email is text; the others are passed through as cells. */
  datatype Affiliate = Affiliate(
    id: int, name: Cell, email: string,
    revenue: real, totalOrder: int, clicks: int, commission: Cell,
    lastOrder: Cell, registrationTime: Cell, loginCount: Cell, lastLogin: Cell, program: Cell)

  // ---------------------------------------------------------------------------
  // Active affiliates and percentiles

  /** At least one order or one click. */
  predicate IsActive(a: Affiliate) {
    a.totalOrder > 0 || a.clicks > 0
  }

  /** `data.filter(isActive)`: every active row, as often as it occurs, and no other. */
  function ActiveAmbassadors(data: seq<Affiliate>): (r: seq<Affiliate>)
    ensures forall a :: multiset(r)[a] == if IsActive(a) then multiset(data)[a] else 0
    ensures forall a :: a in r <==> a in data && IsActive(a)
  {
    if data == [] then []
    else
      var rest := ActiveAmbassadors(data[1..]);
      assert data == [data[0]] + data[1..];
      (if IsActive(data[0]) then [data[0]] else []) + rest
  }

  function RevenueKey(a: Affiliate): real { a.revenue }
  function OrdersKey(a: Affiliate): real { a.totalOrder as real }
  function ClicksKey(a: Affiliate): real { a.clicks as real }

  /** The three sorted copies of the active list. */
  datatype Rankings = Rankings(byRevenue: seq<Affiliate>, byOrders: seq<Affiliate>, byClicks: seq<Affiliate>)

  /** `[...active].sort((a, b) => b.key - a.key)` for each key: each copy is a
      permutation of the list in descending order of its key. */
  function Rank(active: seq<Affiliate>): (rk: Rankings)
    ensures multiset(rk.byRevenue) == multiset(active) && Descending(rk.byRevenue, RevenueKey)
    ensures multiset(rk.byOrders) == multiset(active) && Descending(rk.byOrders, OrdersKey)
    ensures multiset(rk.byClicks) == multiset(active) && Descending(rk.byClicks, ClicksKey)
    ensures |rk.byRevenue| == |rk.byOrders| == |rk.byClicks| == |active|
  {
    SortPermutes(active, RevenueKey);
    SortPermutes(active, OrdersKey);
    SortPermutes(active, ClicksKey);
    SortDescending(active, RevenueKey);
    SortDescending(active, OrdersKey);
    SortDescending(active, ClicksKey);
    Rankings(SortDesc(active, RevenueKey), SortDesc(active, OrdersKey), SortDesc(active, ClicksKey))
  }

  /** `findIndex(a => a.id === id)`: the first position with that id, or -1. */
  function FindIndex(s: seq<Affiliate>, id: int): (r: int)
    ensures -1 <= r < |s|
    ensures r == -1 <==> forall i :: 0 <= i < |s| ==> s[i].id != id
    ensures r >= 0 ==> s[r].id == id && forall i :: 0 <= i < r ==> s[i].id != id
  {
    if s == [] then -1
    else if s[0].id == id then 0
    else
      var k := FindIndex(s[1..], id);
      if k == -1 then -1 else k + 1
  }

  /** `Math.round((1 - index / n) * 100)` on exact rationals. Math.round is
      floor(x + 1/2), and (1 - index/n) * 100 + 1/2 is (200 (n - index) + n) / 2n. */
  function Percentile(index: int, n: nat): int
    requires n > 0 && -1 <= index < n
  {
    (200 * (n - index) + n) / (2 * n)
  }

  /** The percentile is 100 (n - index) / n rounded to the nearest integer, a
      half rounding up; a listed position gives 0..100, the first one 100. */
  lemma PercentileRange(index: int, n: nat)
    requires n > 0 && -1 <= index < n
    ensures 2 * n * Percentile(index, n) <= 200 * (n - index) + n < 2 * n * Percentile(index, n) + 2 * n
    ensures index >= 0 ==> 0 <= Percentile(index, n) <= 100
    ensures index == 0 ==> Percentile(index, n) == 100
  {
    var num := 200 * (n - index) + n;
    DivBetween(num, 2 * n, 0);
    DivBetween(num, 2 * n, 100);
  }

  /** A later position never has a higher percentile. */
  lemma PercentileMonotone(i: int, j: int, n: nat)
    requires n > 0 && -1 <= i <= j < n
    ensures Percentile(j, n) <= Percentile(i, n)
  {
    var b := 200 * (n - i) + n;
    DivBetween(b, 2 * n, 0);
    DivBetween(200 * (n - j) + n, 2 * n, b / (2 * n));
  }

  /** `getPercentile`: the percentile of the first entry with the affiliate's id. */
  function GetPercentile(a: Affiliate, sorted: seq<Affiliate>): int
    requires |sorted| > 0
  {
    Percentile(FindIndex(sorted, a.id), |sorted|)
  }

  /** In a list sorted by descending key whose ids are distinct, a higher key
      never gets a lower percentile, and the first entry gets 100. */
  lemma PercentileOrder(s: seq<Affiliate>, key: Affiliate -> real, i: int, j: int)
    requires Descending(s, key)
    requires forall k, l :: 0 <= k < l < |s| ==> s[k].id != s[l].id
    requires 0 <= i < |s| && 0 <= j < |s| && key(s[i]) > key(s[j])
    ensures 0 <= GetPercentile(s[j], s) <= GetPercentile(s[i], s) <= 100
    ensures GetPercentile(s[0], s) == 100
  {
    assert FindIndex(s, s[i].id) == i;
    assert FindIndex(s, s[j].id) == j;
    assert i < j;
    PercentileMonotone(i, j, |s|);
    PercentileRange(i, |s|);
    PercentileRange(j, |s|);
    PercentileRange(0, |s|);
    assert FindIndex(s, s[0].id) == 0;
  }

  // ---------------------------------------------------------------------------
  // Archetypes

  datatype Archetype =
    | RevenueMachine | ConversionChampion | TrafficMagnet | TopTier
    | Closer | SteadyPerformer | CommunityBuilder | Ambassador

  function Title(k: Archetype): string {
    match k
    case RevenueMachine => "The Revenue Machine"
    case ConversionChampion => "The Conversion Champion"
    case TrafficMagnet => "The Traffic Magnet"
    case TopTier => "The Top Tier Ambassador"
    case Closer => "The Closer"
    case SteadyPerformer => "The Steady Performer"
    case CommunityBuilder => "The Community Builder"
    case Ambassador => "The Ambassador"
  }

  function Description(k: Archetype): string {
    match k
    case RevenueMachine => "You consistently drove high-value sales that made a real impact."
    case ConversionChampion => "You turned interest into action with incredible conversion power."
    case TrafficMagnet => "You brought massive awareness and drove serious attention to the brand."
    case TopTier => "You're in the elite group driving real results."
    case Closer => "When you share, people buy. Simple as that."
    case SteadyPerformer => "Consistent, reliable, and always delivering results."
    case CommunityBuilder => "You brought new eyes to the brand and grew our reach."
    case Ambassador => "You're part of something special."
  }

  /** Orders per click, 0 without clicks. */
  function ConversionRate(a: Affiliate): real {
    if a.clicks > 0 then (a.totalOrder as real) / (a.clicks as real) else 0.0
  }

  /** `getArchetype`: the first rule of the cascade that matches. */
  function GetArchetype(a: Affiliate, rp: int, op: int, cp: int): Archetype {
    if rp >= 90 then RevenueMachine
    else if op >= 90 then ConversionChampion
    else if cp >= 90 then TrafficMagnet
    else if rp >= 75 then TopTier
    else if ConversionRate(a) > 0.1 then Closer
    else if op >= 50 then SteadyPerformer
    else if cp >= 50 then CommunityBuilder
    else Ambassador
  }

  lemma RateSign(t: real, c: real)
    requires c > 0.0
    ensures t / c > 0.1 <==> 10.0 * t > c
  {
  }

  /** More than one order per ten clicks. */
  predicate Converts(a: Affiliate) {
    a.clicks > 0 && 10 * a.totalOrder > a.clicks
  }

  lemma ConvertsRate(a: Affiliate)
    ensures ConversionRate(a) > 0.1 <==> Converts(a)
  {
    if a.clicks > 0 {
      RateSign(a.totalOrder as real, a.clicks as real);
      assert (10 * a.totalOrder) as real == 10.0 * (a.totalOrder as real);
    }
  }

  /** The region of each archetype, in terms of the percentiles and of the
      order and click counts. */
  lemma ArchetypeRegions(a: Affiliate, rp: int, op: int, cp: int)
    ensures rp >= 90 ==> GetArchetype(a, rp, op, cp) == RevenueMachine
    ensures GetArchetype(a, rp, op, cp) == ConversionChampion <==> rp < 90 && op >= 90
    ensures GetArchetype(a, rp, op, cp) == TrafficMagnet <==> rp < 90 && op < 90 && cp >= 90
    ensures GetArchetype(a, rp, op, cp) == TopTier <==> 75 <= rp < 90 && op < 90 && cp < 90
    ensures GetArchetype(a, rp, op, cp) == Closer <==> rp < 75 && op < 90 && cp < 90 && Converts(a)
    ensures GetArchetype(a, rp, op, cp) == SteadyPerformer <==> rp < 75 && 50 <= op < 90 && cp < 90 && !Converts(a)
    ensures GetArchetype(a, rp, op, cp) == CommunityBuilder <==> rp < 75 && op < 50 && 50 <= cp < 90 && !Converts(a)
    ensures GetArchetype(a, rp, op, cp) == Ambassador <==> rp < 75 && op < 50 && cp < 50 && !Converts(a)
  {
    ConvertsRate(a);
  }

  /** `Math.max(revenuePercentile, ordersPercentile)`. */
  function Overall(rp: int, op: int): (r: int)
    ensures r >= rp && r >= op
    ensures r == rp || r == op
  {
    if rp >= op then rp else op
  }

  /** `getBestMonth`: `format` stands for the locale date formatting of a
      truthy `last_order`; without one the answer is "2025". */
  function BestMonth(lastOrder: Cell, format: Cell -> string): (m: string)
    ensures Falsy(lastOrder) ==> m == "2025"
    ensures !Falsy(lastOrder) ==> m == format(lastOrder)
  {
    if !Falsy(lastOrder) then format(lastOrder) else "2025"
  }

  // ---------------------------------------------------------------------------
  // Profiles and the lookup

  datatype Profile = Profile(
    name: Cell, email: string,
    revenue: real, orders: int, clicks: int, commission: Cell,
    overall: int, rankRevenue: int, rankOrders: int, rankClicks: int,
    archetype: Archetype,
    bestMonth: string, firstOrder: Cell, totalLogins: Cell, lastActive: Cell,
    program: Cell)

  predicate Ranked(rk: Rankings) {
    rk.byRevenue != [] && rk.byOrders != [] && rk.byClicks != []
  }

  /** The profile object built for one affiliate. */
  function ProfileOf(a: Affiliate, rk: Rankings, format: Cell -> string): Profile
    requires Ranked(rk)
  {
    var rp := GetPercentile(a, rk.byRevenue);
    var op := GetPercentile(a, rk.byOrders);
    var cp := GetPercentile(a, rk.byClicks);
    Profile(
      a.name, a.email,
      a.revenue, a.totalOrder, a.clicks, a.commission,
      Overall(rp, op), rp, op, cp,
      GetArchetype(a, rp, op, cp),
      BestMonth(a.lastOrder, format), a.registrationTime, a.loginCount, a.lastLogin,
      a.program)
  }

  /** The ranks of a listed affiliate lie in 0..100, and the top earner is
      ranked 100 overall and is a Revenue Machine. */
  lemma ProfileRanks(a: Affiliate, rk: Rankings, format: Cell -> string)
    requires Ranked(rk) && a in rk.byRevenue && a in rk.byOrders && a in rk.byClicks
    ensures var p := ProfileOf(a, rk, format);
      && 0 <= p.rankRevenue <= 100 && 0 <= p.rankOrders <= 100 && 0 <= p.rankClicks <= 100
      && p.overall <= 100
      && (rk.byRevenue[0].id == a.id ==> p.rankRevenue == 100 && p.overall == 100 && p.archetype == RevenueMachine)
  {
    PercentileRange(FindIndex(rk.byRevenue, a.id), |rk.byRevenue|);
    PercentileRange(FindIndex(rk.byOrders, a.id), |rk.byOrders|);
    PercentileRange(FindIndex(rk.byClicks, a.id), |rk.byClicks|);
  }

  /** The profiles of the active affiliates, in order. */
  function ProfileValues(active: seq<Affiliate>, rk: Rankings, format: Cell -> string): (r: seq<Profile>)
    requires active != [] ==> Ranked(rk)
    ensures |r| == |active|
  {
    seq(|active|, i requires 0 <= i < |active| => ProfileOf(active[i], rk, format))
  }

  /** The lowercased emails of the active affiliates, in order. */
  function EmailKeys(active: seq<Affiliate>): (r: seq<string>)
    ensures |r| == |active|
  {
    seq(|active|, i requires 0 <= i < |active| => Lower(active[i].email))
  }

  /** `ambassadorProfiles[uuid] = profile` for each active affiliate in turn. */
  function Profiles(active: seq<Affiliate>, uuids: seq<string>, rk: Rankings, format: Cell -> string): Dict<Profile>
    requires |uuids| == |active|
    requires active != [] ==> Ranked(rk)
  {
    PutAll(uuids, ProfileValues(active, rk, format))
  }

  /** `emailToUUID[email.toLowerCase()] = uuid` for each active affiliate in turn. */
  function Lookup(active: seq<Affiliate>, uuids: seq<string>): Dict<string>
    requires |uuids| == |active|
  {
    PutAll(EmailKeys(active), uuids)
  }

  /** The script's `forEach`, `uuids` standing for the successive `uuidv4()`
      results. */
  method GenerateProfiles(data: seq<Affiliate>, uuids: seq<string>, format: Cell -> string)
    returns (profiles: Dict<Profile>, emailToUuid: Dict<string>)
    requires |uuids| == |ActiveAmbassadors(data)|
    ensures profiles == Profiles(ActiveAmbassadors(data), uuids, Rank(ActiveAmbassadors(data)), format)
    ensures emailToUuid == Lookup(ActiveAmbassadors(data), uuids)
  {
    var active := ActiveAmbassadors(data);
    var rk := Rank(active);
    profiles, emailToUuid := AddProfiles(active, uuids, rk, format);
  }

  /** The loop itself, over the active list and its rankings. */
  method AddProfiles(active: seq<Affiliate>, uuids: seq<string>, rk: Rankings, format: Cell -> string)
    returns (profiles: Dict<Profile>, emailToUuid: Dict<string>)
    requires |uuids| == |active|
    requires active != [] ==> Ranked(rk)
    ensures profiles == Profiles(active, uuids, rk, format)
    ensures emailToUuid == Lookup(active, uuids)
  {
    ghost var values := ProfileValues(active, rk, format);
    ghost var keys := EmailKeys(active);
    profiles := EmptyDict();
    emailToUuid := EmptyDict();
    for i := 0 to |active|
      invariant profiles == PutAll(uuids[..i], values[..i])
      invariant emailToUuid == PutAll(keys[..i], uuids[..i])
    {
      var a := active[i];
      var uuid := uuids[i];
      var profile := ProfileOf(a, rk, format);
      PutAllSnoc(uuids, values, i);
      PutAllSnoc(keys, uuids, i);
      profiles := profiles.Put(uuid, profile);
      emailToUuid := emailToUuid.Put(Lower(a.email), uuid);
    }
    assert uuids[..|uuids|] == uuids && values[..|values|] == values && keys[..|keys|] == keys;
  }

  /** With distinct uuids there is one profile per active affiliate, keyed by
      its uuid in list order. */
  lemma ProfilesSpec(active: seq<Affiliate>, uuids: seq<string>, rk: Rankings, format: Cell -> string)
    requires |uuids| == |active|
    requires active != [] ==> Ranked(rk)
    requires forall i, j :: 0 <= i < j < |uuids| ==> uuids[i] != uuids[j]
    ensures Profiles(active, uuids, rk, format).keys == uuids
    ensures forall i :: 0 <= i < |active| ==>
      Profiles(active, uuids, rk, format).values[uuids[i]] == ProfileOf(active[i], rk, format)
  {
    PutAllDistinct(uuids, ProfileValues(active, rk, format));
  }

  /** Every active affiliate's lowercased email is a key; each key maps to the
      uuid of the last affiliate with that email, so to that affiliate's own
      uuid when no later one shares it. */
  lemma LookupSpec(active: seq<Affiliate>, uuids: seq<string>)
    requires |uuids| == |active|
    ensures forall i :: 0 <= i < |active| ==> Lower(active[i].email) in Lookup(active, uuids).values
    ensures forall i :: 0 <= i < |active| && (forall j :: i < j < |active| ==> Lower(active[j].email) != Lower(active[i].email)) ==>
      Lookup(active, uuids).values[Lower(active[i].email)] == uuids[i]
    ensures forall e :: e in Lookup(active, uuids).values ==>
      exists i :: 0 <= i < |active| && Lower(active[i].email) == e && Lookup(active, uuids).values[e] == uuids[i]
  {
    LookupHas(active, uuids);
    LookupLast(active, uuids);
    LookupWitness(active, uuids);
  }

  lemma LookupHas(active: seq<Affiliate>, uuids: seq<string>)
    requires |uuids| == |active|
    ensures forall i :: 0 <= i < |active| ==> Lower(active[i].email) in Lookup(active, uuids).values
  {
    var keys := EmailKeys(active);
    PutAllHas(keys, uuids);
    forall i | 0 <= i < |active| ensures Lower(active[i].email) in Lookup(active, uuids).values {
      assert keys[i] == Lower(active[i].email);
    }
  }

  lemma LookupLast(active: seq<Affiliate>, uuids: seq<string>)
    requires |uuids| == |active|
    ensures forall i :: 0 <= i < |active| && (forall j :: i < j < |active| ==> Lower(active[j].email) != Lower(active[i].email)) ==>
      Lower(active[i].email) in Lookup(active, uuids).values && Lookup(active, uuids).values[Lower(active[i].email)] == uuids[i]
  {
    var keys := EmailKeys(active);
    PutAllLastValue(keys, uuids);
    forall i | 0 <= i < |active| && (forall j :: i < j < |active| ==> Lower(active[j].email) != Lower(active[i].email))
      ensures Lower(active[i].email) in Lookup(active, uuids).values
      ensures Lookup(active, uuids).values[Lower(active[i].email)] == uuids[i]
    {
      assert keys[i] == Lower(active[i].email);
      forall j | i < j < |keys| ensures keys[j] != keys[i] {
        assert keys[j] == Lower(active[j].email);
      }
    }
  }

  lemma LookupWitness(active: seq<Affiliate>, uuids: seq<string>)
    requires |uuids| == |active|
    ensures forall e :: e in Lookup(active, uuids).values ==>
      exists i :: 0 <= i < |active| && Lower(active[i].email) == e && Lookup(active, uuids).values[e] == uuids[i]
  {
    var keys := EmailKeys(active);
    PutAllWitness(keys, uuids);
    forall e | e in Lookup(active, uuids).values
      ensures exists i :: 0 <= i < |active| && Lower(active[i].email) == e && Lookup(active, uuids).values[e] == uuids[i]
    {
      var i :| 0 <= i < |keys| && keys[i] == e && Lookup(active, uuids).values[e] == uuids[i];
      assert Lower(active[i].email) == e;
    }
  }

  /** Whichever uuid the lookup gives for an email names a profile of an
      affiliate whose lowercased email is that key. */
  lemma LookupFindsProfile(data: seq<Affiliate>, uuids: seq<string>, format: Cell -> string, e: string)
    requires |uuids| == |ActiveAmbassadors(data)|
    requires forall i, j :: 0 <= i < j < |uuids| ==> uuids[i] != uuids[j]
    requires e in Lookup(ActiveAmbassadors(data), uuids).values
    ensures var active := ActiveAmbassadors(data);
      var profiles := Profiles(active, uuids, Rank(active), format);
      var uuid := Lookup(active, uuids).values[e];
      uuid in profiles.values && Lower(profiles.values[uuid].email) == e
  {
    var active := ActiveAmbassadors(data);
    var rk := Rank(active);
    LookupSpec(active, uuids);
    ProfilesSpec(active, uuids, rk, format);
    var i :| 0 <= i < |active| && Lower(active[i].email) == e && Lookup(active, uuids).values[e] == uuids[i];
    assert ProfileOf(active[i], rk, format).email == active[i].email;
  }

  // ---------------------------------------------------------------------------
  // Integer division

  lemma {:induction false} MulLe(d: nat, x: int, y: int)
    requires x <= y
    ensures d * x <= d * y
  {
    if d > 0 {
      MulLe(d - 1, x, y);
      assert d * x == (d - 1) * x + x;
      assert d * y == (d - 1) * y + y;
    }
  }

  lemma MulCancel(d: int, x: int, y: int)
    requires d > 0
    ensures d * x < d * y ==> x < y
  {
    if y <= x {
      MulLe(d, y, x);
    }
  }

  /** Floor division: `a / d` is the largest q with d q <= a. */
  lemma DivBetween(a: int, d: int, q: int)
    requires 0 < d
    ensures d * (a / d) <= a < d * (a / d) + d
    ensures d * q <= a ==> q <= a / d
    ensures a < d * q + d ==> a / d <= q
  {
    var k := a / d;
    assert d * (k + 1) == d * k + d;
    assert d * (q + 1) == d * q + d;
    MulCancel(d, q, k + 1);
    MulCancel(d, k, q + 1);
  }
}
