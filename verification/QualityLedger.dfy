/** The quality ledger: error counts per endpoint and reason, an operator's archive of old counts, and the
    comparison of a report with an approved baseline. */
module QualityLedger {
  import opened Options
  import opened TextLines

  const MAX_SAFE: nat := 0x1F_FFFF_FFFF_FFFF

  datatype Endpoint = OtlpLogs | OtlpTraces | Hooks

  datatype Reason = UnsupportedEvent | InvalidStructure | InvalidAttributes | IdentityConflict | MissingIdentity
    | InvalidTool | InvalidLifecycle | InvalidTimestamp | ConversionError | LegacyUnclassified

  const ENDPOINTS: seq<Endpoint> := [OtlpLogs, OtlpTraces, Hooks]

  const REASONS: seq<Reason> := [UnsupportedEvent, InvalidStructure, InvalidAttributes, IdentityConflict,
                                 MissingIdentity,
    InvalidTool, InvalidLifecycle, InvalidTimestamp, ConversionError, LegacyUnclassified]

  /** An integer as the nearest double: exact up to 2^53, then rounded to an even number, ties to the
      multiple of four. Sums here stay below 2^54. */
  function Round(s: nat): nat {
    if s <= MAX_SAFE + 1 || s % 2 == 0 then s else if s % 4 == 1 then s - 1 else s + 1
  }

  function Plus(a: nat, b: nat): nat {
    Round(a + b)
  }

  lemma RoundNear(s: nat)
    ensures s - 1 <= Round(s) <= s + 1 && (s % 2 == 0 ==> Round(s) == s)
  {
  }

  lemma RoundMonotone(s: nat, t: nat)
    requires s <= t
    ensures Round(s) <= Round(t)
  {
    RoundNear(s);
    RoundNear(t);
    hide Round;
    assert t == s + 1 ==> s % 2 == 0 || t % 2 == 0;
  }

  // ---------- ledgers as they come in ----------

  // Any JSON number is an `int` here; one that is no integer is out of range like a negative one.
  datatype RawRoute = RawRoute(unknownEvents: int, conversionErrors: int, total: int, reasons: map<Reason, int>,
                               unsupportedCode: bool)

  // `durableScope` and `complete` are the two declared flags.
  datatype RawLedger = RawLedger(durableScope: bool, complete: bool, errors: int, routes: map<Endpoint, RawRoute>)

  datatype Coverage = Coverage(live: RawLedger, archived: Option<map<Endpoint, RawRoute>>)

  // ---------- normalised ledgers ----------

  datatype Route = Route(unknownEvents: nat, conversionErrors: nat, total: nat, reasons: map<Reason, nat>)

  datatype Ledger = Ledger(errors: nat, routes: map<Endpoint, Route>)

  predicate Counted(n: int) {
    0 <= n <= MAX_SAFE
  }

  function Count(m: map<Reason, nat>, r: Reason): nat {
    if r in m then m[r] else 0
  }

  /** The first n reasons added up. */
  function ReasonSum(m: map<Reason, nat>, n: nat): nat
    requires n <= |REASONS|
  {
    if n == 0 then 0 else ReasonSum(m, n - 1) + Count(m, REASONS[n - 1])
  }

  function Total(m: map<Reason, nat>): nat {
    ReasonSum(m, |REASONS|)
  }

  predicate CountsValid(m: map<Reason, int>) {
    forall r :: r in m ==> Counted(m[r])
  }

  // Zero counts are dropped.
  function Positive(m: map<Reason, int>): map<Reason, nat>
    requires CountsValid(m)
  {
    map r | r in m && m[r] > 0 :: m[r]
  }

  predicate RouteValid(raw: RawRoute) {
    && Counted(raw.unknownEvents) && Counted(raw.conversionErrors) && Counted(raw.total)
    && raw.unknownEvents + raw.conversionErrors <= MAX_SAFE && raw.total == raw.unknownEvents + raw.conversionErrors
    && !raw.unsupportedCode && CountsValid(raw.reasons) && Total(Positive(raw.reasons)) == raw.total
  }

  function Clean(raw: RawRoute): Route
    requires RouteValid(raw)
  {
    Route(raw.unknownEvents, raw.conversionErrors, raw.total, Positive(raw.reasons))
  }

  predicate RoutesValid(routes: map<Endpoint, RawRoute>) {
    forall e: Endpoint :: e in routes && RouteValid(routes[e])
  }

  function CleanRoutes(routes: map<Endpoint, RawRoute>): map<Endpoint, Route>
    requires RoutesValid(routes)
  {
    map e: Endpoint | e in routes :: Clean(routes[e])
  }

  /** The first n endpoint totals added up. */
  function EndpointSum(routes: map<Endpoint, Route>, n: nat): nat
    requires n <= |ENDPOINTS| && forall e: Endpoint :: e in routes
  {
    if n == 0 then 0 else EndpointSum(routes, n - 1) + routes[ENDPOINTS[n - 1]].total
  }

  predicate LedgerValid(raw: RawLedger) {
    && raw.durableScope && raw.complete && Counted(raw.errors) && RoutesValid(raw.routes)
    && EndpointSum(CleanRoutes(raw.routes), |ENDPOINTS|) == raw.errors
  }

  function Normalized(raw: RawLedger): Option<Ledger> {
    if LedgerValid(raw) then Some(Ledger(raw.errors, CleanRoutes(raw.routes))) else None
  }

  // What every normalised ledger satisfies.
  predicate WellFormed(l: Ledger) {
    && (forall e: Endpoint :: e in l.routes && RouteWellFormed(l.routes[e]))
    && l.errors == EndpointSum(l.routes, |ENDPOINTS|) && l.errors <= MAX_SAFE
  }

  predicate RouteWellFormed(r: Route) {
    && r.total == r.unknownEvents + r.conversionErrors == Total(r.reasons)
    && r.total <= MAX_SAFE && forall c :: c in r.reasons ==> 0 < r.reasons[c]
  }

  function Raw(l: Ledger): RawLedger {
    RawLedger(true, true, l.errors, map e: Endpoint | e in l.routes :: RawOf(l.routes[e]))
  }

  function RawOf(r: Route): RawRoute {
    RawRoute(r.unknownEvents, r.conversionErrors, r.total, map c | c in r.reasons :: r.reasons[c] as int, false)
  }

  lemma {:induction false} CountBelowSum(m: map<Reason, nat>, n: nat, r: Reason)
    requires n <= |REASONS| && r in REASONS[..n]
    ensures Count(m, r) <= ReasonSum(m, n)
  {
    if n > 0 && REASONS[n - 1] != r {
      assert REASONS[..n] == REASONS[..n - 1] + [REASONS[n - 1]];
      CountBelowSum(m, n - 1, r);
    }
  }

  lemma AllReasons(r: Reason)
    ensures r in REASONS[..|REASONS|]
  {
    var all := REASONS;
    match r
    case UnsupportedEvent => assert all[0] == r;
    case InvalidStructure => assert all[1] == r;
    case InvalidAttributes => assert all[2] == r;
    case IdentityConflict => assert all[3] == r;
    case MissingIdentity => assert all[4] == r;
    case InvalidTool => assert all[5] == r;
    case InvalidLifecycle => assert all[6] == r;
    case InvalidTimestamp => assert all[7] == r;
    case ConversionError => assert all[8] == r;
    case LegacyUnclassified => assert all[9] == r;
  }

  lemma RouteSettles(r: Route)
    requires RouteWellFormed(r)
    ensures RouteValid(RawOf(r)) && Clean(RawOf(r)) == r
  {
    forall c | c in r.reasons
      ensures Counted(RawOf(r).reasons[c])
    {
      AllReasons(c);
      CountBelowSum(r.reasons, |REASONS|, c);
    }
    assert Positive(RawOf(r).reasons) == r.reasons;
  }

  /** Main result: a ledger is accepted exactly as normalised, and normalising it again changes nothing. */
  lemma NormalisationSettles(l: Ledger)
    requires WellFormed(l)
    ensures Normalized(Raw(l)) == Some(l)
  {
    forall e: Endpoint
      ensures e in Raw(l).routes && RouteValid(Raw(l).routes[e]) && Clean(Raw(l).routes[e]) == l.routes[e]
    {
      RouteSettles(l.routes[e]);
    }
    assert CleanRoutes(Raw(l).routes) == l.routes;
  }

  lemma NormalizedIsWellFormed(raw: RawLedger)
    requires Normalized(raw).Some?
    ensures WellFormed(Normalized(raw).value)
  {
    var l := Normalized(raw).value;
    forall e: Endpoint
      ensures e in l.routes && RouteWellFormed(l.routes[e])
    {
      assert RouteValid(raw.routes[e]);
    }
  }

  // ---------- live and archive together ----------

  function PlusRoute(a: Route, b: Route): Route {
    var unknown := Plus(a.unknownEvents, b.unknownEvents);
    var conversion := Plus(a.conversionErrors, b.conversionErrors);
    Route(unknown, conversion, Plus(unknown, conversion),
          map c | c in a.reasons.Keys + b.reasons.Keys :: Plus(Count(a.reasons, c), Count(b.reasons, c)))
  }

  function PlusRoutes(a: map<Endpoint, Route>, b: map<Endpoint, Route>): map<Endpoint, Route>
    requires forall e: Endpoint :: e in a && e in b
  {
    map e: Endpoint | e in a :: PlusRoute(a[e], b[e])
  }

  function RoundedSum(routes: map<Endpoint, Route>, n: nat): nat
    requires n <= |ENDPOINTS| && forall e: Endpoint :: e in routes
  {
    if n == 0 then 0 else Plus(RoundedSum(routes, n - 1), routes[ENDPOINTS[n - 1]].total)
  }

  function ArchivedLedger(archived: map<Endpoint, RawRoute>): RawLedger {
    RawLedger(true, true, if RoutesValid(archived) then EndpointSum(CleanRoutes(archived), |ENDPOINTS|) else -1,
              archived)
  }

  function Together(live: Ledger, archived: Ledger): Ledger
    requires WellFormed(live) && WellFormed(archived)
  {
    var routes := PlusRoutes(live.routes, archived.routes);
    Ledger(RoundedSum(routes, |ENDPOINTS|), routes)
  }

  /** Live counts plus archived ones; without an archive, the live ledger. */
  function Combined(c: Coverage): Option<Ledger> {
    var live := Normalized(c.live);
    if live.None? then None
    else if c.archived.None? then live
    else
      var archived := Normalized(ArchivedLedger(c.archived.value));
      if archived.None? then None
      else
        NormalizedIsWellFormed(c.live);
        NormalizedIsWellFormed(ArchivedLedger(c.archived.value));
        Some(Together(live.value, archived.value))
  }

  function ArchivedErrors(c: Coverage): nat {
    if c.archived.Some? && RoutesValid(c.archived.value) then EndpointSum(CleanRoutes(c.archived.value), |ENDPOINTS|)
      else 0
  }

  // Small enough that no sum is rounded. Larger sums may still be exact by being even.
  predicate Small(c: Coverage) {
    c.live.errors + ArchivedErrors(c) <= MAX_SAFE + 1
  }

  lemma {:induction false} ReasonSumPlus(a: map<Reason, nat>, b: map<Reason, nat>, s: map<Reason, nat>, n: nat)
    requires n <= |REASONS| && forall r :: Count(s, r) == Count(a, r) + Count(b, r)
    ensures ReasonSum(s, n) == ReasonSum(a, n) + ReasonSum(b, n)
  {
    if n > 0 {
      ReasonSumPlus(a, b, s, n - 1);
    }
  }

  lemma PlusRouteExact(a: Route, b: Route)
    requires RouteWellFormed(a) && RouteWellFormed(b) && a.total + b.total <= MAX_SAFE + 1
    ensures var s := PlusRoute(a, b);
      && s.total == s.unknownEvents + s.conversionErrors == a.total + b.total == Total(s.reasons)
      && s.unknownEvents == a.unknownEvents + b.unknownEvents
      && s.conversionErrors == a.conversionErrors + b.conversionErrors
      && (forall r :: Count(s.reasons, r) == Count(a.reasons, r) + Count(b.reasons, r))
      && forall r :: r in s.reasons ==> s.reasons[r] > 0
  {
    var s := PlusRoute(a, b);
    forall r
      ensures Count(s.reasons, r) == Count(a.reasons, r) + Count(b.reasons, r)
    {
      AllReasons(r);
      CountBelowSum(a.reasons, |REASONS|, r);
      CountBelowSum(b.reasons, |REASONS|, r);
    }
    ReasonSumPlus(a.reasons, b.reasons, s.reasons, |REASONS|);
  }

  lemma {:induction false} RoundedSumExact(a: map<Endpoint, Route>, b: map<Endpoint, Route>, n: nat)
    requires n <= |ENDPOINTS| && (forall e: Endpoint :: e in a && RouteWellFormed(a[e]))
      && (forall e: Endpoint :: e in b && RouteWellFormed(b[e]))
    requires EndpointSum(a, |ENDPOINTS|) + EndpointSum(b, |ENDPOINTS|) <= MAX_SAFE + 1
    ensures var s := PlusRoutes(a, b);
      EndpointSum(s, n) == RoundedSum(s, n) == EndpointSum(a, n) + EndpointSum(b, n)
  {
    hide PlusRoute, RouteWellFormed;
    if n > 0 {
      var e := ENDPOINTS[n - 1];
      RoundedSumExact(a, b, n - 1);
      SumGrows(a, n);
      SumGrows(b, n);
      TotalOfPlus(a[e], b[e]);
    }
  }

  lemma TotalOfPlus(a: Route, b: Route)
    requires RouteWellFormed(a) && RouteWellFormed(b) && a.total + b.total <= MAX_SAFE + 1
    ensures PlusRoute(a, b).total == a.total + b.total == Total(PlusRoute(a, b).reasons)
  {
    PlusRouteExact(a, b);
  }

  lemma SumGrows(routes: map<Endpoint, Route>, n: nat)
    requires n <= |ENDPOINTS| && forall e: Endpoint :: e in routes
    ensures EndpointSum(routes, n) <= EndpointSum(routes, |ENDPOINTS|)
    decreases |ENDPOINTS| - n
  {
    if n < |ENDPOINTS| {
      SumGrows(routes, n + 1);
    }
  }

  lemma TotalBelowSum(routes: map<Endpoint, Route>, e: Endpoint)
    requires forall x: Endpoint :: x in routes
    ensures routes[e].total <= EndpointSum(routes, |ENDPOINTS|)
  {
    var n := match e case OtlpLogs => 0 case OtlpTraces => 1 case Hooks => 2;
    assert ENDPOINTS[n] == e;
    SumGrows(routes, n + 1);
  }

  // A combined ledger adds up like a normalised one, only its sum may be larger.
  predicate Balanced(l: Ledger) {
    && (forall e: Endpoint :: e in l.routes && l.routes[e].total == Total(l.routes[e].reasons))
    && l.errors == EndpointSum(l.routes, |ENDPOINTS|)
  }

  lemma TogetherIsBalanced(live: Ledger, archived: Ledger)
    requires WellFormed(live) && WellFormed(archived) && live.errors + archived.errors <= MAX_SAFE + 1
    ensures Balanced(Together(live, archived)) && Together(live, archived).errors == live.errors + archived.errors
  {
    hide PlusRoute, RouteWellFormed;
    RoundedSumExact(live.routes, archived.routes, |ENDPOINTS|);
    forall e: Endpoint
      ensures var r := PlusRoute(live.routes[e], archived.routes[e]); r.total == Total(r.reasons)
    {
      TotalBelowSum(live.routes, e);
      TotalBelowSum(archived.routes, e);
      TotalOfPlus(live.routes[e], archived.routes[e]);
    }
  }

  /** While no sum is rounded, live and archive together add up exactly. */
  lemma CombinedIsExact(c: Coverage)
    requires Combined(c).Some? && Small(c)
    ensures Balanced(Combined(c).value) && Combined(c).value.errors == c.live.errors + ArchivedErrors(c)
  {
    hide Together, CleanRoutes, RouteValid, RouteWellFormed;
    NormalizedIsWellFormed(c.live);
    if c.archived.Some? {
      NormalizedIsWellFormed(ArchivedLedger(c.archived.value));
      TogetherIsBalanced(Normalized(c.live).value, Normalized(ArchivedLedger(c.archived.value)).value);
    } else {
      WellFormedIsBalanced(Normalized(c.live).value);
    }
  }

  lemma WellFormedIsBalanced(l: Ledger)
    requires WellFormed(l)
    ensures Balanced(l)
  {
  }

  // ---------- the approved baseline ----------

  // `instant` is what parsing the approval time gives.
  datatype Approval = Approval(approver: string, at: string, instant: Option<int>, note: string)

  datatype Core = Core(approval: Approval, source: string, ledger: Ledger)

  // SHA-256 of the canonical text, taken to be collision free.
  datatype CoreHash = CoreHash(of: Core)

  datatype Baseline = Baseline(approval: Approval, source: string, ledger: RawLedger, id: CoreHash, unknownField: bool)

  predicate Sha256Text(s: string) {
    |s| == 64 && forall i :: 0 <= i < |s| ==> '0' <= s[i] <= '9' || 'a' <= s[i] <= 'f'
  }

  predicate Stated(s: string, limit: nat) {
    Trim(s) != "" && |s| <= limit
  }

  predicate ApprovalValid(a: Approval) {
    Stated(a.approver, 256) && Stated(a.at, 128) && a.instant.Some? && Stated(a.note, 2048)
  }

  /** A baseline counts only with valid approval and an identity that matches its normalised content. */
  function Verified(b: Baseline): Option<Ledger> {
    var ledger := Normalized(b.ledger);
    if ledger.Some? && ApprovalValid(b.approval) && Sha256Text(b.source) && !b.unknownField
       && b.id == CoreHash(Core(b.approval, b.source, ledger.value))
    then ledger else None
  }

  function Built(c: Coverage, source: string, approval: Approval): Option<Baseline> {
    var ledger := Normalized(c.live);
    if ledger.None? || !Sha256Text(source) || !ApprovalValid(approval) then None
    else Some(Baseline(approval, source, Raw(ledger.value), CoreHash(Core(approval, source, ledger.value)), false))
  }

  /** Main result: what is built verifies, as the report's own live ledger. */
  lemma BuiltVerifies(c: Coverage, source: string, approval: Approval)
    requires Built(c, source, approval).Some?
    ensures Verified(Built(c, source, approval).value) == Normalized(c.live)
  {
    NormalizedIsWellFormed(c.live);
    NormalisationSettles(Normalized(c.live).value);
  }

  /** Two verified baselines of one identity agree in approval, source and every count. */
  lemma IdentityFixesContent(a: Baseline, b: Baseline)
    requires Verified(a).Some? && Verified(b).Some? && a.id == b.id
    ensures a.approval == b.approval && a.source == b.source && Verified(a) == Verified(b)
  {
    hide Normalized, ApprovalValid;
  }

  // ---------- comparison ----------

  predicate RouteAtLeast(current: Route, baseline: Route) {
    && current.unknownEvents >= baseline.unknownEvents && current.conversionErrors >= baseline.conversionErrors
    && current.total >= baseline.total && forall r :: Count(current.reasons, r) >= Count(baseline.reasons, r)
  }

  /** No counter has gone down. */
  predicate AtLeast(current: map<Endpoint, Route>, baseline: map<Endpoint, Route>)
    requires forall e: Endpoint :: e in current && e in baseline
  {
    forall e: Endpoint :: RouteAtLeast(current[e], baseline[e])
  }

  function ReasonIncrease(current: map<Reason, nat>, baseline: map<Reason, nat>, n: nat): nat
    requires n <= |REASONS| && forall r :: Count(current, r) >= Count(baseline, r)
  {
    if n == 0 then 0
    else ReasonIncrease(current, baseline, n - 1) + (Count(current, REASONS[n - 1]) - Count(baseline, REASONS[n - 1]))
  }

  function Increase(current: map<Endpoint, Route>, baseline: map<Endpoint, Route>, n: nat): nat
    requires (forall e: Endpoint :: e in current && e in baseline) && AtLeast(current, baseline) && n <= |ENDPOINTS|
  {
    if n == 0 then 0
    else
      var e := ENDPOINTS[n - 1];
      assert RouteAtLeast(current[e], baseline[e]);
      Increase(current, baseline, n - 1) + ReasonIncrease(current[e].reasons, baseline[e].reasons, |REASONS|)
  }

  datatype Comparison = Comparison(baselineErrors: nat, currentErrors: nat, liveErrors: nat, archivedErrors: int,
                                   newErrors: nat)

  function Judged(now: Ledger, before: Ledger, live: nat): Option<Comparison>
    requires forall e: Endpoint :: e in now.routes && e in before.routes
  {
    if !AtLeast(now.routes, before.routes) || now.errors < before.errors then None
    else
      var increase := Increase(now.routes, before.routes, |ENDPOINTS|);
      if increase > MAX_SAFE then None
      else Some(Comparison(before.errors, now.errors, live, now.errors - live, increase))
  }

  function Compared(c: Coverage, b: Baseline): Option<Comparison> {
    var current, baseline := Combined(c), Verified(b);
    if current.None? || baseline.None? then None
    else
      NormalizedIsWellFormed(c.live);
      NormalizedIsWellFormed(b.ledger);
      Judged(current.value, baseline.value, c.live.errors)
  }

  lemma {:induction false} ReasonIncreaseIsDifference(current: map<Reason, nat>, baseline: map<Reason, nat>, n: nat)
    requires n <= |REASONS| && forall r :: Count(current, r) >= Count(baseline, r)
    ensures ReasonIncrease(current, baseline, n) == ReasonSum(current, n) - ReasonSum(baseline, n)
  {
    if n > 0 {
      ReasonIncreaseIsDifference(current, baseline, n - 1);
    }
  }

  /** The counts of all reasons of the first n endpoints. */
  function ReasonsTotal(routes: map<Endpoint, Route>, n: nat): nat
    requires n <= |ENDPOINTS| && forall e: Endpoint :: e in routes
  {
    if n == 0 then 0 else ReasonsTotal(routes, n - 1) + Total(routes[ENDPOINTS[n - 1]].reasons)
  }

  lemma {:induction false} IncreaseIsDifference(current: map<Endpoint, Route>, baseline: map<Endpoint, Route>, n: nat)
    requires n <= |ENDPOINTS| && (forall e: Endpoint :: e in current && e in baseline) && AtLeast(current, baseline)
    ensures Increase(current, baseline, n) == ReasonsTotal(current, n) - ReasonsTotal(baseline, n)
  {
    if n > 0 {
      IncreaseIsDifference(current, baseline, n - 1);
      var e := ENDPOINTS[n - 1];
      assert RouteAtLeast(current[e], baseline[e]);
      ReasonIncreaseIsDifference(current[e].reasons, baseline[e].reasons, |REASONS|);
    }
  }

  lemma {:induction false} BalancedReasons(l: Ledger, n: nat)
    requires n <= |ENDPOINTS| && Balanced(l)
    ensures ReasonsTotal(l.routes, n) == EndpointSum(l.routes, n)
  {
    if n > 0 {
      BalancedReasons(l, n - 1);
    }
  }

  lemma CombinedHasRoutes(c: Coverage)
    requires Combined(c).Some?
    ensures forall e: Endpoint :: e in Combined(c).value.routes
  {
    NormalizedIsWellFormed(c.live);
    if c.archived.Some? {
      NormalizedIsWellFormed(ArchivedLedger(c.archived.value));
    }
  }

  /** What the reasons of the effective ledger add up to. */
  function EffectiveReasons(c: Coverage): nat
    requires Combined(c).Some?
  {
    CombinedHasRoutes(c);
    ReasonsTotal(Combined(c).value.routes, |ENDPOINTS|)
  }

  /** The new errors are always those of the reasons: what they add up to now, less the baseline. */
  lemma NewErrorsAreReasons(c: Coverage, b: Baseline)
    requires Compared(c, b).Some?
    ensures var r := Compared(c, b).value;
      r.newErrors == EffectiveReasons(c) - r.baselineErrors && r.currentErrors == Combined(c).value.errors
  {
    CombinedHasRoutes(c);
    NormalizedIsWellFormed(b.ledger);
    WellFormedIsBalanced(Verified(b).value);
    BalancedReasons(Verified(b).value, |ENDPOINTS|);
    hide Combined, Verified, Normalized, WellFormed, Balanced;
    IncreaseIsDifference(Combined(c).value.routes, Verified(b).value.routes, |ENDPOINTS|);
  }

  /** Main result: whenever a comparison succeeds, the new errors are current minus baseline if and only if
      the report's effective total is what its reasons add up to. */
  lemma NewErrorsAreTheDifference(c: Coverage, b: Baseline)
    requires Compared(c, b).Some?
    ensures var r := Compared(c, b).value;
      r.newErrors == r.currentErrors - r.baselineErrors <==> Combined(c).value.errors == EffectiveReasons(c)
  {
    NewErrorsAreReasons(c, b);
    hide Compared, Combined, EffectiveReasons;
  }

  /** Up to 2^53 that is always so, and current is exactly live plus archived. */
  lemma SmallLedgersAddUp(c: Coverage)
    requires Combined(c).Some? && Small(c)
    ensures Combined(c).value.errors == EffectiveReasons(c) == c.live.errors + ArchivedErrors(c)
  {
    CombinedIsExact(c);
    CombinedHasRoutes(c);
    BalancedReasons(Combined(c).value, |ENDPOINTS|);
    hide Combined, Balanced;
  }

  // ---------- the archive does not disturb the comparison ----------

  const NO_ROUTE := Route(0, 0, 0, map[])

  function LiveRoute(c: Coverage, e: Endpoint): Route
    requires Combined(c).Some?
  {
    Clean(c.live.routes[e])
  }

  function ArchivedRoute(c: Coverage, e: Endpoint): Route
    requires Combined(c).Some?
  {
    if c.archived.None? then NO_ROUTE else Clean(c.archived.value[e])
  }

  function ReasonCount(c: Coverage, e: Endpoint, r: Reason): nat
    requires Combined(c).Some?
  {
    Count(LiveRoute(c, e).reasons, r) + Count(ArchivedRoute(c, e).reasons, r)
  }

  /** Both reports hold the same counts, however they are split between live and archive. */
  ghost predicate SameCounts(c: Coverage, d: Coverage)
    requires Combined(c).Some? && Combined(d).Some?
  {
    forall e: Endpoint ::
      && LiveRoute(c, e).unknownEvents + ArchivedRoute(c, e).unknownEvents == LiveRoute(d, e).unknownEvents
        + ArchivedRoute(d, e).unknownEvents
      && LiveRoute(c, e).conversionErrors + ArchivedRoute(c, e).conversionErrors
         == LiveRoute(d, e).conversionErrors + ArchivedRoute(d, e).conversionErrors
      && forall r :: ReasonCount(c, e, r) == ReasonCount(d, e, r)
  }

  // A route whose counts are the rounded sums of two others, without zero entries.
  ghost predicate RoundsTo(s: Route, a: Route, b: Route) {
    && s.unknownEvents == Plus(a.unknownEvents, b.unknownEvents)
    && s.conversionErrors == Plus(a.conversionErrors, b.conversionErrors)
    && s.total == Plus(s.unknownEvents, s.conversionErrors)
    && (forall r :: Count(s.reasons, r) == Plus(Count(a.reasons, r), Count(b.reasons, r)))
    && forall r :: r in s.reasons ==> s.reasons[r] > 0
  }

  lemma TogetherRoute(live: Ledger, archived: Ledger, e: Endpoint)
    requires WellFormed(live) && WellFormed(archived)
    ensures e in Together(live, archived).routes
    ensures RoundsTo(Together(live, archived).routes[e], live.routes[e], archived.routes[e])
  {
    PlusRounds(live.routes[e], archived.routes[e]);
    hide PlusRoute, RoundsTo, RouteWellFormed;
  }

  lemma PlusRounds(a: Route, b: Route)
    requires RouteWellFormed(a) && RouteWellFormed(b)
    ensures RoundsTo(PlusRoute(a, b), a, b)
  {
    var s := PlusRoute(a, b);
    forall r
      ensures Count(s.reasons, r) == Plus(Count(a.reasons, r), Count(b.reasons, r))
    {
    }
  }

  lemma AloneRounds(r: Route)
    requires RouteWellFormed(r)
    ensures RoundsTo(r, r, NO_ROUTE)
  {
    forall c
      ensures Count(r.reasons, c) == Plus(Count(r.reasons, c), Count(NO_ROUTE.reasons, c))
    {
      AllReasons(c);
      CountBelowSum(r.reasons, |REASONS|, c);
    }
  }

  lemma CombinedRoute(c: Coverage, e: Endpoint)
    requires Combined(c).Some?
    ensures e in Combined(c).value.routes
    ensures RoundsTo(Combined(c).value.routes[e], LiveRoute(c, e), ArchivedRoute(c, e))
  {
    hide Together, RoundsTo, RouteWellFormed;
    NormalizedIsWellFormed(c.live);
    var live := Normalized(c.live).value;
    if c.archived.Some? {
      NormalizedIsWellFormed(ArchivedLedger(c.archived.value));
      TogetherRoute(live, Normalized(ArchivedLedger(c.archived.value)).value, e);
    } else {
      AloneRounds(live.routes[e]);
    }
  }

  // Totals of one ledger are small enough to be added without rounding.
  lemma {:induction false} SmallSum(routes: map<Endpoint, Route>, n: nat)
    requires n <= |ENDPOINTS| && (forall e: Endpoint :: e in routes) && EndpointSum(routes, |ENDPOINTS|) <= MAX_SAFE
    ensures RoundedSum(routes, n) == EndpointSum(routes, n)
  {
    if n > 0 {
      SmallSum(routes, n - 1);
      SumGrows(routes, n);
    }
  }

  /** The effective total is always the rounded sum of the effective routes. */
  lemma CombinedTotal(c: Coverage)
    requires Combined(c).Some?
    ensures (forall e: Endpoint :: e in Combined(c).value.routes)
    ensures Combined(c).value.errors == RoundedSum(Combined(c).value.routes, |ENDPOINTS|)
  {
    CombinedHasRoutes(c);
    if c.archived.None? {
      NormalizedIsWellFormed(c.live);
      SmallSum(Combined(c).value.routes, |ENDPOINTS|);
    }
  }

  lemma SameReasons(a: map<Reason, nat>, b: map<Reason, nat>)
    requires (forall r :: r in a ==> a[r] > 0) && (forall r :: r in b ==> b[r] > 0)
      && forall r :: Count(a, r) == Count(b, r)
    ensures a == b
  {
    forall r
      ensures r in a <==> r in b
      ensures r in a ==> a[r] == b[r]
    {
      assert Count(a, r) == Count(b, r);
    }
  }

  /** Main result: moving any counts between live ledger and archive changes neither the effective ledger
      nor what a comparison finds new, rounded or not. */
  lemma MovingCountsChangesNothing(c: Coverage, d: Coverage, b: Baseline)
    requires Combined(c).Some? && Combined(d).Some? && SameCounts(c, d)
    ensures Combined(c) == Combined(d)
    ensures Compared(c, b).Some? <==> Compared(d, b).Some?
    ensures Compared(c, b).Some? ==> Compared(c, b).value.newErrors == Compared(d, b).value.newErrors
  {
    SameCountsCombine(c, d);
    hide Combined, Verified, Normalized, AtLeast, Increase;
  }

  lemma SameCountsCombine(c: Coverage, d: Coverage)
    requires Combined(c).Some? && Combined(d).Some? && SameCounts(c, d)
    ensures Combined(c) == Combined(d)
  {
    hide Combined, LiveRoute, ArchivedRoute, Round;
    var x, y := Combined(c).value, Combined(d).value;
    CombinedTotal(c);
    CombinedTotal(d);
    forall e: Endpoint
      ensures x.routes[e] == y.routes[e]
    {
      CombinedRoute(c, e);
      CombinedRoute(d, e);
      forall r
        ensures Count(x.routes[e].reasons, r) == Count(y.routes[e].reasons, r)
      {
        assert ReasonCount(c, e, r) == ReasonCount(d, e, r);
      }
      SameReasons(x.routes[e].reasons, y.routes[e].reasons);
    }
    assert x.routes == y.routes;
  }

  // ---------- a report and its own baseline ----------

  lemma RoundedAtLeast(s: Route, a: Route, b: Route)
    requires RoundsTo(s, a, b) && RouteWellFormed(a)
    ensures RouteAtLeast(s, a)
  {
    RoundMonotone(a.unknownEvents, a.unknownEvents + b.unknownEvents);
    RoundMonotone(a.conversionErrors, a.conversionErrors + b.conversionErrors);
    RoundMonotone(a.total, s.unknownEvents + s.conversionErrors);
    forall r
      ensures Count(s.reasons, r) >= Count(a.reasons, r)
    {
      AllReasons(r);
      CountBelowSum(a.reasons, |REASONS|, r);
      RoundMonotone(Count(a.reasons, r), Count(a.reasons, r) + Count(b.reasons, r));
    }
  }

  lemma NothingRegressed(c: Coverage)
    requires Combined(c).Some?
    ensures forall e: Endpoint :: e in Combined(c).value.routes && e in Normalized(c.live).value.routes
    ensures AtLeast(Combined(c).value.routes, Normalized(c.live).value.routes)
  {
    NormalizedIsWellFormed(c.live);
    forall e: Endpoint
      ensures e in Combined(c).value.routes && e in Normalized(c.live).value.routes
      ensures RouteAtLeast(Combined(c).value.routes[e], Normalized(c.live).value.routes[e])
    {
      CombinedRoute(c, e);
      hide Combined;
      assert RouteWellFormed(LiveRoute(c, e));
      RoundedAtLeast(Combined(c).value.routes[e], LiveRoute(c, e), ArchivedRoute(c, e));
    }
  }

  lemma {:induction false} RoundedSumAtLeast(s: map<Endpoint, Route>, a: map<Endpoint, Route>, n: nat)
    requires n <= |ENDPOINTS| && (forall e: Endpoint :: e in s && e in a) && AtLeast(s, a)
    requires EndpointSum(a, |ENDPOINTS|) <= MAX_SAFE
    ensures RoundedSum(s, n) >= EndpointSum(a, n)
  {
    if n > 0 {
      var e := ENDPOINTS[n - 1];
      RoundedSumAtLeast(s, a, n - 1);
      SumGrows(a, n);
      assert RouteAtLeast(s[e], a[e]);
      RoundMonotone(EndpointSum(a, n), RoundedSum(s, n - 1) + s[e].total);
    }
  }

  /** Main result: a report compared with the baseline built from it succeeds and finds exactly the archived
      errors new if and only if its effective reasons add up to live plus archived. No counter can have gone
      down, so the only refusal is an increase beyond the safe integers. */
  lemma OwnBaselineFindsTheArchive(c: Coverage, source: string, approval: Approval)
    requires Combined(c).Some? && Built(c, source, approval).Some?
    ensures var r := Compared(c, Built(c, source, approval).value);
      && (r.Some? <==> EffectiveReasons(c) - c.live.errors <= MAX_SAFE)
      && (r.Some? ==>
        r.value.baselineErrors == c.live.errors && r.value.newErrors == EffectiveReasons(c) - c.live.errors)
      && ((r.Some? && r.value.newErrors == ArchivedErrors(c)) <==>
        EffectiveReasons(c) == c.live.errors + ArchivedErrors(c))
  {
    BuiltVerifies(c, source, approval);
    NormalizedIsWellFormed(c.live);
    WellFormedIsBalanced(Normalized(c.live).value);
    NothingRegressed(c);
    CombinedTotal(c);
    ArchiveIsCounted(c);
    hide Combined, Verified, Built, WellFormed, RouteAtLeast, Normalized, ArchivedErrors;
    OwnJudgement(Combined(c).value, Normalized(c.live).value);
  }

  lemma OwnJudgement(now: Ledger, before: Ledger)
    requires Balanced(before) && before.errors <= MAX_SAFE
    requires (forall e: Endpoint :: e in now.routes) && AtLeast(now.routes, before.routes)
    requires now.errors == RoundedSum(now.routes, |ENDPOINTS|)
    ensures ReasonsTotal(now.routes, |ENDPOINTS|) >= before.errors
    ensures var more := ReasonsTotal(now.routes, |ENDPOINTS|) - before.errors;
      Judged(now, before, before.errors)
        == if more > MAX_SAFE then None
          else Some(Comparison(before.errors, now.errors, before.errors, now.errors - before.errors, more))
  {
    RoundedSumAtLeast(now.routes, before.routes, |ENDPOINTS|);
    BalancedReasons(before, |ENDPOINTS|);
    hide AtLeast, Balanced;
    IncreaseIsDifference(now.routes, before.routes, |ENDPOINTS|);
  }

  lemma ArchiveIsCounted(c: Coverage)
    requires Combined(c).Some?
    ensures ArchivedErrors(c) <= MAX_SAFE && Normalized(c.live).value.errors == c.live.errors
  {
  }

  // ---------- where rounding breaks the sums ----------

  function LogsOnly(r: RawRoute): map<Endpoint, RawRoute> {
    map[OtlpLogs := r, OtlpTraces := RawRoute(0, 0, 0, map[], false), Hooks := RawRoute(0, 0, 0, map[], false)]
  }

  // The largest live count of one reason, and two archived errors of another.
  const FULL := RawRoute(MAX_SAFE, 0, MAX_SAFE, map[InvalidTool := MAX_SAFE], false)
  const TWO := RawRoute(2, 0, 2, map[MissingIdentity := 2], false)

  lemma {:induction false} SumOfOne(m: map<Reason, nat>, k: nat, n: nat)
    requires k < |REASONS| && m.Keys == {REASONS[k]} && n <= |REASONS|
    ensures ReasonSum(m, n) == if k < n then m[REASONS[k]] else 0
  {
    if n > 0 {
      SumOfOne(m, k, n - 1);
    }
  }

  lemma FullIsValid()
    ensures RouteValid(FULL) && Clean(FULL) == Route(MAX_SAFE, 0, MAX_SAFE, map[InvalidTool := MAX_SAFE])
  {
    var full: map<Reason, nat> := map[InvalidTool := MAX_SAFE];
    assert Positive(FULL.reasons) == full;
    SumOfOne(full, 5, |REASONS|);
  }

  lemma TwoIsValid()
    ensures RouteValid(TWO) && Clean(TWO) == Route(2, 0, 2, map[MissingIdentity := 2])
  {
    var two: map<Reason, nat> := map[MissingIdentity := 2];
    assert Positive(TWO.reasons) == two;
    SumOfOne(two, 4, |REASONS|);
  }

  lemma {:induction false} SumOfNone(n: nat)
    requires n <= |REASONS|
    ensures ReasonSum(map[], n) == 0
  {
    if n > 0 {
      SumOfNone(n - 1);
    }
  }

  lemma EmptyIsValid()
    ensures var empty := RawRoute(0, 0, 0, map[], false); RouteValid(empty) && Clean(empty) == NO_ROUTE
  {
    var none: map<Reason, nat> := map[];
    assert Positive(map[]) == none;
    SumOfNone(|REASONS|);
  }

  lemma LogsOnlyIsValid(r: RawRoute)
    requires RouteValid(r)
    ensures RoutesValid(LogsOnly(r)) && EndpointSum(CleanRoutes(LogsOnly(r)), |ENDPOINTS|) == r.total
    ensures CleanRoutes(LogsOnly(r))[OtlpLogs] == Clean(r)
    ensures CleanRoutes(LogsOnly(r))[OtlpTraces] == CleanRoutes(LogsOnly(r))[Hooks] == NO_ROUTE
  {
    EmptyIsValid();
    hide RouteValid, Clean;
    forall e: Endpoint
      ensures e in LogsOnly(r) && RouteValid(LogsOnly(r)[e])
    {
      match e case OtlpLogs => case OtlpTraces => case Hooks =>
    }
    LogsSum(CleanRoutes(LogsOnly(r)));
    assert Clean(r).total == r.total by { CleanTotal(r); }
  }

  lemma CleanTotal(r: RawRoute)
    requires RouteValid(r)
    ensures Clean(r).total == r.total
  {
  }

  // Sums over routes of which only the first counts anything.
  lemma LogsSum(routes: map<Endpoint, Route>)
    requires (forall e: Endpoint :: e in routes) && routes[OtlpTraces].total == routes[Hooks].total == 0
    ensures EndpointSum(routes, |ENDPOINTS|) == routes[OtlpLogs].total
    ensures routes[OtlpLogs].total <= MAX_SAFE + 1 ==> RoundedSum(routes, |ENDPOINTS|) == routes[OtlpLogs].total
    ensures Total(routes[OtlpTraces].reasons) == Total(routes[Hooks].reasons) == 0
      ==> ReasonsTotal(routes, |ENDPOINTS|) == Total(routes[OtlpLogs].reasons)
  {
    hide Total;
    assert EndpointSum(routes, 1) == routes[OtlpLogs].total && EndpointSum(routes, 2) == EndpointSum(routes, 1);
    assert RoundedSum(routes, 1) == Round(routes[OtlpLogs].total)
      && RoundedSum(routes, 2) == Round(Round(routes[OtlpLogs].total));
    assert ReasonsTotal(routes, 1) == Total(routes[OtlpLogs].reasons);
    assert ReasonsTotal(routes, 2) == ReasonsTotal(routes, 1) + Total(routes[OtlpTraces].reasons);
  }

  // The largest live ledger with two archived errors.
  function Overflowing(): Coverage {
    Coverage(RawLedger(true, true, MAX_SAFE, LogsOnly(FULL)), Some(LogsOnly(TWO)))
  }

  // A report that counts in one endpoint only, live and archived.
  predicate LogsReport(c: Coverage, live: RawRoute, archived: RawRoute) {
    c.live == RawLedger(true, true, live.total, LogsOnly(live)) && c.archived == Some(LogsOnly(archived))
  }

  lemma LogsReportCombines(c: Coverage, live: RawRoute, archived: RawRoute)
    requires RouteValid(live) && RouteValid(archived) && LogsReport(c, live, archived)
    ensures Normalized(c.live).Some? && Normalized(c.live).value.routes == CleanRoutes(LogsOnly(live))
    ensures Normalized(ArchivedLedger(c.archived.value)).Some?
    ensures Combined(c).Some?
  {
    LogsOnlyIsValid(live);
    LogsOnlyIsValid(archived);
    assert Counted(live.total) && Counted(archived.total);
    hide RouteValid, Clean, EndpointSum, CleanRoutes, RoutesValid, Together;
  }

  lemma LogsReportRoutes(c: Coverage, live: RawRoute, archived: RawRoute, e: Endpoint)
    requires RouteValid(live) && RouteValid(archived) && LogsReport(c, live, archived)
    ensures Combined(c).Some? && e in Combined(c).value.routes
    ensures e == OtlpLogs ==> RoundsTo(Combined(c).value.routes[e], Clean(live), Clean(archived))
    ensures e != OtlpLogs ==> RoundsTo(Combined(c).value.routes[e], NO_ROUTE, NO_ROUTE)
  {
    LogsReportCombines(c, live, archived);
    CombinedRoute(c, e);
    hide Combined, RoundsTo;
    LogsOnlyRoute(live, e);
    LogsOnlyRoute(archived, e);
    hide RouteValid, Clean, LogsOnly, Normalized;
  }

  lemma LogsOnlyRoute(r: RawRoute, e: Endpoint)
    requires RouteValid(r)
    ensures e in LogsOnly(r) && RouteValid(LogsOnly(r)[e])
    ensures Clean(LogsOnly(r)[e]) == if e == OtlpLogs then Clean(r) else NO_ROUTE
  {
    EmptyIsValid();
    hide RouteValid, Clean;
  }

  lemma OverflowingTotals(c: Coverage)
    requires LogsReport(c, FULL, TWO)
    ensures Combined(c).Some? && Combined(c).value.errors == MAX_SAFE + 1 && EffectiveReasons(c) == MAX_SAFE + 2
  {
    FullIsValid();
    TwoIsValid();
    hide RouteValid, Clean, LogsReport, RoundsTo, Combined;
    LogsReportRoutes(c, FULL, TWO, OtlpLogs);
    LogsReportRoutes(c, FULL, TWO, OtlpTraces);
    LogsReportRoutes(c, FULL, TWO, Hooks);
    CombinedTotal(c);
    var routes := Combined(c).value.routes;
    FullPlusTwo(routes[OtlpLogs]);
    NonePlusNone(routes[OtlpTraces]);
    NonePlusNone(routes[Hooks]);
    LogsSum(routes);
  }

  lemma FullPlusTwo(s: Route)
    requires RoundsTo(s, Route(MAX_SAFE, 0, MAX_SAFE, map[InvalidTool := MAX_SAFE]),
                      Route(2, 0, 2, map[MissingIdentity := 2]))
    ensures s.total == MAX_SAFE + 1 && Total(s.reasons) == MAX_SAFE + 2
  {
    var full: map<Reason, nat> := map[InvalidTool := MAX_SAFE];
    var two: map<Reason, nat> := map[MissingIdentity := 2];
    assert full.Keys == {REASONS[5]} && two.Keys == {REASONS[4]};
    SumOfOne(full, 5, |REASONS|);
    SumOfOne(two, 4, |REASONS|);
    forall r
      ensures Count(s.reasons, r) == Count(full, r) + Count(two, r)
    {
    }
    hide ReasonSum;
    ReasonSumPlus(full, two, s.reasons, |REASONS|);
  }

  lemma NonePlusNone(s: Route)
    requires RoundsTo(s, NO_ROUTE, NO_ROUTE)
    ensures s.total == 0 == Total(s.reasons)
  {
    var none: map<Reason, nat> := map[];
    forall r
      ensures Count(s.reasons, r) == Count(none, r)
    {
    }
    SameReasons(s.reasons, none);
    SumOfNone(|REASONS|);
  }

  /** Beyond 2^53 a comparison can succeed and still contradict itself: two archived errors on top of the
      largest live ledger are two new errors, but raise the effective total by one only. */
  lemma RoundingBreaksTheSum(source: string, approval: Approval)
    requires Sha256Text(source) && ApprovalValid(approval)
    ensures Built(Overflowing(), source, approval).Some?
    ensures var r := Compared(Overflowing(), Built(Overflowing(), source, approval).value);
      r.Some? && r.value.newErrors == 2 && r.value.currentErrors - r.value.baselineErrors == 1
  {
    var c := Overflowing();
    OverflowingTotals(c);
    assert Built(c, source, approval).Some? by {
      FullIsValid();
      TwoIsValid();
      hide RouteValid, Clean;
      LogsReportCombines(c, FULL, TWO);
    }
    hide Combined, Built, EffectiveReasons, Compared, Normalized;
    OwnBaselineFindsTheArchive(c, source, approval);
    NewErrorsAreReasons(c, Built(c, source, approval).value);
  }

  const FOUR := RawRoute(4, 0, 4, map[InvalidTool := 4], false)

  lemma FourIsValid()
    ensures RouteValid(FOUR) && Clean(FOUR) == Route(4, 0, 4, map[InvalidTool := 4])
  {
    var four: map<Reason, nat> := map[InvalidTool := 4];
    assert Positive(FOUR.reasons) == four;
    SumOfOne(four, 5, |REASONS|);
  }

  lemma FourPlusFull(s: Route)
    requires RoundsTo(s, Route(4, 0, 4, map[InvalidTool := 4]),
                      Route(MAX_SAFE, 0, MAX_SAFE, map[InvalidTool := MAX_SAFE]))
    ensures Total(s.reasons) == MAX_SAFE + 5
  {
    var one: map<Reason, nat> := map[InvalidTool := MAX_SAFE + 5];
    forall r
      ensures Count(s.reasons, r) == Count(one, r)
    {
    }
    SameReasons(s.reasons, one);
    assert one.Keys == {REASONS[5]};
    SumOfOne(one, 5, |REASONS|);
  }

  /** And a report can be refused against the baseline just built from it, though nothing went down: the
      rounded increase passes the safe integers. */
  lemma OwnBaselineMayBeRefused(c: Coverage, source: string, approval: Approval)
    requires LogsReport(c, FOUR, FULL) && Sha256Text(source) && ApprovalValid(approval)
    ensures Built(c, source, approval).Some? && Compared(c, Built(c, source, approval).value).None?
  {
    FullIsValid();
    FourIsValid();
    hide RouteValid, Clean, RoundsTo, Combined;
    LogsReportCombines(c, FOUR, FULL);
    LogsReportRoutes(c, FOUR, FULL, OtlpLogs);
    LogsReportRoutes(c, FOUR, FULL, OtlpTraces);
    LogsReportRoutes(c, FOUR, FULL, Hooks);
    CombinedHasRoutes(c);
    var routes := Combined(c).value.routes;
    FourPlusFull(routes[OtlpLogs]);
    NonePlusNone(routes[OtlpTraces]);
    NonePlusNone(routes[Hooks]);
    LogsSum(routes);
    hide Normalized, LogsReport, Built, Compared;
    assert c.live.errors == 4 by { LogsReportErrors(c, FOUR, FULL); }
    assert Built(c, source, approval).Some? by { NormalizedBuilds(c, source, approval); }
    OwnBaselineFindsTheArchive(c, source, approval);
  }

  lemma LogsReportErrors(c: Coverage, live: RawRoute, archived: RawRoute)
    requires LogsReport(c, live, archived)
    ensures c.live.errors == live.total
  {
  }

  lemma NormalizedBuilds(c: Coverage, source: string, approval: Approval)
    requires Normalized(c.live).Some? && Sha256Text(source) && ApprovalValid(approval)
    ensures Built(c, source, approval).Some?
  {
  }

  // ---------- what is accepted, field by field ----------

  function Given(m: map<Reason, int>, r: Reason): int {
    if r in m then m[r] else 0
  }

  // The ten reasons of a route added up.
  function GivenTotal(m: map<Reason, int>): int {
    Given(m, UnsupportedEvent) + Given(m, InvalidStructure) + Given(m, InvalidAttributes) + Given(m, IdentityConflict)
    + Given(m, MissingIdentity) + Given(m, InvalidTool) + Given(m, InvalidLifecycle) + Given(m, InvalidTimestamp)
    + Given(m, ConversionError) + Given(m, LegacyUnclassified)
  }

  /** A route as it must come in: no unknown reason, no negative count, and a total that is both the sum of
      its two kinds and the sum of its reasons, within the safe integers. */
  predicate RouteAccepted(raw: RawRoute) {
    && !raw.unsupportedCode && (forall r :: r in raw.reasons ==> raw.reasons[r] >= 0)
    && raw.unknownEvents >= 0 && raw.conversionErrors >= 0 && raw.total <= 0x1F_FFFF_FFFF_FFFF
    && raw.total == raw.unknownEvents + raw.conversionErrors == GivenTotal(raw.reasons)
  }

  lemma TotalIsGiven(m: map<Reason, int>)
    requires CountsValid(m)
    ensures Total(Positive(m)) == GivenTotal(m)
  {
    var p := Positive(m);
    assert forall r :: Count(p, r) == Given(m, r);
    hide Positive;
    TenReasons(p);
  }

  lemma TenReasons(p: map<Reason, nat>)
    ensures Total(p) == Count(p, UnsupportedEvent) + Count(p, InvalidStructure) + Count(p, InvalidAttributes)
                        + Count(p, IdentityConflict) + Count(p, MissingIdentity) + Count(p, InvalidTool)
                        + Count(p, InvalidLifecycle) + Count(p, InvalidTimestamp) + Count(p, ConversionError)
                        + Count(p, LegacyUnclassified)
  {
    hide Count;
    assert ReasonSum(p, 1) == Count(p, REASONS[0]);
    assert ReasonSum(p, 2) == ReasonSum(p, 1) + Count(p, REASONS[1]);
    assert ReasonSum(p, 3) == ReasonSum(p, 2) + Count(p, REASONS[2]);
    assert ReasonSum(p, 4) == ReasonSum(p, 3) + Count(p, REASONS[3]);
    assert ReasonSum(p, 5) == ReasonSum(p, 4) + Count(p, REASONS[4]);
    assert ReasonSum(p, 6) == ReasonSum(p, 5) + Count(p, REASONS[5]);
    assert ReasonSum(p, 7) == ReasonSum(p, 6) + Count(p, REASONS[6]);
    assert ReasonSum(p, 8) == ReasonSum(p, 7) + Count(p, REASONS[7]);
    assert ReasonSum(p, 9) == ReasonSum(p, 8) + Count(p, REASONS[8]);
  }

  lemma ReasonBelowTotal(m: map<Reason, int>, r: Reason)
    requires forall q :: q in m ==> m[q] >= 0
    ensures Given(m, r) <= GivenTotal(m)
  {
    assert forall q :: Given(m, q) >= 0;
    hide Given;
    match r case _ =>
  }

  lemma RouteMeans(raw: RawRoute)
    ensures RouteValid(raw) <==> RouteAccepted(raw)
  {
    if RouteAccepted(raw) {
      forall r | r in raw.reasons ensures Counted(raw.reasons[r]) {
        ReasonBelowTotal(raw.reasons, r);
      }
      TotalIsGiven(raw.reasons);
    } else if RouteValid(raw) {
      TotalIsGiven(raw.reasons);
    }
  }

  /** Main result: a ledger is accepted exactly when both flags are declared, each of the three endpoints has
      an acceptable route, and their totals add up to the declared errors; and then the normalised ledger
      has just these counts. */
  lemma AcceptedExactly(raw: RawLedger)
    ensures Normalized(raw).Some? <==>
      raw.durableScope && raw.complete && raw.errors <= 0x1F_FFFF_FFFF_FFFF
      && (forall e: Endpoint :: e in raw.routes && RouteAccepted(raw.routes[e]))
      && raw.errors == raw.routes[OtlpLogs].total + raw.routes[OtlpTraces].total + raw.routes[Hooks].total
    ensures Normalized(raw).Some? ==> var l := Normalized(raw).value;
      l.errors == raw.errors && forall e: Endpoint :: e in l.routes && RouteSays(l.routes[e], raw.routes[e])
  {
    forall e: Endpoint | e in raw.routes ensures RouteValid(raw.routes[e]) <==> RouteAccepted(raw.routes[e]) {
      RouteMeans(raw.routes[e]);
    }
    hide RouteAccepted, RouteValid;
    if RoutesValid(raw.routes) {
      ThreeEndpoints(raw.routes);
      forall e: Endpoint ensures RouteSays(Clean(raw.routes[e]), raw.routes[e]) {
        CleanSays(raw.routes[e]);
      }
    }
  }

  // The same counts, with the zero ones left out.
  predicate RouteSays(route: Route, raw: RawRoute) {
    && route.unknownEvents == raw.unknownEvents && route.conversionErrors == raw.conversionErrors
    && route.total == raw.total && (forall r :: Count(route.reasons, r) == Given(raw.reasons, r))
    && forall r :: r in route.reasons ==> route.reasons[r] > 0
  }

  lemma CleanSays(raw: RawRoute)
    requires RouteValid(raw)
    ensures RouteSays(Clean(raw), raw)
  {
  }

  lemma ThreeEndpoints(routes: map<Endpoint, RawRoute>)
    requires RoutesValid(routes)
    ensures EndpointSum(CleanRoutes(routes), |ENDPOINTS|)
      == routes[OtlpLogs].total + routes[OtlpTraces].total + routes[Hooks].total
  {
    var clean := CleanRoutes(routes);
    assert EndpointSum(clean, 1) == clean[OtlpLogs].total;
    assert EndpointSum(clean, 2) == EndpointSum(clean, 1) + clean[OtlpTraces].total;
    assert EndpointSum(clean, 3) == EndpointSum(clean, 2) + clean[Hooks].total;
    assert forall e: Endpoint :: clean[e].total == routes[e].total by {
      hide RouteValid;
    }
  }

  /** A baseline verifies exactly when its ledger is accepted, who approved it, when and why is stated within
      the limits and the time can be read, its source is a hash, it has no other field, and its identity is
      the hash of just this content. */
  lemma VerifiedExactly(b: Baseline)
    ensures Verified(b).Some? <==>
      Normalized(b.ledger).Some? && !b.unknownField
      && Trim(b.approval.approver) != "" && |b.approval.approver| <= 256
      && Trim(b.approval.at) != "" && |b.approval.at| <= 128 && b.approval.instant.Some?
      && Trim(b.approval.note) != "" && |b.approval.note| <= 2048
      && |b.source| == 64
      && (forall i :: 0 <= i < |b.source| ==> '0' <= b.source[i] <= '9' || 'a' <= b.source[i] <= 'f')
      && b.id == CoreHash(Core(b.approval, b.source, Normalized(b.ledger).value))
    ensures Verified(b).Some? ==> Verified(b) == Normalized(b.ledger)
  {
    hide Normalized, Trim;
  }

  // Some counter of the report lies below the baseline's.
  predicate WentDown(now: Route, before: Route) {
    || now.unknownEvents < before.unknownEvents || now.conversionErrors < before.conversionErrors
    || now.total < before.total || exists r :: Count(now.reasons, r) < Count(before.reasons, r)
  }

  /** Main result: a comparison is refused exactly when a ledger is not accepted, a counter of some endpoint
      or the sum of all went down, or the new errors pass the safe integers; the answer gives the
      baseline's errors, the effective ones, the live ones and their difference. */
  lemma ComparisonMeans(c: Coverage, b: Baseline)
    requires Combined(c).Some? && Verified(b).Some?
    ensures (forall e: Endpoint :: e in Combined(c).value.routes && e in Verified(b).value.routes)
    ensures var now, before := Combined(c).value, Verified(b).value;
      Compared(c, b).None? <==>
        (exists e: Endpoint :: WentDown(now.routes[e], before.routes[e])) || now.errors < before.errors
        || EffectiveReasons(c) - before.errors > 0x1F_FFFF_FFFF_FFFF
    ensures Compared(c, b).Some? ==> var r := Compared(c, b).value;
      && r.baselineErrors == b.ledger.errors && r.currentErrors == Combined(c).value.errors
      && r.liveErrors == c.live.errors && r.archivedErrors == r.currentErrors - r.liveErrors
      && r.newErrors == EffectiveReasons(c) - r.baselineErrors
  {
    CombinedHasRoutes(c);
    NormalizedIsWellFormed(b.ledger);
    WellFormedIsBalanced(Verified(b).value);
    BalancedReasons(Verified(b).value, |ENDPOINTS|);
    var now, before := Combined(c).value, Verified(b).value;
    assert before.errors == b.ledger.errors;
    forall e: Endpoint
      ensures RouteAtLeast(now.routes[e], before.routes[e]) <==> !WentDown(now.routes[e], before.routes[e])
    {
    }
    hide Combined, Verified, Normalized, WellFormed, Balanced, RouteAtLeast, WentDown;
    if AtLeast(now.routes, before.routes) {
      IncreaseIsDifference(now.routes, before.routes, |ENDPOINTS|);
    }
  }

  // ---------- the loops ----------

  method NormalizeRoute(raw: RawRoute) returns (route: Option<Route>)
    ensures route.Some? <==> RouteValid(raw)
    ensures route.Some? ==> route.value == Clean(raw)
  {
    if !Counted(raw.unknownEvents) || !Counted(raw.conversionErrors)
      || raw.unknownEvents > MAX_SAFE - raw.conversionErrors {
      return None;
    }
    if !Counted(raw.total) || raw.total != raw.unknownEvents + raw.conversionErrors || raw.unsupportedCode {
      return None;
    }
    var counted := CountReasons(raw.reasons);
    if counted.None? || Total(counted.value) != raw.total {
      return None;
    }
    route := Some(Route(raw.unknownEvents, raw.conversionErrors, raw.total, counted.value));
  }

  /** Collects the positive counts, reason by reason. */
  method CountReasons(raw: map<Reason, int>) returns (reasons: Option<map<Reason, nat>>)
    ensures reasons.Some? <==> CountsValid(raw)
    ensures reasons.Some? ==> reasons.value == Positive(raw)
  {
    var found: map<Reason, nat> := map[];
    for n := 0 to |REASONS|
      invariant forall r :: r in raw && r in REASONS[..n] ==> Counted(raw[r])
      invariant forall r :: r in found <==> r in raw && r in REASONS[..n] && raw[r] > 0
      invariant forall r :: r in found ==> found[r] == raw[r]
    {
      var r := REASONS[n];
      assert REASONS[..n + 1] == REASONS[..n] + [r];
      if r in raw {
        if !Counted(raw[r]) {
          return None;
        }
        if raw[r] > 0 {
          found := found[r := raw[r]];
        }
      }
    }
    forall r
      ensures r in REASONS[..|REASONS|]
    {
      AllReasons(r);
    }
    assert found == Positive(raw);
    reasons := Some(found);
  }

  /** Compares route by route and reason by reason, stopping at the first counter that went down. */
  method CompareQuality(c: Coverage, b: Baseline) returns (result: Option<Comparison>)
    ensures result == Compared(c, b)
  {
    var current, baseline := Combined(c), Verified(b);
    if current.None? || baseline.None? {
      return None;
    }
    NormalizedIsWellFormed(c.live);
    NormalizedIsWellFormed(b.ledger);
    var now, before := current.value, baseline.value;
    result := Judge(now, before, c.live.errors);
  }

  method Judge(now: Ledger, before: Ledger, live: nat) returns (result: Option<Comparison>)
    requires forall e: Endpoint :: e in now.routes && e in before.routes
    ensures result == Judged(now, before, live)
  {
    var increase, regressed := CompareRoutes(now.routes, before.routes);
    if regressed || increase > MAX_SAFE || now.errors < before.errors {
      return None;
    }
    result := Some(Comparison(before.errors, now.errors, live, now.errors - live, increase));
  }

  method CompareRoutes(now: map<Endpoint, Route>, before: map<Endpoint, Route>) returns (increase: nat, regressed: bool)
    requires forall e: Endpoint :: e in now && e in before
    ensures regressed <==> !AtLeast(now, before)
    ensures !regressed ==> increase == Increase(now, before, |ENDPOINTS|)
  {
    hide RouteAtLeast;
    increase, regressed := 0, false;
    for n := 0 to |ENDPOINTS|
      invariant !regressed && forall k :: 0 <= k < n ==> RouteAtLeast(now[ENDPOINTS[k]], before[ENDPOINTS[k]])
      invariant AtLeast(now, before) ==> increase == Increase(now, before, n)
    {
      var more;
      more, regressed := CompareRoute(now[ENDPOINTS[n]], before[ENDPOINTS[n]]);
      if regressed {
        return;
      }
      increase := increase + more;
    }
    forall e: Endpoint
      ensures RouteAtLeast(now[e], before[e])
    {
      var k := match e case OtlpLogs => 0 case OtlpTraces => 1 case Hooks => 2;
      assert ENDPOINTS[k] == e;
    }
  }

  method CompareRoute(now: Route, before: Route) returns (increase: nat, regressed: bool)
    ensures regressed <==> !RouteAtLeast(now, before)
    ensures !regressed ==> increase == ReasonIncrease(now.reasons, before.reasons, |REASONS|)
  {
    increase := 0;
    if now.unknownEvents < before.unknownEvents || now.conversionErrors < before.conversionErrors
      || now.total < before.total {
      return 0, true;
    }
    for n := 0 to |REASONS|
      invariant forall r :: r in REASONS[..n] ==> Count(now.reasons, r) >= Count(before.reasons, r)
      invariant RouteAtLeast(now, before) ==> increase == ReasonIncrease(now.reasons, before.reasons, n)
    {
      var r := REASONS[n];
      assert REASONS[..n + 1] == REASONS[..n] + [r];
      if Count(now.reasons, r) < Count(before.reasons, r) {
        return 0, true;
      }
      increase := increase + (Count(now.reasons, r) - Count(before.reasons, r));
    }
    forall r
      ensures r in REASONS[..|REASONS|]
    {
      AllReasons(r);
    }
    regressed := false;
  }
}
