/** The start-up orchestrator of utils/startup_lib.js: enrolment of the admin identity,
    the chaincode-readiness polling loop, the version gate, the reconciliation of the
    configured owners against the ledger, and the two-stage provisioning of owners and
    their customers. Every answer of the network, the ledger and the configuration is a
    parameter; the progress reports sent to the websocket clients are a log of events. */
module Startup {
  import opened Wrappers
  import opened CcLib

  // ---------------------------------------------------------------------------------
  // Phase reports
  // ---------------------------------------------------------------------------------

  /** The phases whose status the start-up code reports ('find_chaincode', 'register_owners'). */
  datatype Phase = FindChaincode | RegisterOwners

  datatype Status = Waiting | Polling | Success | Failed

  /** What the orchestrator does that observers or the disk can see: a phase report
      (`record_state` followed by `broadcast_state`), the removal of the key-value
      store, or the request for a general status update (`check_for_updates`). */
  datatype Event = Recorded(phase: Phase, status: Status) | KvsRemoved | UpdatesRequested

  /** The status of each phase after the given events: the last report wins. */
  function StatusOf(log: seq<Event>): map<Phase, Status>
    decreases |log|
  {
    if log == [] then map[]
    else
      var rest := StatusOf(log[..|log| - 1]);
      match log[|log| - 1]
      case Recorded(p, s) => rest[p := s]
      case _ => rest
  }

  predicate IsRegisterReport(e: Event) {
    e.Recorded? && e.phase == RegisterOwners
  }

  ghost predicate NoRegisterReports(events: seq<Event>) {
    forall i | 0 <= i < |events| :: !IsRegisterReport(events[i])
  }

  /** Every 'register_owners' report comes after a 'find_chaincode' = success report. */
  ghost predicate RegisterFollowsChaincode(events: seq<Event>) {
    forall i | 0 <= i < |events| && IsRegisterReport(events[i]) ::
      Recorded(FindChaincode, Success) in events[..i]
  }

  /** Once the chaincode has been reported found, and nothing about registration was
      reported before that, whatever follows respects the phase order. */
  lemma RegisterFollowsChaincodeAfter(a: seq<Event>, b: seq<Event>)
    requires NoRegisterReports(a) && Recorded(FindChaincode, Success) in a
    ensures RegisterFollowsChaincode(a + b)
  {
    var k :| 0 <= k < |a| && a[k] == Recorded(FindChaincode, Success);
    forall i | 0 <= i < |a + b| && IsRegisterReport((a + b)[i])
      ensures Recorded(FindChaincode, Success) in (a + b)[..i]
    {
      assert i >= |a|;
      assert (a + b)[..i][k] == a[k];
    }
  }

  /** `count` removals of the key-value store in a row. */
  function Wipes(count: nat): (w: seq<Event>)
    ensures |w| == count && forall i | 0 <= i < count :: w[i] == KvsRemoved
  {
    seq(count, _ => KvsRemoved)
  }

  /** One more removal in front of `count` removals. */
  lemma WipeMore(count: nat)
    ensures [KvsRemoved] + Wipes(count) == Wipes(count + 1)
  {
  }

  /** One report of `phase` per status, in order. */
  function Reports(phase: Phase, statuses: seq<Status>): (r: seq<Event>)
    ensures |r| == |statuses| && forall i | 0 <= i < |r| :: r[i] == Recorded(phase, statuses[i])
  {
    seq(|statuses|, i requires 0 <= i < |statuses| => Recorded(phase, statuses[i]))
  }

  /** One more report in front of a series of reports of the same phase. */
  lemma ReportMore(phase: Phase, first: Status, statuses: seq<Status>)
    ensures [Recorded(phase, first)] + Reports(phase, statuses) == Reports(phase, [first] + statuses)
  {
  }

  /** Cutting a known prefix off a log leaves what was appended to it. */
  lemma CutPrefix(log: seq<Event>, start: seq<Event>, added: seq<Event>)
    requires log == start + added
    ensures log[|start|..] == added
  {
  }

  /** Two appends in a row are one append of both parts. */
  lemma AppendInTwoSteps(log: seq<Event>, start: seq<Event>, settled: seq<Event>, added: seq<Event>, tail: seq<Event>)
    requires settled == start + added && log == settled + tail
    ensures log == start + (added + tail)
  {
  }

  /** Events that report nothing about registration can precede an ordered log. */
  lemma {:induction false} QuietPrefixKeepsOrder(a: seq<Event>, b: seq<Event>)
    requires NoRegisterReports(a) && RegisterFollowsChaincode(b)
    ensures RegisterFollowsChaincode(a + b)
  {
    forall i | 0 <= i < |a + b| && IsRegisterReport((a + b)[i])
      ensures Recorded(FindChaincode, Success) in (a + b)[..i]
    {
      assert (a + b)[i] == b[i - |a|];
      var k :| 0 <= k < i - |a| && b[..i - |a|][k] == Recorded(FindChaincode, Success);
      assert (a + b)[..i][|a| + k] == b[k];
    }
  }

  /** The chaincode reports, followed by anything at all only when the last of them
      was a success, respect the phase order. */
  lemma ReportsThenAnything(statuses: seq<Status>, tail: seq<Event>)
    requires tail == [] || (|statuses| > 0 && statuses[|statuses| - 1] == Success)
    ensures RegisterFollowsChaincode(Reports(FindChaincode, statuses) + tail)
  {
    var r := Reports(FindChaincode, statuses);
    assert NoRegisterReports(r);
    if tail == [] {
      assert r + tail == r;
    } else {
      assert r[|r| - 1] == Recorded(FindChaincode, Success);
      RegisterFollowsChaincodeAfter(r, tail);
    }
  }

  // ---------------------------------------------------------------------------------
  // Enrolment (enroll_admin)
  // ---------------------------------------------------------------------------------

  /** The identity obtained from the certificate authority (`enrollObj`). */
  datatype Identity = Identity(credential: string)

  /** The answer of one `fcw.enroll` call. */
  datatype EnrollOutcome = Enrolled(identity: Identity) | EnrollFailed(code: string)

  /** How many enrolment calls `enroll_admin(attempt)` can make at most. */
  function EnrollBudget(attempt: nat): nat {
    if attempt >= 2 then 1 else 3 - attempt
  }

  /** The number of enrolment calls made and the answer of the last one. */
  datatype EnrollRun = EnrollRun(tries: nat, last: EnrollOutcome)

  /** `enroll_admin(attempt)` given the answers of the successive enrolment calls:
      a failure below attempt 2 retries with the next attempt number. */
  function RunEnrollment(attempt: nat, outcomes: seq<EnrollOutcome>): (run: EnrollRun)
    requires |outcomes| >= EnrollBudget(attempt)
    ensures 1 <= run.tries <= EnrollBudget(attempt)
    decreases EnrollBudget(attempt)
  {
    if outcomes[0].Enrolled? || attempt >= 2 then EnrollRun(1, outcomes[0])
    else
      var rest := RunEnrollment(attempt + 1, outcomes[1..]);
      EnrollRun(rest.tries + 1, rest.last)
  }

  /** The run stops at the first success or once attempt 2 has failed: every call
      before the last failed, and a failing run made its last call at attempt 2 or later. */
  lemma {:induction false} EnrollRunStopsAtFirstSuccess(attempt: nat, outcomes: seq<EnrollOutcome>)
    requires |outcomes| >= EnrollBudget(attempt)
    ensures var run := RunEnrollment(attempt, outcomes);
      && run.last == outcomes[run.tries - 1]
      && (forall i | 0 <= i < run.tries - 1 :: outcomes[i].EnrollFailed?)
      && (run.last.EnrollFailed? ==> attempt + run.tries - 1 >= 2)
    decreases EnrollBudget(attempt)
  {
    if !(outcomes[0].Enrolled? || attempt >= 2) {
      EnrollRunStopsAtFirstSuccess(attempt + 1, outcomes[1..]);
    }
  }

  /** Started at attempt 1, as the start-up code does: at most two calls, and the
      enrolment fails exactly when both calls fail. */
  lemma EnrollFromFirstAttempt(outcomes: seq<EnrollOutcome>)
    requires |outcomes| >= 2
    ensures var run := RunEnrollment(1, outcomes);
      && run.tries <= 2
      && (run.last.EnrollFailed? <==> outcomes[0].EnrollFailed? && outcomes[1].EnrollFailed?)
      && (run.last.Enrolled? ==> run.last == outcomes[run.tries - 1])
  {
    EnrollRunStopsAtFirstSuccess(1, outcomes);
  }

  // ---------------------------------------------------------------------------------
  // Chaincode readiness and the version gate (setup_customers_lib)
  // ---------------------------------------------------------------------------------

  /** Polling continues only while the attempt counter is at most this. */
  const MaxDetectAttempts: nat := 40

  /** The text by which the peer says the chaincode container is still starting. */
  const StillStartingMarker: string := "premature execution"

  /** `part` occurs in `s` at position `i`. */
  predicate OccursAt(s: string, part: string, i: nat) {
    i + |part| <= |s| && s[i..i + |part|] == part
  }

  /** `s.indexOf(part) >= 0`. */
  predicate Contains(s: string, part: string) {
    exists i: nat | i <= |s| :: OccursAt(s, part, i)
  }

  /** A transient "not instantiated" error: a string mentioning the marker. */
  predicate StillStarting(e: JsError) {
    e.Text? && Contains(e.msg, StillStartingMarker)
  }

  /** Where the readiness check leaves the start-up: a new check scheduled, a dead end
      that waits for the operator, or the continuation called. */
  datatype Readiness = PollAgain | Halted | Ready

  /** The answers one readiness check receives: the instantiation query, and the verdict
      of the external predicate `cp.errorWithVersions` on the version query's response. */
  datatype ReadinessCheck = ReadinessCheck(instantiated: QueryOutcome, versionsIncompatible: bool)

  /** The result of one check: where it leads, the new attempt counter, the status reported. */
  datatype ReadinessStep = ReadinessStep(next: Readiness, attempt: nat, status: Status)

  /** The status reported for each outcome of a readiness check. */
  function Reported(next: Readiness): Status {
    match next
    case PollAgain => Polling
    case Halted => Failed
    case Ready => Success
  }

  /** One readiness check, starting from attempt counter `attempt`. The chaincode
      counts as missing only when the instantiation check hands back a truthy error. */
  function StepReadiness(attempt: nat, check: ReadinessCheck): (step: ReadinessStep)
    ensures var notInstantiated := CheckIfAlreadyInstantiated(check.instantiated);
      var missing := notInstantiated.Some? && ErrorTruthy(notInstantiated.value);
      && (missing ==> step.attempt == attempt + 1)
      && (!missing ==> step.attempt == 0)
      && (step.next == PollAgain <==>
            missing && attempt + 1 <= MaxDetectAttempts && StillStarting(notInstantiated.value))
      && (step.next == Ready <==> !missing && !check.versionsIncompatible)
    ensures step.status == Reported(step.next)
  {
    var counted := attempt + 1;
    var notInstantiated := CheckIfAlreadyInstantiated(check.instantiated);
    if notInstantiated.Some? && ErrorTruthy(notInstantiated.value) then
      if counted <= MaxDetectAttempts && StillStarting(notInstantiated.value) then ReadinessStep(PollAgain, counted, Polling)
      else ReadinessStep(Halted, counted, Failed)
    else if check.versionsIncompatible then ReadinessStep(Halted, 0, Failed)
    else ReadinessStep(Ready, 0, Success)
  }

  /** An empty error text is falsy: the check treats the chaincode as found, resets the
      counter and goes on to the version gate. */
  lemma EmptyErrorTextCountsAsFound(attempt: nat, versionsIncompatible: bool)
    ensures var step := StepReadiness(attempt, ReadinessCheck(QueryFailed(Text("")), versionsIncompatible));
      && step.attempt == 0
      && (step.next == Ready <==> !versionsIncompatible)
      && (versionsIncompatible ==> step.next == Halted)
  {
  }

  /** A chain of readiness checks: how many retries were scheduled, where the chain
      ended, the final attempt counter and the statuses reported along the way. */
  datatype ReadinessRun = ReadinessRun(polls: nat, final: Readiness, attempt: nat, statuses: seq<Status>)

  /** The checks run one after the other while each schedules another; when the answers
      run out while polling, a check is still scheduled (final PollAgain). */
  function RunReadiness(attempt: nat, checks: seq<ReadinessCheck>): ReadinessRun
    decreases |checks|
  {
    if checks == [] then ReadinessRun(0, PollAgain, attempt, [])
    else
      var step := StepReadiness(attempt, checks[0]);
      if step.next == PollAgain then
        var rest := RunReadiness(step.attempt, checks[1..]);
        ReadinessRun(rest.polls + 1, rest.final, rest.attempt, [step.status] + rest.statuses)
      else ReadinessRun(0, step.next, step.attempt, [step.status])
  }

  /** The polling budget: from counter `attempt`, at most 40 - attempt retries are ever
      scheduled, and never more than there were checks. */
  lemma {:induction false} PollBudget(attempt: nat, checks: seq<ReadinessCheck>)
    ensures var run := RunReadiness(attempt, checks);
      && run.polls <= |checks|
      && run.polls <= (if attempt <= MaxDetectAttempts then MaxDetectAttempts - attempt else 0)
    decreases |checks|
  {
    if checks != [] {
      var step := StepReadiness(attempt, checks[0]);
      if step.next == PollAgain {
        PollBudget(step.attempt, checks[1..]);
      }
    }
  }

  /** Every check but the last reported 'polling'; a chain that ended reported 'success'
      exactly when it reached the continuation, with the counter reset to 0. */
  lemma {:induction false} ReadinessReports(attempt: nat, checks: seq<ReadinessCheck>)
    ensures var run := RunReadiness(attempt, checks);
      && |run.statuses| == (if checks == [] then 0 else run.polls + (if run.final == PollAgain then 0 else 1))
      && (forall i | 0 <= i < run.polls :: run.statuses[i] == Polling)
      && (run.final != PollAgain ==> run.statuses[|run.statuses| - 1] == Reported(run.final))
      && (run.final == Ready ==> run.attempt == 0)
    decreases |checks|
  {
    if checks != [] {
      var step := StepReadiness(attempt, checks[0]);
      if step.next == PollAgain {
        ReadinessReports(step.attempt, checks[1..]);
        var rest := RunReadiness(step.attempt, checks[1..]);
        assert RunReadiness(attempt, checks).statuses == [Polling] + rest.statuses;
      }
    }
  }

  /** A chaincode that keeps answering "premature execution" from counter `attempt`
      (at most 40) gets exactly 40 - attempt retries and then fails for good. */
  lemma {:induction false} PersistentStartupFails(attempt: nat, checks: seq<ReadinessCheck>)
    requires attempt <= MaxDetectAttempts && |checks| > MaxDetectAttempts - attempt
    requires forall i | 0 <= i < |checks| :: checks[i].instantiated.QueryFailed? && StillStarting(checks[i].instantiated.err)
    ensures var run := RunReadiness(attempt, checks);
      run.final == Halted && run.polls == MaxDetectAttempts - attempt && run.attempt == MaxDetectAttempts + 1
    decreases MaxDetectAttempts - attempt
  {
    if attempt < MaxDetectAttempts {
      assert StepReadiness(attempt, checks[0]).next == PollAgain;
      PersistentStartupFails(attempt + 1, checks[1..]);
    }
  }

  /** Three "still starting" answers followed by a found, compatible chaincode: three
      retries, then the continuation, with the counter back at 0. */
  lemma ThreePollsThenReady(pending: ReadinessCheck, found: ReadinessCheck)
    requires pending.instantiated.QueryFailed? && StillStarting(pending.instantiated.err)
    requires found == ReadinessCheck(QueryAnswered(Numeric), false)
    ensures var run := RunReadiness(0, [pending, pending, pending, found]);
      run.polls == 3 && run.final == Ready && run.attempt == 0
      && run.statuses == [Polling, Polling, Polling, Success]
  {
    var checks := [pending, pending, pending, found];
    assert checks[1..] == [pending, pending, found];
    assert checks[1..][1..] == [pending, found];
    assert checks[1..][1..][1..] == [found];
    assert StepReadiness(0, pending) == ReadinessStep(PollAgain, 1, Polling);
    assert StepReadiness(1, pending) == ReadinessStep(PollAgain, 2, Polling);
    assert StepReadiness(2, pending) == ReadinessStep(PollAgain, 3, Polling);
    assert StepReadiness(3, found) == ReadinessStep(Ready, 0, Success);
    assert RunReadiness(3, [found]) == ReadinessRun(0, Ready, 0, [Success]);
    assert RunReadiness(2, [pending, found]) == ReadinessRun(1, Ready, 0, [Polling, Success]);
    assert RunReadiness(1, [pending, pending, found]) == ReadinessRun(2, Ready, 0, [Polling, Polling, Success]);
  }

  // ---------------------------------------------------------------------------------
  // Reconciliation with the ledger (detect_prev_startup, detectCompany, find_missing_owners)
  // ---------------------------------------------------------------------------------

  /** An owner as `read_everything` lists it. */
  datatype LedgerOwner = LedgerOwner(id: string, username: string, company: string)

  /** The `parsed` part of a `read_everything` answer. */
  datatype Snapshot = Snapshot(owners: seq<LedgerOwner>)

  /** A `read_everything` response; `parsed` may be missing. */
  datatype LedgerResponse = LedgerResponse(parsed: Option<Snapshot>)

  /** The outcome of reading the whole ledger. */
  datatype LedgerRead = ReadFailed(err: JsError) | ReadOk(resp: LedgerResponse)

  /** Whether some owner belongs to `company`. */
  function CompanyAmong(owners: seq<LedgerOwner>, company: string): (found: bool)
    ensures found <==> exists i | 0 <= i < |owners| :: owners[i].company == company
  {
    if owners == [] then false
    else if owners[0].company == company then true
    else
      var rest := CompanyAmong(owners[1..], company);
      assert rest ==> exists i | 0 <= i < |owners| :: owners[i].company == company by {
        if rest {
          var j :| 0 <= j < |owners[1..]| && owners[1..][j].company == company;
          assert owners[j + 1].company == company;
        }
      }
      rest
  }

  /** `detectCompany`: the ledger answer lists an owner of the configured company. */
  function DetectCompany(data: Option<LedgerResponse>, company: string): (found: bool)
    ensures found <==>
      data.Some? && data.value.parsed.Some? &&
      exists i | 0 <= i < |data.value.parsed.value.owners| :: data.value.parsed.value.owners[i].company == company
  {
    match data
    case None => false
    case Some(r) => r.parsed.Some? && CompanyAmong(r.parsed.value.owners, company)
  }

  /** Some ledger owner has exactly this username. */
  predicate Registered(owners: seq<LedgerOwner>, username: string) {
    exists i | 0 <= i < |owners| :: owners[i].username == username
  }

  /** Some configured username has no owner on the ledger. */
  predicate SomeUserMissing(users: seq<string>, owners: seq<LedgerOwner>) {
    exists x | 0 <= x < |users| :: !Registered(owners, users[x])
  }

  /** The owners `find_missing_owners` searches: none when there is no response. */
  function LedgerOwners(resp: Option<LedgerResponse>): seq<LedgerOwner>
    requires resp.Some? ==> resp.value.parsed.Some?
  {
    if resp.None? then [] else resp.value.parsed.value.owners
  }

  /** `find_missing_owners`: scans the configured usernames and, for each, the ledger
      owners; answers true at the first username nobody on the ledger has. The source
      dereferences `parsed.owners`, so a present response must carry `parsed`. */
  method FindMissingOwners(resp: Option<LedgerResponse>, users: seq<string>) returns (missing: bool)
    requires resp.Some? ==> resp.value.parsed.Some?
    ensures missing <==> SomeUserMissing(users, LedgerOwners(resp))
  {
    var owners := LedgerOwners(resp);
    var x := 0;
    while x < |users|
      invariant 0 <= x <= |users|
      invariant forall y | 0 <= y < x :: Registered(owners, users[y])
    {
      var found := false;
      var i := 0;
      while i < |owners|
        invariant 0 <= i <= |owners|
        invariant !found
        invariant forall j | 0 <= j < i :: owners[j].username != users[x]
      {
        if users[x] == owners[i].username {
          found := true;
          break;
        }
        i := i + 1;
      }
      if !found {
        assert !Registered(owners, users[x]);
        return true;
      }
      x := x + 1;
    }
    return false;
  }

  /** Whether `detect_prev_startup` asks for owners to be created (`cb(true)`): the ledger
      could not be read, no owner of the company is listed, or a configured user is missing. */
  function NeedsOwners(read: LedgerRead, users: seq<string>, company: string): (needed: bool)
    ensures !needed <==>
      && read.ReadOk?
      && read.resp.parsed.Some?
      && (exists i | 0 <= i < |read.resp.parsed.value.owners| :: read.resp.parsed.value.owners[i].company == company)
      && (forall x | 0 <= x < |users| :: Registered(read.resp.parsed.value.owners, users[x]))
  {
    match read
    case ReadFailed(_) => true
    case ReadOk(resp) =>
      !DetectCompany(Some(resp), company) || SomeUserMissing(users, resp.parsed.value.owners)
  }

  /** The scenario of a ledger that lists alice of the company but not bob. */
  lemma BobMissing(company: string, aliceId: string)
    ensures NeedsOwners(ReadOk(LedgerResponse(Some(Snapshot([LedgerOwner(aliceId, "alice", company)])))),
                        ["alice", "bob"], company)
  {
    var owners := [LedgerOwner(aliceId, "alice", company)];
    assert !Registered(owners, ["alice", "bob"][1]);
  }

  // ---------------------------------------------------------------------------------
  // Provisioning (create_assets, build_customer_options)
  // ---------------------------------------------------------------------------------

  /** Customers created for each owner. */
  const CustomersEach: nat := 3

  const Colors: seq<string> := ["white", "green", "blue", "purple", "red", "pink", "orange", "black", "yellow"]
  const Sizes: seq<string> := ["35", "16"]

  /** An owner created in this run: the id handed back by `register_owner`, and the username. */
  datatype OwnerRecord = OwnerRecord(id: string, username: string)

  /** The customer list of `create_assets`: every owner repeated three times in a row. */
  method ExpandCustomers(owners: seq<OwnerRecord>) returns (customers: seq<OwnerRecord>)
    ensures |customers| == CustomersEach * |owners|
    ensures forall j | 0 <= j < |customers| :: customers[j] == owners[j / CustomersEach]
  {
    customers := [];
    var i := 0;
    while i < |owners|
      invariant 0 <= i <= |owners|
      invariant |customers| == CustomersEach * i
      invariant forall j | 0 <= j < |customers| :: customers[j] == owners[j / CustomersEach]
    {
      var x := 0;
      while x < CustomersEach
        invariant 0 <= x <= CustomersEach
        invariant |customers| == CustomersEach * i + x
        invariant forall j | 0 <= j < |customers| :: customers[j] == owners[j / CustomersEach]
      {
        assert (CustomersEach * i + x) / CustomersEach == i;
        customers := customers + [owners[i]];
        x := x + 1;
      }
      i := i + 1;
    }
  }

  /** `build_customer_options`: a colour picked by a hash (`misc.simple_hash`, taken as
      a natural number), a size picked by a random index below 2 (`misc.getRandomInt`),
      the owner's id and the configured company. */
  function BuildCustomerOptions(id: string, company: string, colorHash: nat, sizeIndex: nat): (args: CustomerArgs)
    requires sizeIndex < |Sizes|
    ensures args.color in Colors && args.size in Sizes
    ensures args.ownerId == id && args.authCompany == company
  {
    CustomerArgs(Colors[colorHash % |Colors|], Sizes[sizeIndex], id, company)
  }

  /** The inputs of one owner creation: its key draw and the invoke's answer. */
  datatype OwnerCreation = OwnerCreation(key: KeyDraw, err: Option<JsError>, resp: Option<InvokeResponse>)

  /** The inputs of one customer creation: its key draw, the size index and the
      invoke's answer. */
  datatype CustomerCreation = CustomerCreation(key: KeyDraw, sizeIndex: nat,
                                               err: Option<JsError>, resp: Option<InvokeResponse>)

  predicate ValidOwnerCalls(calls: seq<OwnerCreation>) {
    forall k | 0 <= k < |calls| :: ValidDraw(calls[k].key)
  }

  predicate ValidCustomerCalls(calls: seq<CustomerCreation>) {
    forall j | 0 <= j < |calls| :: ValidDraw(calls[j].key) && calls[j].sizeIndex < |Sizes|
  }

  /** The `init_customer` request `create_customers` issues for one customer of `owner`. */
  function CustomerRequest(owner: OwnerRecord, company: string, colorHash: nat, c: CustomerCreation): (request: InvokeRequest)
    requires ValidDraw(c.key) && c.sizeIndex < |Sizes|
    ensures request.ccFunction == "init_customer"
    ensures |request.ccArgs| == 5 && request.ccArgs[0] == CustomerKey(c.key) && request.ccArgs[3] == owner.id
    ensures request.ccArgs[1] == Colors[colorHash % |Colors|] && request.ccArgs[4] == company
  {
    CreateACustomer(BuildCustomerOptions(owner.id, company, colorHash, c.sizeIndex), c.key, c.err, c.resp).request
  }

  /** The usernames of a possibly absent list. */
  function Usernames(users: Option<seq<string>>): seq<string> {
    if users.None? then [] else users.value
  }

  /** One more owner record keeps the loop's correspondence with the creation answers. */
  lemma OwnersGrow(owners: seq<OwnerRecord>, names: seq<string>, ownerCalls: seq<OwnerCreation>, record: OwnerRecord)
    requires |owners| < |names| == |ownerCalls| && ValidOwnerCalls(ownerCalls)
    requires forall m | 0 <= m < |owners| :: owners[m] == OwnerRecord(OwnerKey(ownerCalls[m].key), names[m])
    requires record == OwnerRecord(OwnerKey(ownerCalls[|owners|].key), names[|owners|])
    ensures forall m | 0 <= m < |owners| + 1 ::
      (owners + [record])[m] == OwnerRecord(OwnerKey(ownerCalls[m].key), names[m])
  {
  }

  /** One more customer request keeps the loop's correspondence with the creation answers. */
  lemma RequestsGrow(issued: seq<InvokeRequest>, owners: seq<OwnerRecord>, company: string, colorHash: nat,
                     customerCalls: seq<CustomerCreation>, request: InvokeRequest)
    requires |issued| < |customerCalls| == CustomersEach * |owners| && ValidCustomerCalls(customerCalls)
    requires forall m | 0 <= m < |issued| ::
      issued[m] == CustomerRequest(owners[m / CustomersEach], company, colorHash, customerCalls[m])
    requires request == CustomerRequest(owners[|issued| / CustomersEach], company, colorHash, customerCalls[|issued|])
    ensures forall m | 0 <= m < |issued| + 1 ::
      (issued + [request])[m] == CustomerRequest(owners[m / CustomersEach], company, colorHash, customerCalls[m])
  {
  }

  /** The owner stage of `create_assets`: one `init_owner` per username; the id the
      invoke callback hands back is recorded whatever the invoke reported. */
  method CreateOwnerRecords(names: seq<string>, company: string, ownerCalls: seq<OwnerCreation>)
    returns (owners: seq<OwnerRecord>)
    requires |ownerCalls| == |names| && ValidOwnerCalls(ownerCalls)
    ensures |owners| == |names|
    ensures forall k | 0 <= k < |owners| :: owners[k] == OwnerRecord(OwnerKey(ownerCalls[k].key), names[k])
  {
    owners := [];
    var k := 0;
    while k < |names|
      invariant 0 <= k <= |names|
      invariant |owners| == k
      invariant forall m | 0 <= m < k :: owners[m] == OwnerRecord(OwnerKey(ownerCalls[m].key), names[m])
    {
      var call := RegisterOwner(names[k], company, ownerCalls[k].key, ownerCalls[k].err, ownerCalls[k].resp);
      var record := OwnerRecord(call.reply.resp.id.value, names[k]);
      assert record == OwnerRecord(OwnerKey(ownerCalls[k].key), names[k]);
      OwnersGrow(owners, names, ownerCalls, record);
      owners := owners + [record];
      k := k + 1;
    }
  }

  /** The customer stage of `create_assets`: the customer list, then one `init_customer`
      per entry, each pointing at the id of the owner it was copied from. The colour hash
      is the same for every customer, so they all get the same colour. */
  method CreateCustomerRequests(owners: seq<OwnerRecord>, company: string, colorHash: nat,
                                customerCalls: seq<CustomerCreation>)
    returns (issued: seq<InvokeRequest>)
    requires |customerCalls| == CustomersEach * |owners| && ValidCustomerCalls(customerCalls)
    ensures |issued| == CustomersEach * |owners|
    ensures forall j | 0 <= j < |issued| ::
      issued[j] == CustomerRequest(owners[j / CustomersEach], company, colorHash, customerCalls[j])
    ensures forall j | 0 <= j < |issued| :: |issued[j].ccArgs| == 5 && issued[j].ccArgs[1] == Colors[colorHash % |Colors|]
  {
    var customers := ExpandCustomers(owners);
    issued := [];
    var j := 0;
    while j < |customers|
      invariant 0 <= j <= |customers|
      invariant |issued| == j
      invariant forall m | 0 <= m < j ::
        issued[m] == CustomerRequest(owners[m / CustomersEach], company, colorHash, customerCalls[m])
    {
      var c := customerCalls[j];
      var options := BuildCustomerOptions(customers[j].id, company, colorHash, c.sizeIndex);
      var call := CreateACustomer(options, c.key, c.err, c.resp);
      assert call.request == CustomerRequest(owners[j / CustomersEach], company, colorHash, c);
      RequestsGrow(issued, owners, company, colorHash, customerCalls, call.request);
      issued := issued + [call.request];
      j := j + 1;
    }
  }


  // ---------------------------------------------------------------------------------
  // The websocket set-up messages (setup_ws_steps)
  // ---------------------------------------------------------------------------------

  /** The `configure` field of a set-up message; 'register' carries its username list. */
  datatype WsMessage =
    | ConfigureEnrollment
    | ConfigureFindChaincode
    | ConfigureRegister(buildCustomerOwners: Option<seq<string>>)
    | OtherMessage

  /** Everything the outside world answers during one set-up run. */
  datatype Environment = Environment(
    enrollments: seq<EnrollOutcome>,
    checks: seq<ReadinessCheck>,
    ledger: LedgerRead,
    configuredUsers: Option<seq<string>>,
    company: string,
    ownerCalls: seq<OwnerCreation>,
    customerCalls: seq<CustomerCreation>)

  /** The username list provisioning would be given for this message. */
  function ProvisionList(msg: WsMessage, env: Environment): Option<seq<string>> {
    if msg.ConfigureRegister? then msg.buildCustomerOwners else env.configuredUsers
  }

  /** The answers suffice for the run: two enrolment answers, one creation answer per
      owner and per customer, well-formed random draws. */
  predicate EnvironmentFits(msg: WsMessage, env: Environment) {
    && |env.enrollments| >= EnrollBudget(1)
    && var names := Usernames(ProvisionList(msg, env));
    && |env.ownerCalls| == |names| && ValidOwnerCalls(env.ownerCalls)
    && |env.customerCalls| == CustomersEach * |names| && ValidCustomerCalls(env.customerCalls)
  }

  /** Whether a message leads to `create_assets`, from attempt counter `attempt`. */
  function ReachesProvisioning(msg: WsMessage, attempt: nat, env: Environment): bool
    requires EnvironmentFits(msg, env)
  {
    match msg
    case OtherMessage => false
    case ConfigureRegister(_) => true
    case _ =>
      && RunEnrollment(1, env.enrollments).last.Enrolled?
      && RunReadiness(attempt, env.checks).final == Ready
      && NeedsOwners(env.ledger, Usernames(env.configuredUsers), env.company)
  }

  /** What `create_assets` produces for the usernames `names`: one owner per username,
      holding the key its creation handed back, and three customer requests per owner,
      each pointing at that owner's id. */
  predicate ProvisionedAs(names: seq<string>, company: string, colorHash: nat,
                          ownerCalls: seq<OwnerCreation>, customerCalls: seq<CustomerCreation>,
                          owners: seq<OwnerRecord>, issued: seq<InvokeRequest>)
    requires |ownerCalls| == |names| && ValidOwnerCalls(ownerCalls)
    requires |customerCalls| == CustomersEach * |names| && ValidCustomerCalls(customerCalls)
  {
    && |owners| == |names|
    && (forall k | 0 <= k < |owners| :: owners[k] == OwnerRecord(OwnerKey(ownerCalls[k].key), names[k]))
    && |issued| == CustomersEach * |owners|
    && (forall j | 0 <= j < |issued| ::
          issued[j] == CustomerRequest(owners[j / CustomersEach], company, colorHash, customerCalls[j]))
  }

  /** The two events of `all_done`. */
  const AllDoneEvents: seq<Event> := [Recorded(RegisterOwners, Success), UpdatesRequested]

  /** The report of `detect_prev_startup`: none after a failed read. */
  function DetectReport(read: LedgerRead, users: seq<string>, company: string): seq<Event> {
    if read.ReadFailed? then []
    else [Recorded(RegisterOwners, if NeedsOwners(read, users, company) then Waiting else Success)]
  }

  /** The events of the continuation: the reconciliation report, then those of
      `all_done` when owners are created. */
  function ReconcileEvents(env: Environment): seq<Event> {
    var users := Usernames(env.configuredUsers);
    DetectReport(env.ledger, users, env.company)
      + (if NeedsOwners(env.ledger, users, env.company) then AllDoneEvents else [])
  }

  /** The events after a successful enrolment: one chaincode report per check, then the
      continuation's events only when the chaincode was found and compatible. */
  function AwaitEvents(attempt: nat, env: Environment): seq<Event> {
    var run := RunReadiness(attempt, env.checks);
    Reports(FindChaincode, run.statuses) + (if run.final == Ready then ReconcileEvents(env) else [])
  }

  /** The events of the start-up chain: a key-store removal before each enrolment retry,
      then, once enrolled, the events after enrolment. */
  function StartupEvents(attempt: nat, env: Environment): seq<Event>
    requires |env.enrollments| >= EnrollBudget(1)
  {
    var enrol := RunEnrollment(1, env.enrollments);
    Wipes(enrol.tries - 1) + (if enrol.last.Enrolled? then AwaitEvents(attempt, env) else [])
  }

  /** The events `setup_ws_steps` produces for a message. */
  function WsEvents(msg: WsMessage, attempt: nat, env: Environment): seq<Event>
    requires EnvironmentFits(msg, env)
  {
    match msg
    case OtherMessage => []
    case ConfigureRegister(_) => AllDoneEvents
    case ConfigureFindChaincode => StartupEvents(attempt, env)
    case ConfigureEnrollment => [KvsRemoved] + StartupEvents(attempt, env)
  }

  /** Whether the message runs the start-up chain and the enrolment in it succeeds. */
  predicate EnrolsAdmin(msg: WsMessage, env: Environment)
    requires EnvironmentFits(msg, env)
  {
    (msg.ConfigureEnrollment? || msg.ConfigureFindChaincode?) && RunEnrollment(1, env.enrollments).last.Enrolled?
  }

  /** `cc_detect_attempt` after a message: moved by the readiness checks once enrolled. */
  function AttemptAfter(msg: WsMessage, attempt: nat, env: Environment): nat
    requires EnvironmentFits(msg, env)
  {
    if EnrolsAdmin(msg, env) then RunReadiness(attempt, env.checks).attempt else attempt
  }

  /** `enrollObj` after a message: the new identity once enrolled, otherwise the one held. */
  function EnrollmentAfter(msg: WsMessage, held: Option<Identity>, env: Environment): Option<Identity>
    requires EnvironmentFits(msg, env)
  {
    if EnrolsAdmin(msg, env) then Some(RunEnrollment(1, env.enrollments).last.identity) else held
  }

  /** For 'enrollment' and 'find_chaincode', every 'register_owners' report follows a
      'find_chaincode' = success report. */
  lemma StartupChainRespectsPhaseOrder(msg: WsMessage, attempt: nat, env: Environment)
    requires EnvironmentFits(msg, env) && (msg.ConfigureEnrollment? || msg.ConfigureFindChaincode?)
    ensures RegisterFollowsChaincode(WsEvents(msg, attempt, env))
  {
    var enrol := RunEnrollment(1, env.enrollments);
    var wipes := Wipes(enrol.tries - 1);
    assert NoRegisterReports(wipes);
    var rest: seq<Event> := [];
    if enrol.last.Enrolled? {
      var run := RunReadiness(attempt, env.checks);
      ReadinessReports(attempt, env.checks);
      var tail := if run.final == Ready then ReconcileEvents(env) else [];
      ReportsThenAnything(run.statuses, tail);
      rest := AwaitEvents(attempt, env);
    }
    QuietPrefixKeepsOrder(wipes, rest);
    assert StartupEvents(attempt, env) == wipes + rest;
    if msg.ConfigureEnrollment? {
      assert NoRegisterReports([KvsRemoved]);
      QuietPrefixKeepsOrder([KvsRemoved], wipes + rest);
    }
  }

  /** A log extended by the start-up chain's events keeps the phase order in the part
      appended. */
  lemma OrderedAfter(log: seq<Event>, start: seq<Event>, msg: WsMessage, attempt: nat, env: Environment)
    requires EnvironmentFits(msg, env) && (msg.ConfigureEnrollment? || msg.ConfigureFindChaincode?)
    requires log == start + WsEvents(msg, attempt, env)
    ensures RegisterFollowsChaincode(log[|start|..])
  {
    StartupChainRespectsPhaseOrder(msg, attempt, env);
    CutPrefix(log, start, WsEvents(msg, attempt, env));
  }

  /** A readiness chain that does not reach the continuation reports nothing about
      registration and provisions nothing. */
  lemma HaltedChainRegistersNothing(msg: WsMessage, attempt: nat, env: Environment)
    requires EnvironmentFits(msg, env) && (msg.ConfigureEnrollment? || msg.ConfigureFindChaincode?)
    requires RunReadiness(attempt, env.checks).final != Ready
    ensures NoRegisterReports(WsEvents(msg, attempt, env))
    ensures !ReachesProvisioning(msg, attempt, env)
  {
    var enrol := RunEnrollment(1, env.enrollments);
    var run := RunReadiness(attempt, env.checks);
    var events := Wipes(enrol.tries - 1) + (if enrol.last.Enrolled? then Reports(FindChaincode, run.statuses) else []);
    assert AwaitEvents(attempt, env) == Reports(FindChaincode, run.statuses) + [];
    assert StartupEvents(attempt, env) == events;
    assert NoRegisterReports(events);
  }

  /** The version gate: a found chaincode whose versions are incompatible ends the chain
      with 'find_chaincode' = failed, and the continuation is never called. */
  lemma VersionGateStopsChain(msg: WsMessage, attempt: nat, env: Environment)
    requires EnvironmentFits(msg, env) && (msg.ConfigureEnrollment? || msg.ConfigureFindChaincode?)
    requires |env.checks| > 0 && CheckIfAlreadyInstantiated(env.checks[0].instantiated) == None
    requires env.checks[0].versionsIncompatible
    ensures RunReadiness(attempt, env.checks).final == Halted
    ensures RunReadiness(attempt, env.checks).statuses == [Failed]
    ensures NoRegisterReports(WsEvents(msg, attempt, env))
    ensures !ReachesProvisioning(msg, attempt, env)
  {
    HaltedChainRegistersNothing(msg, attempt, env);
  }

  /** A 'register' message provisions without any chaincode report: the phase order
      holds only for the 'enrollment' and 'find_chaincode' messages. */
  lemma RegisterMessageSkipsChaincode(list: Option<seq<string>>, attempt: nat, env: Environment)
    requires EnvironmentFits(ConfigureRegister(list), env)
    ensures !RegisterFollowsChaincode(WsEvents(ConfigureRegister(list), attempt, env))
  {
    var events := WsEvents(ConfigureRegister(list), attempt, env);
    assert IsRegisterReport(events[0]) && events[..0] == [];
  }

  // ---------------------------------------------------------------------------------
  // The orchestrator
  // ---------------------------------------------------------------------------------

  /** The module-level state of startup_lib.js and the phase statuses it reports. */
  class Orchestrator {
    /** `cc_detect_attempt`. */
    var ccDetectAttempt: nat
    /** `enrollObj`; None before the first enrolment. */
    var enrollment: Option<Identity>
    /** The status of each phase as last reported. */
    var phases: map<Phase, Status>
    /** Everything reported or done so far. */
    ghost var log: seq<Event>
    /** `misc.simple_hash(more_entropy + company)`, which picks every customer's colour:
        `more_entropy` is drawn once when the module is loaded and the company is fixed
        for the process, so the value is the same for every customer created. */
    const colorHash: nat

    ghost predicate Valid()
      reads this
    {
      phases == StatusOf(log)
    }

    constructor (colorHash: nat)
      ensures Valid()
      ensures ccDetectAttempt == 0 && enrollment == None && phases == map[] && log == []
      ensures this.colorHash == colorHash
    {
      this.colorHash := colorHash;
      ccDetectAttempt := 0;
      enrollment := None;
      phases := map[];
      log := [];
    }

    /** `ws_server.record_state(phase, status)` followed by `broadcast_state()`. */
    method RecordState(phase: Phase, status: Status)
      requires Valid()
      modifies this`phases, this`log
      ensures Valid()
      ensures phases == old(phases)[phase := status]
      ensures log == old(log) + [Recorded(phase, status)]
    {
      assert (log + [Recorded(phase, status)])[..|log|] == log;
      log := log + [Recorded(phase, status)];
      phases := phases[phase := status];
    }

    /** `removeKVS`: deletes the key-value store holding the enrolment material. */
    method RemoveKvs()
      requires Valid()
      modifies this`log
      ensures Valid()
      ensures log == old(log) + [KvsRemoved]
    {
      assert (log + [KvsRemoved])[..|log|] == log;
      log := log + [KvsRemoved];
    }

    /** `ws_server.check_for_updates(null)`. */
    method CheckForUpdates()
      requires Valid()
      modifies this`log
      ensures Valid()
      ensures log == old(log) + [UpdatesRequested]
    {
      assert (log + [UpdatesRequested])[..|log|] == log;
      log := log + [UpdatesRequested];
    }

    /** `enroll_admin(attempt, cb)`: the returned error is what `cb` receives. A failure
        below attempt 2 removes the key-value store and tries again with attempt + 1;
        a success replaces the held identity. */
    method EnrollAdmin(attempt: nat, outcomes: seq<EnrollOutcome>) returns (err: Option<string>)
      requires Valid()
      requires |outcomes| >= EnrollBudget(attempt)
      modifies this`enrollment, this`log
      ensures Valid()
      ensures var run := RunEnrollment(attempt, outcomes);
        && (run.last.EnrollFailed? ==> err == Some(run.last.code) && enrollment == old(enrollment))
        && (run.last.Enrolled? ==> err == None && enrollment == Some(run.last.identity))
        && log == old(log) + Wipes(run.tries - 1)
      decreases EnrollBudget(attempt)
    {
      match outcomes[0]
      case Enrolled(identity) =>
        enrollment := Some(identity);
        err := None;
      case EnrollFailed(code) =>
        if attempt >= 2 {
          err := Some(code);
        } else {
          ghost var rest := RunEnrollment(attempt + 1, outcomes[1..]);
          assert RunEnrollment(attempt, outcomes) == EnrollRun(rest.tries + 1, rest.last);
          RemoveKvs();
          ghost var removed := log;
          err := EnrollAdmin(attempt + 1, outcomes[1..]);
          WipeMore(rest.tries - 1);
          AppendInTwoSteps(log, old(log), removed, [KvsRemoved], Wipes(rest.tries - 1));
        }
    }

    /** `setup_customers_lib`: counts the check, classifies the instantiation query and,
        when the chaincode is there, resets the counter and applies the version gate. */
    method SetupCustomersLib(check: ReadinessCheck) returns (next: Readiness)
      requires Valid()
      modifies this`ccDetectAttempt, this`phases, this`log
      ensures Valid()
      ensures var step := StepReadiness(old(ccDetectAttempt), check);
        && next == step.next
        && ccDetectAttempt == step.attempt
        && log == old(log) + [Recorded(FindChaincode, step.status)]
    {
      ccDetectAttempt := ccDetectAttempt + 1;
      var notInstantiated := CheckIfAlreadyInstantiated(check.instantiated);
      if notInstantiated.Some? && ErrorTruthy(notInstantiated.value) {
        if ccDetectAttempt <= MaxDetectAttempts && StillStarting(notInstantiated.value) {
          RecordState(FindChaincode, Polling);
          next := PollAgain;
        } else {
          RecordState(FindChaincode, Failed);
          next := Halted;
        }
      } else {
        ccDetectAttempt := 0;
        if check.versionsIncompatible {
          RecordState(FindChaincode, Failed);
          next := Halted;
        } else {
          RecordState(FindChaincode, Success);
          next := Ready;
        }
      }
    }

    /** The readiness checks as the timer re-runs them: each check that answers
        PollAgain is followed by the next one, until the answers run out. */
    method AwaitChaincode(checks: seq<ReadinessCheck>) returns (next: Readiness, polls: nat)
      requires Valid()
      modifies this`ccDetectAttempt, this`phases, this`log
      ensures Valid()
      ensures var run := RunReadiness(old(ccDetectAttempt), checks);
        && next == run.final && polls == run.polls && ccDetectAttempt == run.attempt
        && log == old(log) + Reports(FindChaincode, run.statuses)
      decreases |checks|
    {
      if checks == [] {
        next, polls := PollAgain, 0;
        return;
      }
      ghost var step := StepReadiness(ccDetectAttempt, checks[0]);
      next := SetupCustomersLib(checks[0]);
      if next == PollAgain {
        ghost var mid := log;
        ghost var rest := RunReadiness(ccDetectAttempt, checks[1..]);
        assert RunReadiness(old(ccDetectAttempt), checks)
            == ReadinessRun(rest.polls + 1, rest.final, rest.attempt, [Polling] + rest.statuses);
        next, polls := AwaitChaincode(checks[1..]);
        polls := polls + 1;
        ReportMore(FindChaincode, Polling, rest.statuses);
        AppendInTwoSteps(log, old(log), mid, [Recorded(FindChaincode, Polling)], Reports(FindChaincode, rest.statuses));
      } else {
        polls := 0;
        assert RunReadiness(old(ccDetectAttempt), checks) == ReadinessRun(0, step.next, step.attempt, [step.status]);
        assert Reports(FindChaincode, [step.status]) == [Recorded(FindChaincode, step.status)];
      }
    }

    /** `detect_prev_startup`: reads the ledger; a read error asks for provisioning without
        a report, otherwise 'register_owners' is reported 'waiting' or 'success'. */
    method DetectPrevStartup(read: LedgerRead, users: seq<string>, company: string) returns (needsOwners: bool)
      requires Valid()
      modifies this`phases, this`log
      ensures Valid()
      ensures needsOwners == NeedsOwners(read, users, company)
      ensures read.ReadFailed? ==> log == old(log)
      ensures read.ReadOk? ==> log == old(log) + [Recorded(RegisterOwners, if needsOwners then Waiting else Success)]
      ensures log == old(log) + DetectReport(read, users, company)
    {
      match read
      case ReadFailed(_) =>
        needsOwners := true;
      case ReadOk(resp) =>
        var missing := false;
        var companyFound := DetectCompany(Some(resp), company);
        if companyFound {
          missing := FindMissingOwners(Some(resp), users);
        }
        if !companyFound || missing {
          RecordState(RegisterOwners, Waiting);
          needsOwners := true;
        } else {
          RecordState(RegisterOwners, Success);
          needsOwners := false;
        }
    }

    /** `all_done`: reports 'register_owners' = success and asks for a status update. */
    method AllDone()
      requires Valid()
      modifies this`phases, this`log
      ensures Valid()
      ensures phases == old(phases)[RegisterOwners := Success]
      ensures log == old(log) + AllDoneEvents
    {
      RecordState(RegisterOwners, Success);
      CheckForUpdates();
    }

    /** `create_assets`: one `init_owner` per username, then three `init_customer` per
        owner, then `all_done`. An absent or empty list goes straight to `all_done`. */
    method CreateAssets(users: Option<seq<string>>, company: string,
                        ownerCalls: seq<OwnerCreation>, customerCalls: seq<CustomerCreation>)
      returns (owners: seq<OwnerRecord>, issued: seq<InvokeRequest>)
      requires Valid()
      requires |ownerCalls| == |Usernames(users)| && ValidOwnerCalls(ownerCalls)
      requires |customerCalls| == CustomersEach * |Usernames(users)| && ValidCustomerCalls(customerCalls)
      modifies this`phases, this`log
      ensures Valid()
      ensures |owners| == |Usernames(users)|
      ensures forall k | 0 <= k < |owners| ::
        owners[k] == OwnerRecord(OwnerKey(ownerCalls[k].key), Usernames(users)[k])
      ensures |issued| == CustomersEach * |owners|
      ensures forall j | 0 <= j < |issued| ::
        issued[j] == CustomerRequest(owners[j / CustomersEach], company, colorHash, customerCalls[j])
      ensures forall j | 0 <= j < |issued| :: |issued[j].ccArgs| == 5 && issued[j].ccArgs[1] == Colors[colorHash % |Colors|]
      ensures log == old(log) + AllDoneEvents
    {
      var names := Usernames(users);
      owners, issued := [], [];
      if |names| > 0 {
        owners := CreateOwnerRecords(names, company, ownerCalls);
        issued := CreateCustomerRequests(owners, company, colorHash, customerCalls);
      }
      AllDone();
    }

    /** The continuation `setup_ws_steps` hands to `setup_customers_lib`, called once
        the chaincode is found and compatible: reconcile with the ledger, and provision
        the configured users when `detect_prev_startup` asks for it. */
    method ReconcileAndProvision(env: Environment)
      returns (provisioned: bool, owners: seq<OwnerRecord>, issued: seq<InvokeRequest>)
      requires Valid()
      requires EnvironmentFits(ConfigureFindChaincode, env)
      modifies this`phases, this`log
      ensures Valid()
      ensures provisioned == NeedsOwners(env.ledger, Usernames(env.configuredUsers), env.company)
      ensures provisioned ==> ProvisionedAs(Usernames(env.configuredUsers), env.company, colorHash,
                                            env.ownerCalls, env.customerCalls, owners, issued)
      ensures !provisioned ==> owners == [] && issued == []
      ensures log == old(log) + ReconcileEvents(env)
    {
      provisioned, owners, issued := false, [], [];
      var users := Usernames(env.configuredUsers);
      var needs := DetectPrevStartup(env.ledger, users, env.company);
      ghost var reported := log;
      if needs {
        owners, issued := CreateAssets(env.configuredUsers, env.company, env.ownerCalls, env.customerCalls);
        provisioned := true;
      }
      AppendInTwoSteps(log, old(log), reported, DetectReport(env.ledger, users, env.company),
                       if needs then AllDoneEvents else []);
    }

    /** The continuation of a successful enrolment: wait for the chaincode; once it is
        ready, reconcile and provision. */
    method AwaitThenProvision(env: Environment)
      returns (provisioned: bool, owners: seq<OwnerRecord>, issued: seq<InvokeRequest>)
      requires Valid()
      requires EnvironmentFits(ConfigureFindChaincode, env)
      modifies this`ccDetectAttempt, this`phases, this`log
      ensures Valid()
      ensures ccDetectAttempt == RunReadiness(old(ccDetectAttempt), env.checks).attempt
      ensures provisioned == (RunReadiness(old(ccDetectAttempt), env.checks).final == Ready
        && NeedsOwners(env.ledger, Usernames(env.configuredUsers), env.company))
      ensures provisioned ==> ProvisionedAs(Usernames(env.configuredUsers), env.company, colorHash,
                                            env.ownerCalls, env.customerCalls, owners, issued)
      ensures !provisioned ==> owners == [] && issued == []
      ensures log == old(log) + AwaitEvents(old(ccDetectAttempt), env)
    {
      provisioned, owners, issued := false, [], [];
      ghost var run := RunReadiness(ccDetectAttempt, env.checks);
      var next, polls := AwaitChaincode(env.checks);
      ghost var settled := log;
      ghost var tail: seq<Event> := [];
      if next == Ready {
        provisioned, owners, issued := ReconcileAndProvision(env);
        tail := ReconcileEvents(env);
      }
      AppendInTwoSteps(log, old(log), settled, Reports(FindChaincode, run.statuses), tail);
    }

    /** The chain `setup_ws_steps` starts for 'enrollment' and 'find_chaincode': enrol
        from attempt 1 and, once enrolled, continue with `AwaitThenProvision`. */
    method EnrollAndProvision(env: Environment)
      returns (provisioned: bool, owners: seq<OwnerRecord>, issued: seq<InvokeRequest>)
      requires Valid()
      requires EnvironmentFits(ConfigureFindChaincode, env)
      modifies this`ccDetectAttempt, this`enrollment, this`phases, this`log
      ensures Valid()
      ensures enrollment == EnrollmentAfter(ConfigureFindChaincode, old(enrollment), env)
      ensures ccDetectAttempt == AttemptAfter(ConfigureFindChaincode, old(ccDetectAttempt), env)
      ensures provisioned == ReachesProvisioning(ConfigureFindChaincode, old(ccDetectAttempt), env)
      ensures provisioned ==> ProvisionedAs(Usernames(env.configuredUsers), env.company, colorHash,
                                            env.ownerCalls, env.customerCalls, owners, issued)
      ensures !provisioned ==> owners == [] && issued == []
      ensures log == old(log) + StartupEvents(old(ccDetectAttempt), env)
    {
      provisioned, owners, issued := false, [], [];
      var err := EnrollAdmin(1, env.enrollments);
      ghost var wiped := log;
      ghost var rest: seq<Event> := [];
      if err == None {
        provisioned, owners, issued := AwaitThenProvision(env);
        rest := AwaitEvents(old(ccDetectAttempt), env);
      }
      AppendInTwoSteps(log, old(log), wiped, Wipes(RunEnrollment(1, env.enrollments).tries - 1), rest);
    }

    /** `setup_ws_steps`: 'enrollment' removes the key-value store and runs the start-up
        chain, 'find_chaincode' runs it directly, 'register' provisions the given list at
        once, and any other message does nothing. */
    method SetupWsSteps(msg: WsMessage, env: Environment)
      returns (provisioned: bool, owners: seq<OwnerRecord>, issued: seq<InvokeRequest>)
      requires Valid()
      requires EnvironmentFits(msg, env)
      modifies this`ccDetectAttempt, this`enrollment, this`phases, this`log
      ensures Valid()
      ensures enrollment == EnrollmentAfter(msg, old(enrollment), env)
      ensures ccDetectAttempt == AttemptAfter(msg, old(ccDetectAttempt), env)
      ensures provisioned == ReachesProvisioning(msg, old(ccDetectAttempt), env)
      ensures provisioned ==> ProvisionedAs(Usernames(ProvisionList(msg, env)), env.company, colorHash,
                                            env.ownerCalls, env.customerCalls, owners, issued)
      ensures !provisioned ==> owners == [] && issued == []
      ensures log == old(log) + WsEvents(msg, old(ccDetectAttempt), env)
      ensures msg.ConfigureEnrollment? || msg.ConfigureFindChaincode? ==>
        RegisterFollowsChaincode(log[|old(log)|..])
    {
      provisioned, owners, issued := false, [], [];
      match msg
      case OtherMessage =>
        assert log == old(log) + [];
      case ConfigureRegister(list) =>
        owners, issued := CreateAssets(list, env.company, env.ownerCalls, env.customerCalls);
        provisioned := true;
      case ConfigureFindChaincode =>
        provisioned, owners, issued := EnrollAndProvision(env);
        OrderedAfter(log, old(log), msg, old(ccDetectAttempt), env);
      case ConfigureEnrollment =>
        RemoveKvs();
        ghost var wiped := log;
        provisioned, owners, issued := EnrollAndProvision(env);
        AppendInTwoSteps(log, old(log), wiped, [KvsRemoved], StartupEvents(old(ccDetectAttempt), env));
        OrderedAfter(log, old(log), msg, old(ccDetectAttempt), env);
    }
  }
}
