/** The relay that holds a run's own payment event, and releases, redelivers or recovers it. */
module Relay {
  import opened Results

  datatype Target = Target(intent: string, invoice: Option<string>, booking: Option<string>)

  datatype Fixture = Fixture(invoice: string, client: string, customer: string)

  datatype Deposit = Deposit(booking: Option<string>, customer: Option<string>)

  datatype Manifest = Manifest(account: string, business: string, fixtures: seq<Fixture>, deposits: seq<Deposit>)

  datatype Intent = Intent(id: string, customer: string, amount: int, currency: string, metadata: map<string, string>)

  datatype Event = Event(id: string, livemode: bool, account: string, intent: Intent)

  /** What a posted body holds: a success event, one that does not parse, or anything else. */
  datatype Content = Success(event: Event) | Malformed | Unrelated

  /** A posted request; its signature holds or does not. */
  datatype Post = Post(body: string, signature: string, genuine: bool, content: Content)

  /** The copy of an event that is kept, with when it was received. */
  datatype Copy = Copy(body: string, signature: string, event: string, received: nat)

  datatype Record =
    | Armed(target: Target)
    | OwnershipRejected(event: string)
    | HeldEvent(event: string, intent: string)
    | Expired(event: string)
    | Released(event: string, status: int)
    | Redelivered(event: string, status: int)
    | RecoveryRequested(event: string)
    | RecoveryResent(event: string)

  datatype Problem =
    | Stopping
    | AlreadyArmed
    | NotRegistered
    | BadSignature
    | BadEvent
    | NotOwned
    | SecondEvent
    | Busy
    | NothingHeld
    | NothingReleased
    | TooOld

  /** What a request is answered: held here, passed upstream, or refused. */
  datatype Answer = Accepted | Forwarded | Refused(problem: Problem)

  /** The fields that the relay's lock guards. */
  datatype Core = Core(
    target: Option<Target>,
    held: Option<Copy>,
    delivered: Option<Copy>,
    records: seq<Record>,
    releasing: bool,
    stopping: bool
  )

  const SAFE_SECONDS := 240
  const AMOUNT := 2000

  // ---------------------------------------------------------------- ownership

  function FixturesFor(fixtures: seq<Fixture>, invoice: Option<string>): seq<Fixture> {
    if fixtures == [] then []
    else if Some(fixtures[0].invoice) == invoice then [fixtures[0]] + FixturesFor(fixtures[1..], invoice)
    else FixturesFor(fixtures[1..], invoice)
  }

  function DepositsFor(deposits: seq<Deposit>, booking: string): seq<Deposit> {
    if deposits == [] then []
    else if deposits[0].booking == Some(booking) then [deposits[0]] + DepositsFor(deposits[1..], booking)
    else DepositsFor(deposits[1..], booking)
  }

  /** The customer of the one deposit fixture that owns the booking. */
  function DepositCustomer(manifest: Manifest, booking: string): Option<string> {
    var found := DepositsFor(manifest.deposits, booking);
    if |found| != 1 then None else found[0].customer
  }

  predicate StartsWith(text: string, prefix: string) { prefix <= text }

  predicate Registered(manifest: Manifest, target: Target) {
    && StartsWith(target.intent, "pi_")
    && match target.booking
       case None => |FixturesFor(manifest.fixtures, target.invoice)| == 1
       case Some(booking) =>
         target.invoice == None
         && var customer := DepositCustomer(manifest, booking); customer.Some? && StartsWith(customer.value, "cus_")
  }

  function Metadata(intent: Intent, key: string): Option<string> {
    if key in intent.metadata then Some(intent.metadata[key]) else None
  }

  /** The customer that the target's fixture names, if there is one. */
  function OwnersCustomer(manifest: Manifest, target: Target): Option<string> {
    match target.booking
    case None =>
      var found := FixturesFor(manifest.fixtures, target.invoice);
      if found == [] then None else Some(found[0].customer)
    case Some(booking) => DepositCustomer(manifest, booking)
  }

  predicate Lineage(target: Target, intent: Intent) {
    match target.booking
    case None => target.invoice.Some? && Metadata(intent, "invoice_id") == target.invoice
    case Some(booking) =>
      Metadata(intent, "booking_id") == Some(booking) && Metadata(intent, "invoice_id") in {None, Some("")}
  }

  predicate Owns(manifest: Manifest, target: Target, event: Event) {
    && Lineage(target, event.intent)
    && !event.livemode
    && event.account == manifest.account
    && OwnersCustomer(manifest, target) == Some(event.intent.customer)
    && event.intent.amount == AMOUNT
    && event.intent.currency == "cad"
    && Metadata(event.intent, "business_id") == Some(manifest.business)
  }

  lemma {:induction false} FixturesForIs(fixtures: seq<Fixture>, invoice: Option<string>, f: Fixture)
    ensures f in FixturesFor(fixtures, invoice) <==> f in fixtures && Some(f.invoice) == invoice
  {
    if fixtures != [] {
      FixturesForIs(fixtures[1..], invoice, f);
    }
  }

  lemma {:induction false} DepositsForIs(deposits: seq<Deposit>, booking: string, d: Deposit)
    ensures d in DepositsFor(deposits, booking) <==> d in deposits && d.booking == Some(booking)
  {
    if deposits != [] {
      DepositsForIs(deposits[1..], booking, d);
    }
  }

  /** An owned event pays the target's own invoice or booking, for the customer of that very fixture, and nothing else. */
  lemma OwnedIsOfTheFixture(manifest: Manifest, target: Target, event: Event)
    requires Owns(manifest, target, event)
    ensures match target.booking
            case None =>
              target.invoice.Some? && Metadata(event.intent, "invoice_id") == target.invoice
              && exists f <- manifest.fixtures :: Some(f.invoice) == target.invoice && f.customer == event.intent.customer
            case Some(booking) =>
              Metadata(event.intent, "booking_id") == Some(booking)
              && exists d <- manifest.deposits :: d.booking == Some(booking) && d.customer == Some(event.intent.customer)
    ensures target.booking.Some? ==>
              forall d <- manifest.deposits :: d.booking == target.booking ==> d.customer == Some(event.intent.customer)
  {
    match target.booking
    case None =>
      var f := FixturesFor(manifest.fixtures, target.invoice)[0];
      FixturesForIs(manifest.fixtures, target.invoice, f);
    case Some(booking) =>
      var found := DepositsFor(manifest.deposits, booking);
      DepositsForIs(manifest.deposits, booking, found[0]);
      forall d | d in manifest.deposits && d.booking == Some(booking)
        ensures d == found[0]
      {
        DepositsForIs(manifest.deposits, booking, d);
      }
  }

  /** One place holds a fixture of the invoice, and no other does. */
  ghost predicate OneFixture(fixtures: seq<Fixture>, invoice: Option<string>) {
    exists i :: 0 <= i < |fixtures| && Some(fixtures[i].invoice) == invoice
                && forall j :: 0 <= j < |fixtures| ==> (Some(fixtures[j].invoice) == invoice <==> j == i)
  }

  /** The booking has one deposit, which is of this customer. */
  ghost predicate OneDeposit(deposits: seq<Deposit>, booking: string, customer: string) {
    exists i :: 0 <= i < |deposits| && deposits[i].customer == Some(customer)
                && forall j :: 0 <= j < |deposits| ==> (deposits[j].booking == Some(booking) <==> j == i)
  }

  /** The first fixture of the invoice is of this customer. */
  ghost predicate FirstFixture(fixtures: seq<Fixture>, invoice: Option<string>, customer: string) {
    exists i :: 0 <= i < |fixtures| && Some(fixtures[i].invoice) == invoice && fixtures[i].customer == customer
                && forall j :: 0 <= j < i ==> Some(fixtures[j].invoice) != invoice
  }

  lemma {:induction false} NoFixture(fixtures: seq<Fixture>, invoice: Option<string>)
    ensures FixturesFor(fixtures, invoice) == [] <==> forall f <- fixtures :: Some(f.invoice) != invoice
  {
    if fixtures != [] {
      NoFixture(fixtures[1..], invoice);
    }
  }

  lemma {:induction false} OneFixtureIff(fixtures: seq<Fixture>, invoice: Option<string>)
    ensures |FixturesFor(fixtures, invoice)| == 1 <==> OneFixture(fixtures, invoice)
  {
    if fixtures != [] {
      var rest := fixtures[1..];
      OneFixtureIff(rest, invoice);
      NoFixture(rest, invoice);
      if Some(fixtures[0].invoice) == invoice {
        if FixturesFor(rest, invoice) == [] {
          assert forall j :: 0 < j < |fixtures| ==> fixtures[j] == rest[j - 1];
          assert OneFixture(fixtures, invoice);
        } else {
          var f :| f in rest && Some(f.invoice) == invoice;
          var k :| 0 <= k < |rest| && rest[k] == f;
          assert fixtures[k + 1] == f;
        }
      } else {
        if i :| 0 <= i < |rest| && Some(rest[i].invoice) == invoice
              && forall j :: 0 <= j < |rest| ==> (Some(rest[j].invoice) == invoice <==> j == i) {
          assert forall j :: 0 < j < |fixtures| ==> fixtures[j] == rest[j - 1];
          assert forall j :: 0 <= j < |fixtures| ==> (Some(fixtures[j].invoice) == invoice <==> j == i + 1);
        }
        if i :| 0 <= i < |fixtures| && Some(fixtures[i].invoice) == invoice
              && forall j :: 0 <= j < |fixtures| ==> (Some(fixtures[j].invoice) == invoice <==> j == i) {
          assert forall j :: 0 <= j < |rest| ==> rest[j] == fixtures[j + 1];
          assert forall j :: 0 <= j < |rest| ==> (Some(rest[j].invoice) == invoice <==> j == i - 1);
        }
      }
    }
  }

  lemma {:induction false} FirstFixtureIff(fixtures: seq<Fixture>, invoice: Option<string>, customer: string)
    ensures FixturesFor(fixtures, invoice) != [] && FixturesFor(fixtures, invoice)[0].customer == customer
       <==> FirstFixture(fixtures, invoice, customer)
  {
    if fixtures != [] {
      var rest := fixtures[1..];
      FirstFixtureIff(rest, invoice, customer);
      if Some(fixtures[0].invoice) == invoice {
        if fixtures[0].customer == customer {
          assert FirstFixture(fixtures, invoice, customer);
        }
      } else {
        if i :| 0 <= i < |rest| && Some(rest[i].invoice) == invoice && rest[i].customer == customer
              && forall j :: 0 <= j < i ==> Some(rest[j].invoice) != invoice {
          assert fixtures[i + 1] == rest[i] && forall j :: 0 < j <= i ==> fixtures[j] == rest[j - 1];
          assert FirstFixture(fixtures, invoice, customer);
        }
        if i :| 0 <= i < |fixtures| && Some(fixtures[i].invoice) == invoice && fixtures[i].customer == customer
              && forall j :: 0 <= j < i ==> Some(fixtures[j].invoice) != invoice {
          assert rest[i - 1] == fixtures[i] && forall j :: 0 <= j < i - 1 ==> rest[j] == fixtures[j + 1];
          assert FirstFixture(rest, invoice, customer);
        }
      }
    }
  }

  lemma {:induction false} NoDeposit(deposits: seq<Deposit>, booking: string)
    ensures DepositsFor(deposits, booking) == [] <==> forall d <- deposits :: d.booking != Some(booking)
  {
    if deposits != [] {
      NoDeposit(deposits[1..], booking);
    }
  }

  lemma {:induction false} OneDepositIff(deposits: seq<Deposit>, booking: string, customer: string)
    ensures |DepositsFor(deposits, booking)| == 1 && DepositsFor(deposits, booking)[0].customer == Some(customer)
       <==> OneDeposit(deposits, booking, customer)
  {
    if deposits != [] {
      var rest := deposits[1..];
      OneDepositIff(rest, booking, customer);
      NoDeposit(rest, booking);
      if deposits[0].booking == Some(booking) {
        if DepositsFor(rest, booking) == [] {
          assert forall j :: 0 < j < |deposits| ==> deposits[j] == rest[j - 1];
          if deposits[0].customer == Some(customer) {
            assert OneDeposit(deposits, booking, customer);
          }
        } else {
          var d :| d in rest && d.booking == Some(booking);
          var k :| 0 <= k < |rest| && rest[k] == d;
          assert deposits[k + 1] == d;
        }
      } else {
        if i :| 0 <= i < |rest| && rest[i].customer == Some(customer)
              && forall j :: 0 <= j < |rest| ==> (rest[j].booking == Some(booking) <==> j == i) {
          assert forall j :: 0 < j < |deposits| ==> deposits[j] == rest[j - 1];
          assert forall j :: 0 <= j < |deposits| ==> (deposits[j].booking == Some(booking) <==> j == i + 1);
        }
        if i :| 0 <= i < |deposits| && deposits[i].customer == Some(customer)
              && forall j :: 0 <= j < |deposits| ==> (deposits[j].booking == Some(booking) <==> j == i) {
          assert forall j :: 0 <= j < |rest| ==> rest[j] == deposits[j + 1];
          assert forall j :: 0 <= j < |rest| ==> (rest[j].booking == Some(booking) <==> j == i - 1);
        }
      }
    }
  }

  /** A target may be armed exactly for an intent and one registered fixture, or one deposit fixture with its customer. */
  lemma RegisteredIff(manifest: Manifest, target: Target)
    ensures Registered(manifest, target) <==>
            "pi_" <= target.intent
            && match target.booking
               case None => OneFixture(manifest.fixtures, target.invoice)
               case Some(booking) =>
                 target.invoice == None
                 && exists customer :: OneDeposit(manifest.deposits, booking, customer) && "cus_" <= customer
  {
    hide FixturesFor, DepositsFor, OneFixture, OneDeposit;
    match target.booking
    case None => OneFixtureIff(manifest.fixtures, target.invoice);
    case Some(booking) =>
      forall customer { OneDepositIff(manifest.deposits, booking, customer); }
  }

  /** An event is the target's own exactly by these fields, all of them. */
  lemma OwnsIff(manifest: Manifest, target: Target, event: Event)
    ensures var intent, data := event.intent, event.intent.metadata;
            Owns(manifest, target, event) <==>
              !event.livemode && event.account == manifest.account && intent.amount == 2000 && intent.currency == "cad"
              && "business_id" in data && data["business_id"] == manifest.business
              && match target.booking
                 case None =>
                   target.invoice.Some? && "invoice_id" in data && data["invoice_id"] == target.invoice.value
                   && FirstFixture(manifest.fixtures, target.invoice, intent.customer)
                 case Some(booking) =>
                   "booking_id" in data && data["booking_id"] == booking
                   && ("invoice_id" in data ==> data["invoice_id"] == "")
                   && OneDeposit(manifest.deposits, booking, intent.customer)
  {
    hide FixturesFor, DepositsFor, FirstFixture, OneDeposit;
    match target.booking
    case None => FirstFixtureIff(manifest.fixtures, target.invoice, event.intent.customer);
    case Some(booking) => OneDepositIff(manifest.deposits, booking, event.intent.customer);
  }

  // ---------------------------------------------------------------- one lock section each

  function Noting(c: Core, r: Record): Core { c.(records := c.records + [r]) }

  function ArmOf(c: Core, target: Target, manifest: Manifest): (Core, Option<Problem>) {
    if c.stopping then (c, Some(Stopping))
    else if c.target.Some? || c.held.Some? then (c, Some(AlreadyArmed))
    else if !Registered(manifest, target) then (c, Some(NotRegistered))
    else (Noting(c.(target := Some(target)), Armed(target)), None)
  }

  function ReceiveOf(c: Core, post: Post, manifest: Manifest, now: nat): (Core, Answer) {
    if c.stopping then (c, Refused(Stopping))
    else if !post.genuine then (c, Refused(BadSignature))
    else if c.target == None || post.content.Unrelated? then (c, Forwarded)
    else if post.content.Malformed? then (c, Refused(BadEvent))
    else
      var event, target := post.content.event, c.target.value;
      if event.intent.id != target.intent then (c, Forwarded)
      else if OwnersCustomer(manifest, target) == None then (c, Refused(NotRegistered))
      else if !Owns(manifest, target, event) then (Noting(c, OwnershipRejected(event.id)), Refused(NotOwned))
      else if c.held.Some? && c.held.value.event != event.id then (c, Refused(SecondEvent))
      else
        (Noting(c.(held := Some(Copy(post.body, post.signature, event.id, now))), HeldEvent(event.id, event.intent.id)),
         Accepted)
  }

  predicate Fresh(copy: Copy, now: nat) { now - copy.received < SAFE_SECONDS }

  /** A delivery of this copy starts, unless it is too old or its signature no longer holds. */
  function StartOf(c: Core, copy: Option<Copy>, missing: Problem, genuine: bool, now: nat): (Core, Result<Copy, Problem>) {
    if c.stopping || c.releasing then (c, Err(Busy))
    else if copy == None then (c, Err(missing))
    else if !Fresh(copy.value, now) then (Noting(c, Expired(copy.value.event)), Err(TooOld))
    else if !genuine then (c, Err(BadSignature))
    else (c.(releasing := true), Ok(copy.value))
  }

  function StartReleaseOf(c: Core, genuine: bool, now: nat): (Core, Result<Copy, Problem>) {
    StartOf(c, c.held, NothingHeld, genuine, now)
  }

  function StartRedeliverOf(c: Core, genuine: bool, now: nat): (Core, Result<Copy, Problem>) {
    StartOf(c, c.delivered, NothingReleased, genuine, now)
  }

  function CommitReleaseOf(c: Core, copy: Copy, status: int): Core {
    var noted := Noting(c, Released(copy.event, status));
    if status == 200 && c.held == Some(copy) then noted.(delivered := Some(copy), held := None, target := None) else noted
  }

  function CommitRedeliverOf(c: Core, copy: Copy, status: int): Core { Noting(c, Redelivered(copy.event, status)) }

  function EndOf(c: Core): Core { c.(releasing := false) }

  /** The held event to ask the provider for again, if one was held. */
  function RecoverOf(c: Core): (Core, Result<Option<string>, Problem>) {
    if c.releasing then (c, Err(Busy))
    else if c.held == None then (c.(target := None), Ok(None))
    else
      var event := c.held.value.event;
      (Noting(c.(target := None, held := None), RecoveryRequested(event)), Ok(Some(event)))
  }

  const START := Core(None, None, None, [], false, false)

  // ---------------------------------------------------------------- the machine

  datatype Kind = Release | Redeliver

  /** A delivery outside the lock: what it carries, when it started, and whether it has answered. */
  datatype Flight = Flight(kind: Kind, copy: Copy, started: nat, landed: bool)

  /** What a held event was held by. */
  datatype Proof = Proof(event: Event, manifest: Manifest)

  datatype Machine = Machine(core: Core, flights: seq<Flight>, clock: nat, proof: Option<Proof>)

  /** Whatever any thread, the provider or the clock does next. */
  datatype Action =
    | Arm(target: Target, manifest: Manifest)
    | Receive(post: Post, manifest: Manifest)
    | StartRelease(genuine: bool)
    | StartRedeliver(genuine: bool)
    | Answered(flight: nat, status: int)
    | End(flight: nat)
    | Recover
    | Resent(event: string)
    | Stop
    | Tick(seconds: nat)

  function TakeOff(m: Machine, started: (Core, Result<Copy, Problem>), kind: Kind): Machine {
    m.(core := started.0,
       flights := if started.1.Ok? then m.flights + [Flight(kind, started.1.value, m.clock, false)] else m.flights)
  }

  function Step(m: Machine, a: Action): Machine {
    match a
    case Arm(target, manifest) => m.(core := ArmOf(m.core, target, manifest).0)
    case Receive(post, manifest) =>
      var (core, answer) := ReceiveOf(m.core, post, manifest, m.clock);
      m.(core := core, proof := if answer.Accepted? then Some(Proof(post.content.event, manifest)) else m.proof)
    case StartRelease(genuine) => TakeOff(m, StartReleaseOf(m.core, genuine, m.clock), Release)
    case StartRedeliver(genuine) => TakeOff(m, StartRedeliverOf(m.core, genuine, m.clock), Redeliver)
    case Answered(n, status) =>
      if n < |m.flights| && !m.flights[n].landed then
        var flight := m.flights[n];
        m.(core := if flight.kind.Release? then CommitReleaseOf(m.core, flight.copy, status)
                   else CommitRedeliverOf(m.core, flight.copy, status),
           flights := m.flights[n := flight.(landed := true)])
      else m
    case End(n) =>
      if n < |m.flights| then m.(core := EndOf(m.core), flights := m.flights[..n] + m.flights[n + 1..]) else m
    case Recover => m.(core := RecoverOf(m.core).0)
    case Resent(event) =>
      if RecoveryRequested(event) in m.core.records then m.(core := Noting(m.core, RecoveryResent(event))) else m
    case Stop => m.(core := m.core.(stopping := true))
    case Tick(seconds) => m.(clock := m.clock + seconds)
  }

  function Run(actions: seq<Action>): Machine {
    if actions == [] then Machine(START, [], 0, None) else Step(Run(actions[..|actions| - 1]), actions[|actions| - 1])
  }

  // ---------------------------------------------------------------- what every state keeps

  /** The record says that the event was delivered, or that the provider is to send it again. */
  predicate Closes(r: Record, event: string) { r == Released(event, 200) || r == RecoveryRequested(event) }

  /** An event that was answered for is still held, or was delivered or recovered afterwards. */
  ghost predicate Accounted(c: Core, i: nat)
    requires i < |c.records|
  {
    c.records[i].HeldEvent? ==>
      (c.held.Some? && c.held.value.event == c.records[i].event)
      || exists j :: i < j < |c.records| && Closes(c.records[j], c.records[i].event)
  }

  ghost predicate NothingLost(c: Core) { forall i :: 0 <= i < |c.records| ==> Accounted(c, i) }

  /** A held event is the target's own: it names the armed intent and passed the ownership check. */
  predicate HeldIsOwned(m: Machine) {
    m.core.held.Some? ==>
      && m.core.target.Some? && m.proof.Some?
      && Owns(m.proof.value.manifest, m.core.target.value, m.proof.value.event)
      && m.proof.value.event.intent.id == m.core.target.value.intent
      && m.proof.value.event.id == m.core.held.value.event
      && m.core.held.value.received <= m.clock
      && HeldEvent(m.core.held.value.event, m.core.target.value.intent) in m.core.records
  }

  predicate DeliveredWasReleased(m: Machine) {
    m.core.delivered.Some? ==>
      Released(m.core.delivered.value.event, 200) in m.core.records && m.core.delivered.value.received <= m.clock
  }

  /** At most one delivery is under way, it started in time, and a release has its event still held. */
  predicate OneFlight(m: Machine) {
    && |m.flights| == (if m.core.releasing then 1 else 0)
    && forall f <- m.flights ::
         f.copy.received <= f.started <= m.clock && f.started - f.copy.received < SAFE_SECONDS
         && (f.kind.Release? && !f.landed ==> m.core.held.Some? && m.core.held.value.event == f.copy.event)
         && (f.kind.Redeliver? ==> Released(f.copy.event, 200) in m.core.records)
  }

  ghost predicate Good(m: Machine) {
    NothingLost(m.core) && HeldIsOwned(m) && DeliveredWasReleased(m) && OneFlight(m)
  }

  lemma NotingKeepsAccounts(c: Core, r: Record)
    requires NothingLost(c) && !r.HeldEvent?
    ensures NothingLost(Noting(c, r))
  {
    var after := Noting(c, r);
    forall i | 0 <= i < |after.records|
      ensures Accounted(after, i)
    {
      if i < |c.records| {
        AccountStays(c, after, i);
      }
    }
  }

  /** More records never lose an account while the held event stays. */
  lemma AccountStays(c: Core, after: Core, i: nat)
    requires i < |c.records| && Accounted(c, i) && c.records <= after.records
    requires c.held.Some? ==> after.held.Some? && after.held.value.event == c.held.value.event
    ensures Accounted(after, i)
  {
    if c.records[i].HeldEvent? && !(c.held.Some? && c.held.value.event == c.records[i].event) {
      var j :| i < j < |c.records| && Closes(c.records[j], c.records[i].event);
      assert Closes(after.records[j], after.records[i].event);
    }
  }

  /** Holding, once more or for the first time, accounts for the event. */
  lemma HoldingKeepsAccounts(c: Core, copy: Copy, intent: string)
    requires NothingLost(c) && (c.held.Some? ==> c.held.value.event == copy.event)
    ensures NothingLost(Noting(c.(held := Some(copy)), HeldEvent(copy.event, intent)))
  {
    var after := Noting(c.(held := Some(copy)), HeldEvent(copy.event, intent));
    forall i | 0 <= i < |after.records|
      ensures Accounted(after, i)
    {
      if i < |c.records| {
        AccountStays(c, after, i);
      }
    }
  }

  /** Clearing the held event loses nothing when the last record closes it. */
  lemma ClosingKeepsAccounts(c: Core, r: Record, target: Option<Target>, delivered: Option<Copy>)
    requires NothingLost(c) && c.held.Some? && Closes(r, c.held.value.event)
    ensures NothingLost(Noting(c, r).(held := None, target := target, delivered := delivered))
  {
    var after := Noting(c, r).(held := None, target := target, delivered := delivered);
    forall i | 0 <= i < |after.records|
      ensures Accounted(after, i)
    {
      if i < |c.records| && c.records[i].HeldEvent? {
        assert Accounted(c, i);
        if c.held.value.event == c.records[i].event {
          assert Closes(after.records[|c.records|], after.records[i].event);
        } else {
          var j :| i < j < |c.records| && Closes(c.records[j], c.records[i].event);
          assert Closes(after.records[j], after.records[i].event);
        }
      }
    }
  }

  lemma ArmLosesNothing(c: Core, target: Target, manifest: Manifest)
    requires NothingLost(c)
    ensures NothingLost(ArmOf(c, target, manifest).0)
  {
    hide NothingLost, Registered;
    SameAccounts(c, c.(target := Some(target)));
    NotingKeepsAccounts(c.(target := Some(target)), Armed(target));
  }

  lemma ReceiveLosesNothing(c: Core, post: Post, manifest: Manifest, now: nat)
    requires NothingLost(c)
    ensures NothingLost(ReceiveOf(c, post, manifest, now).0)
  {
    hide NothingLost, Owns, OwnersCustomer;
    if post.content.Success? {
      NotingKeepsAccounts(c, OwnershipRejected(post.content.event.id));
      var copy := Copy(post.body, post.signature, post.content.event.id, now);
      if c.held.Some? ==> c.held.value.event == copy.event {
        HoldingKeepsAccounts(c, copy, post.content.event.intent.id);
      }
    }
  }

  lemma StartLosesNothing(c: Core, copy: Option<Copy>, missing: Problem, genuine: bool, now: nat)
    requires NothingLost(c)
    ensures NothingLost(StartOf(c, copy, missing, genuine, now).0)
  {
    if copy.Some? {
      NotingKeepsAccounts(c, Expired(copy.value.event));
    }
    SameAccounts(c, c.(releasing := true));
  }

  lemma CommitLosesNothing(c: Core, copy: Copy, status: int)
    requires NothingLost(c)
    ensures NothingLost(CommitReleaseOf(c, copy, status)) && NothingLost(CommitRedeliverOf(c, copy, status))
  {
    hide NothingLost;
    NotingKeepsAccounts(c, Released(copy.event, status));
    NotingKeepsAccounts(c, Redelivered(copy.event, status));
    if status == 200 && c.held == Some(copy) {
      ClosingKeepsAccounts(c, Released(copy.event, status), None, Some(copy));
    }
  }

  lemma RecoverLosesNothing(c: Core)
    requires NothingLost(c)
    ensures NothingLost(RecoverOf(c).0)
  {
    hide NothingLost;
    SameAccounts(c, c.(target := None));
    if c.held.Some? {
      ClosingKeepsAccounts(c, RecoveryRequested(c.held.value.event), None, c.delivered);
    }
  }

  lemma StepLosesNothing(m: Machine, a: Action)
    requires Good(m)
    ensures NothingLost(Step(m, a).core)
  {
    hide NothingLost, ArmOf, ReceiveOf, RecoverOf, CommitReleaseOf, CommitRedeliverOf, StartOf;
    var c := m.core;
    GoodParts(m);
    match a
    case Arm(target, manifest) => ArmLosesNothing(c, target, manifest);
    case Receive(post, manifest) => ReceiveLosesNothing(c, post, manifest, m.clock);
    case StartRelease(genuine) => StartLosesNothing(c, c.held, NothingHeld, genuine, m.clock);
    case StartRedeliver(genuine) => StartLosesNothing(c, c.delivered, NothingReleased, genuine, m.clock);
    case Answered(n, status) =>
      if n < |m.flights| {
        CommitLosesNothing(c, m.flights[n].copy, status);
      }
    case End(n) => SameAccounts(c, EndOf(c));
    case Recover => RecoverLosesNothing(c);
    case Resent(event) => NotingKeepsAccounts(c, RecoveryResent(event));
    case Stop => SameAccounts(c, c.(stopping := true));
    case Tick(_) =>
  }

  lemma GoodParts(m: Machine)
    requires Good(m)
    ensures NothingLost(m.core) && HeldIsOwned(m) && DeliveredWasReleased(m) && OneFlight(m)
  {
  }

  lemma SameAccounts(c: Core, after: Core)
    requires NothingLost(c) && after.records == c.records && after.held == c.held
    ensures NothingLost(after)
  {
    forall i | 0 <= i < |c.records|
      ensures Accounted(after, i)
    {
      AccountStays(c, after, i);
    }
  }

  lemma RecordsGrow(m: Machine, a: Action)
    ensures m.core.records <= Step(m, a).core.records
    ensures forall r <- m.core.records :: r in Step(m, a).core.records
  {
    hide Owns, Registered, OwnersCustomer;
  }

  lemma StepKeepsOwnership(m: Machine, a: Action)
    requires HeldIsOwned(m)
    ensures HeldIsOwned(Step(m, a))
  {
    hide Owns, Registered, OwnersCustomer;
    RecordsGrow(m, a);
  }

  lemma StepKeepsDelivered(m: Machine, a: Action)
    requires DeliveredWasReleased(m) && OneFlight(m)
    ensures DeliveredWasReleased(Step(m, a))
  {
    hide Owns, Registered, OwnersCustomer;
    RecordsGrow(m, a);
  }

  lemma StepKeepsOneFlight(m: Machine, a: Action)
    requires HeldIsOwned(m) && DeliveredWasReleased(m) && OneFlight(m)
    ensures OneFlight(Step(m, a))
  {
    hide Owns, Registered, OwnersCustomer, Lineage;
    RecordsGrow(m, a);
  }

  lemma {:induction false} EveryRunIsGood(actions: seq<Action>)
    ensures Good(Run(actions))
  {
    if actions != [] {
      var before, a := Run(actions[..|actions| - 1]), actions[|actions| - 1];
      EveryRunIsGood(actions[..|actions| - 1]);
      GoodParts(before);
      StepLosesNothing(before, a);
      StepKeepsOwnership(before, a);
      StepKeepsDelivered(before, a);
      StepKeepsOneFlight(before, a);
    }
  }

  // ---------------------------------------------------------------- over whole runs

  /** Every event answered for is held still, or has a later record of its delivery or recovery. */
  lemma NoEventIsLost(actions: seq<Action>, i: nat, event: string, intent: string)
    requires i < |Run(actions).core.records| && Run(actions).core.records[i] == HeldEvent(event, intent)
    ensures var c := Run(actions).core;
            (c.held.Some? && c.held.value.event == event)
            || exists j :: i < j < |c.records| && Closes(c.records[j], event)
  {
    EveryRunIsGood(actions);
    assert Accounted(Run(actions).core, i);
  }

  lemma OneMore(actions: seq<Action>, more: seq<Action>)
    requires more != []
    ensures Run(actions + more) == Step(Run(actions + more[..|more| - 1]), more[|more| - 1])
  {
    assert (actions + more)[..|actions + more| - 1] == actions + more[..|more| - 1];
  }

  /** Something is held after each of these further actions. */
  ghost predicate HeldThroughout(actions: seq<Action>, more: seq<Action>) {
    forall k :: 0 <= k <= |more| ==> Run(actions + more[..k]).core.held.Some?
  }

  lemma StepKeepsHeldEvent(m: Machine, a: Action)
    requires m.core.held.Some? && Step(m, a).core.held.Some?
    ensures Step(m, a).core.held.value.event == m.core.held.value.event
  {
    hide Owns, Registered, OwnersCustomer;
  }

  /** While something is held without a break it is one event, whatever is received, released and sent again. */
  lemma {:induction false} HeldNeverChanges(actions: seq<Action>, more: seq<Action>)
    requires HeldThroughout(actions, more)
    ensures Run(actions).core.held.Some? && Run(actions + more).core.held.Some?
    ensures Run(actions + more).core.held.value.event == Run(actions).core.held.value.event
    decreases |more|
  {
    hide Step, Run;
    var n := |more|;
    assert more[..n] == more && actions + more[..0] == actions;
    assert Run(actions + more[..0]).core.held.Some? && Run(actions + more[..n]).core.held.Some?;
    if n > 0 {
      var init := more[..n - 1];
      forall k | 0 <= k <= n - 1
        ensures Run(actions + init[..k]).core.held.Some?
      {
        assert init[..k] == more[..k];
      }
      HeldNeverChanges(actions, init);
      OneMore(actions, more);
      StepKeepsHeldEvent(Run(actions + init), more[n - 1]);
    }
  }

  /** One delivery at a time, each of a copy received less than 240 seconds before it started. */
  lemma OneFlightInTime(actions: seq<Action>)
    ensures |Run(actions).flights| <= 1
    ensures forall f <- Run(actions).flights :: f.copy.received <= f.started < f.copy.received + SAFE_SECONDS
  {
    EveryRunIsGood(actions);
  }

  /** What is held was checked against the armed target, whatever came between. */
  lemma HeldIsTheTargets(actions: seq<Action>)
    requires Run(actions).core.held.Some?
    ensures var m := Run(actions);
            m.core.target.Some? && m.proof.Some? && m.proof.value.event.id == m.core.held.value.event
            && m.proof.value.event.intent.id == m.core.target.value.intent
            && Owns(m.proof.value.manifest, m.core.target.value, m.proof.value.event)
  {
    EveryRunIsGood(actions);
  }

  /** Only an event that upstream took with 200 is delivered again. */
  lemma RedeliveryIsOfReleased(actions: seq<Action>)
    ensures forall f <- Run(actions).flights :: f.kind.Redeliver? ==> Released(f.copy.event, 200) in Run(actions).core.records
  {
    EveryRunIsGood(actions);
  }

  /** The last check of closing. */
  predicate ClosesCleanly(c: Core) { c.held == None }

  /** A relay that closes cleanly owes nothing: every event it answered for was delivered or is to be sent again. */
  lemma CleanCloseOwesNothing(actions: seq<Action>, i: nat)
    requires ClosesCleanly(Run(actions).core)
    requires i < |Run(actions).core.records| && Run(actions).core.records[i].HeldEvent?
    ensures exists j :: i < j < |Run(actions).core.records|
              && Closes(Run(actions).core.records[j], Run(actions).core.records[i].event)
  {
    NoEventIsLost(actions, i, Run(actions).core.records[i].event, Run(actions).core.records[i].intent);
  }

  /** From stopping on, whatever comes, nothing more is armed, held or started: only what was there is left. */
  lemma {:induction false} StoppedTakesNothing(actions: seq<Action>, more: seq<Action>)
    requires Run(actions).core.stopping
    ensures var before, now := Run(actions), Run(actions + more);
            && now.core.stopping && |now.flights| <= |before.flights|
            && now.core.held in {None, before.core.held} && now.core.target in {None, before.core.target}
    decreases |more|
  {
    hide Owns, Registered, OwnersCustomer, Run;
    if more == [] {
      assert actions + more == actions;
    } else {
      StoppedTakesNothing(actions, more[..|more| - 1]);
      OneMore(actions, more);
    }
  }

  // ---------------------------------------------------------------- whole journeys

  ghost function StepsFrom(m: Machine, actions: seq<Action>): Machine
    decreases |actions|
  {
    if actions == [] then m else StepsFrom(Step(m, actions[0]), actions[1..])
  }

  lemma StepsOne(m: Machine, a: Action, rest: seq<Action>)
    ensures StepsFrom(m, [a] + rest) == StepsFrom(Step(m, a), rest)
  {
    assert ([a] + rest)[1..] == rest;
  }

  lemma StepsNone(m: Machine)
    ensures StepsFrom(m, []) == m
  {
  }

  /** A free relay, and a genuine event that a registered target owns. */
  ghost predicate MayHold(m: Machine, target: Target, manifest: Manifest, post: Post) {
    && m.core.target == None && m.core.held == None && !m.core.releasing && !m.core.stopping && m.flights == []
    && Registered(manifest, target) && post.genuine && post.content.Success?
    && post.content.event.intent.id == target.intent && Owns(manifest, target, post.content.event)
  }

  function CopyOf(post: Post, now: nat): Copy
    requires post.content.Success?
  {
    Copy(post.body, post.signature, post.content.event.id, now)
  }

  /** Armed and received, the event is held. */
  lemma JourneyHolds(m: Machine, target: Target, manifest: Manifest, post: Post)
    requires MayHold(m, target, manifest, post)
    ensures var now := StepsFrom(m, [Arm(target, manifest), Receive(post, manifest)]);
            now == m.(core := m.core.(target := Some(target), held := Some(CopyOf(post, m.clock)),
                                      records := m.core.records
                                        + [Armed(target), HeldEvent(post.content.event.id, target.intent)]),
                      proof := Some(Proof(post.content.event, manifest)))
  {
    hide Owns, Registered, OwnersCustomer;
    OwnedHasCustomer(manifest, target, post.content.event);
    StepsOne(m, Arm(target, manifest), [Receive(post, manifest)]);
    var armed := Step(m, Arm(target, manifest));
    StepsOne(armed, Receive(post, manifest), []);
    assert m.core.records + [Armed(target)] + [HeldEvent(post.content.event.id, target.intent)]
        == m.core.records + [Armed(target), HeldEvent(post.content.event.id, target.intent)];
  }

  lemma OwnedHasCustomer(manifest: Manifest, target: Target, event: Event)
    requires Owns(manifest, target, event)
    ensures OwnersCustomer(manifest, target).Some?
  {
  }

  /** A machine that holds a copy taken in time, with nothing in flight. */
  ghost predicate Holds(m: Machine, copy: Copy) {
    && m.core.held == Some(copy) && copy.received <= m.clock && m.clock - copy.received < SAFE_SECONDS
    && !m.core.releasing && !m.core.stopping && m.flights == []
  }

  /**
   * Released and taken with 200, a held event is delivered and the relay free again, with one record; with any other
   * status it stays held. Time that passes on the way changes nothing.
   */
  lemma JourneyReleases(m: Machine, copy: Copy, status: int, seconds: nat)
    requires Holds(m, copy)
    ensures var now := StepsFrom(m, [StartRelease(true), Tick(seconds), Answered(0, status), End(0)]);
            && now.core.records == m.core.records + [Released(copy.event, status)]
            && !now.core.releasing && now.flights == [] && now.clock == m.clock + seconds
            && if status == 200 then now.core.held == None && now.core.target == None && now.core.delivered == Some(copy)
               else now.core.held == Some(copy) && now.core.target == m.core.target && now.core.delivered == m.core.delivered
  {
    hide ArmOf, ReceiveOf, RecoverOf;
    var a, b, c, d := StartRelease(true), Tick(seconds), Answered(0, status), End(0);
    assert [a, b, c, d] == [a] + [b, c, d] && [b, c, d] == [b] + [c, d] && [c, d] == [c] + [d] && [d] == [d] + [];
    var flight := Flight(Release, copy, m.clock, false);
    var m1 := m.(core := m.core.(releasing := true), flights := [flight]);
    assert Step(m, a) == m1;
    var m2 := m1.(clock := m.clock + seconds);
    assert Step(m1, b) == m2;
    var m3 := m2.(core := CommitReleaseOf(m2.core, copy, status), flights := [flight.(landed := true)]);
    assert Step(m2, c) == m3;
    var m4 := m3.(core := EndOf(m3.core), flights := []);
    assert Step(m3, d) == m4;
    hide Step, StepsFrom;
    StepsOne(m, a, [b, c, d]);
    StepsOne(m1, b, [c, d]);
    StepsOne(m2, c, [d]);
    StepsOne(m3, d, []);
    StepsNone(m4);
  }

  /** What was delivered may be sent once more, which adds its own record and touches nothing held. */
  lemma JourneyRedelivers(m: Machine, copy: Copy, status: int)
    requires m.core.delivered == Some(copy) && copy.received <= m.clock && m.clock - copy.received < SAFE_SECONDS
    requires !m.core.releasing && !m.core.stopping && m.flights == []
    ensures StepsFrom(m, [StartRedeliver(true), Answered(0, status), End(0)])
         == m.(core := m.core.(records := m.core.records + [Redelivered(copy.event, status)]))
  {
    hide ArmOf, ReceiveOf, RecoverOf;
    var a, c, d := StartRedeliver(true), Answered(0, status), End(0);
    assert [a, c, d] == [a] + [c, d] && [c, d] == [c] + [d] && [d] == [d] + [];
    var flight := Flight(Redeliver, copy, m.clock, false);
    var m1 := m.(core := m.core.(releasing := true), flights := [flight]);
    assert Step(m, a) == m1;
    var m2 := m1.(core := CommitRedeliverOf(m1.core, copy, status), flights := [flight.(landed := true)]);
    assert Step(m1, c) == m2;
    var m3 := m2.(core := EndOf(m2.core), flights := []);
    assert Step(m2, d) == m3;
    hide Step, StepsFrom;
    StepsOne(m, a, [c, d]);
    StepsOne(m1, c, [d]);
    StepsOne(m2, d, []);
    StepsNone(m3);
  }

  /** Given up, a held event is on record as asked for again, then as sent for; the relay is free. */
  lemma JourneyRecovers(m: Machine, copy: Copy)
    requires Holds(m, copy)
    ensures StepsFrom(m, [Recover, Resent(copy.event)])
         == m.(core := m.core.(target := None, held := None,
                               records := m.core.records + [RecoveryRequested(copy.event), RecoveryResent(copy.event)]))
  {
    StepsOne(m, Recover, [Resent(copy.event)]);
    var m1 := Step(m, Recover);
    StepsOne(m1, Resent(copy.event), []);
    assert [Recover, Resent(copy.event)] == [Recover] + [Resent(copy.event)];
    assert m1.core.records == m.core.records + [RecoveryRequested(copy.event)];
    assert m1.core.records + [RecoveryResent(copy.event)]
        == m.core.records + [RecoveryRequested(copy.event), RecoveryResent(copy.event)];
  }

  /** 240 seconds after it came, a held event is not released any more, and stays held. */
  lemma JourneyExpires(m: Machine, copy: Copy, seconds: nat)
    requires Holds(m, copy) && seconds >= SAFE_SECONDS
    ensures StepsFrom(m, [Tick(seconds), StartRelease(true)])
         == m.(clock := m.clock + seconds, core := m.core.(records := m.core.records + [Expired(copy.event)]))
  {
    StepsOne(m, Tick(seconds), [StartRelease(true)]);
    StepsOne(Step(m, Tick(seconds)), StartRelease(true), []);
    assert [Tick(seconds), StartRelease(true)] == [Tick(seconds)] + [StartRelease(true)];
  }

  /** Once stopping, a held event is not released; and no second answer or foreign resending changes anything. */
  lemma NothingAfter(m: Machine, copy: Copy, flight: nat, status: int, event: string)
    ensures Holds(m, copy) ==> StepsFrom(m, [Stop, StartRelease(true)]) == m.(core := m.core.(stopping := true))
    ensures flight < |m.flights| && m.flights[flight].landed ==> Step(m, Answered(flight, status)) == m
    ensures RecoveryRequested(event) !in m.core.records ==> Step(m, Resent(event)) == m
  {
    StepsOne(m, Stop, [StartRelease(true)]);
    StepsOne(Step(m, Stop), StartRelease(true), []);
    assert [Stop, StartRelease(true)] == [Stop] + [StartRelease(true)];
  }

  // ---------------------------------------------------------------- what one section means for the next

  /** The target's own success event would be held, and any other of its intent refused: none passes upstream. */
  ghost predicate Awaits(c: Core, target: Target) {
    forall post: Post, manifest, now ::
      post.genuine && post.content.Success? && post.content.event.intent.id == target.intent ==>
        var answer := ReceiveOf(c, post, manifest, now).1;
        !answer.Forwarded? && (answer.Accepted? <==> Owns(manifest, target, post.content.event))
  }

  lemma ArmedAwaits(c: Core, target: Target)
    requires c.target == Some(target) && c.held == None && !c.stopping
    ensures Awaits(c, target)
  {
  }

  /** No release, redelivery or recovery gets through. */
  ghost predicate Exclusive(c: Core) {
    RecoverOf(c).1 == Err(Busy)
    && forall genuine, now ::
         StartReleaseOf(c, genuine, now).1 == Err(Busy) && StartRedeliverOf(c, genuine, now).1 == Err(Busy)
  }

  /** Every registered target may be armed. */
  ghost predicate Free(c: Core) {
    forall target, manifest :: Registered(manifest, target) ==> ArmOf(c, target, manifest).1 == None
  }

  lemma NothingHeldIsFree(c: Core)
    requires !c.stopping && c.target == None && c.held == None
    ensures Free(c)
  {
    hide Registered;
  }

  // ---------------------------------------------------------------- the relay itself

  /** Each method is one section under the relay's lock; deliveries run between them. */
  class Relay {
    var target: Option<Target>
    var held: Option<Copy>
    var delivered: Option<Copy>
    var records: seq<Record>
    var releasing: bool
    var stopping: bool

    constructor ()
      ensures Now() == START && Valid()
    {
      target, held, delivered, records, releasing, stopping := None, None, None, [], false, false;
    }

    function Now(): Core
      reads this
    {
      Core(target, held, delivered, records, releasing, stopping)
    }

    /** Each event that was answered for is held, or has a later record of its delivery or recovery. */
    ghost predicate Valid()
      reads this
    {
      NothingLost(Now())
    }

    method Note(r: Record)
      modifies this`records
      ensures records == old(records) + [r]
    {
      records := records + [r];
    }

    /** Armed, the relay awaits the target's event; refused, it is as it was. */
    method Arm(wanted: Target, manifest: Manifest) returns (problem: Option<Problem>)
      requires Valid()
      modifies this
      ensures Valid() && (Now(), problem) == ArmOf(old(Now()), wanted, manifest)
      ensures if problem == None then Awaits(Now(), wanted) else Now() == old(Now())
      ensures problem == None <==> old(target == None && held == None && !stopping) && Registered(manifest, wanted)
      ensures problem == None ==> records == old(records) + [Armed(wanted)] && delivered == old(delivered)
      ensures problem.Some? ==>
                problem.value == if stopping then Stopping else if target.Some? || held.Some? then AlreadyArmed else NotRegistered
    {
      ArmLosesNothing(Now(), wanted, manifest);
      hide NothingLost, Registered, Awaits;
      if stopping {
        return Some(Stopping);
      }
      if target.Some? || held.Some? {
        return Some(AlreadyArmed);
      }
      if !Registered(manifest, wanted) {
        return Some(NotRegistered);
      }
      target := Some(wanted);
      Note(Armed(wanted));
      ArmedAwaits(Now(), wanted);
      problem := None;
    }

    /**
     * Exactly a genuine event of the armed intent that its target owns is accepted, unless another one is held: it is
     * what a release would send, and its record is the last. Any other answer leaves what is held and adds no such
     * record. While armed, the target's success event is never passed on, and the target stays armed.
     */
    method Receive(post: Post, manifest: Manifest, now: nat) returns (answer: Answer)
      requires Valid()
      modifies this
      ensures Valid() && (Now(), answer) == ReceiveOf(old(Now()), post, manifest, now)
      ensures answer.Accepted? <==>
                post.genuine && post.content.Success? && old(target).Some? && !stopping
                && post.content.event.intent.id == old(target).value.intent
                && Owns(manifest, old(target).value, post.content.event)
                && (old(held).Some? ==> old(held).value.event == post.content.event.id)
      ensures answer.Accepted? ==>
                held == Some(Copy(post.body, post.signature, post.content.event.id, now))
                && records == old(records) + [HeldEvent(post.content.event.id, old(target).value.intent)]
      ensures !answer.Accepted? ==> forall r <- records :: r.HeldEvent? ==> r in old(records)
      ensures answer.Forwarded? <==>
                !old(stopping) && post.genuine
                && (old(target) == None || post.content.Unrelated?
                    || (post.content.Success? && post.content.event.intent.id != old(target).value.intent))
      ensures answer.Forwarded? ==> Now() == old(Now())
      ensures answer.Refused? ==>
                (answer.problem == Stopping <==> old(stopping))
                && (answer.problem == BadSignature <==> !old(stopping) && !post.genuine)
                && (answer.problem == BadEvent <==> !old(stopping) && post.genuine && post.content.Malformed?)
                && (answer.problem == NotRegistered ==> OwnersCustomer(manifest, old(target).value) == None)
                && (answer.problem == NotOwned ==> OwnersCustomer(manifest, old(target).value).Some?)
                && (answer.problem == SecondEvent ==> old(held).Some? && old(held).value.event != post.content.event.id)
                && (if answer.problem == NotOwned then records == old(records) + [OwnershipRejected(post.content.event.id)]
                    else Now() == old(Now()))
      ensures answer.Accepted? && !releasing ==>
                post.content.Success?
                && StartReleaseOf(Now(), true, now).1 == Ok(Copy(post.body, post.signature, post.content.event.id, now))
      ensures !answer.Accepted? ==> held == old(held)
      ensures target == old(target) && delivered == old(delivered) && releasing == old(releasing)
      ensures held.Some? && old(held).Some? ==> held.value.event == old(held).value.event
    {
      ReceiveLosesNothing(Now(), post, manifest, now);
      hide Owns, OwnersCustomer, NothingLost;
      if stopping {
        return Refused(Stopping);
      }
      if !post.genuine {
        return Refused(BadSignature);
      }
      if target.Some? && !post.content.Unrelated? {
        if post.content.Malformed? {
          return Refused(BadEvent);
        }
        var event := post.content.event;
        if event.intent.id == target.value.intent {
          if OwnersCustomer(manifest, target.value) == None {
            return Refused(NotRegistered);
          }
          if !Owns(manifest, target.value, event) {
            Note(OwnershipRejected(event.id));
            return Refused(NotOwned);
          }
          if held.Some? && held.value.event != event.id {
            return Refused(SecondEvent);
          }
          held := Some(Copy(post.body, post.signature, event.id, now));
          Note(HeldEvent(event.id, event.intent.id));
          return Accepted;
        }
      }
      answer := Forwarded;
    }

    /** The lock section that starts a release: once it does, nothing else starts until the delivery has ended. */
    method StartRelease(genuine: bool, now: nat) returns (captured: Result<Copy, Problem>)
      requires Valid()
      modifies this
      ensures Valid() && (Now(), captured) == StartReleaseOf(old(Now()), genuine, now)
      ensures captured.Ok? <==>
                !old(stopping) && !old(releasing) && genuine && held.Some? && now < held.value.received + SAFE_SECONDS
      ensures captured.Ok? ==> Exclusive(Now()) && !Exclusive(EndOf(Now()))
      ensures captured.Ok? ==> held == Some(captured.value) && releasing && records == old(records)
      ensures captured.Err? ==>
                (captured.error == Busy <==> old(stopping) || old(releasing))
                && (captured.error == NothingHeld <==> !old(stopping) && !old(releasing) && held == None)
                && if captured.error == TooOld then held.Some? && records == old(records) + [Expired(held.value.event)]
                else records == old(records)
      ensures held == old(held) && target == old(target) && delivered == old(delivered)
      ensures captured.Err? ==> releasing == old(releasing)
    {
      StartLosesNothing(Now(), held, NothingHeld, genuine, now);
      hide NothingLost;
      if stopping || releasing {
        return Err(Busy);
      }
      if held == None {
        return Err(NothingHeld);
      }
      var copy := held.value;
      if now - copy.received >= SAFE_SECONDS {
        Note(Expired(copy.event));
        return Err(TooOld);
      }
      if !genuine {
        return Err(BadSignature);
      }
      releasing := true;
      captured := Ok(copy);
    }

    /** The lock section after upstream answered: only the very copy that upstream took is given up. */
    method CommitRelease(captured: Copy, status: int)
      requires Valid()
      modifies this
      ensures Valid() && Now() == CommitReleaseOf(old(Now()), captured, status)
      ensures records == old(records) + [Released(captured.event, status)]
      ensures held != old(held) <==> status == 200 && old(held) == Some(captured)
      ensures held != old(held) ==>
                held == None && delivered == old(held) && Closes(records[|records| - 1], captured.event)
                && (!stopping ==> Free(Now()))
      ensures held == old(held) ==> target == old(target) && delivered == old(delivered)
      ensures releasing == old(releasing) && stopping == old(stopping)
    {
      CommitLosesNothing(Now(), captured, status);
      hide NothingLost, Free;
      Note(Released(captured.event, status));
      if status == 200 && held == Some(captured) {
        delivered := Some(captured);
        held := None;
        target := None;
        if !stopping {
          NothingHeldIsFree(Now());
        }
      }
    }

    /** The lock section that starts sending the delivered event once more, in time and alone like a release. */
    method StartRedeliver(genuine: bool, now: nat) returns (captured: Result<Copy, Problem>)
      requires Valid()
      modifies this
      ensures Valid() && (Now(), captured) == StartRedeliverOf(old(Now()), genuine, now)
      ensures captured.Ok? <==>
                !old(stopping) && !old(releasing) && genuine
                && delivered.Some? && now < delivered.value.received + SAFE_SECONDS
      ensures captured.Ok? ==> Exclusive(Now()) && delivered == Some(captured.value) && records == old(records)
      ensures captured.Err? ==> releasing == old(releasing)
      ensures held == old(held) && target == old(target) && delivered == old(delivered)
    {
      StartLosesNothing(Now(), delivered, NothingReleased, genuine, now);
      hide NothingLost;
      if stopping || releasing {
        return Err(Busy);
      }
      if delivered == None {
        return Err(NothingReleased);
      }
      var copy := delivered.value;
      if now - copy.received >= SAFE_SECONDS {
        Note(Expired(copy.event));
        return Err(TooOld);
      }
      if !genuine {
        return Err(BadSignature);
      }
      releasing := true;
      captured := Ok(copy);
    }

    method CommitRedeliver(captured: Copy, status: int)
      requires Valid()
      modifies this
      ensures Valid() && Now() == CommitRedeliverOf(old(Now()), captured, status)
      ensures records == old(records) + [Redelivered(captured.event, status)]
      ensures held == old(held) && target == old(target) && delivered == old(delivered) && releasing == old(releasing)
    {
      CommitLosesNothing(Now(), captured, status);
      hide NothingLost;
      Note(Redelivered(captured.event, status));
    }

    method EndDelivery()
      requires Valid()
      modifies this
      ensures Valid() && Now() == EndOf(old(Now()))
      ensures !releasing && held == old(held) && target == old(target) && delivered == old(delivered) && records == old(records)
    {
      SameAccounts(Now(), EndOf(Now()));
      hide NothingLost;
      releasing := false;
    }

    /** The lock section that gives up what is held, never during a delivery; the relay is then free for a new target. */
    method Recover() returns (resend: Result<Option<string>, Problem>)
      requires Valid()
      modifies this
      ensures Valid() && (Now(), resend) == RecoverOf(old(Now()))
      ensures resend.Err? <==> old(releasing)
      ensures resend.Err? ==> Now() == old(Now())
      ensures resend.Ok? ==> held == None && target == None && delivered == old(delivered) && (!stopping ==> Free(Now()))
      ensures resend.Ok? && old(held).Some? ==>
                resend.value == Some(old(held).value.event)
                && records == old(records) + [RecoveryRequested(old(held).value.event)]
      ensures resend.Ok? && old(held) == None ==> resend.value == None && records == old(records)
    {
      RecoverLosesNothing(Now());
      hide NothingLost, Free;
      if releasing {
        return Err(Busy);
      }
      if held == None {
        target := None;
        if !stopping {
          NothingHeldIsFree(Now());
        }
        return Ok(None);
      }
      var event := held.value.event;
      target := None;
      held := None;
      Note(RecoveryRequested(event));
      if !stopping {
        NothingHeldIsFree(Now());
      }
      resend := Ok(Some(event));
    }
  }
}
