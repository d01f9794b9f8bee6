/** The plan follows the subscription: webhook events, success pages and the fetches
    they wait for, on the user, subscription and event tables. */
module Billing {
  import opened Text

  /** One row per user who has reached Checkout. */
  datatype SubRow = SubRow(user: int, customer: string, subscription: Option<string>, status: string,
                           periodEnd: Option<real>, cancelScheduled: bool)

  /** A subscription object as Stripe sends it. */
  datatype Sub = Sub(id: Option<string>, customer: Option<string>, status: Option<string>,
                     periodEnd: Option<real>, itemPeriodEnd: Option<real>,
                     cancelAt: Option<real>, cancelAtPeriodEnd: bool)

  datatype SubRef = NoSub | SubId(id: string) | Inline(sub: Sub)

  datatype Session = Session(reference: Option<string>, metadataUser: Option<string>, customer: Option<string>,
                             mode: Option<string>, paymentStatus: Option<string>, subscription: SubRef)

  datatype Kind = CheckoutCompleted | SubscriptionDeleted | SubscriptionOther | Unrelated

  datatype Event = Event(id: string, kind: Kind, session: Session, sub: Sub)

  /** At which statement of `apply_subscription` the database fails, if at all. */
  datatype Fault = NoFault | AtUpsert | AtSetPlan

  /** `stale` lists the users whose latest row was written without its plan: history. */
  datatype Db = Db(users: map<int, string>, subs: seq<SubRow>, events: set<string>, stale: set<int>)

  const FREE := "free"
  const PRO := "pro"

  function PlanFor(status: string): string {
    if status in {"active", "trialing", "past_due"} then PRO else FREE
  }

  /** Python's `x or ""`: a missing value and an empty one are the same. */
  function OrEmpty(x: Option<string>): string {
    match x
    case Some(s) => s
    case None => ""
  }

  function StatusOf(sub: Option<Sub>): string {
    var s := if sub.Some? then OrEmpty(sub.value.status) else "";
    if s == "" then "none" else s
  }

  function PeriodEnd(sub: Sub): Option<real> {
    if sub.cancelAt.Some? then sub.cancelAt
    else if sub.periodEnd.Some? then sub.periodEnd
    else sub.itemPeriodEnd
  }

  function RowFor(user: int, customer: string, sub: Option<Sub>): SubRow {
    match sub
    case None => SubRow(user, customer, None, StatusOf(sub), None, false)
    case Some(o) => SubRow(user, customer, o.id, StatusOf(sub), PeriodEnd(o), o.cancelAtPeriodEnd || o.cancelAt.Some?)
  }

  // --- The tables ------------------------------------------------------------------------------

  function RowOf(subs: seq<SubRow>, user: int): Option<SubRow> {
    if subs == [] then None
    else if subs[0].user == user then Some(subs[0])
    else RowOf(subs[1..], user)
  }

  function ByCustomer(subs: seq<SubRow>, customer: string): Option<SubRow> {
    if subs == [] then None
    else if subs[0].customer == customer then Some(subs[0])
    else ByCustomer(subs[1..], customer)
  }

  /** ON CONFLICT(user_id) DO UPDATE. */
  function Upserted(subs: seq<SubRow>, row: SubRow): seq<SubRow> {
    if subs == [] then [row]
    else if subs[0].user == row.user then [row] + subs[1..]
    else [subs[0]] + Upserted(subs[1..], row)
  }

  /** The unique index on customer_id: no other user has this customer. */
  predicate CustomerFree(subs: seq<SubRow>, row: SubRow) {
    var taken := ByCustomer(subs, row.customer);
    taken == None || taken.value.user == row.user
  }

  /** The upsert goes through: the user exists, the customer is not another's, and the
      database raises nothing else. */
  predicate Accepts(db: Db, row: SubRow, fault: Fault) {
    fault != AtUpsert && row.user in db.users && CustomerFree(db.subs, row)
  }

  /** `apply_subscription`: write the row, then set the plan from it. If the row is refused
      the exception leaves both as they were; if the plan cannot be set the row stays. */
  function Applied(db: Db, user: int, customer: string, sub: Option<Sub>, fault: Fault): Db {
    var row := RowFor(user, customer, sub);
    if !Accepts(db, row, fault) then db
    else if fault == AtSetPlan then db.(subs := Upserted(db.subs, row), stale := db.stale + {user})
    else
      db.(subs := Upserted(db.subs, row), users := db.users[user := PlanFor(row.status)], stale := db.stale - {user})
  }

  // --- Checkout sessions and events, up to their await -------------------------------------------

  datatype Action =
    | Ignore
    | Apply(user: int, customer: string, sub: Option<Sub>)
    | Fetch(user: int, customer: string, subId: string)

  /** `apply_checkout_session` before it fetches the subscription. */
  function OpenCheckout(db: Db, session: Session): Action {
    var ref := if OrEmpty(session.reference) != "" then OrEmpty(session.reference) else OrEmpty(session.metadataUser);
    var customer := OrEmpty(session.customer);
    if ref == "" || customer == "" || !(session.mode == None || session.mode == Some("subscription")) then Ignore
    else
      match ParseInt(ref)
      case None => Ignore
      case Some(user) =>
        if user !in db.users then Ignore
        else
          match session.subscription
          case SubId(id) => Fetch(user, customer, id)
          case Inline(sub) => Apply(user, customer, Some(sub))
          case NoSub => Apply(user, customer, None)
  }

  /** `apply_event`. */
  function OpenEvent(db: Db, e: Event): Action {
    match e.kind
    case CheckoutCompleted =>
      if e.session.paymentStatus in {None, Some("paid"), Some("no_payment_required")} then OpenCheckout(db, e.session)
      else Ignore
    case Unrelated => Ignore
    case _ =>
      var customer := OrEmpty(e.sub.customer);
      var row := if customer == "" then None else ByCustomer(db.subs, customer);
      if row == None then Ignore
      else Apply(row.value.user, customer,
                 Some(if e.kind.SubscriptionDeleted? then e.sub.(status := Some("canceled")) else e.sub))
  }

  // --- All interleavings ----------------------------------------------------------------------------

  datatype Pending = Pending(user: int, customer: string)

  /** `reached` lists the event ids that have reached `apply_event`: history. */
  datatype World = World(db: Db, pending: seq<Pending>, reached: seq<string>)

  datatype Step =
    | SignUp(user: int)
    | Deliver(event: Event, fault: Fault)
    | SuccessPage(user: int, session: Session, fault: Fault)
    | FetchDone(i: nat, sub: Sub, fault: Fault)
    | FetchFails(i: nat)

  function Follow(w: World, action: Action, fault: Fault): World {
    match action
    case Ignore => w
    case Apply(user, customer, sub) => w.(db := Applied(w.db, user, customer, sub, fault))
    case Fetch(user, customer, _) => w.(pending := w.pending + [Pending(user, customer)])
  }

  /** The webhook takes an event id it has not seen. */
  predicate Fresh(db: Db, id: string) {
    id != "" && id !in db.events
  }

  /** The success page shows a paid session of the user who is signed in. */
  predicate Confirms(user: int, session: Session) {
    session.paymentStatus in {Some("paid"), Some("no_payment_required")} && session.reference == Some(Decimal(user))
  }

  function Without<T>(s: seq<T>, i: nat): seq<T>
    requires i < |s|
  {
    s[..i] + s[i + 1..]
  }

  function Next(w: World, step: Step): World {
    match step
    case SignUp(user) => if user in w.db.users then w else w.(db := w.db.(users := w.db.users[user := FREE]))
    case Deliver(e, fault) =>
      if !Fresh(w.db, e.id) then w
      else
        var w1 := w.(db := w.db.(events := w.db.events + {e.id}), reached := w.reached + [e.id]);
        Follow(w1, OpenEvent(w1.db, e), fault)
    case SuccessPage(user, session, fault) =>
      if Confirms(user, session) then Follow(w, OpenCheckout(w.db, session), fault) else w
    case FetchDone(i, sub, fault) =>
      if i < |w.pending| then
        var p := w.pending[i];
        World(Applied(w.db, p.user, p.customer, Some(sub), fault), Without(w.pending, i), w.reached)
      else w
    case FetchFails(i) =>
      if i < |w.pending| then w.(pending := Without(w.pending, i)) else w
  }

  function Run(w: World, steps: seq<Step>): World
    decreases |steps|
  {
    if steps == [] then w else Run(Next(w, steps[0]), steps[1..])
  }

  function Empty(): World {
    World(Db(map[], [], {}, {}), [], [])
  }

  // --- The invariant -----------------------------------------------------------------------------------

  /** PRIMARY KEY (user_id), and no two users share a customer id. */
  ghost predicate UniqueRows(subs: seq<SubRow>) {
    forall i, j :: 0 <= i < j < |subs| ==> subs[i].user != subs[j].user && subs[i].customer != subs[j].customer
  }

  function PlanOfRow(row: Option<SubRow>): string {
    match row
    case None => FREE
    case Some(r) => PlanFor(r.status)
  }

  /** Every user's plan is that of their row's status, free without a row, unless it could
      not be set. */
  ghost predicate PlansFollow(db: Db) {
    && (forall u :: u in db.users && u !in db.stale ==> db.users[u] == PlanOfRow(RowOf(db.subs, u)))
    && (forall i :: 0 <= i < |db.subs| ==> db.subs[i].user in db.users)
  }

  ghost predicate OncePerEvent(w: World) {
    && (forall i, j :: 0 <= i < j < |w.reached| ==> w.reached[i] != w.reached[j])
    && (forall i :: 0 <= i < |w.reached| ==> w.reached[i] in w.db.events)
  }

  ghost predicate Inv(w: World) {
    UniqueRows(w.db.subs) && PlansFollow(w.db) && OncePerEvent(w)
  }

  lemma {:induction false} CustomerNotElsewhere(subs: seq<SubRow>, customer: string)
    ensures ByCustomer(subs, customer) == None ==> forall i :: 0 <= i < |subs| ==> subs[i].customer != customer
    ensures ByCustomer(subs, customer).Some? ==>
              ByCustomer(subs, customer).value in subs && ByCustomer(subs, customer).value.customer == customer
  {
    if subs != [] && subs[0].customer != customer {
      CustomerNotElsewhere(subs[1..], customer);
    }
  }

  lemma {:induction false} UpsertMembers(subs: seq<SubRow>, row: SubRow)
    ensures forall r :: r in Upserted(subs, row) ==> r == row || r in subs
    ensures forall u :: RowOf(Upserted(subs, row), u) == if u == row.user then Some(row) else RowOf(subs, u)
  {
    if subs != [] && subs[0].user != row.user {
      UpsertMembers(subs[1..], row);
      assert Upserted(subs, row)[1..] == Upserted(subs[1..], row);
    } else if subs != [] {
      assert Upserted(subs, row)[1..] == subs[1..];
    }
  }

  lemma {:induction false} UpsertUnique(subs: seq<SubRow>, row: SubRow)
    requires UniqueRows(subs)
    requires forall i :: 0 <= i < |subs| && subs[i].user != row.user ==> subs[i].customer != row.customer
    ensures UniqueRows(Upserted(subs, row))
  {
    if subs != [] && subs[0].user != row.user {
      UpsertUnique(subs[1..], row);
      UpsertMembers(subs[1..], row);
      var rest := Upserted(subs[1..], row);
      forall j | 0 <= j < |rest|
        ensures subs[0].user != rest[j].user && subs[0].customer != rest[j].customer
      {
        assert rest[j] in rest;
      }
    }
  }

  lemma {:induction false} CustomerFound(subs: seq<SubRow>, i: nat)
    requires UniqueRows(subs) && i < |subs|
    ensures ByCustomer(subs, subs[i].customer) == Some(subs[i])
  {
    if i > 0 {
      CustomerFound(subs[1..], i - 1);
    }
  }

  lemma UpsertKeepsUnique(subs: seq<SubRow>, row: SubRow)
    requires UniqueRows(subs) && CustomerFree(subs, row)
    ensures UniqueRows(Upserted(subs, row))
  {
    hide UniqueRows, Upserted, ByCustomer;
    forall i | 0 <= i < |subs| && subs[i].user != row.user
      ensures subs[i].customer != row.customer
    {
      CustomerFound(subs, i);
    }
    UpsertUnique(subs, row);
  }

  lemma UpsertFollows(db: Db, row: SubRow)
    requires PlansFollow(db) && row.user in db.users
    ensures var db1 := db.(subs := Upserted(db.subs, row));
            && PlansFollow(db1.(stale := db.stale + {row.user}))
            && PlansFollow(db1.(users := db.users[row.user := PlanFor(row.status)], stale := db.stale - {row.user}))
  {
    hide PlanFor, RowOf, Upserted;
    UpsertMembers(db.subs, row);
    var subs' := Upserted(db.subs, row);
    forall i | 0 <= i < |subs'|
      ensures subs'[i].user in db.users
    {
      assert subs'[i] in subs';
    }
  }

  lemma AppliedKeeps(db: Db, user: int, customer: string, sub: Option<Sub>, fault: Fault)
    requires UniqueRows(db.subs) && PlansFollow(db)
    ensures var db' := Applied(db, user, customer, sub, fault);
            UniqueRows(db'.subs) && PlansFollow(db') && db'.events == db.events
  {
    hide UniqueRows, PlansFollow, Upserted, CustomerFree;
    var row := RowFor(user, customer, sub);
    if Accepts(db, row, fault) {
      UpsertKeepsUnique(db.subs, row);
      UpsertFollows(db, row);
    }
  }

  lemma FollowKeeps(w: World, action: Action, fault: Fault)
    requires Inv(w)
    ensures Inv(Follow(w, action, fault))
  {
    hide UniqueRows, PlansFollow, Applied;
    match action
    case Apply(user, customer, sub) => AppliedKeeps(w.db, user, customer, sub, fault);
    case _ =>
  }

  lemma NextKeeps(w: World, step: Step)
    requires Inv(w)
    ensures Inv(Next(w, step))
  {
    match step
    case SignUp(user) =>
      if user !in w.db.users {
        NoRow(w.db, user);
      }
    case Deliver(e, fault) =>
      if Fresh(w.db, e.id) {
        var w1 := w.(db := w.db.(events := w.db.events + {e.id}), reached := w.reached + [e.id]);
        hide Follow, OpenEvent;
        assert Inv(w1);
        FollowKeeps(w1, OpenEvent(w1.db, e), fault);
      }
    case SuccessPage(_, session, fault) => FollowKeeps(w, OpenCheckout(w.db, session), fault);
    case FetchDone(i, sub, fault) =>
      if i < |w.pending| {
        AppliedKeeps(w.db, w.pending[i].user, w.pending[i].customer, Some(sub), fault);
        hide UniqueRows, PlansFollow, Applied;
      }
    case FetchFails(_) =>
  }

  lemma {:induction false} RowOfUser(subs: seq<SubRow>, user: int)
    ensures RowOf(subs, user).Some? ==> exists i :: 0 <= i < |subs| && subs[i].user == user
  {
    if subs != [] && subs[0].user != user {
      RowOfUser(subs[1..], user);
      if i :| 0 <= i < |subs[1..]| && subs[1..][i].user == user {
        assert subs[i + 1].user == user;
      }
    }
  }

  lemma NoRow(db: Db, user: int)
    requires PlansFollow(db) && user !in db.users
    ensures RowOf(db.subs, user) == None
  {
    RowOfUser(db.subs, user);
  }

  lemma {:induction false} RunKeeps(w: World, steps: seq<Step>)
    requires Inv(w)
    ensures Inv(Run(w, steps))
    decreases |steps|
  {
    hide Inv, Next;
    if steps != [] {
      NextKeeps(w, steps[0]);
      RunKeeps(Next(w, steps[0]), steps[1..]);
    }
  }

  /** Over every interleaving of events, success pages, fetches that end or fail late,
      redeliveries, refused upserts and plans that could not be set: each user's plan is that
      of their subscription's status unless setting it failed when the row was last written,
      no two users share a customer, and no event id reaches `apply_event` twice. */
  lemma PlanFollowsStatus(steps: seq<Step>)
    ensures var w := Run(Empty(), steps);
            && (forall u :: u in w.db.users && u !in w.db.stale ==>
                  var row := RowOf(w.db.subs, u);
                  w.db.users[u]
                  == if row.Some? && row.value.status in {"active", "trialing", "past_due"} then "pro" else "free")
            && (forall i, j :: 0 <= i < j < |w.db.subs| ==> w.db.subs[i].customer != w.db.subs[j].customer)
            && (forall i, j :: 0 <= i < j < |w.reached| ==> w.reached[i] != w.reached[j])
  {
    RunKeeps(Empty(), steps);
  }

  // --- What one application does ---------------------------------------------------------------------------

  /** An accepted row is the user's row, and without a fault its status gives the plan;
      nobody else's row or plan changes. */
  lemma AppliedSets(db: Db, user: int, customer: string, sub: Option<Sub>, fault: Fault)
    ensures var db', row := Applied(db, user, customer, sub, fault), RowFor(user, customer, sub);
            && db'.users.Keys == db.users.Keys
            && (Accepts(db, row, fault) ==> RowOf(db'.subs, user) == Some(row))
            && (Accepts(db, row, fault) && fault == NoFault ==> db'.users[user] == PlanFor(row.status))
            && (!Accepts(db, row, fault) ==> db' == db)
            && forall u :: u != user ==>
                 RowOf(db'.subs, u) == RowOf(db.subs, u) && (u in db.users ==> db'.users[u] == db.users[u])
  {
    hide Upserted, RowOf, PlanFor, CustomerFree;
    UpsertMembers(db.subs, RowFor(user, customer, sub));
  }

  /** If setting the plan fails after the row was written, the plan agrees with the row
      exactly when it need not have changed. */
  lemma SetPlanFails(db: Db, user: int, customer: string, sub: Option<Sub>)
    requires Accepts(db, RowFor(user, customer, sub), AtSetPlan)
    ensures var db' := Applied(db, user, customer, sub, AtSetPlan);
            db'.users[user] == PlanOfRow(RowOf(db'.subs, user)) <==> db.users[user] == PlanFor(StatusOf(sub))
  {
    hide PlanFor;
    AppliedSets(db, user, customer, sub, AtSetPlan);
  }

  /** The plan of every status, written out: active, trialing and past due are Pro; any other
      status, an empty or missing one and a missing subscription are Free. */
  lemma StatusDecides(sub: Option<Sub>)
    ensures PlanFor(StatusOf(sub))
         == if sub.Some? && sub.value.status in {Some("active"), Some("trialing"), Some("past_due")} then "pro"
            else "free"
  {
    assert |"none"| == 4 && |"active"| == 6 && |"trialing"| == 8 && |"past_due"| == 8;
  }

  /** The row records the subscription field by field: a scheduled cancellation sets the date
      shown, before the period's end, which is read from the item if it is not given. */
  lemma RowRecords(db: Db, user: int, customer: string, sub: Option<Sub>, fault: Fault)
    requires Accepts(db, RowFor(user, customer, sub), fault)
    ensures var found := RowOf(Applied(db, user, customer, sub, fault).subs, user);
            && found.Some? && found.value.user == user && found.value.customer == customer
            && (sub == None ==>
                  found.value == SubRow(user, customer, None, "none", None, false))
            && (sub.Some? ==>
                  && found.value.subscription == sub.value.id
                  && found.value.status
                     == (if sub.value.status.Some? && sub.value.status.value != "" then sub.value.status.value
                         else "none")
                  && found.value.periodEnd
                     == (if sub.value.cancelAt != None then sub.value.cancelAt
                         else if sub.value.periodEnd != None then sub.value.periodEnd
                         else sub.value.itemPeriodEnd)
                  && (found.value.cancelScheduled <==> sub.value.cancelAtPeriodEnd || sub.value.cancelAt != None))
  {
    hide Upserted, RowOf, CustomerFree, PlanFor;
    UpsertMembers(db.subs, RowFor(user, customer, sub));
  }

  /** The database takes a row exactly if the upsert does not fail, its user exists and no
      other user's row has its customer. */
  lemma AcceptsExactly(db: Db, row: SubRow, fault: Fault)
    requires UniqueRows(db.subs)
    ensures Accepts(db, row, fault) <==>
              && fault != AtUpsert && row.user in db.users
              && forall i :: 0 <= i < |db.subs| && db.subs[i].customer == row.customer ==> db.subs[i].user == row.user
  {
    hide ByCustomer, UniqueRows;
    CustomerNotElsewhere(db.subs, row.customer);
    forall i | 0 <= i < |db.subs|
      ensures ByCustomer(db.subs, db.subs[i].customer) == Some(db.subs[i])
    {
      CustomerFound(db.subs, i);
    }
  }

  // --- What is applied at all --------------------------------------------------------------------------------

  predicate About(action: Action, user: int) {
    !action.Ignore? && action.user == user
  }

  /** What a webhook or a success page sets out to do. */
  function Opened(w: World, step: Step): Action {
    match step
    case Deliver(e, _) => if Fresh(w.db, e.id) then OpenEvent(w.db, e) else Ignore
    case SuccessPage(user, session, _) => if Confirms(user, session) then OpenCheckout(w.db, session) else Ignore
    case _ => Ignore
  }

  lemma OpenReads(db: Db, events: set<string>, e: Event)
    ensures OpenEvent(db.(events := events), e) == OpenEvent(db, e)
  {
  }

  /** The session is for this user: by its reference, or by its metadata without one. */
  ghost predicate NamesUser(session: Session, user: int) {
    if session.reference in {None, Some("")} then
      session.metadataUser.Some? && session.metadataUser.value != ""
      && ParseInt(session.metadataUser.value) == Some(user)
    else ParseInt(session.reference.value) == Some(user)
  }

  /** A session is taken up exactly if it is one of a subscription, has a customer and names an
      existing user; then it is taken up for that user and customer. */
  lemma CheckoutTakenUp(db: Db, session: Session, user: int)
    ensures About(OpenCheckout(db, session), user) <==>
              && user in db.users && NamesUser(session, user)
              && session.customer != None && session.customer != Some("")
              && session.mode in {None, Some("subscription")}
    ensures About(OpenCheckout(db, session), user) ==>
              OpenCheckout(db, session) ==
                match session.subscription
                case SubId(id) => Fetch(user, session.customer.value, id)
                case Inline(sub) => Apply(user, session.customer.value, Some(sub))
                case NoSub => Apply(user, session.customer.value, None)
  {
    hide ParseInt;
    NoNumber();
  }

  lemma NoNumber()
    ensures ParseInt("") == None
  {
  }

  /** An event does something for a user exactly if it is a checkout that is paid or needs no
      payment and is taken up for them, or a subscription event of the customer on their row. */
  lemma EventTakenUp(db: Db, e: Event, user: int)
    requires UniqueRows(db.subs)
    ensures About(OpenEvent(db, e), user) <==>
              || (e.kind == CheckoutCompleted && About(OpenCheckout(db, e.session), user)
                  && e.session.paymentStatus in {None, Some("paid"), Some("no_payment_required")})
              || (e.kind in {SubscriptionDeleted, SubscriptionOther} && e.sub.customer !in {None, Some("")}
                  && exists i :: 0 <= i < |db.subs|
                       && db.subs[i].user == user && Some(db.subs[i].customer) == e.sub.customer)
    ensures e.kind in {SubscriptionDeleted, SubscriptionOther} && About(OpenEvent(db, e), user) ==>
              OpenEvent(db, e) == Apply(user, e.sub.customer.value,
                Some(if e.kind == SubscriptionDeleted then e.sub.(status := Some("canceled")) else e.sub))
  {
    hide OpenCheckout, ByCustomer, UniqueRows;
    var customer := OrEmpty(e.sub.customer);
    CustomerNotElsewhere(db.subs, customer);
    forall i | 0 <= i < |db.subs|
      ensures ByCustomer(db.subs, db.subs[i].customer) == Some(db.subs[i])
    {
      CustomerFound(db.subs, i);
    }
    if ByCustomer(db.subs, customer).Some? {
      var j :| 0 <= j < |db.subs| && db.subs[j] == ByCustomer(db.subs, customer).value;
    }
  }

  /** A webhook acts once per event id and never without one; a success page acts only on a
      paid session of the user who is signed in. */
  lemma OpenedExactly(w: World, step: Step)
    ensures step.Deliver? ==>
              var e, w' := step.event, Next(w, step);
              var news := e.id != "" && e.id !in w.db.events;
              && Opened(w, step) == (if news then OpenEvent(w.db, e) else Ignore)
              && w'.reached == (if news then w.reached + [e.id] else w.reached)
              && w'.db.events == (if news then w.db.events + {e.id} else w.db.events)
    ensures step.SuccessPage? ==>
              Opened(w, step) ==
                if step.session.paymentStatus in {Some("paid"), Some("no_payment_required")}
                   && step.session.reference == Some(Decimal(step.user))
                then OpenCheckout(w.db, step.session) else Ignore
  {
    hide OpenEvent, OpenCheckout, Decimal, Upserted, CustomerFree, PlanFor;
  }

  // --- What one step does to a plan --------------------------------------------------------------------------

  function FaultOf(step: Step): Fault {
    match step
    case Deliver(_, fault) => fault
    case SuccessPage(_, _, fault) => fault
    case FetchDone(_, _, fault) => fault
    case _ => NoFault
  }

  /** What the step applies, or opens: a fetch that ends applies what it found. */
  function Applying(w: World, step: Step): Action {
    match step
    case FetchDone(i, sub, _) =>
      if i < |w.pending| then Apply(w.pending[i].user, w.pending[i].customer, Some(sub)) else Ignore
    case _ => Opened(w, step)
  }

  /** The step applies a subscription to the user, and both statements go through. */
  predicate SetsPlan(w: World, step: Step, user: int) {
    var action := Applying(w, step);
    && action.Apply? && action.user == user && FaultOf(step) == NoFault
    && Accepts(w.db, RowFor(user, action.customer, action.sub), NoFault)
  }

  /** A step sets a user's plan exactly if it applies a subscription to them and both
      statements go through; the plan is that of the subscription's status. */
  lemma PlanStep(w: World, step: Step, user: int)
    requires user in w.db.users
    ensures var w' := Next(w, step);
            && user in w'.db.users
            && (!SetsPlan(w, step, user) ==> w'.db.users[user] == w.db.users[user])
            && (SetsPlan(w, step, user) ==>
                  var sub := Applying(w, step).sub;
                  && w'.db.users[user] == PlanFor(StatusOf(sub))
                  && w'.db.users[user]
                     == if sub.Some? && sub.value.status in {Some("active"), Some("trialing"), Some("past_due")}
                        then "pro" else "free")
  {
    hide OpenEvent, OpenCheckout, Confirms, Upserted, RowOf, PlanFor, StatusOf, CustomerFree;
    if Applying(w, step).Apply? {
      StatusDecides(Applying(w, step).sub);
    }
    if step.Deliver? {
      OpenReads(w.db, w.db.events + {step.event.id}, step.event);
    }
  }

  /** The step puts the user on Pro. */
  predicate Revives(w: World, step: Step, user: int) {
    SetsPlan(w, step, user) && PlanFor(StatusOf(Applying(w, step).sub)) == PRO
  }

  predicate NeverRevived(w: World, steps: seq<Step>, user: int)
    decreases |steps|
  {
    steps == [] || (!Revives(w, steps[0], user) && NeverRevived(Next(w, steps[0]), steps[1..], user))
  }

  /** The user is on Free now and after every step. */
  predicate FreeThroughout(w: World, steps: seq<Step>, user: int)
    decreases |steps|
  {
    && user in w.db.users && w.db.users[user] == FREE
    && (steps != [] ==> FreeThroughout(Next(w, steps[0]), steps[1..], user))
  }

  lemma TwoPlans(status: string)
    ensures PlanFor(status) == PRO || PlanFor(status) == FREE
    ensures PRO != FREE
  {
    assert |PRO| != |FREE|;
  }

  /** A user on Free stays there through a run exactly if no step of it applies to them, with
      success, a subscription whose status gives Pro. */
  lemma {:induction false} FreeExactly(w: World, steps: seq<Step>, user: int)
    requires user in w.db.users && w.db.users[user] == FREE
    ensures FreeThroughout(w, steps, user) <==> NeverRevived(w, steps, user)
    decreases |steps|
  {
    hide Next, SetsPlan, Applying, PlanFor, StatusOf;
    if steps != [] {
      PlanStep(w, steps[0], user);
      if SetsPlan(w, steps[0], user) {
        SetsApplies(w, steps[0], user);
        TwoPlans(StatusOf(Applying(w, steps[0]).sub));
      }
      if !Revives(w, steps[0], user) {
        FreeExactly(Next(w, steps[0]), steps[1..], user);
      }
    }
  }

  lemma SetsApplies(w: World, step: Step, user: int)
    ensures SetsPlan(w, step, user) ==> Applying(w, step).Apply?
  {
  }

  // --- Steps that are not about a user -----------------------------------------------------------------------

  /** The step ends a fetch made for the user. */
  predicate EndsFetch(w: World, step: Step, user: int) {
    (step.FetchDone? || step.FetchFails?) && step.i < |w.pending| && w.pending[step.i].user == user
  }

  /** No step opens anything for the user. */
  predicate Unopened(w: World, steps: seq<Step>, user: int)
    decreases |steps|
  {
    steps == [] || (!About(Opened(w, steps[0]), user) && Unopened(Next(w, steps[0]), steps[1..], user))
  }

  /** No step opens anything for the user or ends a fetch made for them. */
  predicate Quiet(w: World, steps: seq<Step>, user: int)
    decreases |steps|
  {
    steps == []
    || (!About(Opened(w, steps[0]), user) && !EndsFetch(w, steps[0], user)
        && Quiet(Next(w, steps[0]), steps[1..], user))
  }

  /** The user's row and plan. */
  ghost predicate SameFor(db: Db, db': Db, user: int) {
    && RowOf(db'.subs, user) == RowOf(db.subs, user)
    && (user in db.users ==> user in db'.users && db'.users[user] == db.users[user])
  }

  /** A fetch for the user and this customer is under way. */
  ghost predicate Awaited(w: World, user: int, customer: string) {
    exists i :: 0 <= i < |w.pending| && w.pending[i] == Pending(user, customer)
  }

  ghost predicate NonePending(w: World, user: int) {
    forall i :: 0 <= i < |w.pending| ==> w.pending[i].user != user
  }

  lemma AppliedElsewhere(db: Db, user: int, customer: string, sub: Option<Sub>, fault: Fault, other: int)
    requires other != user
    ensures SameFor(db, Applied(db, user, customer, sub, fault), other)
  {
    hide Applied, RowOf;
    AppliedSets(db, user, customer, sub, fault);
  }

  lemma FollowElsewhere(w: World, action: Action, fault: Fault, user: int)
    requires !About(action, user)
    ensures SameFor(w.db, Follow(w, action, fault).db, user)
  {
    hide Applied;
    match action
    case Apply(other, customer, sub) => AppliedElsewhere(w.db, other, customer, sub, fault, user);
    case _ =>
  }

  lemma NextElsewhere(w: World, step: Step, user: int)
    requires !About(Opened(w, step), user) && !EndsFetch(w, step, user)
    ensures SameFor(w.db, Next(w, step).db, user)
  {
    hide OpenEvent, OpenCheckout, Confirms, Applied, Follow, RowOf;
    match step
    case Deliver(e, fault) =>
      if Fresh(w.db, e.id) {
        OpenReads(w.db, w.db.events + {e.id}, e);
        var w1 := w.(db := w.db.(events := w.db.events + {e.id}), reached := w.reached + [e.id]);
        FollowElsewhere(w1, OpenEvent(w.db, e), fault, user);
      }
    case SuccessPage(_, session, fault) => FollowElsewhere(w, Opened(w, step), fault, user);
    case FetchDone(i, sub, fault) =>
      if i < |w.pending| {
        AppliedElsewhere(w.db, w.pending[i].user, w.pending[i].customer, Some(sub), fault, user);
      }
    case _ =>
  }

  /** A step opening nothing for the user adds no fetch for them, and ends none unless it
      is one of theirs. */
  lemma NextPending(w: World, step: Step, user: int, customer: string)
    requires !About(Opened(w, step), user)
    ensures NonePending(w, user) ==> NonePending(Next(w, step), user)
    ensures !EndsFetch(w, step, user) && Awaited(w, user, customer) ==> Awaited(Next(w, step), user, customer)
  {
    hide OpenEvent, OpenCheckout, Confirms, Applied;
    if step.Deliver? {
      OpenReads(w.db, w.db.events + {step.event.id}, step.event);
    }
    var w' := Next(w, step);
    if !EndsFetch(w, step, user) && Awaited(w, user, customer) {
      var i :| 0 <= i < |w.pending| && w.pending[i] == Pending(user, customer);
      var removed := (step.FetchDone? || step.FetchFails?) && step.i < i;
      assert w'.pending[if removed then i - 1 else i] == Pending(user, customer);
    }
  }

  lemma SameTrans(a: Db, b: Db, c: Db, user: int)
    requires SameFor(a, b, user) && SameFor(b, c, user)
    ensures SameFor(a, c, user)
  {
  }

  /** Whatever happens to others, a user's row and plan stay, and so does a fetch under way. */
  lemma {:induction false} QuietKeeps(w: World, steps: seq<Step>, user: int, customer: string)
    requires Quiet(w, steps, user)
    ensures SameFor(w.db, Run(w, steps).db, user)
    ensures Awaited(w, user, customer) ==> Awaited(Run(w, steps), user, customer)
    decreases |steps|
  {
    hide SameFor, Awaited, Next, Opened, EndsFetch;
    if steps == [] {
      SameSelf(w.db, user);
    } else {
      var w1 := Next(w, steps[0]);
      NextElsewhere(w, steps[0], user);
      NextPending(w, steps[0], user, customer);
      QuietKeeps(w1, steps[1..], user, customer);
      SameTrans(w.db, w1.db, Run(w1, steps[1..]).db, user);
    }
  }

  lemma SameSelf(db: Db, user: int)
    ensures SameFor(db, db, user)
  {
  }

  /** Without a fetch under way, a user for whom nothing is opened is left alone. */
  lemma {:induction false} UnopenedIsQuiet(w: World, steps: seq<Step>, user: int)
    requires NonePending(w, user) && Unopened(w, steps, user)
    ensures Quiet(w, steps, user)
    decreases |steps|
  {
    hide Next, Opened;
    if steps != [] {
      NextPending(w, steps[0], user, "");
      UnopenedIsQuiet(Next(w, steps[0]), steps[1..], user);
    }
  }

  // --- A subscription from checkout to cancellation ------------------------------------------------------

  /** The checkout that Stripe reports for a user the program sent there. */
  predicate PaidCheckout(e: Event, user: int) {
    && e.kind.CheckoutCompleted?
    && e.session.paymentStatus in {None, Some("paid"), Some("no_payment_required")}
    && e.session.reference == Some(Decimal(user))
    && e.session.mode in {None, Some("subscription")}
    && OrEmpty(e.session.customer) != ""
  }

  /** It is applied at once when the session carries the subscription or has none, and
      after a fetch when it carries an id. */
  lemma CheckoutOpens(db: Db, e: Event, user: int)
    requires PaidCheckout(e, user) && user in db.users
    ensures var customer := OrEmpty(e.session.customer);
            OpenEvent(db, e) == match e.session.subscription
                                case SubId(id) => Fetch(user, customer, id)
                                case Inline(sub) => Apply(user, customer, Some(sub))
                                case NoSub => Apply(user, customer, None)
  {
    hide Decimal, ParseInt;
    DecimalRoundTrip(user);
    DecimalSome(user);
  }

  lemma DecimalSome(n: int)
    ensures Decimal(n) != ""
  {
    assert ParseInt("") == None;
    DecimalRoundTrip(n);
  }

  /** The subscription a checkout brings: its own, or the one fetched for its id. */
  function Bought(e: Event, fetched: Sub): Option<Sub> {
    match e.session.subscription
    case NoSub => None
    case Inline(sub) => Some(sub)
    case SubId(_) => Some(fetched)
  }

  /** A fetch that ends applies what it found to the user it was made for. */
  lemma FetchApplies(w: World, i: nat, sub: Sub, fault: Fault)
    requires i < |w.pending|
    ensures var p, w' := w.pending[i], Next(w, FetchDone(i, sub, fault));
            var row := RowFor(p.user, p.customer, Some(sub));
            && (Accepts(w.db, row, fault) ==> RowOf(w'.db.subs, p.user) == Some(row))
            && (Accepts(w.db, row, fault) && fault == NoFault ==>
                  p.user in w'.db.users && w'.db.users[p.user] == PlanFor(StatusOf(Some(sub))))
            && (!Accepts(w.db, row, fault) ==> w'.db == w.db)
  {
    hide Accepts, Applied, RowOf, PlanFor, StatusOf;
    var p := w.pending[i];
    AppliedSets(w.db, p.user, p.customer, Some(sub), fault);
    AcceptedUser(w.db, RowFor(p.user, p.customer, Some(sub)), fault);
  }

  lemma AcceptedUser(db: Db, row: SubRow, fault: Fault)
    ensures Accepts(db, row, fault) ==> row.user in db.users
  {
  }

  lemma {:induction false} RowInTable(subs: seq<SubRow>, user: int)
    requires UniqueRows(subs) && RowOf(subs, user).Some?
    ensures var row := RowOf(subs, user).value;
            row.user == user && ByCustomer(subs, row.customer) == Some(row)
  {
    if subs[0].user != user {
      RowInTable(subs[1..], user);
      RowOfMember(subs[1..], user);
    }
  }

  lemma {:induction false} RowOfMember(subs: seq<SubRow>, user: int)
    requires RowOf(subs, user).Some?
    ensures exists i :: 0 <= i < |subs| && subs[i] == RowOf(subs, user).value
  {
    if subs[0].user != user {
      RowOfMember(subs[1..], user);
      var i :| 0 <= i < |subs[1..]| && subs[1..][i] == RowOf(subs, user).value;
      assert subs[i + 1] == RowOf(subs, user).value;
    } else {
      assert subs[0] == RowOf(subs, user).value;
    }
  }

  /** The deletion event of the customer on a user's row puts the user on Free, whatever
      status the subscription still carries. */
  lemma DeletionFrees(w: World, user: int, ended: Event)
    requires Inv(w) && user in w.db.users && RowOf(w.db.subs, user).Some? && Fresh(w.db, ended.id)
    requires ended.kind.SubscriptionDeleted? && OrEmpty(ended.sub.customer) != ""
    requires OrEmpty(ended.sub.customer) == RowOf(w.db.subs, user).value.customer
    ensures var w' := Next(w, Deliver(ended, NoFault));
            && user in w'.db.users && w'.db.users[user] == FREE && user !in w'.db.stale
            && w'.pending == w.pending
  {
    hide RowOf, ByCustomer, PlansFollow, UniqueRows, PlanFor, StatusOf, Upserted, OncePerEvent;
    var gone := ended.sub.(status := Some("canceled"));
    var customer := OrEmpty(ended.sub.customer);
    var seen := w.db.(events := w.db.events + {ended.id});
    RowInTable(w.db.subs, user);
    assert OpenEvent(seen, ended) == Apply(user, customer, Some(gone));
    assert Accepts(seen, RowFor(user, customer, Some(gone)), NoFault);
    CanceledIsFree(gone);
  }

  lemma CanceledIsFree(sub: Sub)
    requires sub.status == Some("canceled")
    ensures PlanFor(StatusOf(Some(sub))) == FREE
  {
    assert "canceled"[0] == 'c' && "active"[0] == 'a' && "trialing"[0] == 't' && "past_due"[0] == 'p';
  }

  /** A paid checkout takes effect at once, or leaves a fetch under way. */
  lemma CheckoutTakes(w: World, user: int, bought: Event, fetched: Sub)
    requires user in w.db.users && Fresh(w.db, bought.id) && PaidCheckout(bought, user)
    ensures var customer, w1 := OrEmpty(bought.session.customer), Next(w, Deliver(bought, NoFault));
            && user in w1.db.users
            && (bought.session.subscription.SubId? ==> Awaited(w1, user, customer))
            && (!bought.session.subscription.SubId? && CustomerFree(w.db.subs, RowFor(user, customer, None)) ==>
                  && RowOf(w1.db.subs, user) == Some(RowFor(user, customer, Bought(bought, fetched)))
                  && w1.db.users[user] == PlanFor(StatusOf(Bought(bought, fetched))))
  {
    hide OpenEvent, PaidCheckout, RowOf, PlanFor, StatusOf, ByCustomer, Applied;
    var customer, sub := OrEmpty(bought.session.customer), Bought(bought, fetched);
    var seen := w.db.(events := w.db.events + {bought.id});
    var w1 := Next(w, Deliver(bought, NoFault));
    CheckoutOpens(seen, bought, user);
    AppliedSets(seen, user, customer, sub, NoFault);
    if bought.session.subscription.SubId? {
      assert w1.pending[|w.pending|] == Pending(user, customer);
    } else {
      assert w1.db == Applied(seen, user, customer, sub, NoFault);
    }
  }

  /** From checkout to cancellation, whatever happens to other users in between. A paid
      checkout puts the user on the plan of the subscription's status, at once or when the
      fetch for its id ends; they stay on it; and the deletion event of that customer takes
      them back to Free. */
  lemma UpgradeThenCancel(w: World, user: int, bought: Event, mid: seq<Step>, i: nat, fetched: Sub,
                          later: seq<Step>, ended: Event)
    requires Inv(w) && user in w.db.users && Fresh(w.db, bought.id) && PaidCheckout(bought, user)
    requires var customer, byId := OrEmpty(bought.session.customer), bought.session.subscription.SubId?;
             var w1 := Next(w, Deliver(bought, NoFault));
             var w2 := Run(w1, mid);
             var w3 := if byId then Next(w2, FetchDone(i, fetched, NoFault)) else w2;
             && CustomerFree(if byId then w2.db.subs else w.db.subs, RowFor(user, customer, None))
             && Quiet(w1, mid, user) && (byId ==> i < |w2.pending| && w2.pending[i] == Pending(user, customer))
             && Quiet(w3, later, user) && Fresh(Run(w3, later).db, ended.id)
             && ended.kind.SubscriptionDeleted? && OrEmpty(ended.sub.customer) == customer
    ensures var customer, byId := OrEmpty(bought.session.customer), bought.session.subscription.SubId?;
            var w2 := Run(Next(w, Deliver(bought, NoFault)), mid);
            var w4 := Run(if byId then Next(w2, FetchDone(i, fetched, NoFault)) else w2, later);
            var w5 := Next(w4, Deliver(ended, NoFault));
            && (byId ==> Awaited(w2, user, customer))
            && user in w4.db.users && w4.db.users[user] == PlanFor(StatusOf(Bought(bought, fetched)))
            && user in w5.db.users && w5.db.users[user] == FREE
  {
    hide Inv, Next, PaidCheckout, RowOf, PlanFor, StatusOf, CustomerFree, Quiet, Awaited, Fresh;
    var customer, byId := OrEmpty(bought.session.customer), bought.session.subscription.SubId?;
    var w1 := Next(w, Deliver(bought, NoFault));
    var w2 := Run(w1, mid);
    var w3 := if byId then Next(w2, FetchDone(i, fetched, NoFault)) else w2;
    var w4 := Run(w3, later);
    CheckoutTakes(w, user, bought, fetched);
    QuietKeeps(w1, mid, user, customer);
    if byId {
      FetchApplies(w2, i, fetched, NoFault);
      FreeForAny(w2.db.subs, user, customer, Some(fetched));
    }
    QuietKeeps(w3, later, user, customer);
    NextKeeps(w, Deliver(bought, NoFault));
    RunKeeps(w1, mid);
    NextKeeps(w2, FetchDone(i, fetched, NoFault));
    RunKeeps(w3, later);
    PaidCustomer(bought, user);
    DeletionFrees(w4, user, ended);
  }

  lemma PaidCustomer(e: Event, user: int)
    requires PaidCheckout(e, user)
    ensures OrEmpty(e.session.customer) != ""
  {
  }

  lemma FreeForAny(subs: seq<SubRow>, user: int, customer: string, sub: Option<Sub>)
    ensures CustomerFree(subs, RowFor(user, customer, sub)) <==> CustomerFree(subs, RowFor(user, customer, None))
  {
  }

  // --- Short runs ------------------------------------------------------------------------------------------

  function SampleSession(): Session {
    Session(Some("1"), None, Some("cus_1"), Some("subscription"), Some("paid"), SubId("sub_1"))
  }

  /** A checkout as Stripe reports it: paid, with its subscription as an id. */
  function SampleCheckout(sub: Sub): Event {
    Event("evt_1", CheckoutCompleted, SampleSession(), sub)
  }

  lemma CheckoutUnderWay(sub: Sub)
    ensures Next(Next(Empty(), SignUp(1)), Deliver(SampleCheckout(sub), NoFault))
         == World(Db(map[1 := FREE], [], {"evt_1"}, {}), [Pending(1, "cus_1")], ["evt_1"])
  {
    var w1 := Next(Empty(), SignUp(1));
    assert w1 == World(Db(map[1 := FREE], [], {}, {}), [], []);
    DecimalOne();
    assert OpenEvent(w1.db.(events := {"evt_1"}), SampleCheckout(sub)) == Fetch(1, "cus_1", "sub_1");
  }

  lemma RunOne(w: World, a: Step)
    ensures Run(w, [a]) == Next(w, a)
  {
    hide Next;
    assert [a][1..] == [];
    assert Run(Next(w, a), []) == Next(w, a);
  }

  lemma RunFour(w: World, a: Step, b: Step, c: Step, d: Step)
    ensures Run(w, [a, b, c, d]) == Next(Next(Next(Next(w, a), b), c), d)
  {
    hide Next;
    var w1, w2, w3 := Next(w, a), Next(Next(w, a), b), Next(Next(Next(w, a), b), c);
    assert [a, b, c, d][1..] == [b, c, d] && [b, c, d][1..] == [c, d] && [c, d][1..] == [d];
    RunOne(w3, d);
    assert Run(w2, [c, d]) == Run(w3, [d]);
    assert Run(w1, [b, c, d]) == Run(w2, [c, d]);
    assert Run(w, [a, b, c, d]) == Run(w1, [b, c, d]);
  }

  lemma ActiveIsPro(sub: Sub)
    requires sub.status == Some("active")
    ensures PlanFor(StatusOf(Some(sub))) == PRO
  {
  }

  lemma RunTwo(w: World, a: Step, b: Step)
    ensures Run(w, [a, b]) == Next(Next(w, a), b)
  {
    hide Next;
    assert [a, b][1..] == [b];
    RunOne(Next(w, a), b);
  }

  /** A paid checkout whose row is written while its plan cannot be set: the row says Pro,
      the user stays on Free. */
  lemma PaidButNotSet(active: Sub)
    requires active.status == Some("active")
    ensures var event := SampleCheckout(active).(session := SampleSession().(subscription := Inline(active)));
            var db := Run(Empty(), [SignUp(1), Deliver(event, AtSetPlan)]).db;
            && db.users == map[1 := FREE] && db.stale == {1}
            && RowOf(db.subs, 1).Some? && PlanOfRow(RowOf(db.subs, 1)) == PRO
  {
    hide PlanFor, StatusOf, Run, ParseInt;
    var event := SampleCheckout(active).(session := SampleSession().(subscription := Inline(active)));
    var w1 := Next(Empty(), SignUp(1));
    assert w1 == World(Db(map[1 := FREE], [], {}, {}), [], []);
    DecimalOne();
    assert OpenEvent(w1.db.(events := {"evt_1"}), event) == Apply(1, "cus_1", Some(active));
    ActiveIsPro(active);
    RunTwo(Empty(), SignUp(1), Deliver(event, AtSetPlan));
  }

  lemma DecimalOne()
    ensures ParseInt("1") == Some(1)
  {
    hide ParseInt;
    DecimalRoundTrip(1);
    assert Digits(1) == "1" && Decimal(1) == "1";
  }

  // --- When a deletion is final --------------------------------------------------------------------------

  /** A deletion that arrives while the checkout's fetch is still under way is ignored, as
      there is no row yet, and the fetch that ends then puts the user on Pro. */
  lemma LateFetchRevives(active: Sub, gone: Sub)
    requires active.status == Some("active") && gone.customer == Some("cus_1")
    ensures var ended := Event("evt_2", SubscriptionDeleted, SampleSession(), gone);
            var w := Run(Empty(), [SignUp(1), Deliver(SampleCheckout(active), NoFault), Deliver(ended, NoFault),
                                   FetchDone(0, active, NoFault)]);
            w.db.users == map[1 := PRO] && w.pending == []
  {
    hide PlanFor, StatusOf, Run;
    var ended := Event("evt_2", SubscriptionDeleted, SampleSession(), gone);
    CheckoutUnderWay(active);
    var w2 := Next(Next(Empty(), SignUp(1)), Deliver(SampleCheckout(active), NoFault));
    assert "evt_1"[4] == '1' && "evt_2"[4] == '2';
    var w3 := Next(w2, Deliver(ended, NoFault));
    assert w3.pending == w2.pending && w3.db.users == map[1 := FREE] && w3.db.subs == [];
    ActiveIsPro(active);
    RunFour(Empty(), SignUp(1), Deliver(SampleCheckout(active), NoFault), Deliver(ended, NoFault),
            FetchDone(0, active, NoFault));
  }

  /** An older event of the same customer that is delivered after the deletion puts the user
      back on Pro: the row is still found by its customer, and events carry no order. */
  lemma LateEventRevives(w: World, user: int, ended: Event, late: Event)
    requires Inv(w) && user in w.db.users && RowOf(w.db.subs, user).Some? && Fresh(w.db, ended.id)
    requires ended.kind.SubscriptionDeleted? && OrEmpty(ended.sub.customer) != ""
    requires OrEmpty(ended.sub.customer) == RowOf(w.db.subs, user).value.customer
    requires late.kind.SubscriptionOther? && late.sub.customer == ended.sub.customer
    requires late.sub.status == Some("active")
    requires Fresh(w.db, late.id) && late.id != ended.id
    ensures var w1 := Next(w, Deliver(ended, NoFault));
            var w2 := Next(w1, Deliver(late, NoFault));
            && user in w1.db.users && w1.db.users[user] == FREE
            && Revives(w1, Deliver(late, NoFault), user)
            && user in w2.db.users && w2.db.users[user] == PRO
  {
    hide RowOf, ByCustomer, PlansFollow, UniqueRows, PlanFor, StatusOf, Next, OncePerEvent;
    var w1 := Next(w, Deliver(ended, NoFault));
    DeletionFrees(w, user, ended);
    DeletionLeavesRow(w, user, ended);
    NextKeeps(w, Deliver(ended, NoFault));
    RowInTable(w1.db.subs, user);
    ActiveIsPro(late.sub);
    PlanStep(w1, Deliver(late, NoFault), user);
  }

  lemma DeletionLeavesRow(w: World, user: int, ended: Event)
    requires Inv(w) && user in w.db.users && RowOf(w.db.subs, user).Some? && Fresh(w.db, ended.id)
    requires ended.kind.SubscriptionDeleted? && OrEmpty(ended.sub.customer) != ""
    requires OrEmpty(ended.sub.customer) == RowOf(w.db.subs, user).value.customer
    ensures var w' := Next(w, Deliver(ended, NoFault));
            && RowOf(w'.db.subs, user).Some? && w'.db.events == w.db.events + {ended.id}
            && RowOf(w'.db.subs, user).value.customer == OrEmpty(ended.sub.customer)
  {
    hide RowOf, ByCustomer, PlansFollow, UniqueRows, PlanFor, StatusOf, Upserted, OncePerEvent;
    var gone := ended.sub.(status := Some("canceled"));
    var customer := OrEmpty(ended.sub.customer);
    var seen := w.db.(events := w.db.events + {ended.id});
    RowInTable(w.db.subs, user);
    assert OpenEvent(seen, ended) == Apply(user, customer, Some(gone));
    AppliedSets(seen, user, customer, Some(gone), NoFault);
  }

  lemma {:induction false} UnusedCustomer(subs: seq<SubRow>) returns (c: string)
    ensures c != "" && forall i :: 0 <= i < |subs| ==> |subs[i].customer| < |c|
  {
    if subs == [] {
      c := "x";
    } else {
      c := UnusedCustomer(subs[1..]);
      c := c + subs[0].customer;
      forall i | 0 <= i < |subs|
        ensures |subs[i].customer| < |c|
      {
        assert i > 0 ==> subs[i] == subs[1..][i - 1];
      }
    }
  }

  /** Moving a row to a new customer leaves its old customer to nobody. */
  lemma CustomerMoves(subs: seq<SubRow>, taken: SubRow, row: SubRow)
    requires UniqueRows(subs) && CustomerFree(subs, row) && taken in subs
    requires row.user == taken.user && row.customer != taken.customer
    ensures ByCustomer(Upserted(subs, row), taken.customer) == None
  {
    hide Upserted, ByCustomer, RowOf, CustomerFree;
    var subs' := Upserted(subs, row);
    UpsertKeepsUnique(subs, row);
    UpsertMembers(subs, row);
    RowOfMember(subs', row.user);
    forall r | r in subs' && r != row
      ensures r.customer != taken.customer
    {
      assert r in subs && r.user != row.user;
    }
    CustomerNotElsewhere(subs', taken.customer);
  }

  const ACTIVE := Sub(None, None, Some("active"), None, None, None, false)

  /** A success page for another user, with a customer nobody has. */
  lemma AnotherCheckout(w: World, other: int, c: string) returns (step: Step)
    requires other in w.db.users && c != ""
    ensures Opened(w, step) == Apply(other, c, Some(ACTIVE))
    ensures Next(w, step) == w.(db := Applied(w.db, other, c, Some(ACTIVE), NoFault))
    ensures !step.FetchDone? && !step.FetchFails?
  {
    hide Applied, Decimal, ParseInt;
    DecimalRoundTrip(other);
    DecimalSome(other);
    var session := Session(Some(Decimal(other)), None, Some(c), Some("subscription"), Some("paid"), Inline(ACTIVE));
    step := SuccessPage(other, session, NoFault);
  }

  /** A fetch under way can still put the user on Pro, although nothing more is opened for
      them: if their customer is another's by then, that row may move on first. */
  lemma PendingRevives(w: World, user: int, i: nat) returns (steps: seq<Step>)
    requires Inv(w) && user in w.db.users && i < |w.pending| && w.pending[i].user == user
    ensures Unopened(w, steps, user)
    ensures var db := Run(w, steps).db; user in db.users && db.users[user] == PRO
  {
    hide PlanFor, StatusOf, Next, Applied, RowOf, Upserted, ByCustomer;
    var p := w.pending[i];
    var row := RowFor(user, p.customer, Some(ACTIVE));
    var last := FetchDone(i, ACTIVE, NoFault);
    ActiveIsPro(ACTIVE);
    if CustomerFree(w.db.subs, row) {
      steps := [last];
      RunOne(w, last);
      FetchApplies(w, i, ACTIVE, NoFault);
    } else {
      var taken := ByCustomer(w.db.subs, p.customer).value;
      CustomerNotElsewhere(w.db.subs, p.customer);
      var k :| 0 <= k < |w.db.subs| && w.db.subs[k] == taken;
      var c := UnusedCustomer(w.db.subs);
      var first := AnotherCheckout(w, taken.user, c);
      var w1 := Next(w, first);
      assert |taken.customer| < |c|;
      MovesOn(w.db, taken, c);
      FetchApplies(w1, i, ACTIVE, NoFault);
      steps := [first, last];
      assert steps[1..] == [last];
      RunOne(w1, last);
      assert Unopened(w1, [last], user);
      assert Run(w, steps) == Run(w1, [last]);
    }
  }

  lemma MovesOn(db: Db, taken: SubRow, c: string)
    requires UniqueRows(db.subs) && PlansFollow(db) && taken in db.subs
    requires forall i :: 0 <= i < |db.subs| ==> |db.subs[i].customer| < |c|
    ensures var db' := Applied(db, taken.user, c, Some(ACTIVE), NoFault);
            db'.users.Keys == db.users.Keys && ByCustomer(db'.subs, taken.customer) == None
  {
    hide RowOf, ByCustomer, Upserted, UniqueRows, PlanFor;
    var row := RowFor(taken.user, c, Some(ACTIVE));
    CustomerNotElsewhere(db.subs, c);
    assert CustomerFree(db.subs, row);
    CustomerMoves(db.subs, taken, row);
  }

  /** After the deletion of the subscription on a user's row, the user stays on Free through a
      run exactly if no step of it applies to them, with success, a subscription whose status
      gives Pro. If nothing more is opened for them that holds of every run exactly if no
      fetch for them was still under way when the deletion arrived. */
  lemma DeletionFinal(w: World, user: int, ended: Event)
    requires Inv(w) && user in w.db.users && RowOf(w.db.subs, user).Some? && Fresh(w.db, ended.id)
    requires ended.kind.SubscriptionDeleted? && OrEmpty(ended.sub.customer) != ""
    requires OrEmpty(ended.sub.customer) == RowOf(w.db.subs, user).value.customer
    ensures var w1 := Next(w, Deliver(ended, NoFault));
            && (forall steps :: FreeThroughout(w1, steps, user) <==> NeverRevived(w1, steps, user))
            && ((forall steps :: Unopened(w1, steps, user) ==>
                   user in Run(w1, steps).db.users && Run(w1, steps).db.users[user] == FREE)
                <==> NonePending(w, user))
  {
    hide Inv, RowOf, Next, Unopened, Quiet, FreeThroughout, NeverRevived;
    var w1 := Next(w, Deliver(ended, NoFault));
    DeletionFrees(w, user, ended);
    NextKeeps(w, Deliver(ended, NoFault));
    forall steps
      ensures FreeThroughout(w1, steps, user) <==> NeverRevived(w1, steps, user)
    {
      FreeExactly(w1, steps, user);
    }
    if NonePending(w, user) {
      forall steps | Unopened(w1, steps, user)
        ensures user in Run(w1, steps).db.users && Run(w1, steps).db.users[user] == FREE
      {
        UnopenedIsQuiet(w1, steps, user);
        QuietKeeps(w1, steps, user, "");
      }
    } else {
      var i :| 0 <= i < |w.pending| && w.pending[i].user == user;
      var steps := PendingRevives(w1, user, i);
      assert Unopened(w1, steps, user);
    }
  }

  // --- Redelivery -----------------------------------------------------------------------------------------

  lemma {:induction false} SeenStays(w: World, steps: seq<Step>, id: string)
    requires id in w.db.events
    ensures id in Run(w, steps).db.events
    decreases |steps|
  {
    if steps != [] {
      SeenStays(Next(w, steps[0]), steps[1..], id);
    }
  }

  /** Once an event id is recorded, delivering it again at any later time changes nothing,
      whether or not the first delivery could be applied. */
  lemma RedeliveryIgnored(w: World, event: Event, fault: Fault, steps: seq<Step>,
                          again: Event, fault': Fault)
    requires Fresh(w.db, event.id) && again.id == event.id
    ensures var later := Run(Next(w, Deliver(event, fault)), steps);
            Next(later, Deliver(again, fault')) == later
  {
    SeenStays(Next(w, Deliver(event, fault)), steps, event.id);
  }

  /** So the handler's remark that a failed event is undone before Stripe's retry does not
      hold: a paid checkout whose fetch fails leaves the user on Free, and the retry is
      taken for a duplicate. */
  lemma FailedEventIsLost(sub: Sub)
    ensures var event := SampleCheckout(sub);
            var w := Run(Empty(), [SignUp(1), Deliver(event, NoFault), FetchFails(0), Deliver(event, NoFault)]);
            w.reached == ["evt_1"] && w.pending == [] && w.db.users == map[1 := FREE] && w.db.subs == []
  {
    hide Run;
    CheckoutUnderWay(sub);
    RunFour(Empty(), SignUp(1), Deliver(SampleCheckout(sub), NoFault), FetchFails(0),
            Deliver(SampleCheckout(sub), NoFault));
  }

  // --- The tables as the program updates them --------------------------------------------------

  lemma {:induction false} UpsertAt(subs: seq<SubRow>, row: SubRow, i: nat)
    requires i <= |subs| && (forall j :: 0 <= j < i ==> subs[j].user != row.user)
    requires i < |subs| ==> subs[i].user == row.user
    ensures Upserted(subs, row) == if i < |subs| then subs[i := row] else subs + [row]
  {
    if i > 0 {
      UpsertAt(subs[1..], row, i - 1);
      assert subs == [subs[0]] + subs[1..];
    } else if i < |subs| {
      assert subs[i := row] == [row] + subs[1..];
    }
  }

  class Store {
    var users: map<int, string>
    var subs: seq<SubRow>
    var events: set<string>
    ghost var stale: set<int>

    ghost function Tables(): Db
      reads this
    {
      Db(users, subs, events, stale)
    }

    ghost predicate Valid()
      reads this
    {
      UniqueRows(subs) && PlansFollow(Tables())
    }

    constructor ()
      ensures Valid() && Tables() == Db(map[], [], {}, {})
    {
      users, subs, events, stale := map[], [], {}, {};
    }

    /** True the first time an event id is seen. */
    method RecordEvent(id: string) returns (first: bool)
      requires Valid()
      modifies this`events
      ensures Valid() && first == (id !in old(events)) && events == old(events) + {id}
    {
      first := id !in events;
      events := events + {id};
    }

    /** Insert or update the user's row, unless a constraint or the database refuses. */
    method Upsert(row: SubRow, fault: Fault) returns (ok: bool)
      modifies this`subs
      ensures ok == Accepts(old(Tables()), row, fault)
      ensures subs == if ok then Upserted(old(subs), row) else old(subs)
    {
      hide Upserted, CustomerFree;
      ok := fault != AtUpsert && row.user in users && CustomerFree(subs, row);
      if ok {
        var i := 0;
        while i < |subs| && subs[i].user != row.user
          invariant i <= |subs| && forall j :: 0 <= j < i ==> subs[j].user != row.user
        {
          i := i + 1;
        }
        UpsertAt(subs, row, i);
        subs := if i < |subs| then subs[i := row] else subs + [row];
      }
    }

    /** Record the subscription and set the user's plan from it: two statements, either of
        which can raise. */
    method ApplySubscription(user: int, customer: string, sub: Option<Sub>, fault: Fault) returns (plan: Option<string>)
      requires Valid()
      modifies this`subs, this`users, this`stale
      ensures Valid() && Tables() == Applied(old(Tables()), user, customer, sub, fault)
      ensures plan == None <==> fault == AtSetPlan || !Accepts(old(Tables()), RowFor(user, customer, sub), fault)
      ensures plan.Some? ==>
                plan.value == if sub.Some? && sub.value.status in {Some("active"), Some("trialing"), Some("past_due")}
                              then "pro" else "free"
      ensures plan.Some? ==> user in users && users[user] == plan.value
                             && RowOf(subs, user) == Some(RowFor(user, customer, sub))
    {
      hide UniqueRows, PlansFollow, Upserted, CustomerFree;
      AppliedKeeps(Tables(), user, customer, sub, fault);
      StatusDecides(sub);
      var row := RowFor(user, customer, sub);
      UpsertMembers(subs, row);
      var ok := Upsert(row, fault);
      if !ok {
        return None;
      }
      if fault == AtSetPlan {
        stale := stale + {user};
        return None;
      }
      stale := stale - {user};
      users := users[user := PlanFor(row.status)];
      plan := Some(PlanFor(row.status));
    }
  }
}
