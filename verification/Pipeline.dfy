/** The asynchronous settlement of requests: enqueue, tokenize when needed, record, retry a
    bounded number of times, and charge the quota from the path that knows the cost. */
module Pipeline {
  import opened Common
  import opened Cost

  const MAX_RETRIES: nat := 3

  /** What the relay knows when a response is complete. */
  datatype Request = Request(usage: Option<Usage>, text: string, prices: Prices, bps: int)

  datatype Task = Task(
    ticket: nat, usage: Option<Usage>, cost: int, bps: int, retry: nat, text: string, outputPrice: int)

  /** The usage record and settlement record of one request, inserted together. */
  datatype Record = Record(ticket: nat, cost: int, revenue: int, commission: int, columns: Columns)

  /** Which update: of the quota, by the request path or by the worker, or the debit of the
      consumer's account. */
  datatype Path = RequestPath | Worker | AccountDebit

  /** A quota update or a debit submitted for a request. */
  datatype Charge = Charge(ticket: nat, amount: int, path: Path)

  /** A request's ticket is its index in requests. */
  datatype State = State(
    requests: seq<Request>,
    queue: seq<Task>,         // oldest first
    hands: seq<Task>,         // tasks workers hold
    records: seq<Record>,
    dropped: seq<nat>,
    attempts: seq<nat>,       // times each ticket was processed
    owed: seq<Charge>,        // updates the code is bound to submit next
    charges: seq<Charge>)     // updates submitted

  /** Process carries what the tokenizer, the transaction and the re-enqueue do. */
  datatype Action =
    | Relay(req: Request, enqueued: bool)
    | Take
    | Process(i: nat, tokens: Option<nat>, committed: bool, enqueued: bool)
    | Submit(i: nat)

  const EMPTY := State([], [], [], [], [], [], [], [])

  predicate HasUsage(r: Request) {
    r.usage.Some? && r.usage.value.total > 0
  }

  /** The task built for request number ticket. */
  function TaskFor(r: Request, ticket: nat): Task {
    if HasUsage(r) then Task(ticket, r.usage, UsageCost(r.usage.value, r.prices), r.bps, 0, "", 0)
    else Task(ticket, r.usage, 0, r.bps, 0, r.text, r.prices.output)
  }

  /** The upstream gave no usage: tokens are counted from the response text. */
  predicate Uncounted(t: Task) {
    (t.usage.None? || t.usage.value.total == 0) && t.text != ""
  }

  function Counted(t: Task, tokens: nat): Task {
    t.(usage := Some(CountedUsage(tokens)), cost := t.outputPrice * tokens / 1000)
  }

  datatype Outcome = Recorded(task: Task) | Failed(task: Task)

  /** What one attempt makes of a task. */
  function Attempt(t: Task, tokens: Option<nat>, committed: bool): Outcome {
    if Uncounted(t) && tokens.None? then Failed(t)
    else
      var t' := if Uncounted(t) then Counted(t, tokens.value) else t;
      if committed then Recorded(t') else Failed(t')
  }

  function ColumnsFor(usage: Option<Usage>): Columns {
    if usage.Some? then ColumnsOf(usage.value) else Columns(0, 0, 0, 0, 0)
  }

  function RecordFor(t: Task): Record {
    var revenue := CalcRevenue(t.cost, t.bps);
    Record(t.ticket, t.cost, revenue, t.cost - revenue, ColumnsFor(t.usage))
  }

  /** The debit, and the quota update, that the worker owes for a task it recorded. */
  function WorkerCharges(t: Task): seq<Charge> {
    if t.cost <= 0 then []
    else [Charge(t.ticket, t.cost, AccountDebit)] + if t.text != "" then [Charge(t.ticket, t.cost, Worker)] else []
  }

  function Pushed(s: State, t: Task, enqueued: bool): State {
    if enqueued then s.(queue := s.queue + [t]) else s.(dropped := s.dropped + [t.ticket])
  }

  /** The state after worker i's attempt. */
  function Processed(s: State, i: nat, tokens: Option<nat>, committed: bool, enqueued: bool): State
    requires i < |s.hands| && s.hands[i].ticket < |s.attempts|
  {
    Settled(Released(s, i), Attempt(s.hands[i], tokens, committed), enqueued)
  }

  /** The state while worker i works on the task it took. */
  function Released(s: State, i: nat): State
    requires i < |s.hands| && s.hands[i].ticket < |s.attempts|
  {
    var k := s.hands[i].ticket;
    s.(hands := Without(s.hands, i), attempts := s.attempts[k := s.attempts[k] + 1])
  }

  /** A recorded task may owe a charge; a failed one goes back unless it used up its retries. */
  function Settled(s: State, o: Outcome, enqueued: bool): State {
    match o
    case Recorded(t) => s.(records := s.records + [RecordFor(t)], owed := s.owed + WorkerCharges(t))
    case Failed(t) => Pushed(s, t.(retry := t.retry + 1), enqueued && t.retry < MAX_RETRIES)
  }

  /** The relay enqueues the task, then owes the quota update for the cost it already knows. */
  function Relayed(s: State, r: Request, enqueued: bool): State {
    if !HasUsage(r) && r.text == "" then s
    else
      var t := TaskFor(r, |s.requests|);
      var u := s.(requests := s.requests + [r], attempts := s.attempts + [0],
                  owed := s.owed + if t.cost > 0 then [Charge(t.ticket, t.cost, RequestPath)] else []);
      Pushed(u, t, enqueued)
  }

  function Next(s: State, act: Action): State {
    match act
    case Relay(r, enqueued) => Relayed(s, r, enqueued)
    case Take => if s.queue == [] then s else s.(queue := s.queue[1..], hands := s.hands + [s.queue[0]])
    case Process(i, tokens, committed, enqueued) =>
      if i < |s.hands| && s.hands[i].ticket < |s.attempts| then Processed(s, i, tokens, committed, enqueued) else s
    case Submit(i) =>
      if i < |s.owed| then s.(owed := Without(s.owed, i), charges := s.charges + [s.owed[i]]) else s
  }

  function Run(s: State, acts: seq<Action>): State {
    if acts == [] then s else Next(Run(s, acts[..|acts| - 1]), acts[|acts| - 1])
  }

  // ---------------------------------------------------------------- where tasks are

  function Tickets(ts: seq<Task>): seq<nat> {
    seq(|ts|, i requires 0 <= i < |ts| => ts[i].ticket)
  }

  function RecordTickets(rs: seq<Record>): seq<nat> {
    seq(|rs|, i requires 0 <= i < |rs| => rs[i].ticket)
  }

  /** Every place a ticket can be. */
  function Places(s: State): multiset<nat> {
    multiset(Tickets(s.queue)) + multiset(Tickets(s.hands)) + multiset(RecordTickets(s.records)) + multiset(s.dropped)
  }

  ghost predicate OnePlaceEach(s: State) {
    forall k: nat :: Places(s)[k] == if k < |s.requests| then 1 else 0
  }

  lemma TicketsSnoc(ts: seq<Task>, t: Task)
    ensures multiset(Tickets(ts + [t])) == multiset(Tickets(ts)) + multiset{t.ticket}
  {
    assert Tickets(ts + [t]) == Tickets(ts) + [t.ticket];
  }

  lemma TicketsWithout(ts: seq<Task>, i: nat)
    requires i < |ts|
    ensures multiset(Tickets(ts)) == multiset(Tickets(Without(ts, i))) + multiset{ts[i].ticket}
  {
    var ks := Tickets(ts);
    assert ks == ks[..i] + [ks[i]] + ks[i + 1..];
    assert Tickets(Without(ts, i)) == ks[..i] + ks[i + 1..];
  }

  lemma RecordsSnoc(rs: seq<Record>, r: Record)
    ensures multiset(RecordTickets(rs + [r])) == multiset(RecordTickets(rs)) + multiset{r.ticket}
  {
    assert RecordTickets(rs + [r]) == RecordTickets(rs) + [r.ticket];
  }

  lemma PushKeepsPlaces(s: State, t: Task, enqueued: bool)
    ensures Places(Pushed(s, t, enqueued)) == Places(s) + multiset{t.ticket}
  {
    TicketsSnoc(s.queue, t);
  }

  lemma SettleKeepsPlaces(s: State, o: Outcome, enqueued: bool)
    ensures Places(Settled(s, o, enqueued)) == Places(s) + multiset{o.task.ticket}
  {
    match o
    case Recorded(t) => RecordsSnoc(s.records, RecordFor(t));
    case Failed(t) => PushKeepsPlaces(s, t.(retry := t.retry + 1), enqueued && t.retry < MAX_RETRIES);
  }

  lemma ReleaseKeepsPlaces(s: State, i: nat)
    requires i < |s.hands| && s.hands[i].ticket < |s.attempts|
    ensures Places(s) == Places(Released(s, i)) + multiset{s.hands[i].ticket}
  {
    TicketsWithout(s.hands, i);
  }

  lemma SamePlaces(s: State, s': State)
    requires OnePlaceEach(s) && Places(s') == Places(s) && s'.requests == s.requests
    ensures OnePlaceEach(s')
  {
  }

  lemma ProcessKeepsPlaces(s: State, i: nat, tokens: Option<nat>, committed: bool, enqueued: bool)
    requires OnePlaceEach(s) && i < |s.hands| && s.hands[i].ticket < |s.attempts|
    ensures OnePlaceEach(Processed(s, i, tokens, committed, enqueued))
  {
    var u, o := Released(s, i), Attempt(s.hands[i], tokens, committed);
    ReleaseKeepsPlaces(s, i);
    SettleKeepsPlaces(u, o, enqueued);
    SamePlaces(s, Settled(u, o, enqueued));
  }

  lemma TakeKeepsPlaces(s: State)
    requires s.queue != []
    ensures Places(Next(s, Take)) == Places(s)
  {
    TicketsWithout(s.queue, 0);
    assert Without(s.queue, 0) == s.queue[1..];
    TicketsSnoc(s.hands, s.queue[0]);
  }

  lemma RelayKeepsPlaces(s: State, r: Request, enqueued: bool)
    requires OnePlaceEach(s)
    ensures OnePlaceEach(Relayed(s, r, enqueued))
  {
    var s' := Relayed(s, r, enqueued);
    if s' != s {
      var t := TaskFor(r, |s.requests|);
      var u := s.(requests := s'.requests, attempts := s'.attempts, owed := s'.owed);
      assert Places(u) == Places(s);
      PushKeepsPlaces(u, t, enqueued);
    }
  }

  lemma NextKeepsPlaces(s: State, act: Action)
    requires OnePlaceEach(s)
    ensures OnePlaceEach(Next(s, act))
  {
    var s' := Next(s, act);
    match act
    case Relay(r, enqueued) => RelayKeepsPlaces(s, r, enqueued);
    case Take =>
      if s.queue != [] {
        TakeKeepsPlaces(s);
        SamePlaces(s, s');
      }
    case Process(i, tokens, committed, enqueued) =>
      if i < |s.hands| && s.hands[i].ticket < |s.attempts| { ProcessKeepsPlaces(s, i, tokens, committed, enqueued); }
    case Submit(i) =>
      assert Places(s') == Places(s);
  }

  // ---------------------------------------------------------------- what tasks say

  /** A task agrees with its request: usage-bearing tasks carry no text and the request's
      cost; the others carry the text and no cost until their tokens are counted. */
  ghost predicate Describes(r: Request, t: Task) {
    && t.bps == r.bps
    && if HasUsage(r) then t.usage == r.usage && t.text == "" && t.cost == UsageCost(r.usage.value, r.prices)
       else t.text == r.text && t.text != "" && t.outputPrice == r.prices.output
            && ((t.cost == 0 && t.usage == r.usage) || CountedFrom(r, t.usage, t.cost))
  }

  ghost predicate CountedFrom(r: Request, usage: Option<Usage>, cost: int) {
    exists tokens: nat :: usage == Some(CountedUsage(tokens)) && cost == r.prices.output * tokens / 1000
  }

  ghost predicate LiveOk(requests: seq<Request>, attempts: seq<nat>, t: Task) {
    && t.ticket < |requests| == |attempts|
    && Describes(requests[t.ticket], t)
    && attempts[t.ticket] == t.retry <= MAX_RETRIES
  }

  /** A record carries its request's cost, the columns that cost comes from, and the split. */
  ghost predicate Explains(q: Request, r: Record) {
    && r.revenue == CalcRevenue(r.cost, q.bps) && r.commission == r.cost - r.revenue
    && if HasUsage(q) then r.cost == UsageCost(q.usage.value, q.prices) && r.columns == ColumnsOf(q.usage.value)
       else
         || CountedRecord(q, r)
         || (r.cost == 0 && q.usage.Some? && q.usage.value.total < 0 && r.columns == ColumnsOf(q.usage.value))
  }

  ghost predicate CountedRecord(q: Request, r: Record) {
    exists tokens: nat :: r.columns == ColumnsOf(CountedUsage(tokens)) && r.cost == q.prices.output * tokens / 1000
  }

  ghost predicate RecordOk(requests: seq<Request>, attempts: seq<nat>, r: Record) {
    r.ticket < |requests| == |attempts| && 1 <= attempts[r.ticket] <= MAX_RETRIES + 1 && Explains(requests[r.ticket], r)
  }

  ghost predicate TasksOk(s: State) {
    && |s.attempts| == |s.requests|
    && (forall t :: t in s.queue ==> LiveOk(s.requests, s.attempts, t))
    && (forall t :: t in s.hands ==> LiveOk(s.requests, s.attempts, t))
    && (forall r :: r in s.records ==> RecordOk(s.requests, s.attempts, r))
    && (forall k :: 0 <= k < |s.attempts| ==> s.attempts[k] <= MAX_RETRIES + 1)
  }

  /** The ticket a worker holds is nowhere else. */
  lemma HeldIsAlone(s: State, i: nat)
    requires OnePlaceEach(s) && i < |s.hands|
    ensures forall t :: t in s.queue ==> t.ticket != s.hands[i].ticket
    ensures forall t :: t in Without(s.hands, i) ==> t.ticket != s.hands[i].ticket && t in s.hands
    ensures forall r :: r in s.records ==> r.ticket != s.hands[i].ticket
  {
    var k := s.hands[i].ticket;
    TicketsWithout(s.hands, i);
    assert Places(s)[k] <= 1;
    forall t | t in s.queue ensures t.ticket != k {
      var j :| 0 <= j < |s.queue| && s.queue[j] == t;
      assert Tickets(s.queue)[j] == t.ticket;
    }
    forall t | t in Without(s.hands, i) ensures t.ticket != k {
      var j :| 0 <= j < |Without(s.hands, i)| && Without(s.hands, i)[j] == t;
      assert Tickets(Without(s.hands, i))[j] == t.ticket;
    }
    forall r | r in s.records ensures r.ticket != k {
      var j :| 0 <= j < |s.records| && s.records[j] == r;
      assert RecordTickets(s.records)[j] == r.ticket;
    }
  }

  lemma UncountedIsFree(q: Request, t: Task)
    requires Describes(q, t) && Uncounted(t)
    ensures t.cost == 0
  {
    if CountedFrom(q, t.usage, t.cost) {
      var n: nat :| t.usage == Some(CountedUsage(n)) && t.cost == q.prices.output * n / 1000;
    }
  }

  /** An attempt keeps a task true to its request, never changes a positive cost, and records
      only what explains itself. */
  lemma AttemptKeeps(q: Request, t: Task, tokens: Option<nat>, committed: bool)
    requires Describes(q, t)
    ensures var o := Attempt(t, tokens, committed);
            && Describes(q, o.task) && o.task.ticket == t.ticket && o.task.retry == t.retry
            && (t.cost > 0 ==> o.task.cost == t.cost)
            && (o.Recorded? ==> Explains(q, RecordFor(o.task)))
  {
    var u := Attempt(t, tokens, committed).task;
    if Uncounted(t) && tokens.Some? {
      assert CountedFrom(q, u.usage, u.cost);
      UncountedIsFree(q, t);
    }
    if Attempt(t, tokens, committed).Recorded? && !HasUsage(q) && CountedFrom(q, u.usage, u.cost) {
      var n: nat :| u.usage == Some(CountedUsage(n)) && u.cost == q.prices.output * n / 1000;
      assert CountedRecord(q, RecordFor(u));
    }
  }

  lemma ProcessKeepsTasks(s: State, i: nat, tokens: Option<nat>, committed: bool, enqueued: bool)
    requires OnePlaceEach(s) && TasksOk(s) && i < |s.hands| && s.hands[i].ticket < |s.attempts|
    ensures TasksOk(Processed(s, i, tokens, committed, enqueued))
  {
    var t := s.hands[i];
    HeldIsAlone(s, i);
    assert t in s.hands;
    AttemptKeeps(s.requests[t.ticket], t, tokens, committed);
  }

  lemma RelayKeepsTasks(s: State, r: Request, enqueued: bool)
    requires TasksOk(s)
    ensures TasksOk(Relayed(s, r, enqueued))
  {
    var s' := Relayed(s, r, enqueued);
    if s' != s {
      assert Describes(r, TaskFor(r, |s.requests|));
    }
  }

  lemma NextKeepsTasks(s: State, act: Action)
    requires OnePlaceEach(s) && TasksOk(s)
    ensures TasksOk(Next(s, act))
  {
    match act
    case Relay(r, enqueued) => RelayKeepsTasks(s, r, enqueued);
    case Take =>
    case Process(i, tokens, committed, enqueued) =>
      if i < |s.hands| && s.hands[i].ticket < |s.attempts| { ProcessKeepsTasks(s, i, tokens, committed, enqueued); }
    case Submit(_) =>
  }

  // ---------------------------------------------------------------- who charges the quota

  function ChargingPath(r: Request): Path {
    if HasUsage(r) then RequestPath else Worker
  }

  /** The one quota update a request calls for, from the path it has to come from, and the
      debit its record calls for. */
  ghost predicate Due(requests: seq<Request>, records: seq<Record>, c: Charge) {
    && c.ticket < |requests| && c.amount > 0
    && match c.path
       case RequestPath =>
         var q := requests[c.ticket];
         HasUsage(q) && c.amount == UsageCost(q.usage.value, q.prices)
       case Worker => !HasUsage(requests[c.ticket]) && CalledFor(records, c)
       case AccountDebit => CalledFor(records, c)
  }

  ghost predicate CalledFor(records: seq<Record>, c: Charge) {
    exists r :: r in records && r.ticket == c.ticket && r.cost == c.amount
  }

  /** Charges submitted, and those the code is bound to submit next. */
  function OwedOrSubmitted(s: State): multiset<Charge> {
    multiset(s.owed) + multiset(s.charges)
  }

  ghost predicate ChargedOnce(s: State) {
    forall c :: OwedOrSubmitted(s)[c] == if Due(s.requests, s.records, c) then 1 else 0
  }

  lemma RelayKeepsCharges(s: State, r: Request, enqueued: bool)
    requires TasksOk(s) && ChargedOnce(s)
    ensures ChargedOnce(Relayed(s, r, enqueued))
  {
    var s' := Relayed(s, r, enqueued);
    if s' != s {
      forall c ensures OwedOrSubmitted(s')[c] == if Due(s'.requests, s'.records, c) then 1 else 0 {
        assert Due(s.requests, s.records, c) == (c.ticket < |s.requests| && Due(s'.requests, s'.records, c));
        assert c.ticket == |s.requests| ==> forall q :: q in s.records ==> q.ticket != c.ticket;
      }
    }
  }

  lemma ProcessKeepsCharges(s: State, i: nat, tokens: Option<nat>, committed: bool, enqueued: bool)
    requires OnePlaceEach(s) && TasksOk(s) && ChargedOnce(s) && i < |s.hands| && s.hands[i].ticket < |s.attempts|
    ensures ChargedOnce(Processed(s, i, tokens, committed, enqueued))
  {
    var t := s.hands[i];
    var q := s.requests[t.ticket];
    var s' := Processed(s, i, tokens, committed, enqueued);
    HeldIsAlone(s, i);
    assert t in s.hands;
    AttemptKeeps(q, t, tokens, committed);
    var o := Attempt(t, tokens, committed);
    if o.Recorded? {
      assert s'.records == s.records + [RecordFor(o.task)];
      RecordAddsDue(s.requests, s.records, o.task);
      assert s'.owed == s.owed + WorkerCharges(o.task);
    }
  }

  /** A new record calls for exactly the charge its worker owes. */
  lemma RecordAddsDue(requests: seq<Request>, records: seq<Record>, t: Task)
    requires t.ticket < |requests| && Describes(requests[t.ticket], t)
    requires forall r :: r in records ==> r.ticket != t.ticket
    ensures forall c ::
              Due(requests, records + [RecordFor(t)], c) <==> Due(requests, records, c) || c in WorkerCharges(t)
    ensures forall c :: c in WorkerCharges(t) ==> !Due(requests, records, c)
  {
    var r := RecordFor(t);
    forall c ensures Due(requests, records + [r], c) <==> Due(requests, records, c) || c in WorkerCharges(t) {
      assert forall x :: x in records + [r] <==> x in records || x == r;
    }
  }

  lemma SubmitKeepsCharges(s: State, i: nat)
    requires ChargedOnce(s) && i < |s.owed|
    ensures ChargedOnce(Next(s, Submit(i)))
  {
    assert s.owed == s.owed[..i] + [s.owed[i]] + s.owed[i + 1..];
    assert OwedOrSubmitted(Next(s, Submit(i))) == OwedOrSubmitted(s);
  }

  lemma NextKeepsCharges(s: State, act: Action)
    requires OnePlaceEach(s) && TasksOk(s) && ChargedOnce(s)
    ensures ChargedOnce(Next(s, act))
  {
    match act
    case Relay(r, enqueued) => RelayKeepsCharges(s, r, enqueued);
    case Take =>
    case Process(i, tokens, committed, enqueued) =>
      if i < |s.hands| && s.hands[i].ticket < |s.attempts| { ProcessKeepsCharges(s, i, tokens, committed, enqueued); }
    case Submit(i) => if i < |s.owed| { SubmitKeepsCharges(s, i); }
  }

  ghost predicate Inv(s: State) {
    OnePlaceEach(s) && TasksOk(s) && ChargedOnce(s)
  }

  lemma {:induction false} RunKeepsInv(acts: seq<Action>)
    ensures Inv(Run(EMPTY, acts))
  {
    if acts != [] {
      var s, act := Run(EMPTY, acts[..|acts| - 1]), acts[|acts| - 1];
      RunKeepsInv(acts[..|acts| - 1]);
      NextKeepsPlaces(s, act);
      NextKeepsTasks(s, act);
      NextKeepsCharges(s, act);
    }
  }

  // ---------------------------------------------------------------- theorems

  /** Whatever fails, a request that was enqueued is in exactly one place: queued, in a
      worker's hand, recorded or dropped. */
  lemma EachTaskInOnePlace(acts: seq<Action>, k: nat)
    requires k < |Run(EMPTY, acts).requests|
    ensures var s := Run(EMPTY, acts);
            multiset(Tickets(s.queue))[k] + multiset(Tickets(s.hands))[k] + multiset(RecordTickets(s.records))[k]
            + multiset(s.dropped)[k] == 1
  {
    RunKeepsInv(acts);
    assert Places(Run(EMPTY, acts))[k] == 1;
  }

  lemma TwiceCounts(ks: seq<nat>, i: nat, j: nat)
    requires i < j < |ks| && ks[i] == ks[j]
    ensures multiset(ks)[ks[i]] >= 2
  {
    assert ks == ks[..j] + [ks[j]] + ks[j + 1..];
    assert ks[i] in ks[..j];
  }

  /** A request is recorded at most once and attempted at most four times. */
  lemma RecordedOnce(acts: seq<Action>, i: nat, j: nat)
    requires var s := Run(EMPTY, acts); i < |s.records| && j < |s.records| && s.records[i].ticket == s.records[j].ticket
    ensures i == j
    ensures var s := Run(EMPTY, acts); forall k :: 0 <= k < |s.attempts| ==> s.attempts[k] <= 4
  {
    var s := Run(EMPTY, acts);
    RunKeepsInv(acts);
    assert Places(s)[s.records[i].ticket] <= 1;
    if i < j { TwiceCounts(RecordTickets(s.records), i, j); }
    if j < i { TwiceCounts(RecordTickets(s.records), j, i); }
  }

  /** The step loses ticket k because a push fails. */
  predicate LosesPush(s: State, act: Action, k: nat) {
    (act.Relay? && !act.enqueued && k == |s.requests|)
    || (act.Process? && !act.enqueued && act.i < |s.hands| && s.hands[act.i].ticket == k)
  }

  ghost predicate PushesSucceed(acts: seq<Action>, k: nat) {
    forall i :: 0 <= i < |acts| ==> !LosesPush(Run(EMPTY, acts[..i]), acts[i], k)
  }

  lemma NextDropsSpent(s: State, act: Action, k: nat)
    requires Inv(s) && !LosesPush(s, act, k) && (k in s.dropped ==> k < |s.attempts| && s.attempts[k] == 4)
    ensures var s' := Next(s, act); k in s'.dropped ==> k < |s'.attempts| && s'.attempts[k] == 4
  {
    if act.Process? && act.i < |s.hands| && s.hands[act.i].ticket < |s.attempts| {
      var t := s.hands[act.i];
      assert t in s.hands;
      if k in s.dropped && t.ticket == k { DroppedIsNotHeld(s, act.i); }
      AttemptKeeps(s.requests[t.ticket], t, act.tokens, act.committed);
    }
  }

  lemma DroppedIsNotHeld(s: State, i: nat)
    requires OnePlaceEach(s) && i < |s.hands|
    ensures s.hands[i].ticket !in s.dropped
  {
    var k := s.hands[i].ticket;
    TicketsWithout(s.hands, i);
    assert Places(s)[k] <= 1;
    assert multiset(Tickets(s.hands))[k] >= 1;
    assert multiset(s.dropped)[k] == 0;
  }

  lemma {:induction false} DropsSpent(acts: seq<Action>, k: nat)
    requires PushesSucceed(acts, k)
    ensures var s := Run(EMPTY, acts); k in s.dropped ==> k < |s.attempts| && s.attempts[k] == 4
  {
    if acts != [] {
      var n := |acts| - 1;
      forall i | 0 <= i < n ensures !LosesPush(Run(EMPTY, acts[..n][..i]), acts[..n][i], k) {
        assert acts[..n][..i] == acts[..i];
      }
      DropsSpent(acts[..n], k);
      RunKeepsInv(acts[..n]);
      NextDropsSpent(Run(EMPTY, acts[..n]), acts[n], k);
    }
  }

  /** If every push of a request's task succeeds, the request is dropped exactly when it was
      attempted four times and is not recorded. */
  lemma DroppedIffSpent(acts: seq<Action>, k: nat)
    requires k < |Run(EMPTY, acts).requests| && PushesSucceed(acts, k)
    ensures var s := Run(EMPTY, acts);
            k in s.dropped <==> k < |s.attempts| && s.attempts[k] == 4 && k !in RecordTickets(s.records)
  {
    var s := Run(EMPTY, acts);
    RunKeepsInv(acts);
    DropsSpent(acts, k);
    assert Places(s)[k] == 1;
    if k in s.dropped {
      assert multiset(s.dropped)[k] >= 1;
      assert k in RecordTickets(s.records) ==> multiset(RecordTickets(s.records))[k] >= 1;
    } else if k < |s.attempts| && s.attempts[k] == 4 {
      SpentIsNotLive(s, s.queue, k);
      SpentIsNotLive(s, s.hands, k);
      assert k in multiset(RecordTickets(s.records));
    }
  }

  lemma SpentIsNotLive(s: State, ts: seq<Task>, k: nat)
    requires k < |s.attempts| && s.attempts[k] == 4 && forall t :: t in ts ==> LiveOk(s.requests, s.attempts, t)
    ensures multiset(Tickets(ts))[k] == 0
  {
    forall i | 0 <= i < |ts| ensures Tickets(ts)[i] != k { assert ts[i] in ts; }
  }

  /** Tokens are counted exactly for text without reported tokens: all other tasks are recorded
      as they are when the transaction commits, and fail as they are when it does not. */
  lemma OnlyUncountedAreCounted(t: Task, tokens: Option<nat>, committed: bool)
    ensures (t.usage.Some? && t.usage.value.total != 0) || t.text == "" ==>
              Attempt(t, tokens, committed) == if committed then Recorded(t) else Failed(t)
    ensures (t.usage.None? || t.usage.value.total == 0) && t.text != "" ==>
              (Attempt(t, tokens, committed).Recorded? <==> tokens.Some? && committed)
  {
  }

  /** A cost once positive never changes again: not by a retry, not by counting anew. */
  lemma PositiveCostIsFixed(acts: seq<Action>, i: nat, tokens: Option<nat>, committed: bool, enqueued: bool)
    requires i < |Run(EMPTY, acts).hands| && Run(EMPTY, acts).hands[i].cost > 0
    ensures var s := Run(EMPTY, acts); var t := s.hands[i]; var s' := Next(s, Process(i, tokens, committed, enqueued));
            && (forall u :: u in s'.queue && u.ticket == t.ticket ==> u.cost == t.cost && u.retry == t.retry + 1)
            && (forall r :: r in s'.records && r.ticket == t.ticket ==> r.cost == t.cost)
  {
    var s := Run(EMPTY, acts);
    RunKeepsInv(acts);
    assert s.hands[i] in s.hands;
    HeldIsAlone(s, i);
    AttemptKeeps(s.requests[s.hands[i].ticket], s.hands[i], tokens, committed);
  }

  /** A record can be checked from its own columns and the request's prices, whether the usage
      came from upstream or the tokens were counted, and it splits the cost without rest. */
  lemma RecordsAddUp(acts: seq<Action>, r: Record)
    requires r in Run(EMPTY, acts).records
    ensures var s := Run(EMPTY, acts);
            && r.ticket < |s.requests|
            && r.revenue + r.commission == r.cost
            && var q := s.requests[r.ticket];
               Sellable(q.prices) && (q.usage.Some? ==> NonNegative(q.usage.value)) && q.bps <= 10000 ==>
                 && r.cost == CostOf(q.prices, r.columns.hit, r.columns.miss, r.columns.completion)
                 && 0 <= r.revenue <= r.cost
  {
    var s := Run(EMPTY, acts);
    RunKeepsInv(acts);
    var q := s.requests[r.ticket];
    if Sellable(q.prices) && (q.usage.Some? ==> NonNegative(q.usage.value)) && q.bps <= 10000 {
      if HasUsage(q) {
        CostFromColumns(q.usage.value);
        CostRounds(q.usage.value, q.prices);
      } else if CountedRecord(q, r) {
        var n: nat :| r.columns == ColumnsOf(CountedUsage(n)) && r.cost == q.prices.output * n / 1000;
        CountedCost(n, q.prices);
        CostFromColumns(CountedUsage(n));
      }
    }
  }

  /** For a recorded request of positive cost exactly one debit and exactly one quota update
      are ever owed or submitted, both of exactly that cost: the quota update by the request
      path when upstream reported usage, by the worker that recorded it when not. Once nothing
      is owed, both have been submitted. */
  lemma ChargedExactlyOnce(acts: seq<Action>, r: Record)
    requires r in Run(EMPTY, acts).records && r.cost > 0
    ensures var s := Run(EMPTY, acts);
            && r.ticket < |s.requests|
            && OwedOrSubmitted(s)[Charge(r.ticket, r.cost, AccountDebit)] == 1
            && OwedOrSubmitted(s)[Charge(r.ticket, r.cost, ChargingPath(s.requests[r.ticket]))] == 1
            && (forall c :: c in OwedOrSubmitted(s) && c.ticket == r.ticket ==>
                  c.amount == r.cost && (c.path == AccountDebit || c.path == ChargingPath(s.requests[r.ticket])))
            && (s.owed == [] ==>
                  multiset(s.charges)[Charge(r.ticket, r.cost, AccountDebit)] == 1
                  && multiset(s.charges)[Charge(r.ticket, r.cost, ChargingPath(s.requests[r.ticket]))] == 1)
  {
    var s := Run(EMPTY, acts);
    RunIsCharged(acts, r);
    forall c | c in OwedOrSubmitted(s) && c.ticket == r.ticket
      ensures c.amount == r.cost && (c.path == AccountDebit || c.path == ChargingPath(s.requests[r.ticket]))
    {
      DueIsOfRecord(acts, r, c);
    }
  }

  lemma DueIsOfRecord(acts: seq<Action>, r: Record, c: Charge)
    requires r in Run(EMPTY, acts).records && r.cost > 0 && c.ticket == r.ticket
    requires var s := Run(EMPTY, acts); Due(s.requests, s.records, c)
    ensures c.amount == r.cost
    ensures c.path == AccountDebit || c.path == ChargingPath(Run(EMPTY, acts).requests[r.ticket])
  {
    RunIsCharged(acts, r);
    if !c.path.RequestPath? { OneCost(acts, c, r); }
  }

  lemma RunIsCharged(acts: seq<Action>, r: Record)
    requires r in Run(EMPTY, acts).records && r.cost > 0
    ensures var s := Run(EMPTY, acts);
            && ChargedOnce(s) && r.ticket < |s.requests| && Explains(s.requests[r.ticket], r)
            && Due(s.requests, s.records, Charge(r.ticket, r.cost, AccountDebit))
            && Due(s.requests, s.records, Charge(r.ticket, r.cost, ChargingPath(s.requests[r.ticket])))
  {
    RunKeepsInv(acts);
    var s := Run(EMPTY, acts);
    assert RecordOk(s.requests, s.attempts, r);
    assert CalledFor(s.records, Charge(r.ticket, r.cost, AccountDebit));
    assert CalledFor(s.records, Charge(r.ticket, r.cost, Worker));
  }

  lemma OneCost(acts: seq<Action>, c: Charge, r: Record)
    requires r in Run(EMPTY, acts).records && CalledFor(Run(EMPTY, acts).records, c) && c.ticket == r.ticket
    ensures c.amount == r.cost
  {
    var s := Run(EMPTY, acts);
    var q :| q in s.records && q.ticket == c.ticket && q.cost == c.amount;
    var i :| 0 <= i < |s.records| && s.records[i] == q;
    var j :| 0 <= j < |s.records| && s.records[j] == r;
    RecordedOnce(acts, i, j);
  }

  // ---------------------------------------------------------------- progress

  /** Attempts the live tasks still have. */
  function Budget(ts: seq<Task>): int {
    if ts == [] then 0 else Budget(ts[..|ts| - 1]) + MAX_RETRIES + 1 - ts[|ts| - 1].retry
  }

  lemma {:induction false} BudgetConcat(xs: seq<Task>, ys: seq<Task>)
    ensures Budget(xs + ys) == Budget(xs) + Budget(ys)
  {
    if ys == [] {
      assert xs + ys == xs;
    } else {
      assert (xs + ys)[..|xs + ys| - 1] == xs + ys[..|ys| - 1];
      BudgetConcat(xs, ys[..|ys| - 1]);
    }
  }

  lemma BudgetOne(t: Task)
    ensures Budget([t]) == MAX_RETRIES + 1 - t.retry
  {
    assert [t][..0] == [];
  }

  lemma {:induction false} BudgetWithout(ts: seq<Task>, i: nat)
    requires i < |ts|
    ensures Budget(ts) == Budget(Without(ts, i)) + MAX_RETRIES + 1 - ts[i].retry
  {
    var n := |ts| - 1;
    var front := ts[..n];
    if i == n {
      assert Without(ts, i) == front;
    } else {
      BudgetWithout(front, i);
      assert Without(ts, i)[..n - 1] == Without(front, i);
    }
  }

  lemma SettleSpendsBudget(s: State, o: Outcome, enqueued: bool)
    requires o.task.retry <= MAX_RETRIES
    ensures Settled(s, o, enqueued).hands == s.hands
    ensures Budget(Settled(s, o, enqueued).queue) <= Budget(s.queue) + MAX_RETRIES - o.task.retry
  {
    var t := o.task.(retry := o.task.retry + 1);
    BudgetConcat(s.queue, [t]);
    BudgetOne(t);
  }

  /** Every processed task spends budget that nothing but a new request brings in, so the
      attempts of a run are finite: at most MAX_RETRIES + 1 for each request. */
  lemma ProcessSpendsBudget(acts: seq<Action>, i: nat, tokens: Option<nat>, committed: bool, enqueued: bool)
    requires i < |Run(EMPTY, acts).hands|
    ensures var s := Run(EMPTY, acts); var s' := Next(s, Process(i, tokens, committed, enqueued));
            0 <= Budget(s'.queue) + Budget(s'.hands) < Budget(s.queue) + Budget(s.hands)
  {
    var s := Run(EMPTY, acts);
    RunKeepsInv(acts);
    var t := s.hands[i];
    assert t in s.hands;
    AttemptKeeps(s.requests[t.ticket], t, tokens, committed);
    BudgetWithout(s.hands, i);
    SettleSpendsBudget(Released(s, i), Attempt(t, tokens, committed), enqueued);
    NextKeepsTasks(s, Process(i, tokens, committed, enqueued));
    BudgetNonNegative(Processed(s, i, tokens, committed, enqueued).queue);
    BudgetNonNegative(Processed(s, i, tokens, committed, enqueued).hands);
  }

  lemma {:induction false} BudgetNonNegative(ts: seq<Task>)
    requires forall t :: t in ts ==> t.retry <= MAX_RETRIES
    ensures Budget(ts) >= 0
  {
    if ts != [] { BudgetNonNegative(ts[..|ts| - 1]); }
  }
}
