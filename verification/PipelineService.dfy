/** The pipeline as the relay and one worker run it, over a list that is pushed on the left
    and popped on the right. */
module PipelineService {
  import opened Common
  import opened Cost
  import opened Pipeline

  function Reversed(ts: seq<Task>): (r: seq<Task>)
    ensures |r| == |ts|
  {
    if ts == [] then [] else Reversed(ts[1..]) + [ts[0]]
  }

  lemma {:induction false} ReversedInit(ts: seq<Task>)
    requires ts != []
    ensures Reversed(ts) == [ts[|ts| - 1]] + Reversed(ts[..|ts| - 1])
  {
    if |ts| == 1 {
      assert ts[1..] == [] && ts[..0] == [];
    } else {
      ReversedInit(ts[1..]);
      assert ts[1..][..|ts| - 2] == ts[..|ts| - 1][1..];
    }
  }

  lemma RunSnoc(acts: seq<Action>, act: Action)
    ensures Run(EMPTY, acts + [act]) == Next(Run(EMPTY, acts), act)
  {
    assert (acts + [act])[..|acts|] == acts;
  }

  class Service {
    var list: seq<Task>        // newest on the left
    var records: seq<Record>
    var charges: seq<Charge>
    var issued: nat            // tasks built so far; numbers them

    ghost var history: seq<Action>

    /** The protocol state these calls have reached. */
    ghost function Model(): State
      reads this
    {
      Run(EMPTY, history)
    }

    ghost predicate Valid()
      reads this
    {
      Idle(Model(), Reversed(list), records, charges, issued)
    }

    constructor ()
      ensures Valid() && Model() == EMPTY
    {
      list, records, charges, issued, history := [], [], [], 0, [];
    }

    ghost method Follow(act: Action)
      modifies this`history
      ensures Model() == Next(old(Model()), act)
    {
      RunSnoc(history, act);
      history := history + [act];
    }

    /** LPUSH; a failed push loses the task. */
    method EnqueueSettlement(t: Task, pushed: bool)
      modifies this`list
      ensures Reversed(list) == if pushed then Reversed(old(list)) + [t] else Reversed(old(list))
    {
      if pushed {
        list := [t] + list;
        assert list[1..] == old(list);
      }
    }

    /** BRPOP: the oldest task, if there is one. */
    method Dequeue() returns (t: Option<Task>)
      modifies this`list
      ensures old(list) == [] ==> t == None && list == []
      ensures old(list) != [] ==> t == Some(Reversed(old(list))[0]) && Reversed(list) == Reversed(old(list))[1..]
    {
      if list == [] { return None; }
      ReversedInit(list);
      t := Some(list[|list| - 1]);
      list := list[..|list| - 1];
    }

    /** enqueueSettlement and the quota update its caller submits for the cost it returns. */
    method Relay(usage: Option<Usage>, text: string, prices: Prices, bps: int, pushed: bool) returns (cost: int)
      requires Valid()
      modifies this
      ensures Valid()
      ensures usage.Some? && usage.value.total > 0 ==> cost == UsageCost(usage.value, prices)
      ensures !(usage.Some? && usage.value.total > 0) ==> cost == 0
      ensures Model().requests == old(Model().requests)
                + if (usage.Some? && usage.value.total > 0) || text != "" then
                    [Request(usage, text, prices, bps)]
                  else []
      ensures charges == old(charges) + if cost > 0 then [Charge(|old(Model().requests)|, cost, RequestPath)] else []
      ensures Model() == Drained(Next(old(Model()), Action.Relay(Request(usage, text, prices, bps), pushed)))
      ensures Reversed(list) == Reversed(old(list))
                + if ((usage.Some? && usage.value.total > 0) || text != "") && pushed then
                    [TaskFor(Request(usage, text, prices, bps), |old(Model().requests)|)]
                  else []
    {
      if !(usage.Some? && usage.value.total > 0) && text == "" { return 0; }
      cost := RelayTask(Request(usage, text, prices, bps), pushed);
    }

    /** A request that there is something to settle for. */
    method RelayTask(r: Request, pushed: bool) returns (cost: int)
      requires Valid() && (HasUsage(r) || r.text != "")
      modifies this
      ensures Valid() && Model() == Drained(Next(old(Model()), Action.Relay(r, pushed)))
      ensures var task := TaskFor(r, |old(Model().requests)|);
              && cost == task.cost
              && Model().requests == old(Model().requests) + [r]
              && Reversed(list) == Reversed(old(list)) + (if pushed then [task] else [])
              && charges == old(charges) + if cost > 0 then [Charge(task.ticket, cost, RequestPath)] else []
    {
      RelayedIsIdle(Model(), Reversed(list), records, charges, r, pushed);
      var task := BuildTask(r.usage, r.text, r.prices, r.bps, issued);
      cost := task.cost;
      issued := issued + 1;
      EnqueueSettlement(task, pushed);
      if cost > 0 {
        charges := charges + [Charge(task.ticket, cost, RequestPath)];
      }
      FollowRelay(r, pushed);
    }

    method BuildTask(usage: Option<Usage>, text: string, prices: Prices, bps: int, ticket: nat) returns (task: Task)
      ensures task == TaskFor(Request(usage, text, prices, bps), ticket)
    {
      task := Task(ticket, usage, 0, bps, 0, "", 0);
      if usage.Some? && usage.value.total > 0 {
        var cost := ComputeCost(usage, prices);
        task := task.(cost := cost);
      } else {
        task := task.(text := text, outputPrice := prices.output);
      }
    }

    ghost method FollowRelay(r: Request, pushed: bool)
      modifies this`history
      ensures Model() == Drained(Next(old(Model()), Action.Relay(r, pushed)))
    {
      Follow(Action.Relay(r, pushed));
      Drain();
    }

    ghost method Drain()
      modifies this`history
      ensures Model() == Drained(old(Model()))
      decreases |Model().owed|
    {
      if Model().owed != [] {
        DrainRest(Model());
        SubmitOldest(Model());
        Follow(Submit(0));
        Drain();
      } else {
        assert Model().charges + [] == Model().charges;
      }
    }

    /** One round of settlementWorker: takes a task and processes it with the given outcomes of
        the tokenizer, the transaction and a re-enqueue. */
    method Work(tokens: Option<nat>, committed: bool, pushed: bool)
      requires Valid()
      modifies this
      ensures Valid()
      ensures old(list) == [] ==> Model() == old(Model())
      ensures old(list) != [] ==> Model() == Worked(old(Model()), tokens, committed, pushed)
    {
      if list != [] {
        WorkedIsIdle(history, Reversed(list), records, charges, tokens, committed, pushed);
      }
      var taken := Dequeue();
      if taken.None? { return; }
      ProcessSettlement(taken.value, tokens, committed, pushed);
      FollowWork(tokens, committed, pushed);
    }

    /** processSettlement: count the tokens if upstream reported none, insert the records, and
        charge the quota if the request path could not. */
    method ProcessSettlement(task0: Task, tokens: Option<nat>, committed: bool, pushed: bool)
      modifies this`list, this`records, this`charges
      ensures var o := Attempt(task0, tokens, committed);
              && Reversed(list) == Reversed(old(list)) + Retried(o, pushed)
              && records == old(records) + (if o.Recorded? then [RecordFor(o.task)] else [])
              && charges == old(charges) + (if o.Recorded? then WorkerCharges(o.task) else [])
    {
      var task := task0;
      if (task.usage.None? || task.usage.value.total == 0) && task.text != "" {
        if tokens.None? {
          Requeue(task, pushed);
          return;
        }
        task := task.(usage := Some(Usage(0, tokens.value, tokens.value, None)),
                      cost := task.outputPrice * tokens.value / 1000);
      }
      var columns := UsageColumns(task.usage);
      if !committed {
        Requeue(task, pushed);
        return;
      }
      var revenue := CalcRevenue(task.cost, task.bps);
      records := records + [Record(task.ticket, task.cost, revenue, task.cost - revenue, columns)];
      if task.cost > 0 {
        charges := charges + [Charge(task.ticket, task.cost, AccountDebit)];
        if task.text != "" {
          charges := charges + [Charge(task.ticket, task.cost, Worker)];
        }
      }
    }

    method Requeue(task: Task, pushed: bool)
      modifies this`list
      ensures Reversed(list) == Reversed(old(list)) + Retried(Failed(task), pushed)
    {
      if task.retry < MAX_RETRIES {
        EnqueueSettlement(task.(retry := task.retry + 1), pushed);
      }
    }

    ghost method FollowWork(tokens: Option<nat>, committed: bool, pushed: bool)
      modifies this`history
      ensures Model() == Worked(old(Model()), tokens, committed, pushed)
    {
      Follow(Take);
      Follow(Process(0, tokens, committed, pushed));
      Drain();
    }
  }

  /** What goes back to the queue after an attempt. */
  function Retried(o: Outcome, pushed: bool): seq<Task> {
    if o.Failed? && o.task.retry < MAX_RETRIES && pushed then [o.task.(retry := o.task.retry + 1)] else []
  }

  /** The protocol state when no worker is busy: what the service holds is all there is. */
  ghost predicate Idle(s: State, queue: seq<Task>, records: seq<Record>, charges: seq<Charge>, issued: nat) {
    && s.queue == queue && s.records == records && s.charges == charges
    && s.hands == [] && s.owed == [] && |s.requests| == issued
  }

  /** The state once everything owed has been submitted, oldest first. */
  function Drained(s: State): State {
    s.(owed := [], charges := s.charges + s.owed)
  }

  lemma SubmitOldest(s: State)
    requires s.owed != []
    ensures Next(s, Submit(0)) == s.(owed := s.owed[1..], charges := s.charges + [s.owed[0]])
  {
    assert Without(s.owed, 0) == s.owed[1..];
  }

  lemma DrainRest(s: State)
    requires s.owed != []
    ensures Drained(s.(owed := s.owed[1..], charges := s.charges + [s.owed[0]])) == Drained(s)
  {
    assert s.charges + [s.owed[0]] + s.owed[1..] == s.charges + s.owed;
  }

  lemma RelayedIsIdle(s: State, queue: seq<Task>, records: seq<Record>, charges: seq<Charge>, r: Request, pushed: bool)
    requires Idle(s, queue, records, charges, |s.requests|) && (HasUsage(r) || r.text != "")
    ensures var t := TaskFor(r, |s.requests|); var s' := Drained(Next(s, Relay(r, pushed)));
            && s'.requests == s.requests + [r]
            && Idle(s', if pushed then queue + [t] else queue, records,
                    charges + if t.cost > 0 then [Charge(t.ticket, t.cost, RequestPath)] else [], |s.requests| + 1)
  {
  }

  /** Take, process and submit what is owed, in one go. */
  ghost function Worked(s: State, tokens: Option<nat>, committed: bool, pushed: bool): State {
    Drained(Next(Next(s, Take), Process(0, tokens, committed, pushed)))
  }

  lemma WorkedIsIdle(acts: seq<Action>, queue: seq<Task>, records: seq<Record>, charges: seq<Charge>,
                     tokens: Option<nat>, committed: bool, pushed: bool)
    requires queue != [] && Idle(Run(EMPTY, acts), queue, records, charges, |Run(EMPTY, acts).requests|)
    ensures var s := Run(EMPTY, acts); var o := Attempt(queue[0], tokens, committed);
            Idle(Worked(s, tokens, committed, pushed),
                 queue[1..] + Retried(o, pushed),
                 records + (if o.Recorded? then [RecordFor(o.task)] else []),
                 charges + (if o.Recorded? then WorkerCharges(o.task) else []), |s.requests|)
  {
    var s := Run(EMPTY, acts);
    HeadIsLive(acts);
    var u := Next(s, Take);
    assert u.hands == [queue[0]];
    ProcessAlone(u, queue[0], tokens, committed, pushed);
  }

  lemma HeadIsLive(acts: seq<Action>)
    requires Run(EMPTY, acts).queue != []
    ensures var s := Run(EMPTY, acts); s.queue[0].ticket < |s.attempts|
  {
    RunKeepsInv(acts);
    assert Run(EMPTY, acts).queue[0] in Run(EMPTY, acts).queue;
  }

  lemma ProcessAlone(u: State, t: Task, tokens: Option<nat>, committed: bool, pushed: bool)
    requires u.hands == [t] && t.ticket < |u.attempts| && u.owed == []
    ensures var o := Attempt(t, tokens, committed); var v := Next(u, Process(0, tokens, committed, pushed));
            && v.queue == u.queue + Retried(o, pushed)
            && v.records == u.records + (if o.Recorded? then [RecordFor(o.task)] else [])
            && v.owed == (if o.Recorded? then WorkerCharges(o.task) else [])
            && v.charges == u.charges && v.hands == [] && v.requests == u.requests
  {
    assert Without(u.hands, 0) == [];
    assert [] + WorkerCharges(Attempt(t, tokens, committed).task) == WorkerCharges(Attempt(t, tokens, committed).task);
  }
}
