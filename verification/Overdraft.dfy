/** API keys that a refused debit disables and a recharge enables again, beside the ledger that
    refuses the one and posts the other. */
module Overdraft {
  import Ledger
  import LedgerTheorems
  import LedgerSessions

  const OVERDRAFT := "overdraft"

  datatype Key = Key(user: int, active: bool, reason: string, deleted: bool)

  /** refusals holds the user of every debit of credits that ended without committing, for
      whatever reason. */
  datatype State = State(ledger: Ledger.State, keys: seq<Key>, refusals: seq<int>)

  /** Key updates happen at any time after what causes them, or never, when they fail. */
  datatype Action =
    | Bank(act: Ledger.Action)
    | CreateKey(user: int)
    | DeleteKey(user: int, id: nat)
    | Disable(i: nat)          // for refusal number i
    | Restore(user: int)

  const EMPTY := State(Ledger.EMPTY, [], [])

  function CreditsOf(user: int): Ledger.Account {
    Ledger.Account("user", user, Ledger.CREDITS)
  }

  /** The UPDATE of disableOverdraftKeys, on one row. */
  function Disabled(k: Key, user: int): Key {
    if k.user == user && k.active then k.(active := false, reason := OVERDRAFT) else k
  }

  /** The UPDATE of RestoreOverdraftKeys, on one row. */
  function Restored(k: Key, user: int): Key {
    if k.user == user && !k.active && k.reason == OVERDRAFT && !k.deleted then k.(active := true, reason := "") else k
  }

  function EachKey(keys: seq<Key>, f: Key -> Key): (r: seq<Key>)
    ensures |r| == |keys| && forall i :: 0 <= i < |keys| ==> r[i] == f(keys[i])
  {
    seq(|keys|, i requires 0 <= i < |keys| => f(keys[i]))
  }

  /** A ledger step that ends a debit of the user's credits without committing it. */
  predicate EndsDebit(s: Ledger.State, act: Ledger.Action, user: int) {
    && !act.Ensure? && act.id in s.live && act.id !in Ledger.Next(s, act).live && !LedgerTheorems.Commits(s, act)
    && var p := s.live[act.id].post;
       p.kind == Ledger.Debit && |p.deltas| == 1 && p.deltas[0].acct == CreditsOf(user)
  }

  /** The user whose debit a ledger step ends without committing it, if it does. */
  function Refused(s: Ledger.State, act: Ledger.Action): (users: seq<int>)
    ensures forall u :: u in users <==> EndsDebit(s, act, u)
  {
    if act.Ensure? || act.id !in s.live || s.live[act.id].post.deltas == [] then []
    else
      var user := s.live[act.id].post.deltas[0].acct.ownerId;
      if EndsDebit(s, act, user) then [user] else []
  }

  /** The keys after RestoreOverdraftKeys: an error without an account, nothing on a negative
      balance. */
  function AfterRestore(keys: seq<Key>, rows: map<Ledger.Account, Ledger.Row>, user: int): seq<Key> {
    if CreditsOf(user) !in rows || rows[CreditsOf(user)].balance < 0 then keys
    else EachKey(keys, k => Restored(k, user))
  }

  function Next(s: State, act: Action): State {
    match act
    case Bank(a) => s.(ledger := Ledger.Next(s.ledger, a), refusals := s.refusals + Refused(s.ledger, a))
    case CreateKey(user) => s.(keys := s.keys + [Key(user, true, "", false)])
    case DeleteKey(user, id) =>
      if id < |s.keys| && s.keys[id].user == user then s.(keys := s.keys[id := s.keys[id].(deleted := true)]) else s
    case Disable(i) =>
      if i < |s.refusals| then s.(keys := EachKey(s.keys, k => Disabled(k, s.refusals[i]))) else s
    case Restore(user) => s.(keys := AfterRestore(s.keys, s.ledger.rows, user))
  }

  function Run(acts: seq<Action>): State {
    if acts == [] then EMPTY else Next(Run(acts[..|acts| - 1]), acts[|acts| - 1])
  }

  // ---------------------------------------------------------------- invariant

  /** A key is inactive for one reason only. */
  ghost predicate Told(k: Key) {
    k.reason == if k.active then "" else OVERDRAFT
  }

  ghost predicate KeysOk(s: State) {
    forall i :: 0 <= i < |s.keys| ==> Told(s.keys[i]) && (!s.keys[i].active ==> s.keys[i].user in s.refusals)
  }

  lemma {:induction false} RunKeepsKeys(acts: seq<Action>)
    ensures KeysOk(Run(acts))
  {
    if acts != [] { RunKeepsKeys(acts[..|acts| - 1]); }
  }

  /** The ledger's own steps in a joint run. */
  function BankActions(acts: seq<Action>): seq<Ledger.Action> {
    if acts == [] then []
    else
      var last := acts[|acts| - 1];
      BankActions(acts[..|acts| - 1]) + if last.Bank? then [last.act] else []
  }

  /** The ledger of a joint run is one that its own steps reach. */
  lemma {:induction false} LedgerRuns(acts: seq<Action>)
    ensures Run(acts).ledger == Ledger.Run(Ledger.EMPTY, BankActions(acts))
  {
    if acts != [] {
      var n := |acts| - 1;
      LedgerRuns(acts[..n]);
      if acts[n].Bank? {
        LedgerTheorems.RunSnoc(Ledger.EMPTY, BankActions(acts[..n]), acts[n].act);
      } else {
        assert BankActions(acts) == BankActions(acts[..n]);
      }
    }
  }

  // ---------------------------------------------------------------- theorems

  /** A key is inactive only if some debit of its user's credits ended without committing. */
  lemma InactiveOnlyAfterRefusal(acts: seq<Action>, i: nat)
    requires i < |Run(acts).keys| && !Run(acts).keys[i].active
    ensures exists n :: 0 <= n < |acts| && acts[n].Bank?
              && EndsDebit(Run(acts[..n]).ledger, acts[n].act, Run(acts).keys[i].user)
  {
    RunKeepsKeys(acts);
    RefusalsHappened(acts, Run(acts).keys[i].user);
  }

  lemma {:induction false} RefusalsHappened(acts: seq<Action>, user: int)
    requires user in Run(acts).refusals
    ensures exists n :: 0 <= n < |acts| && acts[n].Bank? && EndsDebit(Run(acts[..n]).ledger, acts[n].act, user)
  {
    var n := |acts| - 1;
    if user in Run(acts[..n]).refusals {
      RefusalsHappened(acts[..n], user);
      var k :| 0 <= k < n && acts[..n][k].Bank? && EndsDebit(Run(acts[..n][..k]).ledger, acts[..n][k].act, user);
      assert acts[..n][..k] == acts[..k];
    }
  }

  /** The user's credits were recharged by a committed posting. */
  ghost predicate Recharged(posts: seq<Ledger.Post>, user: int) {
    exists i, m :: 0 <= i < |posts| && m > 0 && posts[i] == RechargeOf(user, m)
  }

  function RechargeOf(user: int, amount: int): Ledger.Post {
    Ledger.Post(Ledger.Recharge, [Ledger.Delta(CreditsOf(user), amount)])
  }

  /** The restore after a recharge finds the user's account. */
  lemma RechargeFindsAccount(acts: seq<Ledger.Action>, user: int)
    requires Recharged(Ledger.Run(Ledger.EMPTY, acts).posts, user)
    ensures CreditsOf(user) in Ledger.Run(Ledger.EMPTY, acts).rows
  {
    var s := Ledger.Run(Ledger.EMPTY, acts);
    LedgerTheorems.EmptyInv();
    Ledger.RunKeepsInv(Ledger.EMPTY, acts);
    LedgerTheorems.LogIsPostings(acts);
    var i, m :| 0 <= i < |s.posts| && m > 0 && s.posts[i] == RechargeOf(user, m);
    LedgerTheorems.RequestedHas(s.posts, i, 0);
    var side := (Ledger.Recharge, Ledger.Delta(CreditsOf(user), m));
    assert side in LedgerTheorems.Recorded(s.log);
    var j :| 0 <= j < |s.log| && LedgerTheorems.Recorded(s.log)[j] == side;
    assert s.log[j].acct == CreditsOf(user);
  }

  /** After the restore that follows a recharge, a key of the user that is not deleted is
      inactive exactly when it was before and the balance is negative; deleted keys and those
      of other users stay as they are. */
  lemma RestoreAfterRecharge(acts: seq<Action>, user: int, i: nat)
    requires Recharged(Run(acts).ledger.posts, user) && i < |Run(acts).keys|
    ensures var s := Run(acts); var s' := Next(s, Restore(user));
            && |s'.keys| == |s.keys| && CreditsOf(user) in s.ledger.rows
            && (s.keys[i].user == user && !s.keys[i].deleted ==>
                  (!s'.keys[i].active <==> !s.keys[i].active && s.ledger.rows[CreditsOf(user)].balance < 0))
            && s'.keys[i].user == s.keys[i].user && s'.keys[i].deleted == s.keys[i].deleted
            && (s.keys[i].active ==> s'.keys[i] == s.keys[i])
            && (s.keys[i].user != user || s.keys[i].deleted ==> s'.keys[i] == s.keys[i])
  {
    RunKeepsKeys(acts);
    LedgerRuns(acts);
    RechargeFindsAccount(BankActions(acts), user);
  }

  ghost predicate EndsOverdraft(s: State, user: int) {
    Recharged(s.ledger.posts, user) ==>
      var keys := Next(s, Restore(user)).keys;
      forall i :: 0 <= i < |keys| && keys[i].user == user && !keys[i].deleted ==> keys[i].active
  }

  /** A recharge of any amount ends the overdraft when every committed posting spared the
      user's credits: refused debits take nothing, so no debt is left to pay off. */
  lemma RechargeEndsOverdraft(acts: seq<Action>, user: int)
    requires LedgerTheorems.AllSpare(Run(acts).ledger.posts, CreditsOf(user))
    ensures EndsOverdraft(Run(acts), user)
  {
    var s := Run(acts);
    if Recharged(s.ledger.posts, user) {
      LedgerRuns(acts);
      LedgerTheorems.NeverNegative(BankActions(acts), CreditsOf(user));
      forall i | 0 <= i < |s.keys| && s.keys[i].user == user && !s.keys[i].deleted
        ensures Next(s, Restore(user)).keys[i].active
      {
        RestoreAfterRecharge(acts, user, i);
      }
    }
  }

  /** Which postings have to be ruled out for that: in every run that commits only allowed
      postings a recharge ends the overdraft, exactly when all allowed postings that pass the
      checks spare the user's credits, or none of them is a recharge of the user. */
  lemma EndsOverdraftIffSpared(allowed: iset<Ledger.Post>, user: int)
    ensures (forall acts :: LedgerTheorems.PostedFrom(Run(acts).ledger.posts, allowed) ==>
               EndsOverdraft(Run(acts), user))
       <==> (|| (forall p :: p in allowed && Ledger.Accepts(p) ==> LedgerTheorems.Spares(p, CreditsOf(user)))
             || (forall m: int :: m > 0 ==> RechargeOf(user, m) !in allowed))
  {
    if p, m: int :| p in allowed && Ledger.Accepts(p) && !LedgerTheorems.Spares(p, CreditsOf(user))
                    && m > 0 && RechargeOf(user, m) in allowed {
      var acts := DebtOutlivesRecharge(p, user, m);
      assert LedgerTheorems.PostedFrom(Run(acts).ledger.posts, allowed);
      assert !EndsOverdraft(Run(acts), user);
    } else {
      forall acts | LedgerTheorems.PostedFrom(Run(acts).ledger.posts, allowed) ensures EndsOverdraft(Run(acts), user) {
        LedgerRuns(acts);
        LedgerTheorems.LogIsPostings(BankActions(acts));
        if Recharged(Run(acts).ledger.posts, user) { RechargeEndsOverdraft(acts, user); }
      }
    }
  }

  // ---------------------------------------------------------------- a debt that outlives a recharge

  /** A debit is refused, a recharge and enough unsparing postings follow: the key of the user
      is still inactive after the restore. */
  lemma DebtOutlivesRecharge(p: Ledger.Post, user: int, m: nat) returns (acts: seq<Action>)
    requires Ledger.Accepts(p) && !LedgerTheorems.Spares(p, CreditsOf(user)) && m > 0
    ensures forall i :: 0 <= i < |Run(acts).ledger.posts| ==>
              Run(acts).ledger.posts[i] == p || Run(acts).ledger.posts[i] == RechargeOf(user, m)
    ensures !EndsOverdraft(Run(acts), user)
  {
    acts := KeyDisabled(user);
    var s := Indebted(p, user, m);
    acts := BankOnly(acts, s);
    StillDisabled(acts, user);
  }

  lemma StillDisabled(acts: seq<Action>, user: int)
    requires var s := Run(acts);
             && s.keys == [Key(user, false, OVERDRAFT, false)]
             && |s.ledger.posts| > 0 && (exists m :: m > 0 && s.ledger.posts[0] == RechargeOf(user, m))
             && LedgerTheorems.Balance(s.ledger.rows, CreditsOf(user)) < 0
    ensures !EndsOverdraft(Run(acts), user)
  {
    var s := Run(acts);
    assert Recharged(s.ledger.posts, user);
    assert Next(s, Restore(user)).keys == s.keys;
    assert s.keys[0] == Key(user, false, OVERDRAFT, false);
  }

  /** A ledger that a recharge and then unsparing postings took below zero. */
  lemma Indebted(p: Ledger.Post, user: int, m: nat) returns (s: Ledger.State)
    requires Ledger.Accepts(p) && !LedgerTheorems.Spares(p, CreditsOf(user)) && m > 0
    ensures LedgerTheorems.Reaches(Ledger.EMPTY, s) && LedgerTheorems.Balance(s.rows, CreditsOf(user)) < 0
    ensures |s.posts| > 0 && s.posts[0] == RechargeOf(user, m)
    ensures forall i :: 0 < i < |s.posts| ==> s.posts[i] == p
  {
    var a := CreditsOf(user);
    LedgerTheorems.EmptyInv();
    var s1 := LedgerTheorems.PostingAlone(Ledger.EMPTY, 0, RechargeOf(user, m));
    LedgerTheorems.ReachKeepsInv(Ledger.EMPTY, s1);
    LedgerTheorems.MovedOne(Ledger.Delta(a, m), a);
    s := LedgerTheorems.PostingRepeated(s1, p, m + 1, a);
    LedgerTheorems.ReachTrans(Ledger.EMPTY, s1, s);
    Decreases(m, LedgerTheorems.Moved(p.deltas, a));
  }

  lemma Decreases(m: nat, d: int)
    requires d < 0
    ensures m + (m + 1) * d < 0
  {
    assert (m + 1) * (-1 - d) >= 0;
  }

  lemma Extend(acts: seq<Action>, act: Action) returns (more: seq<Action>)
    ensures Run(more) == Next(Run(acts), act)
  {
    more := acts + [act];
    assert more[..|more| - 1] == acts;
  }

  lemma KeyDisabled(user: int) returns (acts: seq<Action>)
    ensures Run(acts).ledger == Ledger.EMPTY && Run(acts).keys == [Key(user, false, OVERDRAFT, false)]
  {
    var debit := Ledger.Post(Ledger.Debit, [Ledger.Delta(CreditsOf(user), -1)]);
    acts := Extend([], CreateKey(user));
    acts := Extend(acts, Bank(Ledger.Begin(0, debit)));
    var s := Run(acts).ledger;
    assert s == Ledger.EMPTY.(live := map[0 := Ledger.Txn(debit, 0, Ledger.Query, map[], [])]);
    assert Ledger.Next(s, Ledger.Abort(0)) == Ledger.EMPTY;
    assert EndsDebit(s, Ledger.Abort(0), user);
    acts := Extend(acts, Bank(Ledger.Abort(0)));
    acts := Extend(acts, Disable(0));
  }

  /** Ledger steps that lead to a state, taken in a joint run. */
  lemma BankOnly(acts: seq<Action>, s: Ledger.State) returns (more: seq<Action>)
    requires LedgerTheorems.Reaches(Run(acts).ledger, s)
    ensures Run(more).ledger == s && Run(more).keys == Run(acts).keys
  {
    var steps :| Ledger.Run(Run(acts).ledger, steps) == s;
    more := BankAll(acts, steps);
  }

  lemma {:induction false} BankAll(acts: seq<Action>, steps: seq<Ledger.Action>) returns (more: seq<Action>)
    ensures Run(more).ledger == Ledger.Run(Run(acts).ledger, steps) && Run(more).keys == Run(acts).keys
    decreases |steps|
  {
    more := acts;
    if steps != [] {
      more := BankAll(acts, steps[..|steps| - 1]);
      more := Extend(more, Bank(steps[|steps| - 1]));
    }
  }

  // ---------------------------------------------------------------- a covered debit that fails

  function DebitOf(user: int, amount: int): Ledger.Post {
    LedgerSessions.OneSided(Ledger.Debit, CreditsOf(user), amount)
  }

  /** A ledger whose only row is the user's credits, with the given live debits. */
  ghost predicate HasOnly(s: Ledger.State, user: int, row: Ledger.Row, live: map<nat, Ledger.Txn>) {
    s.rows == map[CreditsOf(user) := row] && s.live == live
  }

  lemma BankStep(acts: seq<Action>, act: Ledger.Action) returns (more: seq<Action>)
    ensures Run(more).ledger == Ledger.Next(Run(acts).ledger, act) && Run(more).keys == Run(acts).keys
    ensures Run(more).refusals == Run(acts).refusals + Refused(Run(acts).ledger, act)
  {
    more := Extend(acts, Bank(act));
  }

  /** An update of the row that was read, in a transaction of one entry, when no other holds
      the row. */
  lemma UpdateStep(s: Ledger.State, id: nat, p: Ledger.Post, row: Ledger.Row, held: map<Ledger.Account, Ledger.Row>,
                   after: Ledger.Row)
    requires |p.deltas| == 1 && var d := p.deltas[0];
             && id in s.live && s.live[id] == Ledger.Txn(p, 0, Ledger.Update(row), held, [])
             && (held == map[d.acct := row] || (held == map[] && d.acct in s.rows && s.rows[d.acct] == row))
             && !Ledger.HeldByOther(s, id, d.acct)
             && after == Ledger.Row(row.balance + d.amount, row.version + 1)
             && (p.kind == Ledger.Debit ==> after.balance >= 0)
    ensures var d := p.deltas[0];
            Ledger.Next(s, Ledger.Advance(id)) == s.(live := s.live[id :=
              Ledger.Txn(p, 1, Ledger.Query, map[d.acct := after], [Ledger.Written(p, 0, after.balance)])])
  {
    var d := p.deltas[0];
    var e := Ledger.Written(p, 0, after.balance);
    assert held[d.acct := after] == map[d.acct := after] && [] + [e] == [e];
    assert Ledger.Extended(s.live[id], e, after.version) == Ledger.Txn(p, 1, Ledger.Query, map[d.acct := after], [e]);
    assert Ledger.Statement(s, id) == Ledger.Updating(s, id, row);
  }

  /** A new key, and a recharge of 2. */
  lemma KeyAndRecharge(user: int) returns (acts: seq<Action>)
    ensures HasOnly(Run(acts).ledger, user, Ledger.Row(2, 1), map[])
    ensures Run(acts).keys == [Key(user, true, "", false)] && Run(acts).refusals == []
  {
    var p, zero, two := RechargeOf(user, 2), Ledger.Row(0, 0), Ledger.Row(2, 1);
    acts := RechargeRead(user);
    UpdateStep(Run(acts).ledger, 0, p, zero, map[CreditsOf(user) := zero], two);
    acts := BankStep(acts, Ledger.Advance(0));
    acts := BankStep(acts, Ledger.Commit(0));
  }

  lemma RechargeRead(user: int) returns (acts: seq<Action>)
    ensures var zero := Ledger.Row(0, 0);
            var t := Ledger.Txn(RechargeOf(user, 2), 0, Ledger.Update(zero), map[CreditsOf(user) := zero], []);
            Run(acts).ledger == Ledger.EMPTY.(live := map[0 := t])
    ensures Run(acts).keys == [Key(user, true, "", false)] && Run(acts).refusals == []
  {
    acts := Extend([], CreateKey(user));
    acts := BankStep(acts, Ledger.Begin(0, RechargeOf(user, 2)));
    assert Run(acts).ledger.live == map[0 := Ledger.Txn(RechargeOf(user, 2), 0, Ledger.Query, map[], [])];
    acts := BankStep(acts, Ledger.Advance(0));
    acts := BankStep(acts, Ledger.Advance(0));
  }

  function Reading(user: int): Ledger.Txn {
    Ledger.Txn(DebitOf(user, 1), 0, Ledger.Update(Ledger.Row(2, 1)), map[], [])
  }

  /** Two debits of 1 that both read the balance of 2. */
  lemma BothRead(user: int) returns (acts: seq<Action>)
    ensures HasOnly(Run(acts).ledger, user, Ledger.Row(2, 1), map[1 := Reading(user), 2 := Reading(user)])
    ensures Run(acts).keys == [Key(user, true, "", false)] && Run(acts).refusals == []
  {
    acts := KeyAndRecharge(user);
    acts := BankStep(acts, Ledger.Begin(1, DebitOf(user, 1)));
    acts := BankStep(acts, Ledger.Advance(1));
    assert Run(acts).ledger.live == map[1 := Reading(user)];
    acts := BankStep(acts, Ledger.Begin(2, DebitOf(user, 1)));
    acts := BankStep(acts, Ledger.Advance(2));
  }

  /** The first of them commits. */
  lemma FirstCommits(user: int) returns (acts: seq<Action>)
    ensures HasOnly(Run(acts).ledger, user, Ledger.Row(1, 2), map[2 := Reading(user)])
    ensures Run(acts).keys == [Key(user, true, "", false)] && Run(acts).refusals == []
  {
    acts := BothRead(user);
    UpdateStep(Run(acts).ledger, 1, DebitOf(user, 1), Ledger.Row(2, 1), map[], Ledger.Row(1, 2));
    acts := BankStep(acts, Ledger.Advance(1));
    acts := BankStep(acts, Ledger.Commit(1));
  }

  /** A debit that the balance covered before it, while it ran and after it fails, because
      another one was faster, and the user's key is disabled with money in the account. */
  lemma CoveredDebitDisables(user: int) returns (acts: seq<Action>)
    ensures var s := Run(acts);
            && s.keys == [Key(user, false, OVERDRAFT, false)]
            && s.ledger.rows == map[CreditsOf(user) := Ledger.Row(1, 2)]
    ensures exists n :: 0 <= n < |acts| && acts[n] == Bank(Ledger.Advance(2))
              && HasOnly(Run(acts[..n]).ledger, user, Ledger.Row(1, 2), map[2 := Reading(user)])
              && EndsDebit(Run(acts[..n]).ledger, Ledger.Advance(2), user)
  {
    var before := FirstCommits(user);
    assert EndsDebit(Run(before).ledger, Ledger.Advance(2), user);
    var n := |before|;
    acts := before + [Bank(Ledger.Advance(2))];
    assert acts[..n] == before;
    assert user in Run(acts).refusals && |Run(acts).refusals| == 1;
    acts := acts + [Disable(0)];
    assert acts[..n + 1] == before + [Bank(Ledger.Advance(2))] && acts[..n] == before;
  }

  // ---------------------------------------------------------------- the procedures

  class KeyTable {
    var keys: seq<Key>

    ghost predicate Valid()
      reads this
    {
      forall i :: 0 <= i < |keys| ==> Told(keys[i])
    }

    constructor ()
      ensures Valid() && keys == []
    {
      keys := [];
    }

    method CreateApiKey(user: int) returns (id: nat)
      requires Valid()
      modifies this
      ensures Valid() && id == |old(keys)| && keys == old(keys) + [Key(user, true, "", false)]
    {
      id := |keys|;
      keys := keys + [Key(user, true, "", false)];
    }

    method DeleteApiKey(user: int, id: nat)
      requires Valid()
      modifies this
      ensures Valid()
      ensures keys == if id < |old(keys)| && old(keys)[id].user == user then
                        old(keys)[id := old(keys)[id].(deleted := true)]
                      else old(keys)
    {
      if id < |keys| && keys[id].user == user {
        keys := keys[id := keys[id].(deleted := true)];
      }
    }

    /** Unless the update fails, no key of the user is active afterwards; keys of other users
        and those that were inactive are as before. */
    method DisableOverdraftKeys(user: int, updateFails: bool)
      requires Valid()
      modifies this
      ensures Valid() && |keys| == |old(keys)|
      ensures updateFails ==> keys == old(keys)
      ensures !updateFails ==> forall i :: 0 <= i < |keys| && keys[i].user == user ==> !keys[i].active
      ensures forall i :: 0 <= i < |keys| ==>
                keys[i].user == old(keys)[i].user && keys[i].deleted == old(keys)[i].deleted
      ensures forall i :: 0 <= i < |keys| && (old(keys)[i].user != user || !old(keys)[i].active) ==>
                keys[i] == old(keys)[i]
    {
      if !updateFails {
        keys := EachKey(keys, k => Disabled(k, user));
      }
    }

    /** Reads the account, which may be missing, and restores the keys unless the balance is
        negative. */
    method RestoreOverdraftKeys(db: LedgerSessions.Database, user: int, updateFails: bool) returns (ok: bool)
      requires Valid()
      modifies this
      ensures Valid() && |keys| == |old(keys)|
      ensures keys == if updateFails then old(keys) else AfterRestore(old(keys), db.state.rows, user)
      ensures ok <==> CreditsOf(user) in db.state.rows && (db.state.rows[CreditsOf(user)].balance < 0 || !updateFails)
    {
      if CreditsOf(user) !in db.state.rows { return false; }
      if db.state.rows[CreditsOf(user)].balance < 0 { return true; }
      if updateFails { return false; }
      keys := EachKey(keys, k => Restored(k, user));
      ok := true;
    }
  }

  /** The user's credits are left to transaction id: no other live one names them, and none
      that the other sessions begin does. */
  ghost predicate Undisturbed(s: Ledger.State, id: nat, user: int, others: nat -> seq<Ledger.Action>) {
    LedgerSessions.Away(s, id, CreditsOf(user)) && LedgerSessions.AllKeepAway(others, id, CreditsOf(user))
  }

  /** What the worker does once a task of positive cost is recorded: debit the consumer, amid
      any steps of other sessions, and on any failure, also one that is not for want of
      balance, disable the consumer's keys. Only interference makes a covered debit fail. */
  method DebitConsumer(db: LedgerSessions.Database, table: KeyTable, id: nat, user: int, cost: int,
                       others: nat -> seq<Ledger.Action>, updateFails: bool)
    returns (ok: bool, ghost atCommit: Ledger.State)
    requires db.Valid() && table.Valid() && id !in db.state.live
    requires forall n :: LedgerSessions.Foreign(id, others(n))
    modifies db, table
    ensures db.Valid() && table.Valid() && |table.keys| == |old(table.keys)|
    ensures ok ==> table.keys == old(table.keys)
    ensures ok ==> LedgerSessions.CommittedBy(old(db.history), db.history, id, others,
                     LedgerSessions.OneSided(Ledger.Debit, CreditsOf(user), cost), atCommit)
    ensures ok ==> LedgerTheorems.Balance(atCommit.rows, CreditsOf(user)) >= cost
                   && LedgerTheorems.Balance(db.state.rows, CreditsOf(user))
                      == LedgerTheorems.Balance(atCommit.rows, CreditsOf(user)) - cost
    ensures !ok ==> LedgerSessions.NoCommit(old(db.history), db.history, id, others)
    ensures !ok && !updateFails ==>
              forall i :: 0 <= i < |table.keys| ==>
                if old(table.keys)[i].user == user then !table.keys[i].active else table.keys[i] == old(table.keys)[i]
    ensures LedgerSessions.Calm(|old(db.history)|, db.history, id, CreditsOf(user), old(db.state).rows) ==>
              (ok <==> LedgerTheorems.Balance(old(db.state).rows, CreditsOf(user)) >= cost)
    ensures Undisturbed(old(db.state), id, user, others) ==>
              (ok <==> LedgerTheorems.Balance(old(db.state).rows, CreditsOf(user)) >= cost)
  {
    ok, atCommit := LedgerSessions.ChangeAccount(db, id, Ledger.Debit, CreditsOf(user), cost, others);
    if Undisturbed(old(db.state), id, user, others) {
      if ok {
        LedgerSessions.CommittedIsCalm(old(db.history), db.history, id, others, CreditsOf(user),
                                       LedgerSessions.OneSided(Ledger.Debit, CreditsOf(user), cost), atCommit);
      } else {
        LedgerSessions.OthersAwayIsCalm(old(db.history), db.history, id, others, CreditsOf(user));
      }
    }
    if !ok { table.DisableOverdraftKeys(user, updateFails); }
  }

  /** RechargeCredits for a new reference: this call commits a positive amount, amid any steps
      of other sessions, and unless the balance is negative by the time it is read, whatever
      they do until then, the user's keys that are not deleted are active, all else the same. If it
      fails it has committed nothing; undisturbed, only an amount that is not positive fails. */
  method RechargeCredits(db: LedgerSessions.Database, table: KeyTable, id: nat, user: int, amount: int,
                         others: nat -> seq<Ledger.Action>, updateFails: bool)
    returns (posted: bool, ghost committed: seq<Ledger.Action>, ghost atCommit: Ledger.State)
    requires db.Valid() && table.Valid() && id !in db.state.live
    requires forall n :: LedgerSessions.Foreign(id, others(n))
    modifies db, table
    ensures db.Valid() && table.Valid() && |table.keys| == |old(table.keys)|
    ensures amount <= 0 ==> !posted && db.state == old(db.state)
    ensures !posted || updateFails ==> table.keys == old(table.keys)
    ensures !posted ==> LedgerSessions.NoCommit(old(db.history), db.history, id, others)
    ensures posted ==> CreditsOf(user) in db.state.rows
                       && LedgerSessions.CommittedBy(old(db.history), committed, id, others,
                                                     RechargeOf(user, amount), atCommit)
                       && LedgerTheorems.Balance(Ledger.Run(Ledger.EMPTY, committed).rows, CreditsOf(user))
                          == LedgerTheorems.Balance(atCommit.rows, CreditsOf(user)) + amount
                       && db.history == committed + others(3)
    ensures posted && !updateFails ==>
              forall i :: 0 <= i < |table.keys| ==>
                if old(table.keys)[i].user == user && !old(table.keys)[i].deleted then
                  table.keys[i] == if db.state.rows[CreditsOf(user)].balance < 0 then old(table.keys)[i]
                                   else old(table.keys)[i].(active := true, reason := "")
                else table.keys[i] == old(table.keys)[i]
    ensures Undisturbed(old(db.state), id, user, others) ==> (posted <==> amount > 0)
  {
    posted, committed, atCommit := false, db.history, db.state;
    if amount <= 0 { return; }
    var post := RechargeOf(user, amount);
    posted := LedgerSessions.PostLedger(db, id, post, others);
    if Undisturbed(old(db.state), id, user, others) {
      LedgerSessions.OthersAwayIsCalm(old(db.history), db.history, id, others, CreditsOf(user));
    }
    if !posted { return; }
    atCommit := db.state;
    LedgerSessions.CommitOne(db.history, id, Ledger.Recharge, post.deltas[0]);
    LedgerSessions.CommitNow(old(db.history), db.history, id, others, post);
    db.Perform(Ledger.Commit(id));
    committed := db.history;
    ghost var n := |db.state.posts| - 1;
    assert db.state.posts[n] == post;
    LedgerTheorems.PostsGrow(db.state, others(3));
    db.PerformAll(others(3));
    assert db.state.posts[n] == post;
    RechargeFindsAccount(db.history, user);
    var ok := table.RestoreOverdraftKeys(db, user, updateFails);
  }
}
