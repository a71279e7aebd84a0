/** `WorkerService._claim_available_work`: one task per claimed resource, within the Worker's
    capacity; a lease that finds no room is given back. */
module WorkerService {
  import opened Records
  import opened Text
  import opened Transactions
  import opened Protocol
  import opened PostgresStore

  function RunTasks(tasks: map<Resource, Lease>): set<Resource> {
    set key | key in tasks && key.RunResource?
  }

  function ConversationTasks(tasks: map<Resource, Lease>): set<Resource> {
    set key | key in tasks && key.ConversationResource?
  }

  lemma OneMoreTask(tasks: map<Resource, Lease>, lease: Lease)
    requires lease.resource !in tasks
    ensures var tasks' := tasks[lease.resource := lease];
            && |tasks'| == |tasks| + 1
            && |RunTasks(tasks')| == |RunTasks(tasks)| + (if lease.resource.RunResource? then 1 else 0)
            && |ConversationTasks(tasks')|
               == |ConversationTasks(tasks)| + (if lease.resource.ConversationResource? then 1 else 0)
  {
    var tasks' := tasks[lease.resource := lease];
    assert tasks'.Keys == tasks.Keys + {lease.resource};
    if lease.resource.RunResource? {
      RunAdded(tasks, lease);
    } else {
      ConversationAdded(tasks, lease);
    }
  }

  lemma RunAdded(tasks: map<Resource, Lease>, lease: Lease)
    requires lease.resource !in tasks && lease.resource.RunResource?
    ensures RunTasks(tasks[lease.resource := lease]) == RunTasks(tasks) + {lease.resource}
    ensures ConversationTasks(tasks[lease.resource := lease]) == ConversationTasks(tasks)
    ensures lease.resource !in RunTasks(tasks)
  {
  }

  lemma ConversationAdded(tasks: map<Resource, Lease>, lease: Lease)
    requires lease.resource !in tasks && lease.resource.ConversationResource?
    ensures ConversationTasks(tasks[lease.resource := lease]) == ConversationTasks(tasks) + {lease.resource}
    ensures RunTasks(tasks[lease.resource := lease]) == RunTasks(tasks)
    ensures lease.resource !in ConversationTasks(tasks)
  {
  }

  /** A grant writes one lease row, and nothing else. */
  lemma GrantIs(db: Db, candidates: seq<RunId>, locked: set<RunId>, worker: string, seconds: int, now: Instant)
    requires Selects(candidates, RunnableRuns(db) - locked, 32)
    requires ClaimWork(db, candidates, worker, seconds, now).Granted?
    ensures var claim := ClaimWork(db, candidates, worker, seconds, now);
            claim.db == db.(leases := db.leases[claim.lease.resource :=
                                                LeaseRow(claim.lease.worker, claim.lease.token, now + seconds)])
  {
    hide FirstClaimable;
  }

  /** A claim of the store is a Claim step of the protocol: the new lease has an idle task. */
  lemma ClaimIsAStep(s: System, candidates: seq<RunId>, locked: set<RunId>, worker: string, seconds: int, now: Instant)
    requires Selects(candidates, RunnableRuns(s.db) - locked, 32)
    ensures var s' := DoClaim(s, candidates, worker, seconds, now);
            match ClaimWork(s.db, candidates, worker, seconds, now)
            case Granted(db, lease) =>
              s'.db == db && lease in s'.tasks && s'.tasks[lease].Idle?
              && forall other :: other != lease ==>
                   (other in s'.tasks <==> other in s.tasks) && (other in s.tasks ==> s'.tasks[other] == s.tasks[other])
            case _ => s' == s
  {
    hide ClaimWork;
  }

  /** A task that has nothing more to report is idle again, if it serves a Conversation, and over
      otherwise; when the service of a lease ends, its task is over. */
  lemma TasksEnd(s: System, lease: Lease)
    requires lease in s.tasks
    ensures Perform(s, Leave(lease)).db == s.db && Perform(s, Step.End(lease)).db == s.db
    ensures Perform(s, Leave(lease)).tasks
         == if lease.resource.ConversationResource? then s.tasks[lease := Idle] else s.tasks - {lease}
    ensures Perform(s, Step.End(lease)).tasks == s.tasks - {lease}
  {
  }

  /** Every lease row written since `before` has its task, or is over. */
  ghost predicate Served(before: map<Resource, LeaseRow>, leases: map<Resource, LeaseRow>, tasks: map<Resource, Lease>,
                         now: Instant)
  {
    forall resource :: resource in leases && (resource !in before || leases[resource] != before[resource]) ==>
      || leases[resource].expiresAt <= now
      || (resource in tasks && tasks[resource] == Lease(resource, leases[resource].worker, leases[resource].token))
  }

  lemma ServedMore(first: map<Resource, LeaseRow>, second: map<Resource, LeaseRow>, third: map<Resource, LeaseRow>,
                   tasks: map<Resource, Lease>, tasks': map<Resource, Lease>, now: Instant)
    requires Served(first, second, tasks, now) && Served(second, third, tasks', now)
    requires forall key :: key in tasks ==> key in tasks' && tasks'[key] == tasks[key]
    ensures Served(first, third, tasks', now)
  {
  }

  /** Each new task is of a resource with a runnable Run, under a lease of the Worker that lasts
      as long as asked for. */
  ghost predicate Serve(first: Db, before: map<Resource, Lease>, leases: map<Resource, LeaseRow>,
                        tasks: map<Resource, Lease>, worker: string, seconds: int, now: Instant)
  {
    forall key :: key in tasks && key !in before ==>
      && tasks[key].worker == worker && seconds > 0
      && key in leases && leases[key] == LeaseRow(worker, tasks[key].token, now + seconds)
      && exists r :: Runnable(first, r) && ResourceOf(first.runs[r]) == key
  }

  lemma ServeStays(first: Db, before: map<Resource, Lease>, leases: map<Resource, LeaseRow>,
                   tasks: map<Resource, Lease>, leases': map<Resource, LeaseRow>, worker: string, seconds: int,
                   now: Instant)
    requires Serve(first, before, leases, tasks, worker, seconds, now)
    requires forall key :: key in leases && leases[key].expiresAt > now ==>
               key in leases' && leases'[key] == leases[key]
    ensures Serve(first, before, leases', tasks, worker, seconds, now)
  {
    hide Runnable;
  }

  lemma ServeMore(first: Db, before: map<Resource, Lease>, leases: map<Resource, LeaseRow>, tasks: map<Resource, Lease>,
                  lease: Lease, worker: string, seconds: int, now: Instant)
    requires Serve(first, before, leases, tasks, worker, seconds, now)
    requires lease.worker == worker && seconds > 0 && lease.resource in leases
    requires leases[lease.resource] == LeaseRow(worker, lease.token, now + seconds)
    requires exists r :: Runnable(first, r) && ResourceOf(first.runs[r]) == lease.resource
    ensures Serve(first, before, leases, tasks[lease.resource := lease], worker, seconds, now)
  {
    hide Runnable;
  }

  /** The tasks there were are still there, and the new ones fit. */
  ghost predicate Extends(before: map<Resource, Lease>, tasks: map<Resource, Lease>, maxRuns: nat,
                          maxConversations: nat)
  {
    && (forall key :: key in before ==> key in tasks && tasks[key] == before[key])
    && (|RunTasks(tasks)| <= |RunTasks(before)| || |RunTasks(tasks)| <= maxRuns)
    && (|ConversationTasks(tasks)| <= |ConversationTasks(before)| || |ConversationTasks(tasks)| <= maxConversations)
  }

  lemma ExtendsMore(before: map<Resource, Lease>, tasks: map<Resource, Lease>, lease: Lease, maxRuns: nat,
                    maxConversations: nat)
    requires Extends(before, tasks, maxRuns, maxConversations) && lease.resource !in tasks
    requires lease.resource.RunResource? ==> |RunTasks(tasks)| < maxRuns
    requires lease.resource.ConversationResource? ==> |ConversationTasks(tasks)| < maxConversations
    ensures Extends(before, tasks[lease.resource := lease], maxRuns, maxConversations)
    ensures |tasks[lease.resource := lease]| == |tasks| + 1
    ensures tasks[lease.resource := lease] != before
  {
    OneMoreTask(tasks, lease);
    assert lease.resource !in before;
  }

  /** The resource has its task already, or there are as many tasks of its kind as there may be. */
  predicate Full(tasks: map<Resource, Lease>, resource: Resource, maxRuns: nat, maxConversations: nat) {
    || resource in tasks
    || (resource.RunResource? && |RunTasks(tasks)| >= maxRuns)
    || (resource.ConversationResource? && |ConversationTasks(tasks)| >= maxConversations)
  }

  /** A Run that a claim may find. */
  predicate Free(db: Db, locked: set<RunId>, r: RunId, now: Instant) {
    Runnable(db, r) && r !in locked && Claimable(db, ResourceOf(db.runs[r]), now)
  }

  /** As many runnable Runs as a claim looks at, and nobody may claim one of them. */
  ghost predicate AllHeld(db: Db, locked: set<RunId>, now: Instant) {
    exists rows :: Selects(rows, RunnableRuns(db) - locked, 32)
                   && forall i :: 0 <= i < |rows| ==> !Claimable(db, ResourceOf(db.runs[rows[i]]), now)
  }

  lemma HeldIsNotFree(db: Db, locked: set<RunId>, now: Instant)
    requires AllHeld(db, locked, now) && |RunnableRuns(db) - locked| <= 32
    ensures forall r :: !Free(db, locked, r, now)
  {
    var rows :| Selects(rows, RunnableRuns(db) - locked, 32)
                && forall i :: 0 <= i < |rows| ==> !Claimable(db, ResourceOf(db.runs[rows[i]]), now);
    SelectedAll(rows, RunnableRuns(db) - locked, 32);
    forall r ensures !Free(db, locked, r, now) {
      assert Runnable(db, r) && r !in locked ==> r in RunnableRuns(db) - locked;
    }
  }

  /** What a claim finds: the first Run of its list that may be claimed, unless there is none. */
  lemma ClaimFinds(db: Db, candidates: seq<RunId>, locked: set<RunId>, worker: string, seconds: int, now: Instant)
    requires Selects(candidates, RunnableRuns(db) - locked, 32) && !Blank(worker) && seconds > 0
    ensures match ClaimWork(db, candidates, worker, seconds, now)
            case Granted(_, lease) =>
              lease.worker == worker && exists r :: Free(db, locked, r, now) && ResourceOf(db.runs[r]) == lease.resource
            case _ => AllHeld(db, locked, now)
  {
    hide Claimable, Runnable;
    var k := FirstClaimable(db, candidates, now);
    if k < |candidates| {
      assert Free(db, locked, candidates[k], now);
    }
  }

  lemma RunnableStays(before: Db, after: Db)
    requires after == before.(leases := after.leases)
    ensures forall r :: Runnable(after, r) <==> Runnable(before, r)
  {
  }

  lemma BadArguments(db: Db, candidates: seq<RunId>, locked: set<RunId>, worker: string, seconds: int, now: Instant)
    requires Selects(candidates, RunnableRuns(db) - locked, 32) && (Blank(worker) || seconds <= 0)
    ensures ClaimWork(db, candidates, worker, seconds, now).BadClaim?
  {
  }

  lemma GivenBackIsFree(before: Db, after: Db, locked: set<RunId>, resource: Resource, now: Instant)
    requires after == before.(leases := after.leases) && Claimable(after, resource, now)
    ensures forall r :: Free(before, locked, r, now) && ResourceOf(before.runs[r]) == resource ==>
              Free(after, locked, r, now)
  {
  }

  class WorkerService {
    const store: PostgresControlStore
    const workerId: string
    const leaseSeconds: int
    const maxConcurrency: nat
    const maxOwnedConversations: nat
    var tasks: map<Resource, Lease>

    /** Each task works under a lease of its own resource. */
    ghost predicate Valid()
      reads this
    {
      forall key :: key in tasks ==> tasks[key].resource == key
    }

    constructor (store: PostgresControlStore, workerId: string, leaseSeconds: int, maxConcurrency: nat,
                 maxOwnedConversations: nat)
      ensures Valid() && tasks == map[] && this.store == store && this.workerId == workerId
      ensures this.leaseSeconds == leaseSeconds && this.maxConcurrency == maxConcurrency
      ensures this.maxOwnedConversations == maxOwnedConversations
    {
      this.store, this.workerId, this.leaseSeconds := store, workerId, leaseSeconds;
      this.maxConcurrency, this.maxOwnedConversations := maxConcurrency, maxOwnedConversations;
      tasks := map[];
    }

    /** The store differs in its leases only. */
    ghost predicate OnlyLeasesSince(before: Db)
      reads this, store
    {
      store.State() == before.(leases := store.leases)
    }

    /** Why the Worker starts no task: its arguments are refused, nothing is free, or what it was
        given is of a resource that has no room. */
    ghost predicate Ends(db: Db, locked: set<RunId>, now: Instant)
      reads this
    {
      || Blank(workerId) || leaseSeconds <= 0
      || AllHeld(db, locked, now)
      || exists r :: Free(db, locked, r, now)
                     && Full(tasks, ResourceOf(db.runs[r]), maxConcurrency, maxOwnedConversations)
    }

    /** A claim writes the lease row of a free Run, or finds none. */
    method Take(locked: set<RunId>, now: Instant) returns (lease: Option<Lease>)
      modifies store
      ensures store.events == old(store.events)
      ensures lease.None? ==> store.State() == old(store.State())
                              && (Blank(workerId) || leaseSeconds <= 0 || AllHeld(old(store.State()), locked, now))
      ensures lease.Some? ==>
                && lease.value.worker == workerId && leaseSeconds > 0
                && (exists r :: Free(old(store.State()), locked, r, now)
                                && ResourceOf(old(store.State()).runs[r]) == lease.value.resource)
                && store.State() == old(store.State()).(
                     leases := old(store.leases)[lease.value.resource :=
                                                   LeaseRow(workerId, lease.value.token, now + leaseSeconds)])
    {
      hide ClaimWork, Free, AllHeld, RunnableRuns, Selects;
      ghost var before := store.State();
      var claim, candidates := store.ClaimWork(locked, workerId, leaseSeconds, now);
      if Blank(workerId) || leaseSeconds <= 0 {
        assert !claim.Granted? by { BadArguments(before, candidates, locked, workerId, leaseSeconds, now); }
        return None;
      }
      ClaimFinds(before, candidates, locked, workerId, leaseSeconds, now);
      if !claim.Granted? {
        return None;
      }
      GrantIs(before, candidates, locked, workerId, leaseSeconds, now);
      return Some(claim.lease);
    }

    /** Claims one resource and starts its task, or gives it back. */
    method ClaimOne(locked: set<RunId>, now: Instant) returns (started: Option<Lease>)
      requires Valid()
      modifies this`tasks, store
      ensures Valid() && OnlyLeasesSince(old(store.State())) && store.events == old(store.events)
      ensures Served(old(store.leases), store.leases, tasks, now)
      ensures forall key :: key in old(store.leases) && old(store.leases)[key].expiresAt > now ==>
                key in store.leases && store.leases[key] == old(store.leases)[key]
      ensures tasks == if started.None? then old(tasks) else old(tasks)[started.value.resource := started.value]
      ensures started.None? ==> Ends(old(store.State()), locked, now) && Ends(store.State(), locked, now)
      ensures started.Some? ==>
                && started.value.resource !in old(tasks)
                && (started.value.resource.RunResource? ==> |RunTasks(old(tasks))| < maxConcurrency)
                && (started.value.resource.ConversationResource? ==>
                      |ConversationTasks(old(tasks))| < maxOwnedConversations)
                && started.value.worker == workerId && leaseSeconds > 0 && started.value.resource in store.leases
                && store.leases[started.value.resource] == LeaseRow(workerId, started.value.token, now + leaseSeconds)
                && exists r :: Runnable(old(store.State()), r)
                               && ResourceOf(old(store.State()).runs[r]) == started.value.resource
    {
      hide RunTasks, ConversationTasks, AllHeld, Runnable;
      ghost var before := store.State();
      var taken := Take(locked, now);
      if taken.None? {
        return None;
      }
      var lease := taken.value;
      if lease.resource in tasks
         || (lease.resource.RunResource? && |RunTasks(tasks)| >= maxConcurrency)
         || (lease.resource.ConversationResource? && |ConversationTasks(tasks)| >= maxOwnedConversations) {
        var released := store.ReleaseWorkLease(lease, now);
        GivenBackIsFree(before, store.State(), locked, lease.resource, now);
        return None;
      }
      tasks := tasks[lease.resource := lease];
      return Some(lease);
    }

    /** What the claims since `first` and `before` have done. */
    ghost predicate Progress(first: Db, before: map<Resource, Lease>, now: Instant)
      reads this, store
    {
      && Valid()
      && OnlyLeasesSince(first)
      && Extends(before, tasks, maxConcurrency, maxOwnedConversations)
      && Served(first.leases, store.leases, tasks, now)
      && Serve(first, before, store.leases, tasks, workerId, leaseSeconds, now)
      && |tasks| >= |before|
    }

    /** One turn of the loop. */
    method ClaimNext(ghost first: Db, ghost before: map<Resource, Lease>, locked: set<RunId>, now: Instant)
      returns (started: bool)
      requires Progress(first, before, now)
      modifies this`tasks, store
      ensures Progress(first, before, now) && store.events == old(store.events)
      ensures started ==> |tasks| == |old(tasks)| + 1 && tasks != before
      ensures !started ==> tasks == old(tasks)
      ensures !started ==> Ends(old(store.State()), locked, now) && Ends(store.State(), locked, now)
    {
      hide Extends, Served, Serve, Runnable, Ends, RunTasks, ConversationTasks;
      var one := ClaimOne(locked, now);
      ServedMore(first.leases, old(store.leases), store.leases, old(tasks), tasks, now);
      ServeStays(first, before, old(store.leases), old(tasks), store.leases, workerId, leaseSeconds, now);
      if one.Some? {
        RunnableStays(first, old(store.State()));
        ServeMore(first, before, store.leases, old(tasks), one.value, workerId, leaseSeconds, now);
        ExtendsMore(before, old(tasks), one.value, maxConcurrency, maxOwnedConversations);
      }
      return one.Some?;
    }

    /** `locked(n)` are the rows that other transactions hold locked when n tasks have been started. */
    method ClaimAvailableWork(stopped: bool, locked: nat -> set<RunId>, now: Instant) returns (claimed: bool)
      requires Valid()
      modifies this`tasks, store
      ensures Valid() && OnlyLeasesSince(old(store.State())) && store.events == old(store.events)
      ensures Extends(old(tasks), tasks, maxConcurrency, maxOwnedConversations)
      ensures Served(old(store.leases), store.leases, tasks, now)
      ensures Serve(old(store.State()), old(tasks), store.leases, tasks, workerId, leaseSeconds, now)
      ensures claimed <==> tasks != old(tasks)
      ensures stopped ==> !claimed && store.State() == old(store.State())
      ensures |tasks| >= |old(tasks)|
      ensures !stopped ==> |tasks| >= maxConcurrency + maxOwnedConversations
                           || Ends(store.State(), locked(|tasks| - |old(tasks)|), now)
      ensures var db := old(store.State());
              !stopped && |old(tasks)| < maxConcurrency + maxOwnedConversations && !Blank(workerId) && leaseSeconds > 0
              && |RunnableRuns(db) - locked(0)| <= 32 && (exists r :: Free(db, locked(0), r, now))
              && (forall r :: Free(db, locked(0), r, now) ==>
                    !Full(old(tasks), ResourceOf(db.runs[r]), maxConcurrency, maxOwnedConversations)) ==>
                claimed
    {
      hide RunTasks, ConversationTasks, Ends, Free, AllHeld, Full, RunnableRuns, Blank;
      claimed := false;
      var already := |tasks|;
      assert Progress(old(store.State()), old(tasks), now);
      while |tasks| < maxConcurrency + maxOwnedConversations && !stopped
        invariant Progress(old(store.State()), old(tasks), now) && store.events == old(store.events)
        invariant claimed <==> tasks != old(tasks)
        invariant !claimed ==> store.State() == old(store.State())
        invariant stopped ==> !claimed
        decreases maxConcurrency + maxOwnedConversations - |tasks|
      {
        hide Progress, Valid, OnlyLeasesSince;
        var started := ClaimNext(old(store.State()), old(tasks), locked(|tasks| - already), now);
        if !started {
          if !claimed {
            FreeOneIsClaimed(old(store.State()), locked(0), now);
          }
          break;
        }
        claimed := true;
      }
    }

    lemma FreeOneIsClaimed(db: Db, locked: set<RunId>, now: Instant)
      requires Ends(db, locked, now)
      ensures !Blank(workerId) && leaseSeconds > 0 && |RunnableRuns(db) - locked| <= 32
              && (exists r :: Free(db, locked, r, now)) ==>
                exists r :: Free(db, locked, r, now)
                            && Full(tasks, ResourceOf(db.runs[r]), maxConcurrency, maxOwnedConversations)
    {
      if AllHeld(db, locked, now) && |RunnableRuns(db) - locked| <= 32 {
        HeldIsNotFree(db, locked, now);
      }
    }
  }
}
