/**
 The guarded Kubernetes mutation (agent/recovery.go:134-192 over the action guard of
 internal/store/redis.go:76-83).

 The first half is one `Execute` call, with the answers of the cluster and of Redis as
 inputs. The second half interleaves any number of workers, crashes, lost replies and
 expiring claims, and bounds the mutation calls per action key over every such run.
 */
module GuardedAction {
  import opened Domain
  import opened WorkflowSpec

  /** What the guard stores under a key. */
  datatype ActionStatus = Running | ActionSucceeded | ActionFailed | ActionUnknown

  /** A claim request: it may not arrive, it may arrive and lose its answer, or be answered. */
  datatype Delivery = NotDelivered | ReplyLost | Answered

  class ActionGuard {
    var actions: map<string, ActionStatus>

    constructor ()
      ensures actions == map[]
    {
      actions := map[];
    }

    /** SETNX: only the first claim of a key stores anything; None is a transport error. */
    method ClaimAction(key: string, delivery: Delivery) returns (claimed: Option<bool>)
      modifies this
      ensures actions == if delivery == NotDelivered || key in old(actions) then old(actions) else old(actions)[key := Running]
      ensures claimed == if delivery == Answered then Some(key !in old(actions)) else None
    {
      if delivery == NotDelivered {
        return None;
      }
      var first := key !in actions;
      if first {
        actions := actions[key := Running];
      }
      claimed := if delivery == Answered then Some(first) else None;
    }

    /** The script stores a status only over an existing key. */
    method CompleteAction(key: string, status: ActionStatus, delivered: bool)
      modifies this
      ensures actions == if delivered && key in old(actions) then old(actions)[key := status] else old(actions)
    {
      if delivered && key in actions {
        actions := actions[key := status];
      }
    }
  }

  datatype Mutation =
    | Restart(namespace: string, target: string, at: Option<string>)
    | Scale(namespace: string, target: string, replicas: int)
    | Rollback(namespace: string, target: string)

  class KubernetesClient {
    const restartAtSupported: bool
    var mutations: seq<Mutation>

    constructor (restartAtSupported: bool)
      ensures mutations == [] && this.restartAtSupported == restartAtSupported
    {
      this.restartAtSupported := restartAtSupported;
      mutations := [];
    }

    /** One mutation call; whether its answer comes back is up to the cluster. */
    method Mutate(m: Mutation, answered: bool) returns (confirmed: bool)
      modifies this
      ensures mutations == old(mutations) + [m] && confirmed == answered
    {
      mutations := mutations + [m];
      confirmed := answered;
    }
  }

  /** The call a proposal stands for; None when its parameters or its action are not accepted. */
  function MutationFor(p: Proposal, restartAtSupported: bool): Option<Mutation> {
    match p.action
    case RestartPod => Some(Restart(p.namespace, p.target, if restartAtSupported then p.parameters.restartedAt else None))
    case ScaleDeployment =>
      if ReplicasAccepted(p.parameters) then Some(Scale(p.namespace, p.target, p.parameters.replicas.value)) else None
    case RollbackDeployment => Some(Rollback(p.namespace, p.target))
    case Unregistered(_) => None
  }

  function ActionKey(incident: string, idempotencyKey: string): string {
    incident + ":" + idempotencyKey
  }

  /** The outside answers to one Execute call. */
  datatype Answers = Answers(target: Option<(string, string)>, claim: Delivery, mutation: bool, completion: bool)

  /** Everything `Execute` checks before it asks the guard. */
  predicate Preconditions(p: Proposal, key: Option<string>, target: Option<(string, string)>) {
    && target.Some? && p.uid != "" && p.resourceVersion != "" && target == Some((p.uid, p.resourceVersion))
    && key.Some? && key.value != ""
  }

  /**
   One undisturbed call seen from outside: its report, what the guard holds afterwards, and how
   many mutations it sent. `accepted` says whether the proposal describes a mutation at all.
   */
  function Undisturbed(actions: map<string, ActionStatus>, key: string, passes: bool, accepted: bool, a: Answers)
    : (ExecuteResult, map<string, ActionStatus>, nat)
  {
    if !passes then (Refused, actions, 0)
    else
      var claimed := if a.claim == NotDelivered || key in actions then actions else actions[key := Running];
      if a.claim != Answered then (Refused, claimed, 0)
      else if key in actions then (ResultUnknown, actions, 0)
      else
        var confirmed := accepted && a.mutation;
        (if confirmed then Confirmed else ResultUnknown,
         if a.completion then claimed[key := if confirmed then ActionSucceeded else ActionUnknown] else claimed,
         if accepted then 1 else 0)
  }

  class KubernetesExecutor {
    const client: KubernetesClient
    const guard: ActionGuard?

    constructor (client: KubernetesClient, guard: ActionGuard?)
      ensures this.client == client && this.guard == guard
    {
      this.client := client;
      this.guard := guard;
    }

    /**
     At most one call reaches the cluster, and only the holder of a confirmed fresh claim
     makes it. A refusal means that no call was made; every other ending without a
     confirmed answer is reported as unknown.
     */
    method Execute(incident: string, idempotencyKey: Option<string>, p: Proposal, a: Answers) returns (result: ExecuteResult)
      requires guard != null ==> guard as object != client
      modifies client
      modifies if guard == null then {} else {guard}
      ensures client.mutations == old(client.mutations) || (
                && guard != null && Preconditions(p, idempotencyKey, a.target)
                && ActionKey(incident, idempotencyKey.value) !in old(guard.actions)
                && ActionKey(incident, idempotencyKey.value) in guard.actions
                && MutationFor(p, client.restartAtSupported).Some?
                && client.mutations == old(client.mutations) + [MutationFor(p, client.restartAtSupported).value])
      ensures result == Confirmed ==> client.mutations != old(client.mutations) && a.mutation
      ensures result == Refused ==> client.mutations == old(client.mutations)
      ensures guard != null && Preconditions(p, idempotencyKey, a.target) && a.claim == Answered ==> (
                && var key := ActionKey(incident, idempotencyKey.value);
                && ActionKey(incident, idempotencyKey.value) in guard.actions
                && (key in old(guard.actions) ==> result == ResultUnknown && guard.actions == old(guard.actions))
                && (key !in old(guard.actions) ==>
                      && (client.mutations != old(client.mutations) <==> MutationFor(p, client.restartAtSupported).Some?)
                      && (result == Confirmed <==> a.mutation && MutationFor(p, client.restartAtSupported).Some?)
                      && (result != Confirmed ==> result == ResultUnknown)
                      && guard.actions[key] == if !a.completion then Running
                                               else if result == Confirmed then ActionSucceeded else ActionUnknown))
      ensures guard != null && !(Preconditions(p, idempotencyKey, a.target) && a.claim == Answered) ==> result == Refused
      ensures guard == null ==> result == Refused
      ensures guard != null ==>
                (result, guard.actions, |client.mutations| - |old(client.mutations)|)
                == Undisturbed(old(guard.actions), if idempotencyKey.Some? then ActionKey(incident, idempotencyKey.value) else "",
                           Preconditions(p, idempotencyKey, a.target), MutationFor(p, client.restartAtSupported).Some?, a)
    {
      if a.target.None? || p.uid == "" || p.resourceVersion == "" || a.target.value != (p.uid, p.resourceVersion) {
        return Refused;
      }
      if idempotencyKey.None? || idempotencyKey.value == "" || guard == null {
        return Refused;
      }
      var key := ActionKey(incident, idempotencyKey.value);
      var claimed := guard.ClaimAction(key, a.claim);
      if claimed.None? {
        return Refused;
      }
      if !claimed.value {
        return ResultUnknown;
      }
      var confirmed := false;
      match p.action {
        case RestartPod =>
          if client.restartAtSupported && p.parameters.restartedAt.Some? {
            confirmed := client.Mutate(Restart(p.namespace, p.target, p.parameters.restartedAt), a.mutation);
          } else {
            confirmed := client.Mutate(Restart(p.namespace, p.target, None), a.mutation);
          }
        case ScaleDeployment =>
          if ReplicasAccepted(p.parameters) {
            confirmed := client.Mutate(Scale(p.namespace, p.target, p.parameters.replicas.value), a.mutation);
          }
        case RollbackDeployment =>
          confirmed := client.Mutate(Rollback(p.namespace, p.target), a.mutation);
        case Unregistered(_) =>
      }
      guard.CompleteAction(key, if confirmed then ActionSucceeded else ActionUnknown, a.completion);
      result := if confirmed then Confirmed else ResultUnknown;
    }
  }

  // ---------------------------------------------------------------- any number of workers

  /** How far one worker has come. `Completing` remembers the answer to its call. */
  datatype Progress = Checking | Claiming | Calling | Completing(confirmed: bool) | Finished(result: ExecuteResult) | Crashed

  datatype Worker = Worker(key: string, progress: Progress, called: bool)

  /** What an observer outside the workers sees, in order. */
  datatype Event = Claimed(key: string) | Called(key: string, confirmed: bool) | Recorded(key: string, status: ActionStatus) | Expired(key: string)

  datatype World = World(actions: map<string, ActionStatus>, workers: seq<Worker>, history: seq<Event>)

  datatype Step =
    | Start(key: string)
    | Check(worker: nat, passes: bool)
    | Claim(worker: nat, delivery: Delivery)
    | Call(worker: nat, accepted: bool, answered: bool)
    | Complete(worker: nat, delivered: bool)
    | Panic(worker: nat, callLeft: bool, delivered: bool)
    | Crash(worker: nat)
    | Expire(key: string)

  const Empty := World(map[], [], [])

  predicate Enabled(w: World, s: Step) {
    match s
    case Start(_) => true
    case Check(i, _) => i < |w.workers| && w.workers[i].progress == Checking
    case Claim(i, _) => i < |w.workers| && w.workers[i].progress == Claiming
    case Call(i, _, _) => i < |w.workers| && w.workers[i].progress == Calling
    case Complete(i, _) => i < |w.workers| && w.workers[i].progress.Completing?
    case Panic(i, _, _) => i < |w.workers| && w.workers[i].progress == Calling
    case Crash(i) => i < |w.workers| && !w.workers[i].progress.Finished?
    case Expire(key) => key in w.actions
  }

  function Move(w: World, i: nat, to: Progress): World
    requires i < |w.workers|
  {
    w.(workers := w.workers[i := w.workers[i].(progress := to)])
  }

  function Store(w: World, key: string, status: ActionStatus, delivered: bool): World {
    if delivered && key in w.actions
    then w.(actions := w.actions[key := status], history := w.history + [Recorded(key, status)])
    else w
  }

  function Next(w: World, s: Step): World
    requires Enabled(w, s)
  {
    match s
    case Start(key) => w.(workers := w.workers + [Worker(key, Checking, false)])
    case Check(i, passes) => Move(w, i, if passes then Claiming else Finished(Refused))
    case Claim(i, delivery) =>
      var key := w.workers[i].key;
      var first := delivery != NotDelivered && key !in w.actions;
      var claimed := if first then w.(actions := w.actions[key := Running], history := w.history + [Claimed(key)]) else w;
      Move(claimed, i, if delivery != Answered then Finished(Refused) else if first then Calling else Finished(ResultUnknown))
    case Call(i, accepted, answered) =>
      var worker := w.workers[i];
      if !accepted then Move(w, i, Completing(false))
      else w.(workers := w.workers[i := Worker(worker.key, Completing(answered), true)],
              history := w.history + [Called(worker.key, answered)])
    case Complete(i, delivered) =>
      var confirmed := w.workers[i].progress.confirmed;
      Move(Store(w, w.workers[i].key, if confirmed then ActionSucceeded else ActionUnknown, delivered), i,
           Finished(if confirmed then Confirmed else ResultUnknown))
    case Panic(i, callLeft, delivered) =>
      var worker := w.workers[i];
      var called := if callLeft
                    then w.(workers := w.workers[i := worker.(called := true)], history := w.history + [Called(worker.key, false)])
                    else w;
      Move(Store(called, worker.key, ActionFailed, delivered), i, Crashed)
    case Crash(i) => Move(w, i, Crashed)
    case Expire(key) => w.(actions := w.actions - {key}, history := w.history + [Expired(key)])
  }

  /** A run: every step is enabled in the world its predecessors lead to. */
  predicate Possible(steps: seq<Step>)
    decreases |steps|, 0
  {
    steps == [] || (Possible(steps[..|steps| - 1]) && Enabled(Run(steps[..|steps| - 1]), steps[|steps| - 1]))
  }

  function Run(steps: seq<Step>): World
    requires Possible(steps)
    decreases |steps|, 1
  {
    if steps == [] then Empty else Next(Run(steps[..|steps| - 1]), steps[|steps| - 1])
  }

  function Count(history: seq<Event>, e: Event): nat {
    multiset(history)[e]
  }

  function Calls(w: World, key: string): nat {
    Count(w.history, Called(key, true)) + Count(w.history, Called(key, false))
  }

  function Holders(w: World, key: string): nat {
    multiset(w.workers)[Worker(key, Calling, false)]
  }

  /** Claims and expirations alternate, and every call uses up one claim. */
  ghost predicate ClaimLedger(w: World, key: string) {
    && Count(w.history, Claimed(key)) == Count(w.history, Expired(key)) + (if key in w.actions then 1 else 0)
    && Calls(w, key) + Holders(w, key) <= Count(w.history, Claimed(key))
  }

  /** What a worker's progress says about its own call. */
  predicate Honest(worker: Worker) {
    match worker.progress
    case Checking | Claiming | Calling => !worker.called
    case Completing(confirmed) => confirmed ==> worker.called
    case Finished(Confirmed) => worker.called
    case Finished(Refused) => !worker.called
    case _ => true
  }

  ghost predicate Honesty(w: World) {
    && (forall worker :: worker in w.workers ==> Honest(worker))
    && (forall worker :: worker in w.workers && worker.progress in {Completing(true), Finished(Confirmed)}
          ==> Called(worker.key, true) in w.history)
    && (forall key :: Recorded(key, ActionSucceeded) in w.history ==> Called(key, true) in w.history)
    && (forall key :: key in w.actions && w.actions[key] != Running ==> Recorded(key, w.actions[key]) in w.history)
  }

  lemma HoldersAfterMove(w: World, i: nat, to: Worker, key: string)
    requires i < |w.workers|
    ensures Holders(w.(workers := w.workers[i := to]), key)
         == Holders(w, key) - (if w.workers[i] == Worker(key, Calling, false) then 1 else 0)
            + (if to == Worker(key, Calling, false) then 1 else 0)
  {
    assert w.workers[i] in multiset(w.workers);
    assert multiset(w.workers[i := to]) == multiset(w.workers) - multiset{w.workers[i]} + multiset{to};
  }

  lemma CountAfterAppend(history: seq<Event>, e: Event, probe: Event)
    ensures Count(history + [e], probe) == Count(history, probe) + if e == probe then 1 else 0
  {
    assert multiset(history + [e]) == multiset(history) + multiset{e};
  }

  lemma CountsAfterAppend(history: seq<Event>, e: Event, key: string)
    ensures Count(history + [e], Claimed(key)) == Count(history, Claimed(key)) + if e == Claimed(key) then 1 else 0
    ensures Count(history + [e], Expired(key)) == Count(history, Expired(key)) + if e == Expired(key) then 1 else 0
    ensures Count(history + [e], Called(key, true)) == Count(history, Called(key, true)) + if e == Called(key, true) then 1 else 0
    ensures Count(history + [e], Called(key, false)) == Count(history, Called(key, false)) + if e == Called(key, false) then 1 else 0
  {
    CountAfterAppend(history, e, Claimed(key));
    CountAfterAppend(history, e, Expired(key));
    CountAfterAppend(history, e, Called(key, true));
    CountAfterAppend(history, e, Called(key, false));
  }

  /** Storing a completion neither claims, calls nor expires anything. */
  lemma StoreKeepsLedger(w: World, stored: string, status: ActionStatus, delivered: bool, key: string)
    requires ClaimLedger(w, key)
    ensures ClaimLedger(Store(w, stored, status, delivered), key)
  {
    CountsAfterAppend(w.history, Recorded(stored, status), key);
  }

  lemma MoveKeepsLedger(w: World, i: nat, to: Progress, key: string)
    requires ClaimLedger(w, key) && i < |w.workers| && (to == Calling ==> w.workers[i].key != key)
    ensures ClaimLedger(Move(w, i, to), key)
  {
    HoldersAfterMove(w, i, w.workers[i].(progress := to), key);
  }

  /** The claim is what entitles a worker to call. */
  lemma ClaimKeepsLedger(w: World, i: nat, delivery: Delivery, key: string)
    requires Enabled(w, Claim(i, delivery)) && ClaimLedger(w, key) && !w.workers[i].called
    ensures ClaimLedger(Next(w, Claim(i, delivery)), key)
  {
    hide Count;
    var mine := w.workers[i].key;
    CountsAfterAppend(w.history, Claimed(mine), key);
    HoldersAfterMove(w, i, w.workers[i].(progress := Calling), key);
    HoldersAfterMove(w, i, w.workers[i].(progress := Finished(Refused)), key);
    HoldersAfterMove(w, i, w.workers[i].(progress := Finished(ResultUnknown)), key);
  }

  /** A call gives the entitlement up. */
  lemma CallKeepsLedger(w: World, i: nat, confirmed: bool, to: Progress, key: string)
    requires i < |w.workers| && w.workers[i].progress == Calling && !w.workers[i].called && ClaimLedger(w, key)
    requires to != Calling
    ensures ClaimLedger(w.(workers := w.workers[i := w.workers[i].(progress := to, called := true)],
                           history := w.history + [Called(w.workers[i].key, confirmed)]), key)
  {
    CountsAfterAppend(w.history, Called(w.workers[i].key, confirmed), key);
    HoldersAfterMove(w, i, w.workers[i].(progress := to, called := true), key);
  }

  lemma StepKeepsLedger(w: World, s: Step, key: string)
    requires Enabled(w, s) && ClaimLedger(w, key) && Honesty(w)
    ensures ClaimLedger(Next(w, s), key)
  {
    match s
    case Start(mine) =>
      assert multiset(w.workers + [Worker(mine, Checking, false)]) == multiset(w.workers) + multiset{Worker(mine, Checking, false)};
    case Check(i, passes) => MoveKeepsLedger(w, i, if passes then Claiming else Finished(Refused), key);
    case Claim(i, delivery) =>
      assert Honest(w.workers[i]);
      ClaimKeepsLedger(w, i, delivery, key);
    case Call(i, accepted, answered) =>
      assert Honest(w.workers[i]);
      if accepted {
        CallKeepsLedger(w, i, answered, Completing(answered), key);
      } else {
        MoveKeepsLedger(w, i, Completing(false), key);
      }
    case Complete(i, delivered) =>
      var confirmed := w.workers[i].progress.confirmed;
      var status := if confirmed then ActionSucceeded else ActionUnknown;
      StoreKeepsLedger(w, w.workers[i].key, status, delivered, key);
      MoveKeepsLedger(Store(w, w.workers[i].key, status, delivered), i, Finished(if confirmed then Confirmed else ResultUnknown), key);
    case Panic(i, callLeft, delivered) =>
      assert Honest(w.workers[i]);
      PanicKeepsLedger(w, i, callLeft, delivered, key);
    case Crash(i) => MoveKeepsLedger(w, i, Crashed, key);
    case Expire(mine) => CountsAfterAppend(w.history, Expired(mine), key);
  }

  lemma PanicKeepsLedger(w: World, i: nat, callLeft: bool, delivered: bool, key: string)
    requires Enabled(w, Panic(i, callLeft, delivered)) && ClaimLedger(w, key) && !w.workers[i].called
    ensures ClaimLedger(Next(w, Panic(i, callLeft, delivered)), key)
  {
    hide ClaimLedger;
    var mine := w.workers[i].key;
    if callLeft {
      var crashed := w.(workers := w.workers[i := w.workers[i].(progress := Crashed, called := true)],
                        history := w.history + [Called(mine, false)]);
      CallKeepsLedger(w, i, false, Crashed, key);
      StoreKeepsLedger(crashed, mine, ActionFailed, delivered, key);
      assert Store(crashed, mine, ActionFailed, delivered) == Next(w, Panic(i, callLeft, delivered));
    } else {
      StoreKeepsLedger(w, mine, ActionFailed, delivered, key);
      MoveKeepsLedger(Store(w, mine, ActionFailed, delivered), i, Crashed, key);
    }
  }

  /** One worker moves, honestly, and the history only grows. */
  lemma MoveKeepsHonesty(w: World, i: nat, to: Worker, history: seq<Event>)
    requires Honesty(w) && i < |w.workers| && Honest(to) && w.history <= history
    requires to.progress in {Completing(true), Finished(Confirmed)} ==> Called(to.key, true) in history
    requires forall key :: Recorded(key, ActionSucceeded) in history ==> Called(key, true) in history
    ensures Honesty(w.(workers := w.workers[i := to], history := history))
  {
    forall worker | worker in w.workers[i := to]
      ensures worker == to || worker in w.workers
    {
    }
  }

  lemma StoreKeepsHonesty(w: World, key: string, status: ActionStatus, delivered: bool)
    requires Honesty(w) && (status == ActionSucceeded ==> Called(key, true) in w.history)
    ensures Honesty(Store(w, key, status, delivered))
  {
  }

  lemma StepKeepsHonesty(w: World, s: Step)
    requires Enabled(w, s) && Honesty(w)
    ensures Honesty(Next(w, s))
  {
    match s
    case Start(_) =>
    case Check(i, passes) =>
      assert Honest(w.workers[i]);
      MoveKeepsHonesty(w, i, w.workers[i].(progress := if passes then Claiming else Finished(Refused)), w.history);
    case Claim(i, delivery) => ClaimKeepsHonesty(w, i, delivery);
    case Call(i, accepted, answered) =>
      if accepted {
        MoveKeepsHonesty(w, i, Worker(w.workers[i].key, Completing(answered), true), w.history + [Called(w.workers[i].key, answered)]);
      } else {
        MoveKeepsHonesty(w, i, w.workers[i].(progress := Completing(false)), w.history);
      }
    case Complete(i, delivered) =>
      assert w.workers[i] in w.workers && Honest(w.workers[i]);
      var confirmed := w.workers[i].progress.confirmed;
      var stored := Store(w, w.workers[i].key, if confirmed then ActionSucceeded else ActionUnknown, delivered);
      StoreKeepsHonesty(w, w.workers[i].key, if confirmed then ActionSucceeded else ActionUnknown, delivered);
      MoveKeepsHonesty(stored, i, w.workers[i].(progress := Finished(if confirmed then Confirmed else ResultUnknown)), stored.history);
    case Panic(i, callLeft, delivered) => PanicKeepsHonesty(w, i, callLeft, delivered);
    case Crash(i) => MoveKeepsHonesty(w, i, w.workers[i].(progress := Crashed), w.history);
    case Expire(_) =>
  }

  lemma ClaimKeepsHonesty(w: World, i: nat, delivery: Delivery)
    requires Enabled(w, Claim(i, delivery)) && Honesty(w)
    ensures Honesty(Next(w, Claim(i, delivery)))
  {
    assert Honest(w.workers[i]);
    var key := w.workers[i].key;
    var first := delivery != NotDelivered && key !in w.actions;
    var claimed := if first then w.(actions := w.actions[key := Running], history := w.history + [Claimed(key)]) else w;
    assert Honesty(claimed);
    var to := if delivery != Answered then Finished(Refused) else if first then Calling else Finished(ResultUnknown);
    MoveKeepsHonesty(claimed, i, w.workers[i].(progress := to), claimed.history);
  }

  lemma PanicKeepsHonesty(w: World, i: nat, callLeft: bool, delivered: bool)
    requires Enabled(w, Panic(i, callLeft, delivered)) && Honesty(w)
    ensures Honesty(Next(w, Panic(i, callLeft, delivered)))
  {
    var key := w.workers[i].key;
    var history := if callLeft then w.history + [Called(key, false)] else w.history;
    var crashed := w.workers[i].(progress := Crashed, called := w.workers[i].called || callLeft);
    MoveKeepsHonesty(w, i, crashed, history);
    StoreKeepsHonesty(w.(workers := w.workers[i := crashed], history := history), key, ActionFailed, delivered);
    assert Store(w.(workers := w.workers[i := crashed], history := history), key, ActionFailed, delivered)
        == Next(w, Panic(i, callLeft, delivered));
  }

  /**
   However many workers run, resume, crash or lose their replies, an action key sees at
   most one mutation call, plus one for each time its claim has expired.
   */
  lemma {:induction false} AtMostOneCallPerClaim(steps: seq<Step>, key: string)
    requires Possible(steps)
    ensures Honesty(Run(steps)) && ClaimLedger(Run(steps), key)
    ensures Calls(Run(steps), key) <= 1 + Count(Run(steps).history, Expired(key))
    decreases |steps|
  {
    if steps != [] {
      var n := |steps| - 1;
      AtMostOneCallPerClaim(steps[..n], key);
      StepKeepsHonesty(Run(steps[..n]), steps[n]);
      StepKeepsLedger(Run(steps[..n]), steps[n], key);
    }
  }

  /** While the claim is retained there is one call at most, and a recorded success stands for a confirmed one. */
  lemma RetainedClaimMeansOneCall(steps: seq<Step>, key: string)
    requires Possible(steps)
    ensures Expired(key) !in Run(steps).history ==> Calls(Run(steps), key) <= 1
    ensures key in Run(steps).actions && Run(steps).actions[key] == ActionSucceeded ==> Called(key, true) in Run(steps).history
  {
    AtMostOneCallPerClaim(steps, key);
  }

  /** What a worker's report is worth: confirmed means a confirmed call for the key, refused means this worker made none. */
  lemma ReportsAreHonest(steps: seq<Step>, i: nat)
    requires Possible(steps) && i < |Run(steps).workers|
    ensures var w := Run(steps);
            && (w.workers[i].progress == Finished(Confirmed) ==> w.workers[i].called && Called(w.workers[i].key, true) in w.history)
            && (w.workers[i].progress == Finished(Refused) ==> !w.workers[i].called)
  {
    AtMostOneCallPerClaim(steps, "");
    assert Honest(Run(steps).workers[i]);
  }

  lemma Extend(steps: seq<Step>, s: Step)
    requires Possible(steps) && Enabled(Run(steps), s)
    ensures Possible(steps + [s]) && Run(steps + [s]) == Next(Run(steps), s)
  {
    assert (steps + [s])[..|steps|] == steps;
  }

  /** A worker that passes its checks and finds the key free is entitled to call. */
  lemma ClaimRun(steps: seq<Step>, key: string) returns (longer: seq<Step>)
    requires Possible(steps) && key !in Run(steps).actions
    ensures Possible(longer)
    ensures Run(longer) == World(Run(steps).actions[key := Running], Run(steps).workers + [Worker(key, Calling, false)],
                                 Run(steps).history + [Claimed(key)])
  {
    var i := |Run(steps).workers|;
    Extend(steps, Start(key));
    longer := steps + [Start(key)];
    Extend(longer, Check(i, true));
    longer := longer + [Check(i, true)];
    Extend(longer, Claim(i, Answered));
    longer := longer + [Claim(i, Answered)];
  }

  lemma CallRun(steps: seq<Step>, key: string) returns (longer: seq<Step>)
    requires Possible(steps) && key !in Run(steps).actions
    ensures Possible(longer)
    ensures Run(longer).actions == Run(steps).actions[key := Running]
    ensures Run(longer).history == Run(steps).history + [Claimed(key), Called(key, true)]
  {
    var i := |Run(steps).workers|;
    longer := ClaimRun(steps, key);
    Extend(longer, Call(i, true, true));
    longer := longer + [Call(i, true, true)];
  }

  /** The bound is sharp: once a claim has expired, a second worker with the same key does call again. */
  lemma ExpiredClaimAllowsSecondCall(key: string) returns (steps: seq<Step>)
    ensures Possible(steps) && Calls(Run(steps), key) == 2 && Count(Run(steps).history, Expired(key)) == 1
  {
    var once := CallRun([], key);
    Extend(once, Expire(key));
    steps := CallRun(once + [Expire(key)], key);
    assert Run(steps).history == [Claimed(key), Called(key, true), Expired(key), Claimed(key), Called(key, true)];
    assert multiset(Run(steps).history)
        == multiset{Claimed(key), Called(key, true), Expired(key), Claimed(key), Called(key, true)};
  }

  /** "failed" is not "not called": a worker that panics after its call left records a failure for a mutation that was sent. */
  lemma FailedMayHaveCalled(key: string) returns (steps: seq<Step>)
    ensures Possible(steps) && Run(steps).actions == map[key := ActionFailed] && Calls(Run(steps), key) == 1
  {
    var claimed := ClaimRun([], key);
    Extend(claimed, Panic(0, true, true));
    steps := claimed + [Panic(0, true, true)];
    assert Run(steps).history == [Claimed(key), Called(key, false), Recorded(key, ActionFailed)];
    assert multiset(Run(steps).history) == multiset{Claimed(key), Called(key, false), Recorded(key, ActionFailed)};
  }

  // ---------------------------------------------------------------- what a recorded failure means

  /** Between its claim and its completion. */
  predicate Active(w: World, i: int, key: string) {
    0 <= i < |w.workers| && w.workers[i].key == key && (w.workers[i].progress == Calling || w.workers[i].progress.Completing?)
  }

  /** Some worker of the key panicked after its call had left. */
  predicate PanickedInCall(steps: seq<Step>, key: string)
    requires Possible(steps)
  {
    steps != []
    && var n := |steps| - 1;
    PanickedInCall(steps[..n], key) || PanicsInCall(Run(steps[..n]), steps[n], key)
  }

  predicate PanicsInCall(w: World, s: Step, key: string)
    requires Enabled(w, s)
  {
    s.Panic? && s.callLeft && w.workers[s.worker].key == key
  }

  /** While its first claim is retained, a key has one worker between claim and completion at most. */
  ghost predicate Solo(w: World, key: string, panicked: bool) {
    && (forall i, j :: Active(w, i, key) && Active(w, j, key) ==> i == j)
    && ((panicked || exists i :: Active(w, i, key)) ==> key in w.actions)
    && (panicked ==> forall i :: !Active(w, i, key))
    && (forall i :: Active(w, i, key) && w.workers[i].progress == Calling ==> Calls(w, key) == 0)
    && (key !in w.actions ==> Calls(w, key) == 0)
    && (key in w.actions && w.actions[key] == ActionFailed ==>
          && (forall i :: !Active(w, i, key))
          && Called(key, true) !in w.history && (Calls(w, key) == 0 <==> !panicked))
  }

  lemma NotCounted(w: World, key: string)
    ensures Calls(w, key) == 0 <==> Called(key, true) !in w.history && Called(key, false) !in w.history
  {
  }

  /** A step that leaves the key's record, calls and active workers alone, or only retires one of them. */
  lemma QuietStep(w: World, v: World, key: string, panicked: bool)
    requires Solo(w, key, panicked) && (key in w.actions <==> key in v.actions)
    requires key in v.actions ==> v.actions[key] == w.actions[key] || v.actions[key] in {ActionSucceeded, ActionUnknown}
    requires forall i :: Active(v, i, key) ==> Active(w, i, key) && v.workers[i] == w.workers[i]
    requires Calls(v, key) == Calls(w, key) && (Called(key, true) in v.history ==> Called(key, true) in w.history)
    ensures Solo(v, key, panicked)
  {
  }

  lemma StoreIsQuiet(w: World, stored: string, status: ActionStatus, delivered: bool, key: string)
    ensures var v := Store(w, stored, status, delivered);
            Calls(v, key) == Calls(w, key) && (Called(key, true) in v.history <==> Called(key, true) in w.history)
            && v.workers == w.workers && v.actions.Keys == w.actions.Keys
            && (key in w.actions ==> v.actions[key] == if delivered && stored == key then status else w.actions[key])
  {
    CountsAfterAppend(w.history, Recorded(stored, status), key);
  }

  lemma ClaimKeepsSolo(w: World, i: nat, delivery: Delivery, key: string, panicked: bool)
    requires Enabled(w, Claim(i, delivery)) && Solo(w, key, panicked)
    ensures Solo(Next(w, Claim(i, delivery)), key, panicked)
  {
    hide Calls;
    var v := Next(w, Claim(i, delivery));
    var mine := w.workers[i].key;
    HistoryGrows(w, Claimed(mine), key);
    if mine == key && key !in w.actions && delivery != NotDelivered {
      forall j | Active(v, j, key)
        ensures j == i
      {
        assert j != i ==> Active(w, j, key);
      }
    } else {
      QuietStep(w, v, key, panicked);
    }
  }

  lemma HistoryGrows(w: World, e: Event, key: string)
    requires e != Called(key, true) && e != Called(key, false)
    ensures forall actions, workers :: Calls(World(actions, workers, w.history + [e]), key) == Calls(w, key)
    ensures forall actions, workers :: Calls(World(actions, workers, w.history), key) == Calls(w, key)
  {
    CountsAfterAppend(w.history, e, key);
  }

  lemma CallKeepsSolo(w: World, i: nat, accepted: bool, answered: bool, key: string, panicked: bool)
    requires Enabled(w, Call(i, accepted, answered)) && Solo(w, key, panicked)
    ensures Solo(Next(w, Call(i, accepted, answered)), key, panicked)
  {
    var v := Next(w, Call(i, accepted, answered));
    var mine := w.workers[i].key;
    CountsAfterAppend(w.history, Called(mine, answered), key);
    if mine == key {
      assert Active(w, i, key);
      forall j | Active(v, j, key)
        ensures j == i
      {
        assert j != i ==> Active(w, j, key);
      }
    } else {
      QuietStep(w, v, key, panicked);
    }
  }

  lemma PanicKeepsSolo(w: World, i: nat, callLeft: bool, delivered: bool, key: string, panicked: bool)
    requires Enabled(w, Panic(i, callLeft, delivered)) && Solo(w, key, panicked)
    ensures Solo(Next(w, Panic(i, callLeft, delivered)), key, panicked || PanicsInCall(w, Panic(i, callLeft, delivered), key))
  {
    var v := Next(w, Panic(i, callLeft, delivered));
    var worker := w.workers[i];
    var called := if callLeft
                  then w.(workers := w.workers[i := worker.(called := true)], history := w.history + [Called(worker.key, false)]) else w;
    CountsAfterAppend(w.history, Called(worker.key, false), key);
    StoreIsQuiet(called, worker.key, ActionFailed, delivered, key);
    if worker.key == key {
      assert Active(w, i, key);
      forall j
        ensures !Active(v, j, key)
      {
        assert Active(v, j, key) ==> Active(w, j, key);
      }
      NotCounted(w, key);
    } else {
      QuietStep(w, v, key, panicked);
    }
  }

  lemma CompleteKeepsSolo(w: World, i: nat, delivered: bool, key: string, panicked: bool)
    requires Enabled(w, Complete(i, delivered)) && Solo(w, key, panicked)
    ensures Solo(Next(w, Complete(i, delivered)), key, panicked)
  {
    hide Solo;
    var status := if w.workers[i].progress.confirmed then ActionSucceeded else ActionUnknown;
    StoreIsQuiet(w, w.workers[i].key, status, delivered, key);
    QuietStep(w, Next(w, Complete(i, delivered)), key, panicked);
  }

  lemma OtherStepsKeepSolo(w: World, s: Step, key: string, panicked: bool)
    requires Enabled(w, s) && (s.Start? || s.Check? || s.Crash? || (s.Expire? && s.key != key)) && Solo(w, key, panicked)
    ensures Solo(Next(w, s), key, panicked)
  {
    hide Solo;
    if s.Expire? {
      CountsAfterAppend(w.history, Expired(s.key), key);
    }
    QuietStep(w, Next(w, s), key, panicked);
  }

  lemma StepKeepsSolo(w: World, s: Step, key: string, panicked: bool)
    requires Enabled(w, s) && s != Expire(key) && Solo(w, key, panicked)
    ensures Solo(Next(w, s), key, panicked || PanicsInCall(w, s, key))
  {
    hide Solo, Next;
    match s
    case Claim(i, delivery) => ClaimKeepsSolo(w, i, delivery, key, panicked);
    case Call(i, accepted, answered) => CallKeepsSolo(w, i, accepted, answered, key, panicked);
    case Panic(i, callLeft, delivered) => PanicKeepsSolo(w, i, callLeft, delivered, key, panicked);
    case Complete(i, delivered) => CompleteKeepsSolo(w, i, delivered, key, panicked);
    case _ => OtherStepsKeepSolo(w, s, key, panicked);
  }

  lemma NextExtends(w: World, s: Step, key: string)
    requires Enabled(w, s) && Expired(key) !in Next(w, s).history
    ensures Expired(key) !in w.history && s != Expire(key)
  {
    assert w.history <= Next(w, s).history;
  }

  lemma {:induction false} SoloOverRuns(steps: seq<Step>, key: string)
    requires Possible(steps) && Expired(key) !in Run(steps).history
    ensures Solo(Run(steps), key, PanickedInCall(steps, key))
    decreases |steps|
  {
    if steps != [] {
      hide Solo, Next;
      var n := |steps| - 1;
      NextExtends(Run(steps[..n]), steps[n], key);
      SoloOverRuns(steps[..n], key);
      StepKeepsSolo(Run(steps[..n]), steps[n], key, PanickedInCall(steps[..n], key));
    } else {
      assert Calls(Empty, key) == 0;
    }
  }

  /**
   While the claim is retained, a recorded failure means that no call was confirmed, and that
   none was sent if and only if no worker panicked after its call had left.
   */
  lemma FailedMeansNothingSentIff(steps: seq<Step>, key: string)
    requires Possible(steps) && Expired(key) !in Run(steps).history
    requires key in Run(steps).actions && Run(steps).actions[key] == ActionFailed
    ensures Called(key, true) !in Run(steps).history
    ensures Calls(Run(steps), key) == 0 <==> !PanickedInCall(steps, key)
  {
    SoloOverRuns(steps, key);
  }

  // ---------------------------------------------------------------- one call as a run

  /**
   An undisturbed `Execute` is a run of the machine: the steps of one more worker lead to its
   report, to what it leaves in the guard, and to the calls it sent.
   */
  lemma ExecuteIsARun(steps: seq<Step>, key: string, passes: bool, accepted: bool, a: Answers) returns (longer: seq<Step>)
    requires Possible(steps)
    ensures Possible(longer)
    ensures var w, v, o := Run(steps), Run(longer), Undisturbed(Run(steps).actions, key, passes, accepted, a);
            && v.workers == w.workers + [Worker(key, Finished(o.0), o.2 == 1)] && v.actions == o.1
            && Calls(v, key) == Calls(w, key) + o.2
  {
    hide Calls, Next;
    var w := Run(steps);
    longer := Checked(steps, key, passes);
    SameCalls(w, Run(longer), key);
    if passes {
      longer := Asked(longer, w.workers, key, a.claim);
      if a.claim == Answered && key !in w.actions {
        longer := Performed(longer, w.workers, key, accepted, a);
      }
    }
  }

  /** The worker asks for the claim. */
  lemma Asked(steps: seq<Step>, before: seq<Worker>, key: string, delivery: Delivery) returns (longer: seq<Step>)
    requires Possible(steps) && Run(steps).workers == before + [Worker(key, Claiming, false)]
    ensures Possible(longer)
    ensures var w, v := Run(steps), Run(longer);
            && v.workers == before + [Worker(key, if delivery != Answered then Finished(Refused)
                                                  else if key !in w.actions then Calling else Finished(ResultUnknown), false)]
            && v.actions == (if delivery == NotDelivered || key in w.actions then w.actions else w.actions[key := Running])
            && Calls(v, key) == Calls(w, key)
  {
    hide Calls;
    HistoryGrows(Run(steps), Claimed(key), key);
    SameCalls(Run(steps), Run(steps).(history := Run(steps).history), key);
    Extend(steps, Claim(|before|, delivery));
    longer := steps + [Claim(|before|, delivery)];
  }

  /** The holder of the claim calls and completes. */
  lemma Performed(steps: seq<Step>, before: seq<Worker>, key: string, accepted: bool, a: Answers) returns (longer: seq<Step>)
    requires Possible(steps) && Run(steps).workers == before + [Worker(key, Calling, false)] && key in Run(steps).actions
    ensures Possible(longer)
    ensures var w, v, confirmed := Run(steps), Run(longer), accepted && a.mutation;
            && v.workers == before + [Worker(key, Finished(if confirmed then Confirmed else ResultUnknown), accepted)]
            && v.actions == (if a.completion then w.actions[key := if confirmed then ActionSucceeded else ActionUnknown] else w.actions)
            && Calls(v, key) == Calls(w, key) + if accepted then 1 else 0
  {
    hide Calls;
    var i, status := |before|, if accepted && a.mutation then ActionSucceeded else ActionUnknown;
    var w := Run(steps);
    Extend(steps, Call(i, accepted, a.mutation));
    CallIsCounted(w, i, accepted, a.mutation, key);
    longer := steps + [Call(i, accepted, a.mutation)];
    var called := Run(longer);
    assert called.workers == before + [Worker(key, Completing(accepted && a.mutation), accepted)] && called.actions == w.actions;
    Extend(longer, Complete(i, a.completion));
    StoreIsQuiet(called, key, status, a.completion, key);
    longer := longer + [Complete(i, a.completion)];
    SameCalls(Store(called, key, status, a.completion), Run(longer), key);
  }

  lemma SameCalls(w: World, v: World, key: string)
    requires v.history == w.history
    ensures Calls(v, key) == Calls(w, key)
  {
  }

  lemma CallIsCounted(w: World, i: nat, accepted: bool, answered: bool, key: string)
    requires Enabled(w, Call(i, accepted, answered)) && w.workers[i].key == key
    ensures Calls(Next(w, Call(i, accepted, answered)), key) == Calls(w, key) + if accepted then 1 else 0
  {
    CountsAfterAppend(w.history, Called(key, answered), key);
  }

  lemma Checked(steps: seq<Step>, key: string, passes: bool) returns (longer: seq<Step>)
    requires Possible(steps)
    ensures Possible(longer)
    ensures Run(longer) == Run(steps).(workers := Run(steps).workers + [Worker(key, if passes then Claiming else Finished(Refused), false)])
  {
    Extend(steps, Start(key));
    longer := steps + [Start(key)];
    Extend(longer, Check(|Run(steps).workers|, passes));
    longer := longer + [Check(|Run(steps).workers|, passes)];
  }
}
