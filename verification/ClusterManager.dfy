/**
 The dynamic multi-cluster manager: controllers that are started at any time and clusters that are
 engaged at any time must meet. Every critical section of the two read-write locks is a state of the
 thread that runs it; any interleaving of threads is a run.
 */
module ClusterManager {

  type Controller = nat
  type ClusterName = string
  type Engagement = nat
  type Thread = nat

  /** Where a thread is. StartController, controller exit, Engage and cluster removal, in that order. */
  datatype At =
    | StartWaiting(c: Controller)
    | StartHolding(c: Controller)
    | StartSeeding(c: Controller, left: set<ClusterName>)
    | StartLeaving(c: Controller)
    | ExitWaiting(c: Controller)
    | ExitHolding(c: Controller)
    | EngageChecking(n: ClusterName, e: Engagement)
    | EngageWaiting(n: ClusterName, e: Engagement)
    | EngageHolding(n: ClusterName, e: Engagement)
    | ForwardWaiting(n: ClusterName, e: Engagement)
    | Forwarding(n: ClusterName, e: Engagement, todo: set<Controller>)
    | RemoveWaiting(n: ClusterName, e: Engagement)
    | RemoveHolding(n: ClusterName, e: Engagement)

  /**
   `engaged` records the Engage calls controllers have received; `alive` are the engagements whose
   context is not done, `watchers` those whose removal a goroutine is waiting for.
   */
  datatype Manager = Manager(
    runnables: set<Controller>,
    clusters: map<ClusterName, Engagement>,
    engaged: set<(Controller, Engagement)>,
    alive: set<(ClusterName, Engagement)>,
    watchers: set<(ClusterName, Engagement)>,
    threads: map<Thread, At>)

  // ---------------------------------------------------------------- locks

  predicate HoldsRunWrite(a: At) {
    a.StartHolding? || a.StartSeeding? || a.StartLeaving? || a.ExitHolding?
  }

  predicate HoldsRunRead(a: At) {
    a.Forwarding?
  }

  predicate HoldsTrackWrite(a: At) {
    a.EngageHolding? || a.RemoveHolding?
  }

  predicate HoldsTrackRead(a: At) {
    a.StartSeeding?
  }

  predicate WaitsRunWrite(a: At) {
    a.StartWaiting? || a.ExitWaiting?
  }

  predicate WaitsTrackWrite(a: At) {
    a.EngageWaiting? || a.RemoveWaiting?
  }

  predicate NoRunWriter(m: Manager) {
    forall t | t in m.threads :: !HoldsRunWrite(m.threads[t])
  }

  predicate RunFree(m: Manager) {
    forall t | t in m.threads :: !HoldsRunWrite(m.threads[t]) && !HoldsRunRead(m.threads[t])
  }

  predicate NoTrackWriter(m: Manager) {
    forall t | t in m.threads :: !HoldsTrackWrite(m.threads[t])
  }

  predicate TrackFree(m: Manager) {
    forall t | t in m.threads :: !HoldsTrackWrite(m.threads[t]) && !HoldsTrackRead(m.threads[t])
  }

  // ---------------------------------------------------------------- steps

  datatype Step =
    | CallStart(t: Thread, c: Controller)
    | Exits(t: Thread, c: Controller)
    | CallEngage(t: Thread, n: ClusterName, e: Engagement)
    | ContextDone(n: ClusterName, e: Engagement)
    | Fire(t: Thread, n: ClusterName, e: Engagement)
    | Advance(t: Thread)
    | SeedOne(t: Thread, n: ClusterName)
    | ForwardOne(t: Thread, c: Controller)

  /** A lock is taken only when no conflicting holder is left; readers may pass waiting writers. */
  predicate CanAdvance(m: Manager, a: At) {
    match a
    case StartWaiting(_) => RunFree(m)
    case StartHolding(_) => NoTrackWriter(m)
    case StartSeeding(_, left) => left == {}
    case StartLeaving(_) => true
    case ExitWaiting(_) => RunFree(m)
    case ExitHolding(_) => true
    case EngageChecking(_, _) => true
    case EngageWaiting(_, _) => TrackFree(m)
    case EngageHolding(_, _) => true
    case ForwardWaiting(_, _) => NoRunWriter(m)
    case Forwarding(_, _, todo) => todo == {}
    case RemoveWaiting(_, _) => TrackFree(m)
    case RemoveHolding(_, _) => true
  }

  predicate CanStep(m: Manager, s: Step) {
    match s
    case CallStart(t, _) => t !in m.threads
    case Exits(t, c) => t !in m.threads && c in m.runnables
    case CallEngage(t, _, _) => t !in m.threads
    case ContextDone(n, e) => (n, e) in m.alive
    case Fire(t, n, e) => t !in m.threads && (n, e) in m.watchers && (n, e) !in m.alive
    case Advance(t) => t in m.threads && CanAdvance(m, m.threads[t])
    case SeedOne(t, n) => t in m.threads && m.threads[t].StartSeeding? && n in m.threads[t].left && n in m.clusters
    case ForwardOne(t, c) => t in m.threads && m.threads[t].Forwarding? && c in m.threads[t].todo
  }

  function Move(m: Manager, t: Thread, a: At): Manager {
    m.(threads := m.threads[t := a])
  }

  function Finish(m: Manager, t: Thread): Manager {
    m.(threads := m.threads - {t})
  }

  function Advanced(m: Manager, t: Thread, a: At): Manager {
    match a
    case StartWaiting(c) => Move(m.(runnables := m.runnables + {c}), t, StartHolding(c))
    case StartHolding(c) => Move(m, t, StartSeeding(c, m.clusters.Keys))
    case StartSeeding(c, _) => Move(m, t, StartLeaving(c))
    case StartLeaving(c) => Finish(m, t)
    case ExitWaiting(c) => Move(m, t, ExitHolding(c))
    case ExitHolding(c) => Finish(m.(runnables := m.runnables - {c}), t)
    case EngageChecking(n, e) => Move(m, t, if n in m.clusters then ForwardWaiting(n, e) else EngageWaiting(n, e))
    case EngageWaiting(n, e) => Move(m, t, EngageHolding(n, e))
    case EngageHolding(n, e) =>
      Move(m.(clusters := m.clusters[n := e], watchers := m.watchers + {(n, e)}), t, ForwardWaiting(n, e))
    case ForwardWaiting(n, e) => Move(m, t, Forwarding(n, e, m.runnables))
    case Forwarding(n, e, _) => Finish(m, t)
    case RemoveWaiting(n, e) => Move(m, t, RemoveHolding(n, e))
    case RemoveHolding(n, e) => Finish(m.(clusters := m.clusters - {n}), t)
  }

  function After(m: Manager, s: Step): Manager
    requires CanStep(m, s)
  {
    match s
    case CallStart(t, c) => Move(m, t, StartWaiting(c))
    case Exits(t, c) => Move(m, t, ExitWaiting(c))
    case CallEngage(t, n, e) => Move(m.(alive := m.alive + {(n, e)}), t, EngageChecking(n, e))
    case ContextDone(n, e) => m.(alive := m.alive - {(n, e)})
    case Fire(t, n, e) => Move(m.(watchers := m.watchers - {(n, e)}), t, RemoveWaiting(n, e))
    case Advance(t) => Advanced(m, t, m.threads[t])
    case SeedOne(t, n) =>
      var a := m.threads[t];
      Move(m.(engaged := m.engaged + {(a.c, m.clusters[n])}), t, StartSeeding(a.c, a.left - {n}))
    case ForwardOne(t, c) =>
      var a := m.threads[t];
      Move(m.(engaged := m.engaged + {(c, a.e)}), t, Forwarding(a.n, a.e, a.todo - {c}))
  }

  const EMPTY := Manager({}, map[], {}, {}, {}, map[])

  // ---------------------------------------------------------------- coverage

  predicate Clash(a: At, b: At) {
    || (HoldsRunWrite(a) && (HoldsRunWrite(b) || HoldsRunRead(b)))
    || (HoldsRunRead(a) && HoldsRunWrite(b))
    || (HoldsTrackWrite(a) && (HoldsTrackWrite(b) || HoldsTrackRead(b)))
    || (HoldsTrackRead(a) && HoldsTrackWrite(b))
  }

  predicate LocksOk(m: Manager) {
    forall t, u | t in m.threads && u in m.threads && t != u :: !Clash(m.threads[t], m.threads[u])
  }

  /** What a thread in a critical section works on cannot have changed under it. */
  predicate WorkOk(m: Manager) {
    forall t | t in m.threads ::
      && (m.threads[t].StartHolding? ==> m.threads[t].c in m.runnables)
      && (m.threads[t].StartSeeding? ==> m.threads[t].c in m.runnables && m.threads[t].left <= m.clusters.Keys)
  }

  /** The thread is still going to engage controller c with the cluster called n. */
  predicate WillEngage(a: At, c: Controller, n: ClusterName, e: Engagement) {
    || (a.StartHolding? && a.c == c)
    || (a.StartSeeding? && a.c == c && n in a.left)
    || (a.ForwardWaiting? && a.e == e)
    || (a.Forwarding? && a.e == e && c in a.todo)
  }

  /** The controller has been engaged with the cluster, or some thread is about to do it. */
  predicate Covered(m: Manager, c: Controller, n: ClusterName)
    requires n in m.clusters
  {
    || (c, m.clusters[n]) in m.engaged
    || exists t | t in m.threads :: WillEngage(m.threads[t], c, n, m.clusters[n])
  }

  predicate Coverage(m: Manager) {
    forall c, n | c in m.runnables && n in m.clusters :: Covered(m, c, n)
  }

  predicate Inv(m: Manager) {
    LocksOk(m) && WorkOk(m) && Coverage(m)
  }

  /** Taking a lock is only possible where no other thread's hold on it clashes. */
  lemma AcquireClashFree(m: Manager, s: Step, u: Thread)
    requires LocksOk(m) && CanStep(m, s) && !s.ContextDone?
    requires u in m.threads && u != s.t && s.t in After(m, s).threads
    ensures !Clash(After(m, s).threads[s.t], m.threads[u])
    ensures !Clash(m.threads[u], After(m, s).threads[s.t])
  {
    if s.t in m.threads {
      assert !Clash(m.threads[s.t], m.threads[u]);
    }
  }

  lemma LocksKept(m: Manager, s: Step)
    requires LocksOk(m) && CanStep(m, s)
    ensures LocksOk(After(m, s))
  {
    var m' := After(m, s);
    forall t, u | t in m'.threads && u in m'.threads && t != u
      ensures !Clash(m'.threads[t], m'.threads[u])
    {
      if !s.ContextDone? && t == s.t {
        AcquireClashFree(m, s, u);
      } else if !s.ContextDone? && u == s.t {
        AcquireClashFree(m, s, t);
      } else {
        assert m'.threads[t] == m.threads[t] && m'.threads[u] == m.threads[u];
      }
    }
  }

  lemma WorkKept(m: Manager, s: Step)
    requires LocksOk(m) && WorkOk(m) && CanStep(m, s)
    ensures WorkOk(After(m, s))
  {
  }

  /** A pair that was covered stays covered, or is a new pair that the step itself takes care of. */
  lemma CoverageKept(m: Manager, s: Step, c: Controller, n: ClusterName)
    requires Inv(m) && CanStep(m, s)
    requires c in After(m, s).runnables && n in After(m, s).clusters
    ensures Covered(After(m, s), c, n)
  {
    var m' := After(m, s);
    var e := m'.clusters[n];
    if c in m.runnables && n in m.clusters && m.clusters[n] == e {
      if (c, e) !in m.engaged {
        var t :| t in m.threads && WillEngage(m.threads[t], c, n, e);
        if (c, e) !in m'.engaged {
          assert t in m'.threads && WillEngage(m'.threads[t], c, n, e);
        }
      }
    } else {
      assert s.Advance?;
      assert WillEngage(m'.threads[s.t], c, n, e);
    }
  }

  lemma StepKeepsInv(m: Manager, s: Step)
    requires Inv(m) && CanStep(m, s)
    ensures Inv(After(m, s))
  {
    LocksKept(m, s);
    WorkKept(m, s);
    forall c, n | c in After(m, s).runnables && n in After(m, s).clusters
      ensures Covered(After(m, s), c, n)
    {
      CoverageKept(m, s, c, n);
    }
  }

  // ---------------------------------------------------------------- runs

  ghost predicate IsRun(run: seq<Manager>, steps: seq<Step>) {
    && |run| == |steps| + 1
    && run[0] == EMPTY
    && forall i | 0 <= i < |steps| :: CanStep(run[i], steps[i]) && run[i + 1] == After(run[i], steps[i])
  }

  lemma {:induction false} InvInRuns(run: seq<Manager>, steps: seq<Step>, i: nat)
    requires IsRun(run, steps) && i < |run|
    ensures Inv(run[i])
  {
    if i > 0 {
      InvInRuns(run, steps, i - 1);
      StepKeepsInv(run[i - 1], steps[i - 1]);
    }
  }

  /** Whenever no call is in flight, every registered controller has met every tracked cluster. */
  lemma EngagementCoverage(run: seq<Manager>, steps: seq<Step>, i: nat, c: Controller, n: ClusterName)
    requires IsRun(run, steps) && i < |run|
    requires run[i].threads == map[]
    requires c in run[i].runnables && n in run[i].clusters
    ensures (c, run[i].clusters[n]) in run[i].engaged
  {
    InvInRuns(run, steps, i);
    assert Covered(run[i], c, n);
  }

  // ---------------------------------------------------------------- deadlock freedom

  /** The strictest reading of a read-write lock: a reader also waits for every waiting writer. */
  predicate CanAdvanceFairly(m: Manager, a: At) {
    && CanAdvance(m, a)
    && (a.StartHolding? ==> forall t | t in m.threads :: !WaitsTrackWrite(m.threads[t]))
    && (a.ForwardWaiting? ==> forall t | t in m.threads :: !WaitsRunWrite(m.threads[t]))
  }

  predicate CanMove(m: Manager, t: Thread) {
    && t in m.threads
    && (|| CanAdvanceFairly(m, m.threads[t])
        || (m.threads[t].StartSeeding? && m.threads[t].left * m.clusters.Keys != {})
        || (m.threads[t].Forwarding? && m.threads[t].todo != {}))
  }

  predicate OnTracker(a: At) {
    HoldsTrackWrite(a) || HoldsTrackRead(a) || WaitsTrackWrite(a) || a.StartHolding?
  }

  /** Whoever holds or waits for the tracker's lock: one of them can go on. */
  lemma TrackerMoves(m: Manager, t: Thread)
    requires Inv(m) && t in m.threads && OnTracker(m.threads[t])
    ensures exists u :: CanMove(m, u)
  {
    if u :| u in m.threads && (HoldsTrackWrite(m.threads[u]) || HoldsTrackRead(m.threads[u])) {
      if m.threads[u].StartSeeding? && m.threads[u].left != {} {
        var n :| n in m.threads[u].left;
        assert n in m.threads[u].left * m.clusters.Keys;
      }
      assert CanMove(m, u);
    } else if u :| u in m.threads && WaitsTrackWrite(m.threads[u]) {
      assert TrackFree(m);
      assert CanMove(m, u);
    } else {
      assert CanMove(m, t);
    }
  }

  /** With nobody at the tracker, whoever holds or waits for the runnables' lock can go on. */
  lemma RunnablesMove(m: Manager, t: Thread)
    requires Inv(m) && t in m.threads
    requires forall u | u in m.threads :: !OnTracker(m.threads[u])
    ensures exists u :: CanMove(m, u)
  {
    if u :| u in m.threads && (HoldsRunWrite(m.threads[u]) || HoldsRunRead(m.threads[u])) {
      assert CanMove(m, u);
    } else if u :| u in m.threads && WaitsRunWrite(m.threads[u]) {
      assert RunFree(m);
      assert CanMove(m, u);
    } else {
      assert CanMove(m, t);
    }
  }

  /** The two locks never form a wait cycle: while a call is in flight, some thread can go on. */
  lemma NoDeadlock(run: seq<Manager>, steps: seq<Step>, i: nat)
    requires IsRun(run, steps) && i < |run|
    requires run[i].threads != map[]
    ensures exists t :: CanMove(run[i], t)
  {
    InvInRuns(run, steps, i);
    var m := run[i];
    if t :| t in m.threads && OnTracker(m.threads[t]) {
      TrackerMoves(m, t);
    } else {
      var t :| t in m.threads;
      RunnablesMove(m, t);
    }
  }

  /** The step continues the call that the thread is running. */
  predicate Continues(s: Step, t: Thread) {
    (s.Advance? || s.SeedOne? || s.ForwardOne?) && s.t == t
  }

  /** A thread that can move has a step of its own to take. */
  lemma MoveIsStep(m: Manager, t: Thread)
    requires CanMove(m, t)
    ensures exists s :: CanStep(m, s) && Continues(s, t)
  {
    var a := m.threads[t];
    if CanAdvance(m, a) {
      assert CanStep(m, Advance(t)) && Continues(Advance(t), t);
    } else if a.StartSeeding? {
      var n :| n in a.left * m.clusters.Keys;
      assert CanStep(m, SeedOne(t, n)) && Continues(SeedOne(t, n), t);
    } else {
      var c :| c in a.todo;
      assert CanStep(m, ForwardOne(t, c)) && Continues(ForwardOne(t, c), t);
    }
  }

  // ---------------------------------------------------------------- live clusters stay tracked

  predicate Names(a: At, n: ClusterName) {
    && (a.EngageChecking? || a.EngageWaiting? || a.EngageHolding? || a.ForwardWaiting? || a.Forwarding?
        || a.RemoveWaiting? || a.RemoveHolding?)
    && a.n == n
  }

  /** Nothing is left of an earlier engagement of the name. */
  predicate NameFree(m: Manager, n: ClusterName) {
    && n !in m.clusters
    && (forall p | p in m.alive + m.watchers :: p.0 != n)
    && (forall t | t in m.threads :: !Names(m.threads[t], n))
  }

  /** The provider engages a name again only after its removal. */
  predicate Reengages(m: Manager, s: Step) {
    s.CallEngage? ==> NameFree(m, s.n)
  }

  predicate InPlay(m: Manager, n: ClusterName, e: Engagement) {
    || (n, e) in m.alive
    || (n, e) in m.watchers
    || (n in m.clusters && m.clusters[n] == e)
    || exists t | t in m.threads :: Names(m.threads[t], n) && m.threads[t].e == e
  }

  /** A name has one engagement at a time. */
  ghost predicate OneAtATime(m: Manager) {
    forall n, e, e' | InPlay(m, n, e) && InPlay(m, n, e') :: e == e'
  }

  predicate Inserting(a: At, n: ClusterName) {
    (a.EngageChecking? || a.EngageWaiting? || a.EngageHolding?) && a.n == n
  }

  predicate Removing(a: At, n: ClusterName) {
    (a.RemoveWaiting? || a.RemoveHolding?) && a.n == n
  }

  /** A live engagement is tracked, or its Engage call has not come to tracking it yet. */
  predicate Tracked(m: Manager, n: ClusterName, e: Engagement) {
    || (n in m.clusters && m.clusters[n] == e)
    || exists t | t in m.threads :: Inserting(m.threads[t], n)
  }

  /** A name that is about to be tracked is not tracked, watched or being removed. */
  predicate InsertsAlone(m: Manager, t: Thread)
    requires t in m.threads
  {
    var a := m.threads[t];
    a.EngageChecking? || a.EngageWaiting? || a.EngageHolding? ==>
      && a.n !in m.clusters
      && (forall p | p in m.watchers :: p.0 != a.n)
      && (forall u | u in m.threads && u != t :: !Inserting(m.threads[u], a.n) && !Removing(m.threads[u], a.n))
  }

  predicate RemovesDead(m: Manager, t: Thread)
    requires t in m.threads
  {
    var a := m.threads[t];
    a.RemoveWaiting? || a.RemoveHolding? ==> forall p | p in m.alive :: p.0 != a.n
  }

  ghost predicate LiveInv(m: Manager) {
    && OneAtATime(m)
    && (forall t | t in m.threads :: InsertsAlone(m, t) && RemovesDead(m, t))
    && (forall p | p in m.alive :: Tracked(m, p.0, p.1))
  }

  lemma InPlayGrows(m: Manager, s: Step, n: ClusterName, e: Engagement)
    requires CanStep(m, s) && InPlay(After(m, s), n, e)
    ensures InPlay(m, n, e) || (s.CallEngage? && s.n == n && s.e == e)
  {
    var m' := After(m, s);
    if !((n, e) in m.alive || (n, e) in m.watchers || (n in m.clusters && m.clusters[n] == e)) {
      if t :| t in m'.threads && Names(m'.threads[t], n) && m'.threads[t].e == e {
        if !(s.CallEngage? && s.n == n && s.e == e) {
          assert t in m.threads && Names(m.threads[t], n) && m.threads[t].e == e;
        }
      } else {
        if !s.CallEngage? {
          assert Names(m.threads[s.t], n) && m.threads[s.t].e == e;
        }
      }
    }
  }

  lemma FreeNotInPlay(m: Manager, n: ClusterName, e: Engagement)
    requires NameFree(m, n)
    ensures !InPlay(m, n, e)
  {
    assert (n, e) in m.alive || (n, e) in m.watchers ==> (n, e) in m.alive + m.watchers;
  }

  lemma OneAtATimeKept(m: Manager, s: Step)
    requires OneAtATime(m) && CanStep(m, s) && Reengages(m, s)
    ensures OneAtATime(After(m, s))
  {
    forall n, e, e' | InPlay(After(m, s), n, e) && InPlay(After(m, s), n, e')
      ensures e == e'
    {
      InPlayGrows(m, s, n, e);
      InPlayGrows(m, s, n, e');
      if s.CallEngage? && s.n == n {
        FreeNotInPlay(m, n, e);
        FreeNotInPlay(m, n, e');
      }
    }
  }

  predicate IsInserting(a: At) {
    a.EngageChecking? || a.EngageWaiting? || a.EngageHolding?
  }

  /** The acting thread does not come to insert or remove a name that another thread is about to track. */
  lemma ActorApart(m: Manager, s: Step, t: Thread)
    requires LiveInv(m) && CanStep(m, s) && Reengages(m, s) && !s.ContextDone? && s.t != t
    requires t in m.threads && IsInserting(m.threads[t]) && s.t in After(m, s).threads
    ensures !Inserting(After(m, s).threads[s.t], m.threads[t].n) && !Removing(After(m, s).threads[s.t], m.threads[t].n)
  {
    assert InsertsAlone(m, t);
    if s.CallEngage? {
      assert !Names(m.threads[t], s.n);
    }
  }

  /** Nor does its step track or watch that name. */
  lemma NameStaysOut(m: Manager, s: Step, t: Thread)
    requires LiveInv(m) && CanStep(m, s) && (s.ContextDone? || s.t != t)
    requires t in m.threads && IsInserting(m.threads[t])
    ensures m.threads[t].n !in After(m, s).clusters
    ensures forall p | p in After(m, s).watchers :: p.0 != m.threads[t].n
  {
    assert InsertsAlone(m, t);
    if s.Advance? {
      assert InsertsAlone(m, s.t);
    }
  }

  /** A thread that waits to track its name is not disturbed by other threads' steps. */
  lemma InsertsAloneBystander(m: Manager, s: Step, t: Thread)
    requires LiveInv(m) && CanStep(m, s) && Reengages(m, s)
    requires t in m.threads && t in After(m, s).threads && (s.ContextDone? || s.t != t)
    ensures InsertsAlone(After(m, s), t)
  {
    if IsInserting(m.threads[t]) {
      assert InsertsAlone(m, t);
      NameStaysOut(m, s, t);
      if !s.ContextDone? && s.t in After(m, s).threads {
        ActorApart(m, s, t);
      }
    }
  }

  lemma InsertsAloneActor(m: Manager, s: Step)
    requires LiveInv(m) && CanStep(m, s) && Reengages(m, s) && !s.ContextDone?
    requires s.t in After(m, s).threads
    ensures InsertsAlone(After(m, s), s.t)
  {
    if s.t in m.threads {
      assert InsertsAlone(m, s.t);
    }
  }

  lemma InsertsAloneKept(m: Manager, s: Step, t: Thread)
    requires LiveInv(m) && CanStep(m, s) && Reengages(m, s)
    requires t in After(m, s).threads
    ensures InsertsAlone(After(m, s), t)
  {
    if !s.ContextDone? && s.t == t {
      InsertsAloneActor(m, s);
    } else {
      InsertsAloneBystander(m, s, t);
    }
  }

  lemma RemovesDeadKept(m: Manager, s: Step, t: Thread)
    requires LiveInv(m) && CanStep(m, s) && Reengages(m, s)
    requires t in After(m, s).threads
    ensures RemovesDead(After(m, s), t)
  {
    var m' := After(m, s);
    var a := m'.threads[t];
    if a.RemoveWaiting? || a.RemoveHolding? {
      forall p | p in m'.alive
        ensures p.0 != a.n
      {
        if s.Fire? && s.t == t {
          if p.0 == a.n {
            assert InPlay(m, p.0, p.1) && InPlay(m, s.n, s.e);
          }
        } else {
          assert t in m.threads && RemovesDead(m, t);
          if s.CallEngage? {
            assert !Names(m.threads[t], s.n);
          }
        }
      }
    }
  }

  lemma TrackedKept(m: Manager, s: Step, n: ClusterName, e: Engagement)
    requires LiveInv(m) && CanStep(m, s) && Reengages(m, s)
    requires (n, e) in After(m, s).alive
    ensures Tracked(After(m, s), n, e)
  {
    var m' := After(m, s);
    if s.CallEngage? && s.n == n && s.e == e {
      assert Inserting(m'.threads[s.t], n);
    } else {
      assert (n, e) in m.alive && Tracked(m, n, e);
      if n in m.clusters && m.clusters[n] == e {
        if s.Advance? {
          assert RemovesDead(m, s.t) && InsertsAlone(m, s.t);
        }
      } else {
        var t :| t in m.threads && Inserting(m.threads[t], n);
        if s.Advance? && s.t == t {
          assert InsertsAlone(m, t);
          assert InPlay(m, n, e) && InPlay(m, n, m.threads[t].e) by {
            assert Names(m.threads[t], n);
          }
          assert Inserting(m'.threads[t], n) || m'.clusters[n] == e;
        } else {
          assert Inserting(m'.threads[t], n);
        }
      }
    }
  }

  lemma StepKeepsLiveInv(m: Manager, s: Step)
    requires LiveInv(m) && CanStep(m, s) && Reengages(m, s)
    ensures LiveInv(After(m, s))
  {
    OneAtATimeKept(m, s);
    forall t | t in After(m, s).threads
      ensures InsertsAlone(After(m, s), t) && RemovesDead(After(m, s), t)
    {
      InsertsAloneKept(m, s, t);
      RemovesDeadKept(m, s, t);
    }
    forall p | p in After(m, s).alive
      ensures Tracked(After(m, s), p.0, p.1)
    {
      TrackedKept(m, s, p.0, p.1);
    }
  }

  lemma {:induction false} LiveInvInRuns(run: seq<Manager>, steps: seq<Step>, i: nat)
    requires IsRun(run, steps) && i < |run|
    requires forall j | 0 <= j < |steps| :: Reengages(run[j], steps[j])
    ensures LiveInv(run[i])
  {
    if i > 0 {
      LiveInvInRuns(run, steps, i - 1);
      StepKeepsLiveInv(run[i - 1], steps[i - 1]);
    }
  }

  /**
   When names are engaged again only after their removal, every registered controller has met every
   live cluster whenever no call is in flight.
   */
  lemma LiveClustersCovered(run: seq<Manager>, steps: seq<Step>, i: nat, c: Controller, n: ClusterName, e: Engagement)
    requires IsRun(run, steps) && i < |run|
    requires forall j | 0 <= j < |steps| :: Reengages(run[j], steps[j])
    requires run[i].threads == map[]
    requires c in run[i].runnables && (n, e) in run[i].alive
    ensures (c, e) in run[i].engaged
  {
    LiveInvInRuns(run, steps, i);
    assert Tracked(run[i], n, e);
    EngagementCoverage(run, steps, i, c, n);
  }

  // ---------------------------------------------------------------- dead clusters are forgotten

  /** Every tracked cluster has a goroutine that waits for its end, or one that is removing it. */
  predicate Watched(m: Manager) {
    forall n | n in m.clusters ::
      (n, m.clusters[n]) in m.watchers || exists t | t in m.threads :: Removing(m.threads[t], n)
  }

  lemma StepKeepsWatched(m: Manager, s: Step)
    requires Watched(m) && CanStep(m, s)
    ensures Watched(After(m, s))
  {
    var m' := After(m, s);
    forall n | n in m'.clusters
      ensures (n, m'.clusters[n]) in m'.watchers || exists t | t in m'.threads :: Removing(m'.threads[t], n)
    {
      if (n, m'.clusters[n]) !in m'.watchers {
        if s.Fire? && s.n == n && (n, m.clusters[n]) in m.watchers {
          assert Removing(m'.threads[s.t], n);
        } else {
          var t :| t in m.threads && Removing(m.threads[t], n);
          assert Removing(m'.threads[t], n);
        }
      }
    }
  }

  lemma {:induction false} WatchedInRuns(run: seq<Manager>, steps: seq<Step>, i: nat)
    requires IsRun(run, steps) && i < |run|
    ensures Watched(run[i])
  {
    if i > 0 {
      WatchedInRuns(run, steps, i - 1);
      StepKeepsWatched(run[i - 1], steps[i - 1]);
    }
  }

  /** With no call in flight and no removal due, only live clusters are tracked. */
  lemma DeadClustersForgotten(run: seq<Manager>, steps: seq<Step>, i: nat, n: ClusterName)
    requires IsRun(run, steps) && i < |run|
    requires run[i].threads == map[] && forall p | p in run[i].watchers :: p in run[i].alive
    requires n in run[i].clusters
    ensures (n, run[i].clusters[n]) in run[i].alive
  {
    WatchedInRuns(run, steps, i);
  }

  // ---------------------------------------------------------------- a name engaged again too early

  ghost predicate Leads(m: Manager, steps: seq<Step>, m': Manager)
    decreases |steps|
  {
    if steps == [] then m == m'
    else CanStep(m, steps[0]) && Leads(After(m, steps[0]), steps[1..], m')
  }

  lemma {:induction false} LeadsFurther(m: Manager, steps: seq<Step>, m': Manager, s: Step)
    requires Leads(m, steps, m') && CanStep(m', s)
    ensures Leads(m, steps + [s], After(m', s))
    decreases |steps|
  {
    if steps == [] {
      assert (steps + [s])[1..] == [];
    } else {
      LeadsFurther(After(m, steps[0]), steps[1..], m', s);
      assert (steps + [s])[1..] == steps[1..] + [s];
    }
  }

  function Told(todo: set<Controller>, e: Engagement): set<(Controller, Engagement)> {
    set c | c in todo :: (c, e)
  }

  /** Forwarding finishes: every controller it still has to tell is told, and nothing else changes. */
  lemma {:induction false} ForwardingEnds(m: Manager, t: Thread)
    requires t in m.threads && m.threads[t].Forwarding?
    ensures exists steps :: Leads(m, steps, Finish(m, t).(engaged := m.engaged + Told(m.threads[t].todo, m.threads[t].e)))
    decreases if t in m.threads && m.threads[t].Forwarding? then m.threads[t].todo else {}
  {
    var a := m.threads[t];
    var end := Finish(m, t).(engaged := m.engaged + Told(a.todo, a.e));
    if a.todo == {} {
      assert m.engaged + Told({}, a.e) == m.engaged;
      assert Leads(m, [Advance(t)], end);
    } else {
      var c :| c in a.todo;
      var s := ForwardOne(t, c);
      var m1 := After(m, s);
      ForwardingEnds(m1, t);
      assert m1.threads - {t} == m.threads - {t};
      assert m1.engaged + Told(a.todo - {c}, a.e) == m.engaged + Told(a.todo, a.e);
      var steps :| Leads(m1, steps, end);
      assert ([s] + steps)[1..] == steps;
      assert Leads(m, [s] + steps, end);
    }
  }

  lemma {:induction false} LeadsOn(m: Manager, first: seq<Step>, m1: Manager, second: seq<Step>, m2: Manager)
    requires Leads(m, first, m1) && Leads(m1, second, m2)
    ensures Leads(m, first + second, m2)
    decreases |first|
  {
    if first == [] {
      assert first + second == second;
    } else {
      LeadsOn(After(m, first[0]), first[1..], m1, second, m2);
      assert (first + second)[1..] == first[1..] + second;
    }
  }

  lemma {:induction false} WatchedLeads(m: Manager, steps: seq<Step>, m': Manager)
    requires Watched(m) && Leads(m, steps, m')
    ensures Watched(m')
    decreases |steps|
  {
    if steps != [] {
      StepKeepsWatched(m, steps[0]);
      WatchedLeads(After(m, steps[0]), steps[1..], m');
    }
  }

  /** A name is engaged while it is tracked already: the call only tells the controllers. */
  lemma SecondEngagementEnds(m: Manager, n: ClusterName, e: Engagement)
    requires m.threads == map[] && n in m.clusters
    ensures exists steps :: Leads(m, steps, m.(alive := m.alive + {(n, e)}, engaged := m.engaged + Told(m.runnables, e)))
  {
    var m1 := After(m, CallEngage(0, n, e));
    var m2 := After(m1, Advance(0));
    assert m2.threads[0] == ForwardWaiting(n, e);
    var m3 := After(m2, Advance(0));
    LeadsFurther(m, [], m, CallEngage(0, n, e));
    LeadsFurther(m, [] + [CallEngage(0, n, e)], m1, Advance(0));
    LeadsFurther(m, [] + [CallEngage(0, n, e)] + [Advance(0)], m2, Advance(0));
    ForwardingEnds(m3, 0);
    var end := m.(alive := m.alive + {(n, e)}, engaged := m.engaged + Told(m.runnables, e));
    assert Finish(m3, 0).(engaged := m3.engaged + Told(m3.threads[0].todo, m3.threads[0].e)) == end;
    var rest :| Leads(m3, rest, end);
    LeadsOn(m, [] + [CallEngage(0, n, e)] + [Advance(0)] + [Advance(0)], m3, rest, end);
  }

  /** A watched engagement ends, if it has not already, and its name is removed. */
  lemma RemovalEnds(m: Manager, n: ClusterName, e: Engagement)
    requires m.threads == map[] && (n, e) in m.watchers
    ensures exists steps ::
      Leads(m, steps, m.(alive := m.alive - {(n, e)}, watchers := m.watchers - {(n, e)}, clusters := m.clusters - {n}))
  {
    var first := if (n, e) in m.alive then [ContextDone(n, e)] else [];
    var m1 := m.(alive := m.alive - {(n, e)});
    assert Leads(m, first, m1) by {
      if (n, e) in m.alive {
        assert [ContextDone(n, e)][1..] == [];
        assert After(m, ContextDone(n, e)) == m1;
      } else {
        assert m.alive - {(n, e)} == m.alive;
      }
    }
    var m2 := After(m1, Fire(0, n, e));
    var m3 := After(m2, Advance(0));
    var m4 := After(m3, Advance(0));
    LeadsFurther(m, first, m1, Fire(0, n, e));
    LeadsFurther(m, first + [Fire(0, n, e)], m2, Advance(0));
    LeadsFurther(m, first + [Fire(0, n, e)] + [Advance(0)], m3, Advance(0));
    assert m4 == m.(alive := m.alive - {(n, e)}, watchers := m.watchers - {(n, e)}, clusters := m.clusters - {n});
  }

  /** The machine after the name has been engaged a second time and its first entry has gone. */
  function Overtaken(m: Manager, n: ClusterName, e: Engagement): Manager
    requires n in m.clusters
  {
    var first := (n, m.clusters[n]);
    m.(alive := m.alive + {(n, e)} - {first}, engaged := m.engaged + Told(m.runnables, e),
    watchers := m.watchers - {first}, clusters := m.clusters - {n})
  }

  /**
   From every reachable state: a name engaged again while its old entry is still there is told to the
   controllers of the moment, but never tracked; once the old entry goes, the live cluster is lost to
   every later controller.
   */
  lemma EarlyReengagementIsLost(reach: seq<Step>, m: Manager, n: ClusterName, e: Engagement)
    requires Leads(EMPTY, reach, m) && m.threads == map[]
    requires n in m.clusters && m.clusters[n] != e
    ensures exists steps :: Leads(m, steps, Overtaken(m, n, e))
    ensures var m' := Overtaken(m, n, e);
            m'.threads == map[] && (n, e) in m'.alive && n !in m'.clusters
  {
    WatchedLeads(EMPTY, reach, m);
    var e0 := m.clusters[n];
    assert (n, e0) in m.watchers;
    SecondEngagementEnds(m, n, e);
    var m1 := m.(alive := m.alive + {(n, e)}, engaged := m.engaged + Told(m.runnables, e));
    var first :| Leads(m, first, m1);
    RemovalEnds(m1, n, e0);
    var m2 := m1.(alive := m1.alive - {(n, e0)}, watchers := m1.watchers - {(n, e0)}, clusters := m1.clusters - {n});
    var second :| Leads(m1, second, m2);
    LeadsOn(m, first, m1, second, m2);
    assert m2 == Overtaken(m, n, e);
  }

  // ---- a run from nothing to a controller that never meets a live cluster

  function Tracking(n: ClusterName, e: Engagement): Manager {
    Manager({}, map[n := e], {}, {(n, e)}, {(n, e)}, map[])
  }

  /** The first engagement, with the lock on the map in hand. */
  function Entering(n: ClusterName, e: Engagement): Manager {
    Manager({}, map[], {}, {(n, e)}, {}, map[0 := EngageHolding(n, e)])
  }

  lemma EnteringReachable(n: ClusterName, e: Engagement)
    ensures Leads(EMPTY, [CallEngage(0, n, e), Advance(0), Advance(0)], Entering(n, e))
  {
    var m1 := After(EMPTY, CallEngage(0, n, e));
    var m2 := After(m1, Advance(0));
    var m3 := After(m2, Advance(0));
    LeadsFurther(EMPTY, [], EMPTY, CallEngage(0, n, e));
    LeadsFurther(EMPTY, [CallEngage(0, n, e)], m1, Advance(0));
    LeadsFurther(EMPTY, [CallEngage(0, n, e), Advance(0)], m2, Advance(0));
    assert [CallEngage(0, n, e), Advance(0)] + [Advance(0)] == [CallEngage(0, n, e), Advance(0), Advance(0)];
    assert m3 == Entering(n, e);
  }

  lemma EnteringEnds(n: ClusterName, e: Engagement)
    ensures Leads(Entering(n, e), [Advance(0), Advance(0), Advance(0)], Tracking(n, e))
  {
    var m := Entering(n, e);
    var m1 := After(m, Advance(0));
    var m2 := After(m1, Advance(0));
    assert m2.threads[0].todo == {};
    var m3 := After(m2, Advance(0));
    LeadsFurther(m, [], m, Advance(0));
    LeadsFurther(m, [Advance(0)], m1, Advance(0));
    LeadsFurther(m, [Advance(0), Advance(0)], m2, Advance(0));
    assert [Advance(0), Advance(0)] + [Advance(0)] == [Advance(0), Advance(0), Advance(0)];
    assert m3 == Tracking(n, e);
  }

  lemma TrackingReachable(n: ClusterName, e: Engagement) returns (steps: seq<Step>)
    ensures Leads(EMPTY, steps, Tracking(n, e))
  {
    var first, second := [CallEngage(0, n, e), Advance(0), Advance(0)], [Advance(0), Advance(0), Advance(0)];
    EnteringReachable(n, e);
    EnteringEnds(n, e);
    LeadsOn(EMPTY, first, Entering(n, e), second, Tracking(n, e));
    steps := first + second;
  }

  /** With nothing tracked, a controller starts without meeting any cluster. */
  lemma StartEnds(m: Manager, c: Controller)
    requires m.threads == map[] && m.clusters == map[]
    ensures exists steps :: Leads(m, steps, m.(runnables := m.runnables + {c}))
  {
    var m1 := After(m, CallStart(0, c));
    var m2 := After(m1, Advance(0));
    var m3 := After(m2, Advance(0));
    assert m3.threads[0].left == {};
    var m4 := After(m3, Advance(0));
    var m5 := After(m4, Advance(0));
    var steps := [];
    LeadsFurther(m, steps, m, CallStart(0, c));
    steps := steps + [CallStart(0, c)];
    LeadsFurther(m, steps, m1, Advance(0));
    steps := steps + [Advance(0)];
    LeadsFurther(m, steps, m2, Advance(0));
    steps := steps + [Advance(0)];
    LeadsFurther(m, steps, m3, Advance(0));
    steps := steps + [Advance(0)];
    LeadsFurther(m, steps, m4, Advance(0));
    assert m5 == m.(runnables := m.runnables + {c});
  }

  /** There is a run from nothing after which a registered controller has not met a live cluster, with no call in flight. */
  lemma LostClusterReachable(n: ClusterName, e0: Engagement, e: Engagement, c: Controller)
    requires e != e0
    ensures exists steps, m ::
      && Leads(EMPTY, steps, m) && m.threads == map[]
      && (n, e) in m.alive && c in m.runnables && (c, e) !in m.engaged
  {
    var first := TrackingReachable(n, e0);
    var m1 := Tracking(n, e0);
    EarlyReengagementIsLost(first, m1, n, e);
    var m2 := Overtaken(m1, n, e);
    var second :| Leads(m1, second, m2);
    LeadsOn(EMPTY, first, m1, second, m2);
    assert m2.clusters == map[] && m2.engaged == {};
    StartEnds(m2, c);
    var m3 := m2.(runnables := m2.runnables + {c});
    var third :| Leads(m2, third, m3);
    LeadsOn(EMPTY, first + second, m2, third, m3);
  }
}
