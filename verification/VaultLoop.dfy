/**
 * The token renewal loop (vault/vault.go) together with the goroutine that shuts the program down
 * (cmd/fishymetrics/main.go), as an interleaving of atomic steps. Vault itself, timers and the watcher are the
 * environment: a login may succeed or fail, a token may be non-renewable, a watcher may end at any time.
 */
module VaultLoop {
  /** Where RenewToken, or manageTokenLifecycle called from it, stands. */
  datatype Pc =
    | Starting | Select
    | LoggingIn | LoginFailed | Respawning
    | LoginOk | Added | Managing | Watching | Leaving
    | Returned

  /** The shutdown goroutine; seen is what IsLoggedIn told it. */
  datatype Shutdown = Serving | Checked(seen: bool) | LifecycleSent | Finished(seen: bool)

  datatype Login = Never | Refused | Granted

  /**
   * retry, doneRenew and lifecycle count what the three channels of capacity one hold; waiters counts wait
   * goroutines; count is the contribution to the WaitGroup, the caller's Add(1) included; lastLogin, logins and
   * early are history: the outcome of the latest login, how many succeeded, how many lifecycle calls returned
   * before deferring their Done.
   */
  datatype State = State(
    pc: Pc, shut: Shutdown, retry: nat, waiters: nat, doneRenew: nat, lifecycle: nat, loggedIn: bool, count: int,
    lastLogin: Login, logins: nat, early: nat)

  const INIT := State(Starting, Serving, 0, 0, 0, 0, false, 1, Never, 0, 0)

  datatype Action =
    | Begin | TakeDone | TakeRetry | LoginFails | LoginSucceeds | MarkOut | SpawnWait | AddOne | MarkIn
    | EarlyReturn | StartWatch | TakeLifecycle | WatcherEnds | Renewed | Leave | Wake
    | Check | SendLifecycle | SendDone

  predicate Enabled(s: State, a: Action) {
    match a
    case Begin => s.pc.Starting? && s.retry < 1
    case TakeDone => s.pc.Select? && s.doneRenew > 0
    case TakeRetry => s.pc.Select? && s.retry > 0
    case LoginFails => s.pc.LoggingIn?
    case LoginSucceeds => s.pc.LoggingIn?
    case MarkOut => s.pc.LoginFailed?
    case SpawnWait => s.pc.Respawning?
    case AddOne => s.pc.LoginOk?
    case MarkIn => s.pc.Added?
    case EarlyReturn => s.pc.Managing?
    case StartWatch => s.pc.Managing?
    case TakeLifecycle => s.pc.Watching? && s.lifecycle > 0
    case WatcherEnds => s.pc.Watching?
    case Renewed => s.pc.Watching?
    case Leave => s.pc.Leaving?
    case Wake => s.waiters > 0 && s.retry < 1
    case Check => s.shut.Serving?
    case SendLifecycle => s.shut == Checked(true) && s.lifecycle < 1
    case SendDone => (s.shut == Checked(false) || s.shut.LifecycleSent?) && s.doneRenew < 1
  }

  function Apply(s: State, a: Action): State
    requires Enabled(s, a)
  {
    match a
    case Begin => s.(pc := Select, retry := s.retry + 1)
    case TakeDone => s.(pc := Returned, doneRenew := s.doneRenew - 1, count := s.count - 1)
    case TakeRetry => s.(pc := LoggingIn, retry := s.retry - 1)
    case LoginFails => s.(pc := LoginFailed, lastLogin := Refused)
    case LoginSucceeds => s.(pc := LoginOk, lastLogin := Granted, logins := s.logins + 1)
    case MarkOut => s.(pc := Respawning, loggedIn := false)
    case SpawnWait => s.(pc := Select, waiters := s.waiters + 1)
    case AddOne => s.(pc := Added, count := s.count + 1)
    case MarkIn => s.(pc := Managing, loggedIn := true)
    case EarlyReturn => s.(pc := Select, early := s.early + 1)
    case StartWatch => s.(pc := Watching)
    case TakeLifecycle => s.(pc := Leaving, lifecycle := s.lifecycle - 1)
    case WatcherEnds => s.(pc := Leaving)
    case Renewed => s
    case Leave => s.(pc := Select, count := s.count - 1)
    case Wake => s.(retry := s.retry + 1, waiters := s.waiters - 1)
    case Check => s.(shut := Checked(s.loggedIn))
    case SendLifecycle => s.(shut := LifecycleSent, lifecycle := s.lifecycle + 1)
    case SendDone => s.(shut := Finished(s.shut.LifecycleSent?), doneRenew := s.doneRenew + 1)
  }

  ghost predicate Next(s: State, s': State) {
    exists a :: Enabled(s, a) && s' == Apply(s, a)
  }

  ghost predicate StepAt(run: seq<State>, i: nat)
    requires i < |run| - 1
  {
    Next(run[i], run[i + 1])
  }

  ghost predicate IsRun(run: seq<State>) {
    run != [] && run[0] == INIT && forall i: nat | i < |run| - 1 :: StepAt(run, i)
  }

  function Bit(b: bool): nat {
    if b then 1 else 0
  }

  predicate LoginPending(s: State) {
    s.pc.LoggingIn? || s.pc.LoginFailed? || s.pc.Respawning?
  }

  predicate Manages(s: State) {
    s.pc.LoginOk? || s.pc.Added? || s.pc.Managing? || s.pc.Watching? || s.pc.Leaving?
  }

  /** Retry tokens, wait goroutines, logins under way and lifecycle managers, all together. */
  function Activities(s: State): nat {
    s.retry + s.waiters + (if LoginPending(s) || Manages(s) then 1 else 0)
  }

  /** One baton: it is a retry token, a wait goroutine, a login under way or a lifecycle manager, then gone for good. */
  predicate BatonInv(s: State) {
    && s.logins <= 1
    && (Manages(s) ==> s.logins == 1)
    && (s.logins == 1 ==> s.retry == 0 && s.waiters == 0 && (Manages(s) || s.pc.Select? || s.pc.Returned?))
    && (s.logins == 0 ==> Activities(s) == if s.pc.Starting? then 0 else 1)
  }

  predicate CountInv(s: State) {
    && s.early <= s.logins && (Manages(s) ==> s.early == 0)
    && s.count == s.early + Bit(!s.pc.Returned?) + Bit(Manages(s) && !s.pc.LoginOk?)
  }

  predicate LoginInv(s: State) {
    && (s.lastLogin == Granted <==> s.logins == 1)
    && s.loggedIn == (s.logins == 1 && !s.pc.LoginOk? && !s.pc.Added?)
  }

  /** Shutdown saw the client logged in. */
  predicate SawLogin(s: State) {
    match s.shut
    case Serving => false
    case Checked(seen) => seen
    case LifecycleSent => true
    case Finished(seen) => seen
  }

  predicate ShutInv(s: State) {
    && s.doneRenew == (if s.shut.Finished? && !s.pc.Returned? then 1 else 0)
    && (s.pc.Returned? ==> s.shut.Finished?)
    && s.lifecycle <= 1
    && (SawLogin(s) ==> s.loggedIn)
    && (!SawLogin(s) || s.shut.Checked? ==> s.lifecycle == 0)
    && (SawLogin(s) && !s.shut.Checked? ==> s.lifecycle == 1 || s.pc.Leaving? || s.pc.Select? || s.pc.Returned?)
  }

  ghost predicate Inv(s: State) {
    BatonInv(s) && CountInv(s) && LoginInv(s) && ShutInv(s)
  }

  lemma StepBaton(s: State, a: Action)
    requires BatonInv(s) && Enabled(s, a)
    ensures BatonInv(Apply(s, a))
  {
    match a {
      case TakeRetry =>
      case Wake =>
      case _ =>
    }
  }

  lemma StepCount(s: State, a: Action)
    requires BatonInv(s) && CountInv(s) && Enabled(s, a)
    ensures CountInv(Apply(s, a))
  {
  }

  lemma StepLogin(s: State, a: Action)
    requires BatonInv(s) && LoginInv(s) && Enabled(s, a)
    ensures LoginInv(Apply(s, a))
  {
  }

  lemma StepShut(s: State, a: Action)
    requires BatonInv(s) && LoginInv(s) && ShutInv(s) && Enabled(s, a)
    ensures ShutInv(Apply(s, a))
  {
  }

  lemma NextInv(s: State, s': State)
    requires Inv(s) && Next(s, s')
    ensures Inv(s')
  {
    var a :| Enabled(s, a) && s' == Apply(s, a);
    StepBaton(s, a);
    StepCount(s, a);
    StepLogin(s, a);
    StepShut(s, a);
  }

  lemma InitInv(s: State)
    requires s == INIT
    ensures Inv(s)
  {
  }

  lemma {:induction false} RunInv(run: seq<State>, i: nat)
    requires IsRun(run) && i < |run|
    ensures Inv(run[i])
  {
    if i == 0 {
      InitInv(run[0]);
    } else {
      RunInv(run, i - 1);
      assert StepAt(run, i - 1);
      NextInv(run[i - 1], run[i]);
    }
  }

  /** Exclusivity, the meaning of isLoggedIn and the WaitGroup, in every reachable state. */
  lemma LoopSafety(run: seq<State>, i: nat)
    requires IsRun(run) && i < |run|
    ensures var s := run[i];
            // never two of: retry token, wait goroutine, login under way, lifecycle manager
            && Activities(s) <= 1
            // so the send of a wait goroutine, and those of the shutdown goroutine, never block
            && (s.waiters > 0 ==> Enabled(s, Wake))
            && (s.shut == Checked(true) ==> Enabled(s, SendLifecycle))
            && (s.shut == Checked(false) || s.shut.LifecycleSent? ==> Enabled(s, SendDone))
            // isLoggedIn is the outcome of the latest login, but for the moment between the two
            && (!s.pc.LoginFailed? && !s.pc.LoginOk? && !s.pc.Added? ==> (s.loggedIn <==> s.lastLogin == Granted))
            // the WaitGroup never goes below its value before the caller's Add, and what is left over is the early returns
            && s.count >= 0 && (s.pc.Returned? ==> s.count == s.early)
  {
    RunInv(run, i);
  }

  lemma {:induction false} LoginsGrow(run: seq<State>, i: nat, j: nat)
    requires IsRun(run) && i <= j < |run|
    ensures run[i].logins <= run[j].logins && run[i].early <= run[j].early
  {
    if i < j {
      LoginsGrow(run, i, j - 1);
      assert StepAt(run, j - 1);
    }
  }

  /**
   * A finished lifecycle does not lead to a new login: whatever the reason it ended for, only doneRenew moves the
   * loop from there, and no run has two successful logins.
   */
  lemma {:induction false} NoSecondLogin(run: seq<State>, i: nat, j: nat)
    requires IsRun(run) && i <= j < |run|
    requires run[i].logins == 1 && !Manages(run[i])
    ensures run[j].logins == 1 && run[j].lastLogin == Granted && run[j].count == run[i].early + Bit(run[j].pc.Select?)
    ensures Activities(run[j]) == 0 && (run[j].pc.Select? || run[j].pc.Returned?)
    decreases j - i
  {
    RunInv(run, i);
    if i < j {
      assert StepAt(run, i);
      NoSecondLogin(run, i + 1, j);
    }
  }

  /** The WaitGroup balances exactly when no lifecycle call returned early; one early return is never made up for. */
  lemma Balance(run: seq<State>, i: nat)
    requires IsRun(run) && i < |run| && run[i].pc.Returned?
    ensures run[i].count == 0 <==> forall j :: 0 <= j <= i ==> run[j].early == 0
  {
    RunInv(run, i);
    if run[i].early == 0 {
      forall j | 0 <= j <= i ensures run[j].early == 0 {
        LoginsGrow(run, j, i);
      }
    }
  }

  // ---------------------------------------------------------------- shutting down

  /** Steps that wait for nothing outside: a login comes back, a watcher may never end. */
  predicate Internal(a: Action) {
    !a.WatcherEnds? && !a.Renewed?
  }

  /** The manager waits for a lifecycle signal that was never sent. */
  predicate Hung(s: State) {
    s.shut.Finished? && s.pc.Watching? && s.lifecycle == 0
  }

  /** Once shutdown has sent its signals, the loop hangs exactly in a watcher that got none. */
  lemma HangsExactly(s: State)
    requires Inv(s) && s.shut.Finished? && !s.pc.Returned?
    ensures (forall a :: Internal(a) ==> !Enabled(s, a)) <==> Hung(s)
    ensures Hung(s) ==> s.shut == Finished(false)
  {
    if !Hung(s) {
      var a := match s.pc
        case Starting => Begin
        case Select => TakeDone
        case LoggingIn => LoginFails
        case LoginFailed => MarkOut
        case Respawning => SpawnWait
        case LoginOk => AddOne
        case Added => MarkIn
        case Managing => StartWatch
        case Watching => TakeLifecycle
        case _ => Leave;
      assert Internal(a) && Enabled(s, a);
    }
  }

  lemma Extend(run: seq<State>, a: Action) returns (longer: seq<State>)
    requires IsRun(run) && Enabled(run[|run| - 1], a)
    ensures IsRun(longer) && run <= longer && |longer| == |run| + 1 && longer[|longer| - 1] == Apply(run[|run| - 1], a)
  {
    longer := run + [Apply(run[|run| - 1], a)];
    forall i: nat | i < |longer| - 1 ensures StepAt(longer, i) {
      if i < |run| - 1 {
        assert StepAt(run, i);
      }
    }
  }

  /** It does happen: whenever shutdown has finished while a login is under way, the login may succeed and hang. */
  lemma ShutdownDuringLoginHangs(run: seq<State>) returns (longer: seq<State>)
    requires IsRun(run) && run[|run| - 1].pc.LoggingIn? && run[|run| - 1].shut.Finished?
    ensures IsRun(longer) && run <= longer && Hung(longer[|longer| - 1])
  {
    RunInv(run, |run| - 1);
    longer := Extend(run, LoginSucceeds);
    longer := Extend(longer, AddOne);
    longer := Extend(longer, MarkIn);
    longer := Extend(longer, StartWatch);
  }

  /** Such a run exists. */
  lemma ShutdownDuringLogin() returns (run: seq<State>)
    ensures IsRun(run) && run[|run| - 1].pc.LoggingIn? && run[|run| - 1].shut.Finished?
  {
    run := Extend([INIT], Begin);
    run := Extend(run, TakeRetry);
    run := Extend(run, Check);
    run := Extend(run, SendDone);
  }

  // ---------------------------------------------------------------- what the first login may lead to

  lemma FirstLogin() returns (run: seq<State>)
    ensures IsRun(run) && run[|run| - 1].pc.Managing? && run[|run| - 1].shut.Serving?
  {
    run := Extend([INIT], Begin);
    run := Extend(run, TakeRetry);
    run := Extend(run, LoginSucceeds);
    run := Extend(run, AddOne);
    run := Extend(run, MarkIn);
  }

  /** A token that is not renewable, or gets no watcher: the loop then ends with the WaitGroup one too high. */
  lemma EarlyReturnLeavesOne() returns (run: seq<State>)
    ensures IsRun(run) && run[|run| - 1].pc.Returned? && run[|run| - 1].count == 1
  {
    run := FirstLogin();
    RunInv(run, |run| - 1);
    run := Extend(run, EarlyReturn);
    run := Extend(run, Check);
    run := Extend(run, SendLifecycle);
    run := Extend(run, SendDone);
    run := Extend(run, TakeDone);
  }

  /** A lifecycle that ends by itself, from where no login follows. */
  lemma LifecycleEnds() returns (run: seq<State>)
    ensures IsRun(run) && run[|run| - 1].logins == 1 && !Manages(run[|run| - 1]) && run[|run| - 1].early == 0
  {
    run := FirstLogin();
    RunInv(run, |run| - 1);
    run := Extend(run, StartWatch);
    run := Extend(run, WatcherEnds);
    run := Extend(run, Leave);
  }

  // ---------------------------------------------------------------- what can always still happen

  /** The longer run goes on from the shorter one without a step of the shutdown goroutine, by at most n steps. */
  ghost predicate LoopOnly(run: seq<State>, longer: seq<State>, n: nat)
    requires run != []
  {
    && run <= longer && |longer| <= |run| + n
    && forall i :: |run| <= i < |longer| ==> longer[i].shut == run[|run| - 1].shut
  }

  lemma Go(run: seq<State>, so: seq<State>, n: nat, a: Action) returns (longer: seq<State>)
    requires run != [] && IsRun(so) && LoopOnly(run, so, n) && so[|so| - 1].shut == run[|run| - 1].shut
    requires Enabled(so[|so| - 1], a) && !a.Check? && !a.SendLifecycle? && !a.SendDone?
    ensures IsRun(longer) && LoopOnly(run, longer, n + 1) && longer[|longer| - 1] == Apply(so[|so| - 1], a)
    ensures longer[|longer| - 1].shut == run[|run| - 1].shut
  {
    longer := so + [Apply(so[|so| - 1], a)];
    forall i: nat | i < |longer| - 1 ensures StepAt(longer, i) {
      if i < |so| - 1 {
        assert StepAt(so, i);
      }
    }
  }

  /** From a select with nothing logged in yet, the wait goroutine may wake and the loop may log in. */
  lemma SelectLogsIn(run: seq<State>, so: seq<State>, n: nat) returns (longer: seq<State>)
    requires run != [] && IsRun(so) && LoopOnly(run, so, n) && so[|so| - 1].shut == run[|run| - 1].shut
    requires so[|so| - 1].pc.Select? && so[|so| - 1].logins == 0
    ensures IsRun(longer) && LoopOnly(run, longer, n + 2) && longer[|longer| - 1].pc.LoggingIn?
  {
    RunInv(so, |so| - 1);
    longer := so;
    if so[|so| - 1].retry == 0 {
      longer := Go(run, longer, n, Wake);
      longer := Go(run, longer, n + 1, TakeRetry);
    } else {
      longer := Go(run, longer, n, TakeRetry);
    }
  }

  /**
   * Until a login succeeds the loop never stops trying: whatever happened so far, shutdown begun or not, its signal
   * pending or not, steps of the loop and of the wait goroutine alone lead to a login within four steps.
   */
  lemma NeverStopsTrying(run: seq<State>) returns (longer: seq<State>)
    requires IsRun(run) && !run[|run| - 1].pc.Returned? && run[|run| - 1].logins == 0
    ensures IsRun(longer) && LoopOnly(run, longer, 4) && longer[|longer| - 1].pc.LoggingIn?
  {
    RunInv(run, |run| - 1);
    var s := run[|run| - 1];
    longer := run;
    match s.pc {
      case LoggingIn =>
      case Select => longer := SelectLogsIn(run, run, 0);
      case Starting =>
        longer := Go(run, longer, 0, Begin);
        longer := SelectLogsIn(run, longer, 1);
      case Respawning =>
        longer := Go(run, longer, 0, SpawnWait);
        longer := SelectLogsIn(run, longer, 1);
      case LoginFailed =>
        longer := Go(run, longer, 0, MarkOut);
        longer := Go(run, longer, 1, SpawnWait);
        longer := SelectLogsIn(run, longer, 2);
      case _ =>
    }
  }

  /** A login may end either way, and a refused one is recorded before the loop waits for the next. */
  lemma LoginEndsEitherWay(run: seq<State>, granted: bool) returns (longer: seq<State>)
    requires IsRun(run) && run[|run| - 1].pc.LoggingIn?
    ensures IsRun(longer) && LoopOnly(run, longer, 3)
    ensures var s := longer[|longer| - 1];
            if granted then s.pc.Managing? && s.loggedIn && s.lastLogin.Granted?
            else s.pc.Select? && !s.loggedIn && s.lastLogin.Refused? && s.waiters == 1
  {
    RunInv(run, |run| - 1);
    if granted {
      longer := Go(run, run, 0, LoginSucceeds);
      longer := Go(run, longer, 1, AddOne);
      longer := Go(run, longer, 2, MarkIn);
    } else {
      longer := Go(run, run, 0, LoginFails);
      longer := Go(run, longer, 1, MarkOut);
      longer := Go(run, longer, 2, SpawnWait);
    }
  }

  /** A run in which the first login is refused and a later one granted. */
  lemma RefusedThenGranted() returns (run: seq<State>, i: nat)
    ensures IsRun(run) && i < |run| && run[i].lastLogin.Refused? && !run[i].loggedIn
    ensures run[|run| - 1].lastLogin.Granted? && run[|run| - 1].loggedIn
  {
    run := NeverStopsTrying([INIT]);
    run := LoginEndsEitherWay(run, false);
    i := |run| - 1;
    RunInv(run, i);
    var first := run;
    run := NeverStopsTrying(run);
    var second := run;
    run := LoginEndsEitherWay(run, true);
    assert run[i] == second[i] == first[i];
  }

  /** Shutdown can always go through with its signals, whatever the loop is doing. */
  lemma ShutdownFinishes(run: seq<State>) returns (longer: seq<State>)
    requires IsRun(run)
    ensures IsRun(longer) && run <= longer && |longer| <= |run| + 3
    ensures longer[|longer| - 1].shut.Finished? && longer[|longer| - 1].pc == run[|run| - 1].pc
  {
    longer := run;
    RunInv(longer, |longer| - 1);
    if longer[|longer| - 1].shut.Serving? {
      longer := Extend(longer, Check);
      RunInv(longer, |longer| - 1);
    }
    assert |longer| <= |run| + 1;
    if longer[|longer| - 1].shut == Checked(true) {
      longer := Extend(longer, SendLifecycle);
      RunInv(longer, |longer| - 1);
    }
    if !longer[|longer| - 1].shut.Finished? {
      longer := Extend(longer, SendDone);
    }
  }

  lemma TryingBackToSelect(run: seq<State>) returns (longer: seq<State>)
    requires IsRun(run) && (run[|run| - 1].pc.Starting? || LoginPending(run[|run| - 1]))
    ensures IsRun(longer) && LoopOnly(run, longer, 3) && longer[|longer| - 1].pc.Select?
  {
    RunInv(run, |run| - 1);
    longer := run;
    match run[|run| - 1].pc {
      case Starting => longer := Go(run, run, 0, Begin);
      case LoggingIn => longer := LoginEndsEitherWay(run, false);
      case LoginFailed =>
        longer := Go(run, run, 0, MarkOut);
        longer := Go(run, longer, 1, SpawnWait);
      case Respawning => longer := Go(run, run, 0, SpawnWait);
      case _ =>
    }
  }

  lemma ManagingBackToSelect(run: seq<State>) returns (longer: seq<State>)
    requires IsRun(run) && Manages(run[|run| - 1])
    ensures IsRun(longer) && LoopOnly(run, longer, 3) && longer[|longer| - 1].pc.Select?
  {
    longer := run;
    match run[|run| - 1].pc {
      case LoginOk =>
        longer := Go(run, run, 0, AddOne);
        longer := Go(run, longer, 1, MarkIn);
        longer := Go(run, longer, 2, EarlyReturn);
      case Added =>
        longer := Go(run, run, 0, MarkIn);
        longer := Go(run, longer, 1, EarlyReturn);
      case Managing => longer := Go(run, run, 0, EarlyReturn);
      case Watching =>
        longer := Go(run, run, 0, WatcherEnds);
        longer := Go(run, longer, 1, Leave);
      case Leaving => longer := Go(run, run, 0, Leave);
      case _ =>
    }
  }

  /** Where shutdown saw the login, its signals alone end the lifecycle and the loop. */
  lemma SignalsEndIt(run: seq<State>) returns (longer: seq<State>)
    requires IsRun(run) && run[|run| - 1].shut == Finished(true) && run[|run| - 1].pc.Watching?
    ensures IsRun(longer) && LoopOnly(run, longer, 3) && longer[|longer| - 1].pc.Returned?
    ensures longer[|longer| - 1].lifecycle == 0 && longer[|longer| - 1].doneRenew == 0 && longer[|longer| - 1].count == 0
  {
    RunInv(run, |run| - 1);
    longer := Go(run, run, 0, TakeLifecycle);
    longer := Go(run, longer, 1, Leave);
    longer := Go(run, longer, 2, TakeDone);
  }

  /** From every reachable state the loop can still return, within seven steps, once shutdown is asked for. */
  lemma CanAlwaysReturn(run: seq<State>) returns (longer: seq<State>)
    requires IsRun(run)
    ensures IsRun(longer) && run <= longer && |longer| <= |run| + 7 && longer[|longer| - 1].pc.Returned?
  {
    longer := run;
    if !run[|run| - 1].pc.Returned? {
      longer := ShutdownFinishes(run);
      if Manages(longer[|longer| - 1]) {
        longer := ManagingBackToSelect(longer);
      } else if !longer[|longer| - 1].pc.Select? {
        longer := TryingBackToSelect(longer);
      }
      RunInv(longer, |longer| - 1);
      longer := Extend(longer, TakeDone);
    }
  }
}
