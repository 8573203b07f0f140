/**
 The map-request restart protocol of the control client: the fields of `Auto`
 that `mu` guards, its critical sections, and the interleavings of the map
 routine, the auth routine and any number of local changes.

 A context is the number of times the map context was replaced before it was
 made, so every context below the current one has been cancelled. A channel is
 the number of channels made before it.
 */
module AutoMap {
  import opened Common

  datatype LoginState =
    | StateNew
    | StateNotAuthenticated
    | StateAuthenticating
    | StateURLVisitRequired
    | StateAuthenticated
    | StateSynchronized

  datatype LoginGoal = LoginGoal(wantLoggedIn: bool, hasURL: bool)

  /** The pause flag and the channels made for waiters; `closedChans` lists every close() so far. */
  datatype Pausing = Pausing(paused: bool, unpauseWaiters: seq<nat>, closedChans: seq<nat>, nextChan: nat)

  /** The value of the fields of `Auto`. */
  datatype Shared = Shared(
    pausing: Pausing,
    loggedIn: bool,
    loginGoal: Option<LoginGoal>,
    synced: bool,
    inPollNetMap: bool,
    inLiteMapUpdate: bool,
    state: LoginState,
    mapCtx: nat,
    mapCtxDone: bool,
    closed: bool,
    newMapCh: bool)            // whether the capacity-1 channel holds its token

  const InitShared := Shared(Pausing(false, [], [], 0), false, None, false, false, false, StateNew, 0, false, false, false)

  predicate CtxDone(s: Shared, ctx: nat) {
    ctx < s.mapCtx || (ctx == s.mapCtx && s.mapCtxDone)
  }

  // ---------------------------------------------------------------------
  // Critical sections, as functions of the guarded fields
  // ---------------------------------------------------------------------

  function CancelMapLocked(s: Shared): Shared {
    if s.closed then s.(mapCtxDone := true) else s.(mapCtx := s.mapCtx + 1, mapCtxDone := false)
  }

  function CancelMapSafely(s: Shared): Shared {
    if s.inPollNetMap then CancelMapLocked(s) else s.(newMapCh := true)
  }

  function SetPaused(s: Shared, paused: bool): Shared {
    var p := s.pausing;
    if paused == p.paused then s
    else if paused then CancelMapLocked(s.(pausing := p.(paused := true)))
    else s.(pausing := Pausing(false, [], p.closedChans + p.unpauseWaiters, p.nextChan))
  }

  function UnpausedChan(p: Pausing): (Pausing, nat) {
    (p.(unpauseWaiters := p.unpauseWaiters + [p.nextChan], nextChan := p.nextChan + 1), p.nextChan)
  }

  /** Whether a local change may use a lite update instead of a restart. */
  predicate MayUseLite(s: Shared) {
    s.inPollNetMap && !s.inLiteMapUpdate && s.loggedIn
  }

  /** The netmap callback of a poll; the second component says whether the netmap was accepted. */
  function NetmapReceived(s: Shared): (Shared, bool) {
    if s.newMapCh then
      (CancelMapLocked(s.(newMapCh := false)), false)
    else
      (s.(synced := true, inPollNetMap := true, state := if s.loggedIn then StateSynchronized else s.state), true)
  }

  function PollEnded(s: Shared): Shared {
    s.(synced := false, inPollNetMap := false,
       state := if s.state == StateSynchronized then StateAuthenticated else s.state)
  }

  // ---------------------------------------------------------------------
  // The object
  // ---------------------------------------------------------------------

  class Auto {
    var paused: bool
    var unpauseWaiters: seq<nat>
    var closedChans: seq<nat>
    var nextChan: nat
    var loggedIn: bool
    var loginGoal: Option<LoginGoal>
    var synced: bool
    var inPollNetMap: bool
    var inLiteMapUpdate: bool
    var state: LoginState
    var mapCtx: nat
    var mapCtxDone: bool
    var closed: bool
    var newMapCh: bool

    function Fields(): Shared
      reads this
    {
      Shared(Pausing(paused, unpauseWaiters, closedChans, nextChan), loggedIn, loginGoal, synced, inPollNetMap,
             inLiteMapUpdate, state, mapCtx, mapCtxDone, closed, newMapCh)
    }

    constructor ()
      ensures Fields() == InitShared
    {
      paused, unpauseWaiters, closedChans, nextChan := false, [], [], 0;
      loggedIn, loginGoal, synced, inPollNetMap, inLiteMapUpdate := false, None, false, false, false;
      state, mapCtx, mapCtxDone, closed, newMapCh := StateNew, 0, false, false, false;
    }

    method DoCancelMapLocked()
      modifies this
      ensures Fields() == CancelMapLocked(old(Fields()))
    {
      mapCtxDone := true;
      if !closed {
        mapCtx, mapCtxDone := mapCtx + 1, false;
      }
    }

    method DoCancelMapSafely()
      modifies this
      ensures Fields() == CancelMapSafely(old(Fields()))
    {
      if inPollNetMap {
        DoCancelMapLocked();
      } else if !newMapCh {
        newMapCh := true;
      }
    }

    /** Every waiter present on an unpause has its channel closed, in order, and none remains. */
    method DoSetPaused(p: bool)
      modifies this
      ensures Fields() == SetPaused(old(Fields()), p)
    {
      if p == paused {
        return;
      }
      paused := p;
      if p {
        DoCancelMapLocked();
      } else {
        for i := 0 to |unpauseWaiters|
          invariant Fields() == old(Fields()).(pausing := Pausing(false, old(unpauseWaiters),
                                                                  old(closedChans) + old(unpauseWaiters)[..i],
                                                                  old(nextChan)))
        {
          closedChans := closedChans + [unpauseWaiters[i]];
        }
        unpauseWaiters := [];
      }
    }

    method DoUnpausedChanLocked() returns (ch: nat)
      modifies this
      ensures Fields() == old(Fields()).(pausing := UnpausedChan(old(Fields()).pausing).0)
      ensures ch == old(nextChan)
    {
      ch := nextChan;
      nextChan := nextChan + 1;
      unpauseWaiters := unpauseWaiters + [ch];
    }

    /** The locked part of sendNewMapRequest; `lite` says a lite update was started. */
    method DoSendNewMapRequest() returns (lite: bool, ctx: nat)
      modifies this
      ensures lite == MayUseLite(old(Fields())) && ctx == mapCtx
      ensures Fields() == if lite then old(Fields()).(inLiteMapUpdate := true) else old(Fields())
    {
      lite, ctx := true, mapCtx;
      if !inPollNetMap || inLiteMapUpdate || !loggedIn {
        lite := false;
        return;
      }
      inLiteMapUpdate := true;
    }

    method DoNetmapReceived() returns (accepted: bool)
      modifies this
      ensures (Fields(), accepted) == NetmapReceived(old(Fields()))
    {
      if newMapCh {
        newMapCh := false;
        DoCancelMapLocked();
        return false;
      }
      synced, inPollNetMap := true, true;
      if loggedIn {
        state := StateSynchronized;
      }
      accepted := true;
    }

    method DoPollEnded()
      modifies this
      ensures Fields() == PollEnded(old(Fields()))
    {
      synced, inPollNetMap := false, false;
      if state == StateSynchronized {
        state := StateAuthenticated;
      }
    }
  }

  // ---------------------------------------------------------------------
  // Interleavings
  // ---------------------------------------------------------------------

  /**
   Where the map routine is. `Polling` begins when the request has read the
   local state it sends; `answered` says that the server has since answered it.
   */
  datatype MapPc =
    | MapTop
    | AwaitUnpause(ch: nat)
    | Chosen(loggedIn: bool, ctx: nat)
    | Idle(ctx: nat)
    | Starting(ctx: nat)
    | Polling(ctx: nat, captured: nat, answered: bool)
    | PollReturned(ctx: nat, answered: bool)
    | MapExited

  datatype AuthPc =
    | AuthTop
    | LoggingOut
    | LoginBegin(goal: LoginGoal)
    | LoggingIn(goal: LoginGoal)
    | NotifyMap
    | AuthExited

  /** One local change (hostinfo, netinfo or endpoints) and the goroutine that reports it. */
  datatype Change =
    | Changed(v: nat)
    | WantCancel(v: nat)
    | Lite(v: nat, ctx: nat, captured: Option<nat>)
    | Finished(v: nat)

  /**
   `version` counts local changes; `sent` is the newest version captured by a
   streaming request that was started or by a lite update that succeeded.
   */
  datatype State = State(sh: Shared, version: nat, sent: nat, mapPc: MapPc, authPc: AuthPc, changes: seq<Change>)

  const Init := State(InitShared, 0, 0, MapTop, AuthTop, [])

  /** The goroutines that report local changes. */
  datatype ChangeStep =
    | LocalChange
    | BeginSend(i: nat)
    | CancelForChange(i: nat)
    | LiteCapture(i: nat)
    | LiteSucceed(i: nat)
    | LiteFail(i: nat)

  /** Callers of the client's other methods. */
  datatype CallStep =
    | HealthChange
    | Pause(p: bool)
    | WantLogin(goal: LoginGoal)
    | ShutdownBegin
    | ShutdownCancelMap

  datatype MapStep =
    | MapChoose
    | MapUnpaused
    | MapQuit
    | MapPrepare
    | IdleCtxDone
    | IdleToken
    | PollStart
    | PollNetmap
    | PollReturn
    | PollFinish

  datatype AuthStep =
    | AuthChoose
    | AuthFail
    | AuthLogoutDone
    | AuthLoginState
    | AuthNeedURL
    | AuthLoginDone
    | AuthNotify
    | AuthQuit

  datatype Step = ByChange(c: ChangeStep) | ByCall(d: CallStep) | ByMap(m: MapStep) | ByAuth(a: AuthStep)

  predicate ChangeEnabled(s: State, step: ChangeStep) {
    step.LocalChange? ||
    (step.i < |s.changes| &&
     match step
     case LocalChange => true
     case BeginSend(i) => s.changes[i].Changed?
     case CancelForChange(i) => s.changes[i].WantCancel?
     case LiteCapture(i) => s.changes[i].Lite? && s.changes[i].captured.None?
     case LiteSucceed(i) => s.changes[i].Lite? && s.changes[i].captured.Some?
     case LiteFail(i) => s.changes[i].Lite?)
  }

  predicate MapEnabled(s: State, step: MapStep) {
    match step
    case MapChoose => s.mapPc.MapTop?
    case MapUnpaused => s.mapPc.AwaitUnpause? && s.mapPc.ch in s.sh.pausing.closedChans
    case MapQuit => s.sh.closed && (s.mapPc.AwaitUnpause? || s.mapPc.Chosen?)
    case MapPrepare => s.mapPc.Chosen?
    case IdleCtxDone => s.mapPc.Idle? && CtxDone(s.sh, s.mapPc.ctx)
    case IdleToken => s.mapPc.Idle? && s.sh.newMapCh
    case PollStart => s.mapPc.Starting?
    case PollNetmap => s.mapPc.Polling?
    case PollReturn => s.mapPc.Polling?
    case PollFinish => s.mapPc.PollReturned?
  }

  predicate AuthEnabled(s: State, step: AuthStep) {
    match step
    case AuthChoose => s.authPc.AuthTop?
    case AuthFail => s.authPc.LoggingOut? || s.authPc.LoggingIn?
    case AuthLogoutDone => s.authPc.LoggingOut?
    case AuthLoginState => s.authPc.LoginBegin?
    case AuthNeedURL => s.authPc.LoggingIn?
    case AuthLoginDone => s.authPc.LoggingIn?
    case AuthNotify => s.authPc.NotifyMap?
    case AuthQuit => s.sh.closed && s.authPc.AuthTop?
  }

  predicate Enabled(s: State, step: Step) {
    match step
    case ByChange(c) => ChangeEnabled(s, c)
    case ByCall(d) => d.ShutdownCancelMap? ==> s.sh.closed && s.authPc.AuthExited?
    case ByMap(m) => MapEnabled(s, m)
    case ByAuth(a) => AuthEnabled(s, a)
  }

  function Max(a: nat, b: nat): nat { if a < b then b else a }

  function ApplyChange(s: State, step: ChangeStep): State
    requires ChangeEnabled(s, step)
  {
    match step
    case LocalChange =>
      s.(version := s.version + 1, changes := s.changes + [Changed(s.version + 1)])
    case BeginSend(i) =>
      var v := s.changes[i].v;
      if MayUseLite(s.sh) then
        s.(sh := s.sh.(inLiteMapUpdate := true), changes := s.changes[i := Lite(v, s.sh.mapCtx, None)])
      else
        s.(changes := s.changes[i := WantCancel(v)])
    case CancelForChange(i) =>
      s.(sh := CancelMapSafely(s.sh), changes := s.changes[i := Finished(s.changes[i].v)])
    case LiteCapture(i) =>
      s.(changes := s.changes[i := s.changes[i].(captured := Some(s.version))])
    case LiteSucceed(i) =>
      s.(sh := s.sh.(inLiteMapUpdate := false),
         sent := Max(s.sent, s.changes[i].captured.value),
         changes := s.changes[i := Finished(s.changes[i].v)])
    case LiteFail(i) =>
      s.(sh := s.sh.(inLiteMapUpdate := false), changes := s.changes[i := WantCancel(s.changes[i].v)])
  }

  function ApplyCall(s: Shared, step: CallStep): Shared {
    match step
    case HealthChange => CancelMapSafely(s)
    case Pause(p) => SetPaused(s, p)
    case WantLogin(goal) => s.(loginGoal := Some(goal))
    case ShutdownBegin => s.(closed := true)
    case ShutdownCancelMap => CancelMapLocked(s)
  }

  function ApplyMap(s: State, step: MapStep): State
    requires MapEnabled(s, step)
  {
    match step
    case MapChoose =>
      if s.sh.pausing.paused then
        var (p, ch) := UnpausedChan(s.sh.pausing);
        s.(sh := s.sh.(pausing := p), mapPc := AwaitUnpause(ch))
      else
        s.(mapPc := Chosen(s.sh.loggedIn, s.sh.mapCtx))
    case MapUnpaused => s.(mapPc := MapTop)
    case MapQuit => s.(mapPc := MapExited)
    case MapPrepare =>
      if s.mapPc.loggedIn then
        s.(sh := s.sh.(inPollNetMap := false), mapPc := Starting(s.mapPc.ctx))
      else
        s.(sh := s.sh.(synced := false), mapPc := Idle(s.mapPc.ctx))
    case IdleCtxDone => s.(mapPc := MapTop)
    case IdleToken => s.(sh := s.sh.(newMapCh := false), mapPc := MapTop)
    case PollStart => s.(sent := Max(s.sent, s.version), mapPc := Polling(s.mapPc.ctx, s.version, false))
    case PollNetmap => s.(sh := NetmapReceived(s.sh).0, mapPc := s.mapPc.(answered := true))
    case PollReturn => s.(mapPc := PollReturned(s.mapPc.ctx, s.mapPc.answered))
    case PollFinish => s.(sh := PollEnded(s.sh), mapPc := MapTop)
  }

  function ApplyAuth(s: State, step: AuthStep): State
    requires AuthEnabled(s, step)
  {
    match step
    case AuthChoose =>
      (match s.sh.loginGoal
       case None => s
       case Some(g) => s.(authPc := if g.wantLoggedIn then LoginBegin(g) else LoggingOut))
    case AuthFail => s.(authPc := AuthTop)
    case AuthLogoutDone =>
      s.(sh := s.sh.(loggedIn := false, loginGoal := None, state := StateNotAuthenticated, synced := false),
         authPc := AuthTop)
    case AuthLoginState =>
      s.(sh := s.sh.(state := if s.authPc.goal.hasURL then StateURLVisitRequired else StateAuthenticating),
         authPc := LoggingIn(s.authPc.goal))
    case AuthNeedURL =>
      s.(sh := s.sh.(loginGoal := Some(LoginGoal(true, true)), state := StateURLVisitRequired, synced := false),
         authPc := AuthTop)
    case AuthLoginDone =>
      s.(sh := s.sh.(loggedIn := true, loginGoal := None, state := StateAuthenticated), authPc := NotifyMap)
    case AuthNotify => s.(sh := CancelMapSafely(s.sh), authPc := AuthTop)
    case AuthQuit => s.(authPc := AuthExited)
  }

  function Apply(s: State, step: Step): State
    requires Enabled(s, step)
  {
    match step
    case ByChange(c) => ApplyChange(s, c)
    case ByCall(d) => s.(sh := ApplyCall(s.sh, d))
    case ByMap(m) => ApplyMap(s, m)
    case ByAuth(a) => ApplyAuth(s, a)
  }

  ghost predicate ValidRun(s: State, steps: seq<Step>)
    decreases steps
  {
    steps == [] || (Enabled(s, steps[0]) && ValidRun(Apply(s, steps[0]), steps[1..]))
  }

  ghost function Exec(s: State, steps: seq<Step>): State
    requires ValidRun(s, steps)
    decreases steps
  {
    if steps == [] then s else Exec(Apply(s, steps[0]), steps[1..])
  }

  // ---------------------------------------------------------------------
  // Invariants
  // ---------------------------------------------------------------------

  /**
   Version v is on its way: a request carrying it has started or succeeded, or
   nothing that would keep it back is left standing.
   */
  predicate Covered(s: State, v: nat) {
    v <= s.sent || !s.mapPc.Polling? || CtxDone(s.sh, s.mapPc.ctx) || s.sh.newMapCh
  }

  ghost predicate NoLostUpdate(s: State) {
    forall i :: 0 <= i < |s.changes| && s.changes[i].Finished? ==> Covered(s, s.changes[i].v)
  }

  ghost predicate VersionsOk(s: State) {
    && s.sent <= s.version
    && (s.mapPc.Polling? ==> s.mapPc.captured <= s.sent)
    && (forall i :: 0 <= i < |s.changes| ==> s.changes[i].v <= s.version)
    && (forall i :: 0 <= i < |s.changes| && s.changes[i].Lite? && s.changes[i].captured.Some? ==>
          s.changes[i].v <= s.changes[i].captured.value <= s.version)
  }

  predicate HoldsCtx(pc: MapPc) {
    pc.Chosen? || pc.Idle? || pc.Starting? || pc.Polling? || pc.PollReturned?
  }

  /** At most one lite update is outstanding, and the flag says exactly whether one is. */
  ghost predicate LiteExclusive(s: State) {
    && (forall i :: 0 <= i < |s.changes| && s.changes[i].Lite? ==> s.sh.inLiteMapUpdate)
    && (s.sh.inLiteMapUpdate ==> exists i :: 0 <= i < |s.changes| && s.changes[i].Lite?)
    && (forall i, j :: 0 <= i < |s.changes| && 0 <= j < |s.changes| && s.changes[i].Lite? && s.changes[j].Lite? ==> i == j)
  }

  /** What the reported login state promises. */
  ghost predicate LoginStateOk(s: State) {
    && (s.sh.state.StateSynchronized? ==> s.sh.loggedIn && s.sh.synced && s.sh.inPollNetMap)
    && (s.sh.state.StateAuthenticated? ==> s.sh.loggedIn)
    && (s.sh.inPollNetMap ==> s.mapPc.Polling? || s.mapPc.PollReturned?)
  }

  /** Waiters exist only while paused, and channels are closed once each, in the order they were made. */
  ghost predicate WaitersOk(p: Pausing, pc: MapPc) {
    && (p.unpauseWaiters != [] ==> p.paused)
    && p.nextChan == |p.closedChans| + |p.unpauseWaiters|
    && (forall i :: 0 <= i < |p.closedChans| ==> p.closedChans[i] == i)
    && (forall i :: 0 <= i < |p.unpauseWaiters| ==> p.unpauseWaiters[i] == |p.closedChans| + i)
    && (pc.AwaitUnpause? ==> pc.ch < p.nextChan)
  }

  /** A map routine that saw itself logged out is woken once the login has been announced. */
  predicate NotStranded(s: State) {
    (s.mapPc.Idle? || (s.mapPc.Chosen? && !s.mapPc.loggedIn)) && s.sh.loggedIn ==>
      s.sh.newMapCh || CtxDone(s.sh, s.mapPc.ctx) || s.authPc.NotifyMap?
  }

  ghost predicate Inv(s: State) {
    && (HoldsCtx(s.mapPc) ==> s.mapPc.ctx <= s.sh.mapCtx)
    && VersionsOk(s)
    && LiteExclusive(s)
    && NoLostUpdate(s)
    && LoginStateOk(s)
    && WaitersOk(s.sh.pausing, s.mapPc)
    && NotStranded(s)
  }

  lemma KeepsSomeLite(s: State, t: State)
    requires LiteExclusive(s) && |s.changes| <= |t.changes|
    requires forall j :: 0 <= j < |s.changes| && s.changes[j].Lite? ==> t.changes[j].Lite?
    ensures s.sh.inLiteMapUpdate ==> exists i :: 0 <= i < |t.changes| && t.changes[i].Lite?
  {
    if s.sh.inLiteMapUpdate {
      var i :| 0 <= i < |s.changes| && s.changes[i].Lite?;
      assert t.changes[i].Lite?;
    }
  }

  lemma ChangeKeepsLite(s: State, step: ChangeStep)
    requires LiteExclusive(s) && ChangeEnabled(s, step)
    ensures LiteExclusive(ApplyChange(s, step))
  {
    var t := ApplyChange(s, step);
    if step.LiteSucceed? || step.LiteFail? {
      assert forall j :: 0 <= j < |s.changes| && j != step.i ==> !s.changes[j].Lite?;
    } else {
      assert step.BeginSend? && MayUseLite(s.sh) ==> t.changes[step.i].Lite?;
      KeepsSomeLite(s, t);
    }
  }

  lemma ChangeKeepsCovered(s: State, step: ChangeStep)
    requires Inv(s) && ChangeEnabled(s, step)
    ensures NoLostUpdate(ApplyChange(s, step))
  {
    var t := ApplyChange(s, step);
    forall i | 0 <= i < |t.changes| && t.changes[i].Finished? ensures Covered(t, t.changes[i].v) {
      assert s.changes[i].v == t.changes[i].v;
    }
  }

  lemma ChangeKeepsVersions(s: State, step: ChangeStep)
    requires VersionsOk(s) && ChangeEnabled(s, step)
    ensures VersionsOk(ApplyChange(s, step))
  {
  }

  lemma ChangeKeepsInv(s: State, step: ChangeStep)
    requires Inv(s) && ChangeEnabled(s, step)
    ensures Inv(ApplyChange(s, step))
  {
    ChangeKeepsLite(s, step);
    ChangeKeepsCovered(s, step);
    ChangeKeepsVersions(s, step);
  }

  lemma CancelKeepsInv(s: State)
    requires Inv(s)
    ensures Inv(s.(sh := CancelMapLocked(s.sh)))
  {
    KeepsSomeLite(s, s.(sh := CancelMapLocked(s.sh)));
  }

  lemma PauseKeepsInv(s: State, p: bool)
    requires Inv(s)
    ensures Inv(s.(sh := SetPaused(s.sh, p)))
  {
    if p == s.sh.pausing.paused {
      assert s.(sh := s.sh) == s;
    } else if p {
      var t := s.(sh := s.sh.(pausing := s.sh.pausing.(paused := true)));
      PausingKeepsInv(s, t);
      CancelKeepsInv(t);
    } else {
      PausingKeepsInv(s, s.(sh := SetPaused(s.sh, p)));
    }
  }

  /** What concerns pausing alone touches no other invariant. */
  lemma PausingKeepsInv(s: State, t: State)
    requires Inv(s) && t == s.(sh := s.sh.(pausing := t.sh.pausing)) && WaitersOk(t.sh.pausing, t.mapPc)
    ensures Inv(t)
  {
    KeepsSomeLite(s, t);
  }

  lemma CallKeepsInv(s: State, step: CallStep)
    requires Inv(s)
    ensures Inv(s.(sh := ApplyCall(s.sh, step)))
  {
    CancelKeepsInv(s);
    match step {
      case Pause(p) => PauseKeepsInv(s, p);
      case _ => KeepsSomeLite(s, s.(sh := ApplyCall(s.sh, step)));
    }
  }

  lemma ChooseKeepsInv(s: State, step: MapStep)
    requires Inv(s) && MapEnabled(s, step) && step.MapChoose?
    ensures Inv(ApplyMap(s, step))
  {
    KeepsSomeLite(s, ApplyMap(s, step));
  }

  /** A step that leaves the changes alone and ends outside a poll keeps what is promised about them. */
  lemma OutsidePollKeepsChanges(s: State, t: State)
    requires VersionsOk(s) && LiteExclusive(s)
    requires t.changes == s.changes && t.version == s.version && t.sent == s.sent
    requires t.sh.inLiteMapUpdate == s.sh.inLiteMapUpdate && !t.mapPc.Polling?
    ensures VersionsOk(t) && LiteExclusive(t) && NoLostUpdate(t)
  {
    KeepsSomeLite(s, t);
  }

  lemma PrepareKeepsInv(s: State)
    requires Inv(s) && MapEnabled(s, MapPrepare)
    ensures Inv(ApplyMap(s, MapPrepare))
  {
    OutsidePollKeepsChanges(s, ApplyMap(s, MapPrepare));
  }

  lemma WaitKeepsInv(s: State, step: MapStep)
    requires Inv(s) && MapEnabled(s, step) && (step.MapUnpaused? || step.MapQuit? || step.IdleCtxDone? || step.IdleToken?)
    ensures Inv(ApplyMap(s, step))
  {
    OutsidePollKeepsChanges(s, ApplyMap(s, step));
  }

  lemma PollKeepsInv(s: State, step: MapStep)
    requires Inv(s) && MapEnabled(s, step) && (step.PollStart? || step.PollNetmap? || step.PollReturn? || step.PollFinish?)
    ensures Inv(ApplyMap(s, step))
  {
    KeepsSomeLite(s, ApplyMap(s, step));
  }

  lemma MapKeepsInv(s: State, step: MapStep)
    requires Inv(s) && MapEnabled(s, step)
    ensures Inv(ApplyMap(s, step))
  {
    if step.MapChoose? {
      ChooseKeepsInv(s, step);
    } else if step.PollStart? || step.PollNetmap? || step.PollReturn? || step.PollFinish? {
      PollKeepsInv(s, step);
    } else if step.MapPrepare? {
      PrepareKeepsInv(s);
    } else {
      WaitKeepsInv(s, step);
    }
  }

  lemma AuthKeepsInv(s: State, step: AuthStep)
    requires Inv(s) && AuthEnabled(s, step)
    ensures Inv(ApplyAuth(s, step))
  {
    KeepsSomeLite(s, ApplyAuth(s, step));
    match step
    case AuthChoose =>
    case AuthFail =>
    case AuthLogoutDone =>
    case AuthLoginState =>
    case AuthNeedURL =>
    case AuthLoginDone =>
    case AuthNotify =>
    case AuthQuit =>
  }

  /** Every interleaving keeps every invariant, from every state that has them. */
  lemma {:induction false} RunKeepsInv(s: State, steps: seq<Step>)
    requires Inv(s) && ValidRun(s, steps)
    ensures Inv(Exec(s, steps))
    decreases steps
  {
    if steps != [] {
      match steps[0] {
        case ByChange(c) => ChangeKeepsInv(s, c);
        case ByCall(d) => CallKeepsInv(s, d);
        case ByMap(m) => MapKeepsInv(s, m);
        case ByAuth(a) => AuthKeepsInv(s, a);
      }
      RunKeepsInv(Apply(s, steps[0]), steps[1..]);
    }
  }

  // ---------------------------------------------------------------------
  // Polls, tokens and pauses
  // ---------------------------------------------------------------------

  /**
   A paused client's map routine holds no live context, an open client has a
   live one to hand out, and a routine ends only once the client is closed.
   */
  predicate ContextsOk(s: State) {
    && (HoldsCtx(s.mapPc) ==> s.mapPc.ctx <= s.sh.mapCtx)
    && (s.sh.pausing.paused && HoldsCtx(s.mapPc) ==> CtxDone(s.sh, s.mapPc.ctx))
    && (!s.sh.closed ==> !s.sh.mapCtxDone)
    && (s.mapPc.MapExited? || s.authPc.AuthExited? ==> s.sh.closed)
  }

  predicate Answered(pc: MapPc) { (pc.Polling? || pc.PollReturned?) && pc.answered }

  /** The flag is for answered polls only, and for every live one; then no token waits. */
  predicate AnswersOk(s: State) {
    && (s.sh.inPollNetMap ==> Answered(s.mapPc) && !s.sh.newMapCh)
    && (s.mapPc.Polling? && s.mapPc.answered && !CtxDone(s.sh, s.mapPc.ctx) ==> s.sh.inPollNetMap)
    && (s.sh.synced ==> s.sh.inPollNetMap)
    && (s.sh.state.StateNew? || s.sh.state.StateNotAuthenticated? ==> !s.sh.loggedIn)
  }

  lemma ChangeKeepsContexts(s: State, step: ChangeStep)
    requires ContextsOk(s) && ChangeEnabled(s, step)
    ensures ContextsOk(ApplyChange(s, step))
  {
  }

  lemma ChangeKeepsAnswers(s: State, step: ChangeStep)
    requires ContextsOk(s) && AnswersOk(s) && ChangeEnabled(s, step)
    ensures AnswersOk(ApplyChange(s, step))
  {
  }

  lemma CallKeepsContexts(s: State, step: CallStep)
    requires ContextsOk(s)
    ensures ContextsOk(s.(sh := ApplyCall(s.sh, step)))
  {
  }

  lemma CallKeepsAnswers(s: State, step: CallStep)
    requires ContextsOk(s) && AnswersOk(s)
    ensures AnswersOk(s.(sh := ApplyCall(s.sh, step)))
  {
  }

  lemma MapKeepsContexts(s: State, step: MapStep)
    requires ContextsOk(s) && MapEnabled(s, step)
    ensures ContextsOk(ApplyMap(s, step))
  {
  }

  lemma PollKeepsAnswers(s: State, step: MapStep)
    requires ContextsOk(s) && AnswersOk(s) && MapEnabled(s, step)
    requires step.PollStart? || step.PollNetmap? || step.PollReturn? || step.PollFinish?
    ensures AnswersOk(ApplyMap(s, step))
  {
  }

  lemma MapKeepsAnswers(s: State, step: MapStep)
    requires ContextsOk(s) && AnswersOk(s) && MapEnabled(s, step)
    ensures AnswersOk(ApplyMap(s, step))
  {
    if step.PollStart? || step.PollNetmap? || step.PollReturn? || step.PollFinish? {
      PollKeepsAnswers(s, step);
    } else {
      WaitKeepsAnswers(s, step);
    }
  }

  lemma WaitKeepsAnswers(s: State, step: MapStep)
    requires AnswersOk(s) && MapEnabled(s, step)
    requires !step.PollStart? && !step.PollNetmap? && !step.PollReturn? && !step.PollFinish?
    ensures AnswersOk(ApplyMap(s, step))
  {
  }

  lemma AuthKeepsContexts(s: State, step: AuthStep)
    requires ContextsOk(s) && AuthEnabled(s, step)
    ensures ContextsOk(ApplyAuth(s, step))
  {
  }

  lemma AuthKeepsAnswers(s: State, step: AuthStep)
    requires ContextsOk(s) && AnswersOk(s) && AuthEnabled(s, step)
    ensures AnswersOk(ApplyAuth(s, step))
  {
  }

  lemma StepKeepsOrder(s: State, step: Step)
    requires ContextsOk(s) && AnswersOk(s) && Enabled(s, step)
    ensures ContextsOk(Apply(s, step)) && AnswersOk(Apply(s, step))
  {
    match step {
      case ByChange(c) => ChangeKeepsContexts(s, c); ChangeKeepsAnswers(s, c);
      case ByCall(d) => CallKeepsContexts(s, d); CallKeepsAnswers(s, d);
      case ByMap(m) => MapKeepsContexts(s, m); MapKeepsAnswers(s, m);
      case ByAuth(a) => AuthKeepsContexts(s, a); AuthKeepsAnswers(s, a);
    }
  }

  lemma {:induction false} RunKeepsOrder(s: State, steps: seq<Step>)
    requires ContextsOk(s) && AnswersOk(s) && ValidRun(s, steps)
    ensures ContextsOk(Exec(s, steps)) && AnswersOk(Exec(s, steps))
    decreases steps
  {
    if steps != [] {
      StepKeepsOrder(s, steps[0]);
      RunKeepsOrder(Apply(s, steps[0]), steps[1..]);
    }
  }

  /** The steps that ask for a new map request. */
  predicate Asks(step: Step) {
    || (step.ByChange? && step.c.CancelForChange?)
    || (step.ByCall? && step.d.HealthChange?)
    || (step.ByAuth? && step.a.AuthNotify?)
  }

  // ---------------------------------------------------------------------
  // Main results
  // ---------------------------------------------------------------------

  /** In every run, a change whose reporting has finished is covered. */
  lemma NoUpdateIsLost(steps: seq<Step>, i: nat)
    requires ValidRun(Init, steps)
    requires i < |Exec(Init, steps).changes| && Exec(Init, steps).changes[i].Finished?
    ensures Covered(Exec(Init, steps), Exec(Init, steps).changes[i].v)
  {
    RunKeepsInv(Init, steps);
  }

  /**
   When every change has been reported, nothing is queued and the running poll
   is live, the server has been sent the newest version.
   */
  lemma QuietMeansSent(steps: seq<Step>)
    requires ValidRun(Init, steps)
    requires var s := Exec(Init, steps);
             && (forall i :: 0 <= i < |s.changes| ==> s.changes[i].Finished?)
             && s.mapPc.Polling? && !CtxDone(s.sh, s.mapPc.ctx) && !s.sh.newMapCh
    ensures Exec(Init, steps).sent == Exec(Init, steps).version
  {
    RunKeepsInv(Init, steps);
    LastChangeIsNewest(Init, steps);
  }

  /** The newest version is the one the last change carries. */
  ghost predicate LastIsNewest(s: State) {
    if s.changes == [] then s.version == 0 else s.changes[|s.changes| - 1].v == s.version
  }

  lemma {:induction false} LastChangeIsNewest(s: State, steps: seq<Step>)
    requires ValidRun(s, steps) && LastIsNewest(s)
    ensures LastIsNewest(Exec(s, steps))
    decreases steps
  {
    if steps != [] {
      LastChangeIsNewest(Apply(s, steps[0]), steps[1..]);
    }
  }

  /** The login and pause promises hold in every interleaving. */
  lemma LoginStateIsHonest(steps: seq<Step>)
    requires ValidRun(Init, steps)
    ensures var sh := Exec(Init, steps).sh;
            && (sh.state == StateSynchronized ==> sh.loggedIn && sh.synced && sh.inPollNetMap)
            && (sh.state == StateAuthenticated ==> sh.loggedIn)
            && (sh.pausing.unpauseWaiters != [] ==> sh.pausing.paused)
            && NoDup(sh.pausing.closedChans)
            && (forall ch :: ch in sh.pausing.unpauseWaiters ==> ch !in sh.pausing.closedChans)
  {
    RunKeepsInv(Init, steps);
  }

  /**
   The steps the map routine takes on its own to bring the newest version to
   the server: leave a wait or a stale poll, then start a fresh poll.
   */
  function Delivery(s: State): (steps: seq<MapStep>) {
    var restart := [MapChoose, MapPrepare, PollStart];
    match s.mapPc
    case MapTop => restart
    case Chosen(loggedIn, ctx) =>
      if loggedIn then [MapPrepare, PollStart] else [MapPrepare, if s.sh.newMapCh then IdleToken else IdleCtxDone] + restart
    case Idle(_) => [if s.sh.newMapCh then IdleToken else IdleCtxDone] + restart
    case Starting(_) => [PollStart]
    case Polling(ctx, _, _) =>
      if CtxDone(s.sh, ctx) then [PollReturn, PollFinish] + restart
      else if s.sh.newMapCh then [PollNetmap, PollReturn, PollFinish] + restart
      else []
    case PollReturned(_, _) => [PollFinish] + restart
    case AwaitUnpause(_) => [MapUnpaused] + restart
    case MapExited => []
  }

  ghost predicate ValidMapRun(s: State, steps: seq<MapStep>)
    decreases steps
  {
    steps == [] || (MapEnabled(s, steps[0]) && ValidMapRun(ApplyMap(s, steps[0]), steps[1..]))
  }

  ghost function ExecMap(s: State, steps: seq<MapStep>): State
    requires ValidMapRun(s, steps)
    decreases steps
  {
    if steps == [] then s else ExecMap(ApplyMap(s, steps[0]), steps[1..])
  }

  /**
   From every reachable state in which the client is logged in, not paused, not
   shut down and no one has a signal left to give, the map routine alone brings
   the newest version to the server in at most six steps.
   */
  lemma MapRoutineDelivers(steps: seq<Step>)
    requires ValidRun(Init, steps)
    requires var s := Exec(Init, steps);
             && (forall i :: 0 <= i < |s.changes| ==> s.changes[i].Finished?)
             && s.sh.loggedIn && !s.sh.pausing.paused && !s.sh.closed
             && !s.authPc.NotifyMap? && !s.mapPc.MapExited?
    ensures var s := Exec(Init, steps);
            && |Delivery(s)| <= 6
            && ValidMapRun(s, Delivery(s))
            && ExecMap(s, Delivery(s)).sent == s.version == ExecMap(s, Delivery(s)).version
  {
    RunKeepsInv(Init, steps);
    LastChangeIsNewest(Init, steps);
    DeliveryWorks(Exec(Init, steps));
  }

  ghost predicate Settled(s: State) {
    && Inv(s) && LastIsNewest(s)
    && (forall i :: 0 <= i < |s.changes| ==> s.changes[i].Finished?)
    && s.sh.loggedIn && !s.sh.pausing.paused && !s.sh.closed
    && !s.authPc.NotifyMap? && !s.mapPc.MapExited?
  }

  lemma FreshPollSends(s: State)
    requires Settled(s) && Backlog(s) == 0
    ensures ValidMapRun(s, Delivery(s))
    ensures ExecMap(s, Delivery(s)).sent == s.version == ExecMap(s, Delivery(s)).version
  {
    var a := if s.mapPc.MapTop? then ApplyMap(s, MapChoose) else s;
    var b := if a.mapPc.Chosen? then ApplyMap(a, MapPrepare) else a;
    var c := ApplyMap(b, PollStart);
    assert ExecMap(c, []).sent == s.version;
    assert [PollStart][1..] == [];
    assert ValidMapRun(b, [PollStart]) && ExecMap(b, [PollStart]) == c;
    assert [MapPrepare, PollStart][1..] == [PollStart];
    assert a.mapPc.Chosen? ==> ValidMapRun(a, [MapPrepare, PollStart]) && ExecMap(a, [MapPrepare, PollStart]) == c;
    assert [MapChoose, MapPrepare, PollStart][1..] == [MapPrepare, PollStart];
  }

  /** How many pieces of waiting or stale polling precede the fresh poll. */
  function Backlog(s: State): nat {
    match s.mapPc
    case Chosen(l, _) => if l then 0 else 3
    case Idle(_) => 2
    case Polling(c, _, _) => if CtxDone(s.sh, c) then 4 else 5
    case PollReturned(_, _) => 3
    case AwaitUnpause(_) => 2
    case _ => 0
  }

  lemma DeliveryAdvances(s: State)
    requires Settled(s) && Backlog(s) > 0 && Delivery(s) != []
    ensures var step := Delivery(s)[0];
            && MapEnabled(s, step)
            && var t := ApplyMap(s, step);
            && t.changes == s.changes && t.version == s.version
            && t.sh.loggedIn && !t.sh.pausing.paused && !t.sh.closed && !t.authPc.NotifyMap? && !t.mapPc.MapExited?
            && Delivery(t) == Delivery(s)[1..]
            && Backlog(t) < Backlog(s)
  {
    if s.mapPc.AwaitUnpause? {
      assert s.sh.pausing.closedChans[s.mapPc.ch] == s.mapPc.ch;
    }
  }

  lemma {:induction false} DeliveryWorks(s: State)
    requires Settled(s)
    ensures |Delivery(s)| <= 6
    ensures ValidMapRun(s, Delivery(s)) && ExecMap(s, Delivery(s)).sent == s.version == ExecMap(s, Delivery(s)).version
    decreases Backlog(s)
  {
    if Backlog(s) == 0 {
      FreshPollSends(s);
    } else if Delivery(s) == [] {
      if s.changes != [] {
        assert Covered(s, s.changes[|s.changes| - 1].v);
      }
    } else {
      DeliveryAdvances(s);
      var step := Delivery(s)[0];
      MapKeepsInv(s, step);
      DeliveryWorks(ApplyMap(s, step));
    }
  }

  /** In every run, a map routine that finds the client paused can go on exactly once it is unpaused. */
  lemma PausedRoutineWaits(steps: seq<Step>)
    requires ValidRun(Init, steps) && Exec(Init, steps).mapPc.MapTop? && Exec(Init, steps).sh.pausing.paused
    ensures var t := ApplyMap(Exec(Init, steps), MapChoose);
            && t.mapPc.AwaitUnpause? && !MapEnabled(t, MapUnpaused)
            && MapEnabled(Apply(t, ByCall(Pause(false))), MapUnpaused)
  {
    RunKeepsInv(Init, steps);
    var s := Exec(Init, steps);
    var t := ApplyMap(s, MapChoose);
    var n := |s.sh.pausing.unpauseWaiters|;
    assert t.sh.pausing.unpauseWaiters[n] == t.mapPc.ch;
    assert t.mapPc.ch in t.sh.pausing.unpauseWaiters;
  }

  /** What cancels a live poll. */
  predicate Cancels(s: State, step: Step)
    requires s.mapPc.Polling?
  {
    || (Asks(step) && s.mapPc.answered)
    || (step.ByCall? && (step.d == Pause(true) || step.d.ShutdownCancelMap?))
    || (step.ByMap? && step.m.PollNetmap? && s.sh.newMapCh)
  }

  lemma ChangeCancels(s: State, step: ChangeStep)
    requires ContextsOk(s) && AnswersOk(s) && s.mapPc.Polling? && !CtxDone(s.sh, s.mapPc.ctx) && ChangeEnabled(s, step)
    ensures CtxDone(ApplyChange(s, step).sh, s.mapPc.ctx) <==> Cancels(s, ByChange(step))
  {
  }

  lemma CallCancels(s: State, step: CallStep)
    requires ContextsOk(s) && AnswersOk(s) && s.mapPc.Polling? && !CtxDone(s.sh, s.mapPc.ctx)
    ensures CtxDone(ApplyCall(s.sh, step), s.mapPc.ctx) <==> Cancels(s, ByCall(step))
  {
  }

  lemma MapCancels(s: State, step: MapStep)
    requires ContextsOk(s) && AnswersOk(s) && s.mapPc.Polling? && !CtxDone(s.sh, s.mapPc.ctx) && MapEnabled(s, step)
    ensures CtxDone(ApplyMap(s, step).sh, s.mapPc.ctx) <==> Cancels(s, ByMap(step))
  {
  }

  lemma AuthCancels(s: State, step: AuthStep)
    requires ContextsOk(s) && AnswersOk(s) && s.mapPc.Polling? && !CtxDone(s.sh, s.mapPc.ctx) && AuthEnabled(s, step)
    ensures CtxDone(ApplyAuth(s, step).sh, s.mapPc.ctx) <==> Cancels(s, ByAuth(step))
  {
  }

  /** Whether a token waits after a step. */
  predicate TokenAfter(s: State, step: Step) {
    || (Asks(step) && !s.sh.inPollNetMap)
    || (s.sh.newMapCh && !(step.ByMap? && (step.m.IdleToken? || step.m.PollNetmap?)))
  }

  lemma ChangeAndToken(s: State, step: ChangeStep)
    requires AnswersOk(s) && ChangeEnabled(s, step)
    ensures ApplyChange(s, step).sh.newMapCh <==> TokenAfter(s, ByChange(step))
  {
  }

  lemma CallAndToken(s: State, step: CallStep)
    requires AnswersOk(s)
    ensures ApplyCall(s.sh, step).newMapCh <==> TokenAfter(s, ByCall(step))
  {
  }

  lemma MapAndToken(s: State, step: MapStep)
    requires AnswersOk(s) && MapEnabled(s, step)
    ensures ApplyMap(s, step).sh.newMapCh <==> TokenAfter(s, ByMap(step))
  {
  }

  lemma AuthAndToken(s: State, step: AuthStep)
    requires AnswersOk(s) && AuthEnabled(s, step)
    ensures ApplyAuth(s, step).sh.newMapCh <==> TokenAfter(s, ByAuth(step))
  {
  }

  /**
   In every run, a paused client's map routine holds no live context: pausing
   ends the poll. Neither routine ends before the client is closed.
   */
  lemma PausedMeansCancelled(steps: seq<Step>)
    requires ValidRun(Init, steps)
    ensures var s := Exec(Init, steps);
            && (s.sh.pausing.paused && HoldsCtx(s.mapPc) ==> CtxDone(s.sh, s.mapPc.ctx))
            && (s.mapPc.MapExited? || s.authPc.AuthExited? ==> s.sh.closed)
  {
    RunKeepsOrder(Init, steps);
  }

  /**
   Exactly what cancels a live poll in any run: a request for a new map after
   the server has answered, pausing, the end of a shutdown, or an answer that
   comes while a token waits. A poll not yet answered is left to finish.
   */
  lemma PollIsCancelledExactly(steps: seq<Step>, step: Step)
    requires ValidRun(Init, steps) && Enabled(Exec(Init, steps), step)
    requires var s := Exec(Init, steps); s.mapPc.Polling? && !CtxDone(s.sh, s.mapPc.ctx)
    ensures var s := Exec(Init, steps);
            CtxDone(Apply(s, step).sh, s.mapPc.ctx) <==> Cancels(s, step)
  {
    RunKeepsOrder(Init, steps);
    var s := Exec(Init, steps);
    match step
    case ByChange(c) => ChangeCancels(s, c);
    case ByCall(d) => CallCancels(s, d);
    case ByMap(m) => MapCancels(s, m);
    case ByAuth(a) => AuthCancels(s, a);
  }

  /** Exactly when a token waits after a step: one is asked for with no answered poll to cancel, or was there and is not taken. */
  lemma TokenWaitsExactly(steps: seq<Step>, step: Step)
    requires ValidRun(Init, steps) && Enabled(Exec(Init, steps), step)
    ensures var s := Exec(Init, steps); Apply(s, step).sh.newMapCh <==> TokenAfter(s, step)
  {
    RunKeepsOrder(Init, steps);
    var s := Exec(Init, steps);
    match step
    case ByChange(c) => ChangeAndToken(s, c);
    case ByCall(d) => CallAndToken(s, d);
    case ByMap(m) => MapAndToken(s, m);
    case ByAuth(a) => AuthAndToken(s, a);
  }

  /** A change is reported by a lite update exactly if an answered poll is running, the client is logged in and no other is under way. */
  lemma LiteExactly(steps: seq<Step>, i: nat)
    requires ValidRun(Init, steps) && Enabled(Exec(Init, steps), ByChange(BeginSend(i)))
    requires var s := Exec(Init, steps); s.mapPc.Polling? && !CtxDone(s.sh, s.mapPc.ctx)
    ensures var s := Exec(Init, steps);
            ApplyChange(s, BeginSend(i)).changes[i].Lite? <==>
            s.mapPc.answered && s.sh.loggedIn && forall j :: 0 <= j < |s.changes| ==> !s.changes[j].Lite?
  {
    RunKeepsInv(Init, steps);
    RunKeepsOrder(Init, steps);
  }

  /** No one asks for a login. */
  predicate AsksLogin(step: Step) { step.ByCall? && step.d.WantLogin? && step.d.goal.wantLoggedIn }

  predicate AsksLogout(step: Step) { step.ByCall? && step.d.WantLogin? && !step.d.goal.wantLoggedIn }

  predicate LoggedOut(s: State) {
    && !s.sh.loggedIn && (s.sh.loginGoal.Some? ==> !s.sh.loginGoal.value.wantLoggedIn)
    && (s.authPc.AuthTop? || s.authPc.LoggingOut? || s.authPc.AuthExited?)
    && !s.mapPc.Starting? && !s.mapPc.Polling? && !s.mapPc.PollReturned? && (s.mapPc.Chosen? ==> !s.mapPc.loggedIn)
    && !s.sh.inPollNetMap && s.sent == 0
  }

  ghost predicate NoLite(s: State) { forall i :: 0 <= i < |s.changes| ==> !s.changes[i].Lite? }

  lemma ChangeStaysOut(s: State, step: ChangeStep)
    requires LoggedOut(s) && NoLite(s) && ChangeEnabled(s, step)
    ensures LoggedOut(ApplyChange(s, step)) && NoLite(ApplyChange(s, step))
  {
  }

  lemma CallStaysOut(s: State, step: CallStep)
    requires LoggedOut(s) && !AsksLogin(ByCall(step))
    ensures LoggedOut(s.(sh := ApplyCall(s.sh, step)))
  {
  }

  lemma MapStaysOut(s: State, step: MapStep)
    requires LoggedOut(s) && MapEnabled(s, step)
    ensures LoggedOut(ApplyMap(s, step)) && ApplyMap(s, step).changes == s.changes
  {
  }

  lemma AuthStaysOut(s: State, step: AuthStep)
    requires LoggedOut(s) && AuthEnabled(s, step)
    ensures LoggedOut(ApplyAuth(s, step)) && ApplyAuth(s, step).changes == s.changes
  {
  }

  /** A client that was never asked to log in is not logged in, polls nothing and sends nothing. */
  lemma {:induction false} NothingUnasked(s: State, steps: seq<Step>)
    requires ValidRun(s, steps) && LoggedOut(s) && NoLite(s)
    requires forall i :: 0 <= i < |steps| ==> !AsksLogin(steps[i])
    ensures LoggedOut(Exec(s, steps)) && NoLite(Exec(s, steps))
    decreases steps
  {
    if steps != [] {
      assert !AsksLogin(steps[0]);
      match steps[0] {
        case ByChange(c) => ChangeStaysOut(s, c);
        case ByCall(d) => CallStaysOut(s, d);
        case ByMap(m) => MapStaysOut(s, m);
        case ByAuth(a) => AuthStaysOut(s, a);
      }
      NothingUnasked(Apply(s, steps[0]), steps[1..]);
    }
  }

  predicate StaysIn(s: State) {
    (s.sh.loginGoal.Some? ==> s.sh.loginGoal.value.wantLoggedIn) && !s.authPc.LoggingOut?
  }

  lemma ChangeStaysIn(s: State, step: ChangeStep)
    requires StaysIn(s) && ChangeEnabled(s, step)
    ensures StaysIn(ApplyChange(s, step)) && ApplyChange(s, step).sh.loggedIn == s.sh.loggedIn
  {
  }

  lemma CallStaysIn(s: State, step: CallStep)
    requires StaysIn(s) && !AsksLogout(ByCall(step))
    ensures StaysIn(s.(sh := ApplyCall(s.sh, step))) && ApplyCall(s.sh, step).loggedIn == s.sh.loggedIn
  {
  }

  lemma MapStaysIn(s: State, step: MapStep)
    requires StaysIn(s) && MapEnabled(s, step)
    ensures StaysIn(ApplyMap(s, step)) && ApplyMap(s, step).sh.loggedIn == s.sh.loggedIn
  {
  }

  lemma AuthStaysIn(s: State, step: AuthStep)
    requires StaysIn(s) && AuthEnabled(s, step)
    ensures StaysIn(ApplyAuth(s, step)) && (s.sh.loggedIn ==> ApplyAuth(s, step).sh.loggedIn)
  {
  }

  /** A client that is not asked to log out stays logged in. */
  lemma {:induction false} NoLogoutUnasked(s: State, steps: seq<Step>)
    requires ValidRun(s, steps) && StaysIn(s)
    requires forall i :: 0 <= i < |steps| ==> !AsksLogout(steps[i])
    ensures StaysIn(Exec(s, steps)) && (s.sh.loggedIn ==> Exec(s, steps).sh.loggedIn)
    decreases steps
  {
    if steps != [] {
      assert !AsksLogout(steps[0]);
      match steps[0] {
        case ByChange(c) => ChangeStaysIn(s, c);
        case ByCall(d) => CallStaysIn(s, d);
        case ByMap(m) => MapStaysIn(s, m);
        case ByAuth(a) => AuthStaysIn(s, a);
      }
      NoLogoutUnasked(Apply(s, steps[0]), steps[1..]);
    }
  }

  /** A login or logout that succeeds has reached its goal, which is dropped. */
  lemma GoalIsReached(s: State, step: AuthStep)
    requires AuthEnabled(s, step) && (step.AuthLoginDone? || step.AuthLogoutDone?)
    ensures var t := ApplyAuth(s, step);
            t.sh.loginGoal.None? && (t.sh.loggedIn <==> step.AuthLoginDone?) && (t.authPc.NotifyMap? <==> step.AuthLoginDone?)
  {
  }

  /**
   A login that is asked for is tried; one that needs a visit to a URL shows
   that it does, is no longer synced, and is tried again with the URL.
   */
  lemma LoginIsTried(s: State, goal: LoginGoal)
    requires s.authPc.AuthTop? && goal.wantLoggedIn
    ensures var asked := Apply(s, ByCall(WantLogin(goal)));
            var chosen := ApplyAuth(asked, AuthChoose);
            && chosen.authPc == LoginBegin(goal)
            && var trying := ApplyAuth(chosen, AuthLoginState);
            && trying.authPc == LoggingIn(goal)
            && (trying.sh.state.StateURLVisitRequired? <==> goal.hasURL) && (trying.sh.state.StateAuthenticating? <==> !goal.hasURL)
            && var waiting := ApplyAuth(trying, AuthNeedURL);
            && waiting.sh.state.StateURLVisitRequired? && !waiting.sh.synced
            && var again := ApplyAuth(ApplyAuth(waiting, AuthChoose), AuthLoginState);
            && again.authPc == LoggingIn(LoginGoal(true, true)) && again.sh.state.StateURLVisitRequired?
  {
  }

  // The map routine alone, on its way to a synchronized client

  /** Nothing is left to do: a live, answered poll with the newest version, and no token. */
  predicate Synchronized(s: State) {
    && s.mapPc.Polling? && !CtxDone(s.sh, s.mapPc.ctx) && s.mapPc.answered && !s.sh.newMapCh
    && s.sh.state.StateSynchronized? && s.sent == s.version
  }

  function NextMapStep(s: State): MapStep {
    match s.mapPc
    case MapTop => MapChoose
    case AwaitUnpause(_) => MapUnpaused
    case Chosen(_, _) => MapPrepare
    case Idle(_) => if s.sh.newMapCh then IdleToken else IdleCtxDone
    case Starting(_) => PollStart
    case Polling(ctx, _, _) => if CtxDone(s.sh, ctx) then PollReturn else PollNetmap
    case PollReturned(_, _) => PollFinish
    case MapExited => MapQuit
  }

  /** How many steps are left, given whether a token waits and whether the routine's context is still live. */
  function Remaining(s: State): nat {
    var fromTop: nat := if s.sh.newMapCh then 10 else 4;
    var live := HoldsCtx(s.mapPc) && !CtxDone(s.sh, s.mapPc.ctx);
    var poll: nat := if live then fromTop - 3 else fromTop + 2;
    match s.mapPc
    case MapTop => fromTop
    case AwaitUnpause(_) => fromTop + 1
    case Chosen(loggedIn, _) => if loggedIn then poll + 2 else 6
    case Idle(_) => 5
    case Starting(_) => poll + 1
    case Polling(_, _, _) => poll
    case PollReturned(_, _) => fromTop + 1
    case MapExited => 0
  }

  lemma StepTowardsSync(s: State)
    requires Settled(s) && ContextsOk(s) && AnswersOk(s)
    ensures MapEnabled(s, NextMapStep(s)) && 0 < Remaining(s) <= 14
    ensures var t := ApplyMap(s, NextMapStep(s));
            && t.changes == s.changes && t.version == s.version
            && t.sh.loggedIn && !t.sh.pausing.paused && !t.sh.closed && !t.authPc.NotifyMap? && !t.mapPc.MapExited?
            && (Remaining(s) > 1 ==> Remaining(t) == Remaining(s) - 1)
            && (Remaining(s) == 1 ==> s.mapPc.Polling? && !CtxDone(s.sh, s.mapPc.ctx) && !s.sh.newMapCh)
  {
    if s.mapPc.AwaitUnpause? {
      assert s.sh.pausing.closedChans[s.mapPc.ch] == s.mapPc.ch;
    }
  }

  lemma LastStepSyncs(s: State)
    requires Settled(s) && s.mapPc.Polling? && !CtxDone(s.sh, s.mapPc.ctx) && !s.sh.newMapCh
    ensures MapEnabled(s, PollNetmap) && Synchronized(ApplyMap(s, PollNetmap))
  {
    if s.changes != [] {
      assert Covered(s, s.changes[|s.changes| - 1].v);
    }
  }

  lemma {:induction false} ReachesSync(s: State) returns (steps: seq<MapStep>)
    requires Settled(s) && ContextsOk(s) && AnswersOk(s)
    ensures |steps| == Remaining(s) <= 14 && ValidMapRun(s, steps) && Synchronized(ExecMap(s, steps))
    decreases Remaining(s)
  {
    var step := NextMapStep(s);
    StepTowardsSync(s);
    var t := ApplyMap(s, step);
    if Remaining(s) == 1 {
      LastStepSyncs(s);
      steps := [step];
      assert ValidMapRun(t, []) && ExecMap(t, []) == t;
      assert steps[1..] == [];
    } else {
      MapKeepsInv(s, step);
      MapKeepsContexts(s, step);
      MapKeepsAnswers(s, step);
      var rest := ReachesSync(t);
      steps := [step] + rest;
      assert steps[1..] == rest;
    }
  }

  /**
   From every reachable state in which the client is logged in, not paused, not
   shut down and no one has a signal left to give, there is a schedule of at
   most fourteen steps of the map routine, answers of the server included, to a
   live poll that carries the newest version, with the client synchronized.
   */
  lemma MapRoutineSynchronizes(run: seq<Step>) returns (steps: seq<MapStep>)
    requires ValidRun(Init, run) && Settled(Exec(Init, run))
    ensures |steps| <= 14 && ValidMapRun(Exec(Init, run), steps) && Synchronized(ExecMap(Exec(Init, run), steps))
  {
    RunKeepsOrder(Init, run);
    steps := ReachesSync(Exec(Init, run));
  }

  // The end of the map routine

  function NextQuitStep(s: State): MapStep {
    if s.mapPc.AwaitUnpause? || s.mapPc.Chosen? then MapQuit
    else if s.mapPc.Idle? then IdleCtxDone
    else if s.mapPc.Polling? then PollReturn
    else NextMapStep(s)
  }

  function StepsToQuit(pc: MapPc): nat {
    match pc
    case MapExited => 0
    case AwaitUnpause(_) => 1
    case Chosen(_, _) => 1
    case MapTop => 2
    case Idle(_) => 3
    case PollReturned(_, _) => 3
    case Polling(_, _, _) => 4
    case Starting(_) => 5
  }

  lemma {:induction false} ReachesQuit(s: State) returns (steps: seq<MapStep>)
    requires ContextsOk(s) && s.sh.closed && s.sh.mapCtxDone
    ensures |steps| <= 5 && ValidMapRun(s, steps) && ExecMap(s, steps).mapPc.MapExited?
    ensures |steps| == StepsToQuit(s.mapPc)
    decreases StepsToQuit(s.mapPc)
  {
    if s.mapPc.MapExited? {
      steps := [];
    } else {
      var step := NextQuitStep(s);
      var t := ApplyMap(s, step);
      var rest := ReachesQuit(t);
      steps := [step] + rest;
      assert steps[1..] == rest;
    }
  }

  /** Once a shutdown has begun, the auth routine can end at its next turn, and then the map context is cancelled. */
  lemma ShutdownEndsAuthRoutine(s: State)
    requires s.authPc.AuthTop?
    ensures var t := Apply(s, ByCall(ShutdownBegin));
            AuthEnabled(t, AuthQuit) && Enabled(ApplyAuth(t, AuthQuit), ByCall(ShutdownCancelMap))
  {
  }

  /** Once a shutdown has cancelled the map context, the map routine can end within five steps, wherever it is. */
  lemma ShutdownEndsMapRoutine(run: seq<Step>) returns (steps: seq<MapStep>)
    requires ValidRun(Init, run) && Enabled(Exec(Init, run), ByCall(ShutdownCancelMap))
    ensures var t := Apply(Exec(Init, run), ByCall(ShutdownCancelMap));
            |steps| <= 5 && ValidMapRun(t, steps) && ExecMap(t, steps).mapPc.MapExited?
  {
    RunKeepsOrder(Init, run);
    var s := Exec(Init, run);
    CallKeepsContexts(s, ShutdownCancelMap);
    steps := ReachesQuit(Apply(s, ByCall(ShutdownCancelMap)));
  }
}
