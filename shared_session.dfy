/** The combined trigger-listener and I-V sweep window: the listener holds
    the instrument session, a received trigger lends it to the sweep panel,
    the listener is locked while the sweep runs, and the session comes back
    when the sweep completes or fails. */
module SharedSession {
  import opened Outcome
  import opened PyText
  import opened Channel
  import opened SweepReadback
  import opened TriggerListener

  const BusyStatus: string := "Instrument busy running I-V sweep."
  const UnlockedStatus: string := "Trigger operations unlocked."

  /** The refusal `_guard_if_locked` reports for an action. */
  function BusyText(action: string): string
  {
    "Cannot " + action + " while an I-V sweep is running."
  }

  /** The lock state: the flag, the saved status line, and the status line shown. */
  datatype LockState = LockState(locked: bool, saved: Option<string>, status: string)

  /** `set_instrument_lock`. */
  function SetLock(s: LockState, lock: bool): (r: LockState)
    ensures r.locked == lock
    ensures lock == s.locked ==> r == s
    ensures lock && !s.locked ==> r.saved == Some(s.status) && r.status == BusyStatus
    ensures !lock && s.locked ==> r.saved.None?
  {
    if lock == s.locked then s
    else if lock then LockState(true, Some(s.status), BusyStatus)
    else LockState(false, None, if s.saved.Some? && s.saved.value != [] then s.saved.value else UnlockedStatus)
  }

  /** Locking and then unlocking puts back the status line that was shown, or the unlocked
      notice when it was empty. */
  lemma LockUnlockRestores(status: string)
    ensures SetLock(SetLock(LockState(false, None, status), true), false) ==
            LockState(false, None, if status != [] then status else UnlockedStatus)
  {
  }

  /** Setting the same lock twice is the same as setting it once. */
  lemma SetLockIdempotent(s: LockState, lock: bool)
    ensures SetLock(SetLock(s, lock), lock) == SetLock(s, lock)
  {
  }

  /** `TriggerReceiveGUI`: the listener panel with the lock the sweep holds. */
  class LockingListener {
    const panel: ListenerPanel
    var locked: bool
    var statusBeforeLock: Option<string>

    constructor (p: ListenerPanel)
      ensures panel == p && !locked && statusBeforeLock.None?
    {
      panel := p;
      locked := false;
      statusBeforeLock := None;
    }

    function Lock(): LockState
      reads this, panel
    {
      LockState(locked, statusBeforeLock, panel.status)
    }

    method SetInstrumentLock(lock: bool)
      modifies this, panel
      ensures Lock() == SetLock(old(Lock()), lock)
      ensures panel.inst == old(panel.inst) && panel.scriptLoaded == old(panel.scriptLoaded)
      ensures panel.waiting == old(panel.waiting) && panel.cancelRequested == old(panel.cancelRequested)
      ensures panel.waitContext == old(panel.waitContext)
    {
      if lock == locked {
        return;
      }
      locked := lock;
      if lock {
        statusBeforeLock := Some(panel.status);
        panel.status := BusyStatus;
      } else {
        if statusBeforeLock.Some? && statusBeforeLock.value != [] {
          panel.status := statusBeforeLock.value;
        } else {
          panel.status := UnlockedStatus;
        }
        statusBeforeLock := None;
      }
    }

    /** The guarded `start_wait`: refused while locked. */
    method StartWait(timeoutText: string, edgeText: string, lineText: string, choice: string, script: seq<Command>)
      returns (r: Result<WaitRequest>)
      modifies panel, panel.inst
      ensures panel.inst == old(panel.inst)
      ensures locked ==> r == Err(BusyText("start a new wait")) && panel.waiting == old(panel.waiting) &&
                         panel.cancelRequested == old(panel.cancelRequested) &&
                         panel.status == old(panel.status) && panel.scriptLoaded == old(panel.scriptLoaded)
      ensures locked ==> (panel.inst != null ==> panel.inst.written == old(panel.inst.written))
      ensures r.Ok? ==> !locked && panel.waiting && !panel.cancelRequested
      ensures !locked && old(panel.inst) == null ==> r == Err(NotReadyText) && panel.scriptLoaded == old(panel.scriptLoaded)
      ensures !locked && old(panel.inst) != null ==>
                var s := StartSpec(old(panel.scriptLoaded), old(panel.waiting), old(panel.inst.faults), timeoutText,
                                   edgeText, lineText, choice, script);
                r == s.result && panel.scriptLoaded == s.loaded &&
                panel.inst.written == old(panel.inst.written) + s.log && panel.inst.faults == s.faults
      ensures !locked && r.Ok? ==>
                panel.waitContext == Some(WaitContext(r.value.line, choice, EdgeLabel(r.value.edge), r.value.timeout))
      ensures !locked && r.Err? ==>
                panel.waiting == old(panel.waiting) && panel.cancelRequested == old(panel.cancelRequested) &&
                panel.waitContext == old(panel.waitContext)
      ensures panel.status == old(panel.status)
    {
      if locked {
        return Err(BusyText("start a new wait"));
      }
      r := panel.StartWait(timeoutText, edgeText, lineText, choice, script);
    }

    /** The guarded `setup_trigger`. */
    method SetupTrigger(edgeText: string, lineText: string, choice: string, script: seq<Command>)
      returns (r: Result<Command>)
      modifies panel, panel.inst
      ensures panel.inst == old(panel.inst) && panel.waiting == old(panel.waiting)
      ensures locked ==> r == Err(BusyText("configure the trigger")) && panel.scriptLoaded == old(panel.scriptLoaded)
      ensures locked ==> (panel.inst != null ==> panel.inst.written == old(panel.inst.written))
      ensures !locked && old(panel.inst) == null ==> r == Err(NotReadyText) && panel.scriptLoaded == old(panel.scriptLoaded)
      ensures !locked && old(panel.inst) != null ==>
                var s := SetupSpec(old(panel.scriptLoaded), old(panel.inst.faults), edgeText, lineText, choice, script);
                r == s.result && panel.scriptLoaded == s.loaded &&
                panel.inst.written == old(panel.inst.written) + s.log && panel.inst.faults == s.faults
      ensures panel.cancelRequested == old(panel.cancelRequested) && panel.waitContext == old(panel.waitContext)
      ensures panel.status == old(panel.status)
    {
      if locked {
        return Err(BusyText("configure the trigger"));
      }
      r := panel.SetupTrigger(edgeText, lineText, choice, script);
    }

    /** The guarded `disconnect`: the session stays while locked. */
    method Disconnect() returns (r: Result<bool>)
      modifies panel, panel.inst
      ensures locked ==> r == Err(BusyText("disconnect")) && panel.inst == old(panel.inst) &&
                         panel.waiting == old(panel.waiting) && panel.scriptLoaded == old(panel.scriptLoaded)
      ensures locked && panel.inst != null ==> panel.inst.written == old(panel.inst.written)
      ensures !locked ==> r == Ok(true) && panel.inst == null && !panel.waiting
    {
      if locked {
        return Err(BusyText("disconnect"));
      }
      panel.Disconnect();
      r := Ok(true);
    }

    /** The overridden `_async_complete_wait`: the base handling runs first, and the trigger
        callback is due only for a TRIGGER result. */
    method CompleteWait(reply: WaitReply) returns (outcome: WaitOutcome, callback: bool)
      modifies panel
      ensures outcome == FinishOutcome(reply.result, reply.error, old(panel.cancelRequested))
      ensures callback <==> reply.result.Some? && Upper(reply.result.value) == "TRIGGER"
      ensures callback <==> outcome == TriggerReceived
      ensures !panel.waiting && !panel.cancelRequested && panel.waitContext.None?
      ensures panel.inst == old(panel.inst) && panel.scriptLoaded == old(panel.scriptLoaded)
    {
      var triggered := reply.result.Some? && Upper(reply.result.value) == "TRIGGER";
      outcome := panel.CompleteWait(reply);
      callback := triggered;
    }
  }

  const AttachRefused: string := "Cannot attach a new instrument while a sweep is running."

  /** `IntegratedIVSweepApp`: the sweep panel's session and whether it is borrowed.  `running`
      is whether the sweep thread is alive. */
  class IntegratedSweep {
    var inst: Instrument?
    var scriptLoaded: bool
    var sharedSession: bool
    var running: bool

    constructor ()
      ensures inst == null && !scriptLoaded && !sharedSession && !running
    {
      inst := null;
      scriptLoaded := false;
      sharedSession := false;
      running := false;
    }

    /** `attach_shared_instrument`: refused while a sweep runs; otherwise the borrowed session
        is installed and its script counts as not loaded. */
    method AttachSharedInstrument(i: Instrument?) returns (r: Result<bool>)
      modifies this
      ensures running == old(running)
      ensures old(running) ==> r == Err(AttachRefused) && inst == old(inst) &&
                               scriptLoaded == old(scriptLoaded) && sharedSession == old(sharedSession)
      ensures !old(running) ==> r == Ok(true) && inst == i && !scriptLoaded && sharedSession
    {
      if running {
        return Err(AttachRefused);
      }
      inst := i;
      scriptLoaded := false;
      sharedSession := true;
      r := Ok(true);
    }

    /** `release_shared_instrument`: only a borrowed session is given back. */
    method ReleaseSharedInstrument()
      modifies this
      ensures running == old(running) && !sharedSession
      ensures old(sharedSession) ==> inst == null && !scriptLoaded
      ensures !old(sharedSession) ==> inst == old(inst) && scriptLoaded == old(scriptLoaded)
    {
      if !sharedSession {
        return;
      }
      inst := null;
      scriptLoaded := false;
      sharedSession := false;
    }

    /** `disconnect_instrument`: skipped for a borrowed session; otherwise the session is
        dropped.  Returns whether it was dropped. */
    method DisconnectInstrument() returns (dropped: bool)
      modifies this
      ensures dropped <==> !old(sharedSession)
      ensures running == old(running) && sharedSession == old(sharedSession)
      ensures dropped ==> inst == null && !scriptLoaded
      ensures !dropped ==> inst == old(inst) && scriptLoaded == old(scriptLoaded)
    {
      if sharedSession {
        return false;
      }
      inst := null;
      scriptLoaded := false;
      dropped := true;
    }

    /** The base `start_sweep`: a thread starts when there is a session and the parameters
        are valid (a thread still alive is asked to stop, and replaced). */
    method BaseStartSweep(params: Result<SweepParams>)
      modifies this
      ensures running == (old(running) || (inst != null && params.Ok?))
      ensures inst == old(inst) && scriptLoaded == old(scriptLoaded) && sharedSession == old(sharedSession)
    {
      if inst == null || params.Err? {
        return;
      }
      running := true;
    }
  }

  /** What `_handle_trigger` did with a trigger. */
  datatype TriggerResponse = IgnoredWhileRunning | NoInstrument | SweepStarted | SweepNotStarted

  /** `ReceiveAndIVApp`: the two panels wired together. */
  class ReceiveAndIV {
    const listener: LockingListener
    const sweep: IntegratedSweep

    constructor (l: LockingListener, s: IntegratedSweep)
      requires !l.locked && !s.running && !s.sharedSession
      ensures listener == l && sweep == s && Valid()
    {
      listener := l;
      sweep := s;
    }

    /** The listener is locked exactly while the sweep runs, and a borrowed session is the
        listener's own and is only held by a running sweep. */
    predicate Valid()
      reads this, listener, listener.panel, sweep
    {
      listener.locked == sweep.running &&
      (sweep.sharedSession ==> sweep.running && sweep.inst == listener.panel.inst)
    }

    /** `_on_iv_run_state_changed`. */
    method NotifyRunState(running: bool)
      modifies listener, listener.panel
      ensures listener.Lock() == SetLock(old(listener.Lock()), running)
      ensures listener.panel.inst == old(listener.panel.inst)
      ensures listener.panel.waiting == old(listener.panel.waiting)
    {
      listener.SetInstrumentLock(running);
    }

    /** The overridden `start_sweep`: a started sweep reports running. */
    method StartSweep(params: Result<SweepParams>)
      requires Valid()
      modifies sweep, listener, listener.panel
      ensures Valid()
      ensures sweep.running == (old(sweep.running) || (sweep.inst != null && params.Ok?))
      ensures sweep.inst == old(sweep.inst) && sweep.sharedSession == old(sweep.sharedSession)
      ensures listener.panel.inst == old(listener.panel.inst)
    {
      sweep.BaseStartSweep(params);
      if sweep.running {
        NotifyRunState(true);
      }
    }

    /** `_handle_trigger`: a trigger arriving while a sweep runs is ignored, and one without a
        session is rejected; otherwise the session is lent, the listener locked and the sweep
        started, and when it does not start the session is taken back and the listener
        unlocked. */
    method HandleTrigger(params: Result<SweepParams>) returns (r: TriggerResponse)
      requires Valid()
      modifies sweep, listener, listener.panel
      ensures Valid()
      ensures listener.panel.inst == old(listener.panel.inst) && listener.panel.waiting == old(listener.panel.waiting)
      ensures old(sweep.running) ==>
                r == IgnoredWhileRunning && sweep.inst == old(sweep.inst) && listener.Lock() == old(listener.Lock())
      ensures !old(sweep.running) && listener.panel.inst == null ==>
                r == NoInstrument && sweep.inst == old(sweep.inst) && listener.Lock() == old(listener.Lock())
      ensures !old(sweep.running) && listener.panel.inst != null ==>
                (r == SweepStarted <==> params.Ok?) && (r == SweepStarted || r == SweepNotStarted)
      ensures r == SweepStarted ==>
                sweep.running && sweep.sharedSession && sweep.inst == listener.panel.inst && !sweep.scriptLoaded &&
                listener.Lock() == SetLock(old(listener.Lock()), true)
      ensures r == SweepNotStarted ==>
                !sweep.running && !sweep.sharedSession && sweep.inst == null &&
                listener.Lock() == SetLock(SetLock(old(listener.Lock()), true), false)
    {
      if sweep.running {
        return IgnoredWhileRunning;
      }
      if listener.panel.inst == null {
        return NoInstrument;
      }
      var attached := sweep.AttachSharedInstrument(listener.panel.inst);
      listener.SetInstrumentLock(true);
      sweep.BaseStartSweep(params);
      if sweep.running {
        NotifyRunState(true);
        return SweepStarted;
      }
      sweep.ReleaseSharedInstrument();
      listener.SetInstrumentLock(false);
      r := SweepNotStarted;
    }

    /** `_on_sweep_complete` and `_on_sweep_failed`: the thread has ended, the listener is
        unlocked, and a borrowed session is given back. */
    method SweepEnded()
      requires Valid()
      modifies sweep, listener, listener.panel
      ensures Valid()
      ensures !sweep.running && !listener.locked && !sweep.sharedSession
      ensures old(sweep.sharedSession) ==> sweep.inst == null
      ensures !old(sweep.sharedSession) ==> sweep.inst == old(sweep.inst)
      ensures listener.panel.inst == old(listener.panel.inst)
      ensures listener.Lock() == SetLock(old(listener.Lock()), false)
    {
      sweep.running := false;
      NotifyRunState(false);
      if sweep.sharedSession {
        sweep.ReleaseSharedInstrument();
      }
    }

    /** A finished wait: the listener's completion runs, and a TRIGGER result then hands the
        session to the sweep. */
    method WaitFinished(reply: WaitReply, params: Result<SweepParams>)
      returns (outcome: WaitOutcome, response: Option<TriggerResponse>)
      requires Valid()
      modifies sweep, listener, listener.panel
      ensures Valid()
      ensures outcome == FinishOutcome(reply.result, reply.error, old(listener.panel.cancelRequested))
      ensures response.Some? <==> outcome == TriggerReceived
      ensures !listener.panel.waiting
    {
      var callback;
      outcome, callback := listener.CompleteWait(reply);
      response := None;
      if callback {
        var handled := HandleTrigger(params);
        response := Some(handled);
      }
    }

    /** The listener's `disconnect` through the lock: while a sweep holds the session the
        session stays, so the borrowed handle remains the listener's. */
    method ListenerDisconnect() returns (r: Result<bool>)
      requires Valid()
      modifies listener.panel, listener.panel.inst
      ensures Valid()
      ensures sweep.running ==> r.Err? && listener.panel.inst == old(listener.panel.inst)
    {
      r := listener.Disconnect();
    }

    /** The listener's `start_wait` through the lock. */
    method ListenerStartWait(timeoutText: string, edgeText: string, lineText: string, choice: string,
                             script: seq<Command>) returns (r: Result<WaitRequest>)
      requires Valid()
      modifies listener.panel, listener.panel.inst
      ensures Valid()
      ensures sweep.running ==> r.Err? && listener.panel.waiting == old(listener.panel.waiting)
    {
      r := listener.StartWait(timeoutText, edgeText, lineText, choice, script);
    }
  }
}
