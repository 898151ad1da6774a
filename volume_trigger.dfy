/**
 * The background panic trigger of VolumeTriggerService.kt.
 *
 * Two small state machines share one service object:
 *  - the press recogniser: every volume-change tick compares the level of
 *    each tracked audio stream with the level stored at the previous tick;
 *    a tick on which some stream went down is ONE press, and three presses
 *    inside a window anchored at the first of them fire the alarm;
 *  - the alarm session: an `isAlarmActive` guard makes start and stop
 *    no-ops when repeated, and every start posts a stop 30 s later that a
 *    manual stop never cancels.
 *
 * The functions below specify both machines on values; the class at the end
 * is the service itself, whose methods are proved against them.
 */
module VolumeTrigger {
  import opened Wrappers
  import Decimal

  const ActionTrigger: string := "com.example.night_walkers_app.VOLUME_TRIGGER"
  const ActionStopAlarm: string := "com.example.night_walkers_app.STOP_ALARM"
  const WindowMs: int := 4000
  const RequiredPresses: int := 3
  /** Delay of the auto-stop posted by every alarm start. */
  const FailsafeDelayMs: int := 30000
  /** `Service.START_STICKY`, the value onStartCommand always returns. */
  const StartSticky: int := 1

  const Instruction: string := "Press volume down 3 times quickly to trigger alarm."
  const PressesPrefix: string := "Detected presses: "

  /** The audio streams the service watches, in the order it scans them. */
  datatype Stream = Music | Ring | Notification | Alarm

  const TrackedStreams: seq<Stream> := [Music, Ring, Notification, Alarm]

  /** What `AudioManager.getStreamVolume` answers at one tick. */
  type Levels = Stream -> int

  // ---------------------------------------------------------------------
  // Per-tick scan of the tracked streams

  lemma TrackedStreamsDistinct()
    ensures forall j, k :: 0 <= j < k < |TrackedStreams| ==> TrackedStreams[j] != TrackedStreams[k]
  {
  }

  lemma AllStreamsTracked(s: Stream)
    ensures s in TrackedStreams
  {
    match s
    case Music => assert TrackedStreams[0] == s;
    case Ring => assert TrackedStreams[1] == s;
    case Notification => assert TrackedStreams[2] == s;
    case Alarm => assert TrackedStreams[3] == s;
  }

  /** Stream `s` has a stored level and is now strictly below it. */
  predicate WentDown(last: map<Stream, int>, current: Levels, s: Stream) {
    s in last && current(s) < last[s]
  }

  /** Some of the first `n` tracked streams went down. */
  predicate DownAmong(last: map<Stream, int>, current: Levels, n: nat)
    requires n <= |TrackedStreams|
  {
    exists j :: 0 <= j < n && WentDown(last, current, TrackedStreams[j])
  }

  /** The tick counts as a press, however many streams went down. */
  predicate IsPress(last: map<Stream, int>, current: Levels) {
    DownAmong(last, current, |TrackedStreams|)
  }

  /** The stored levels once the first `n` tracked streams are recorded. */
  function RefreshedUpTo(last: map<Stream, int>, current: Levels, n: nat): map<Stream, int>
    requires n <= |TrackedStreams|
  {
    last + map s | s in TrackedStreams[..n] :: current(s)
  }

  /** Stream `n` is read before it is recorded, so the scan sees its previous level. */
  lemma ScanStep(last: map<Stream, int>, current: Levels, n: nat)
    requires n < |TrackedStreams|
    ensures var s := TrackedStreams[n];
      && RefreshedUpTo(last, current, n + 1) == RefreshedUpTo(last, current, n)[s := current(s)]
      && (s in RefreshedUpTo(last, current, n) <==> s in last)
      && (s in last ==> RefreshedUpTo(last, current, n)[s] == last[s])
      && (DownAmong(last, current, n + 1) <==> DownAmong(last, current, n) || WentDown(last, current, s))
  {
    var s := TrackedStreams[n];
    assert TrackedStreams[..n + 1] == TrackedStreams[..n] + [s];
    TrackedStreamsDistinct();
    assert s !in TrackedStreams[..n];
  }

  /** The stored levels after a tick: every tracked stream holds its current level. */
  function Refreshed(last: map<Stream, int>, current: Levels): (r: map<Stream, int>)
    ensures forall s :: s in r && r[s] == current(s)
  {
    assert TrackedStreams[..|TrackedStreams|] == TrackedStreams;
    assert forall s :: s in TrackedStreams by {
      forall s ensures s in TrackedStreams {
        AllStreamsTracked(s);
      }
    }
    RefreshedUpTo(last, current, |TrackedStreams|)
  }

  /** The order of the scan does not matter: a press is a decrease of any stored stream. */
  lemma PressIffSomeStreamDown(last: map<Stream, int>, current: Levels)
    ensures IsPress(last, current) <==> exists s :: WentDown(last, current, s)
  {
    if exists s :: WentDown(last, current, s) {
      var s :| WentDown(last, current, s);
      AllStreamsTracked(s);
    }
  }

  // ---------------------------------------------------------------------
  // Press window

  /** `pressCount` and `firstPressAt` of the service. */
  datatype Window = Window(pressCount: int, firstPressAt: int)

  const Reset: Window := Window(0, 0)

  predicate WindowValid(w: Window) {
    && 0 <= w.pressCount < RequiredPresses
    && (w.pressCount == 0 ==> w.firstPressAt == 0)
  }

  datatype PressOutcome = PressOutcome(window: Window, fired: bool)

  /** One press at time `now`. */
  function Press(w: Window, now: int): (r: PressOutcome)
    ensures now - w.firstPressAt > WindowMs ==> r == PressOutcome(Window(1, now), false)
    ensures now - w.firstPressAt <= WindowMs ==>
      r == if w.pressCount + 1 >= RequiredPresses then PressOutcome(Reset, true)
           else PressOutcome(Window(w.pressCount + 1, w.firstPressAt), false)
    ensures WindowValid(w) ==> WindowValid(r.window)
  {
    var started := if now - w.firstPressAt > WindowMs then Window(1, now)
                   else Window(w.pressCount + 1, w.firstPressAt);
    if started.pressCount >= RequiredPresses then PressOutcome(Reset, true)
    else PressOutcome(started, false)
  }

  datatype FoldOutcome = FoldOutcome(window: Window, fires: nat)

  /** A run of presses at the given times, and how often the alarm fired. */
  function PressAll(w: Window, times: seq<int>): (r: FoldOutcome)
    decreases |times|
  {
    if times == [] then FoldOutcome(w, 0)
    else
      var p := Press(w, times[0]);
      var rest := PressAll(p.window, times[1..]);
      FoldOutcome(rest.window, rest.fires + if p.fired then 1 else 0)
  }

  lemma {:induction false} PressAllKeepsValid(w: Window, times: seq<int>)
    requires WindowValid(w)
    ensures WindowValid(PressAll(w, times).window)
    decreases |times|
  {
    if times != [] {
      PressAllKeepsValid(Press(w, times[0]).window, times[1..]);
    }
  }

  /** Every firing uses up three presses: presses are never counted twice. */
  lemma {:induction false} FiringsNeedThreePresses(w: Window, times: seq<int>)
    requires WindowValid(w)
    ensures var r := PressAll(w, times);
      RequiredPresses * r.fires + r.window.pressCount <= w.pressCount + |times|
    decreases |times|
  {
    if times != [] {
      FiringsNeedThreePresses(Press(w, times[0]).window, times[1..]);
    }
  }

  /** Three presses within the window of the first fire exactly once and reset it. */
  lemma ThreeQuickPressesFire(t1: int, t2: int, t3: int)
    requires t1 > WindowMs
    requires t2 - t1 <= WindowMs && t3 - t1 <= WindowMs
    ensures PressAll(Reset, [t1, t2, t3]) == FoldOutcome(Reset, 1)
  {
    assert [t1, t2, t3][1..] == [t2, t3];
    assert [t2, t3][1..] == [t3];
    var w1 := Window(1, t1);
    assert Press(Reset, t1) == PressOutcome(w1, false);
    assert Press(w1, t2) == PressOutcome(Window(2, t1), false);
    assert Press(Window(2, t1), t3) == PressOutcome(Reset, true);
    assert PressAll(Reset, [t3][1..]) == FoldOutcome(Reset, 0);
    assert PressAll(Window(2, t1), [t3]) == FoldOutcome(Reset, 1);
    assert PressAll(w1, [t2, t3]) == FoldOutcome(Reset, 1);
  }

  /** A second press more than 4000 ms after the first starts over at count 1. */
  lemma LateSecondPressStartsOver(t1: int, t2: int)
    requires t1 > WindowMs && t2 - t1 > WindowMs
    ensures PressAll(Reset, [t1, t2]) == FoldOutcome(Window(1, t2), 0)
  {
    assert [t1, t2][1..] == [t2];
    var w1 := Window(1, t1);
    assert Press(Reset, t1) == PressOutcome(w1, false);
    assert Press(w1, t2) == PressOutcome(Window(1, t2), false);
    assert PressAll(Window(1, t2), [t2][1..]) == FoldOutcome(Window(1, t2), 0);
    assert PressAll(w1, [t2]) == FoldOutcome(Window(1, t2), 0);
  }

  /**
   * The window runs from the first press and is not refreshed by later
   * ones: a third press close to the second but late for the first
   * starts over.
   */
  lemma WindowAnchoredAtFirstPress(t1: int, t2: int, t3: int)
    requires t1 > WindowMs
    requires t2 - t1 <= WindowMs && t3 - t1 > WindowMs
    ensures PressAll(Reset, [t1, t2, t3]) == FoldOutcome(Window(1, t3), 0)
  {
    assert [t1, t2, t3][1..] == [t2, t3];
    assert [t2, t3][1..] == [t3];
    var w1, w2, w3 := Window(1, t1), Window(2, t1), Window(1, t3);
    assert Press(Reset, t1) == PressOutcome(w1, false);
    assert Press(w1, t2) == PressOutcome(w2, false);
    assert Press(w2, t3) == PressOutcome(w3, false);
    assert PressAll(w3, [t3][1..]) == FoldOutcome(w3, 0);
    assert PressAll(w2, [t3]) == FoldOutcome(w3, 0);
    assert PressAll(w1, [t2, t3]) == FoldOutcome(w3, 0);
  }

  // ---------------------------------------------------------------------
  // Alarm session

  /** Whether the platform finds a ringtone to play and has a vibrator. */
  datatype Device = Device(ringtoneFound: bool, hasVibrator: bool)

  /**
   * `isAlarmActive`, whether `ringtone` is held, the two actuators, and the
   * deadlines of the auto-stops posted to the main handler and not yet run.
   */
  datatype AlarmState = AlarmState(
    active: bool,
    ringtone: bool,
    soundOn: bool,
    vibrating: bool,
    pendingStops: seq<int>)

  const Idle: AlarmState := AlarmState(false, false, false, false, [])

  predicate AlarmValid(a: AlarmState) {
    && (!a.active ==> !a.ringtone && !a.soundOn && !a.vibrating)
    && (a.soundOn ==> a.ringtone)
  }

  function StartAlarm(a: AlarmState, now: int, device: Device): (r: AlarmState)
    ensures a.active ==> r == a
    ensures !a.active ==>
      && r.active
      && r.ringtone == r.soundOn == device.ringtoneFound
      && r.vibrating == device.hasVibrator
      && r.pendingStops == a.pendingStops + [now + FailsafeDelayMs]
    ensures AlarmValid(a) ==> AlarmValid(r)
  {
    if a.active then a
    else AlarmState(true, device.ringtoneFound, device.ringtoneFound, device.hasVibrator,
                    a.pendingStops + [now + FailsafeDelayMs])
  }

  function StopAlarm(a: AlarmState): (r: AlarmState)
    ensures !a.active ==> r == a
    ensures a.active ==> !r.active && !r.ringtone && !r.soundOn && !r.vibrating
    ensures r.pendingStops == a.pendingStops
    ensures AlarmValid(a) ==> AlarmValid(r)
  {
    if !a.active then a
    else a.(active := false, ringtone := false, soundOn := false, vibrating := false)
  }

  /** A second start while active neither restarts the actuators nor posts a second auto-stop. */
  lemma StartIsIdempotent(a: AlarmState, t1: int, d1: Device, t2: int, d2: Device)
    ensures StartAlarm(StartAlarm(a, t1, d1), t2, d2) == StartAlarm(a, t1, d1)
    ensures |StartAlarm(StartAlarm(a, t1, d1), t2, d2).pendingStops| <= |a.pendingStops| + 1
  {
  }

  lemma StopIsIdempotent(a: AlarmState)
    ensures StopAlarm(StopAlarm(a)) == StopAlarm(a)
  {
  }

  predicate AnyDue(pending: seq<int>, now: int) {
    exists i :: 0 <= i < |pending| && pending[i] <= now
  }

  /** The deadlines still pending at `now`, in posting order. */
  function NotDue(pending: seq<int>, now: int): (r: seq<int>)
    ensures forall i :: 0 <= i < |r| ==> r[i] > now
    ensures forall d :: d in r <==> d in pending && d > now
    ensures |r| <= |pending|
    ensures forall d :: multiset(r)[d] == if d > now then multiset(pending)[d] else 0
  {
    if pending == [] then []
    else
      var last := pending[|pending| - 1];
      assert pending == pending[..|pending| - 1] + [last];
      assert multiset(pending) == multiset(pending[..|pending| - 1]) + multiset{last};
      NotDue(pending[..|pending| - 1], now) + if last > now then [last] else []
  }

  lemma AnyDueStep(pending: seq<int>, i: nat, now: int)
    requires i < |pending|
    ensures AnyDue(pending[..i + 1], now) <==> AnyDue(pending[..i], now) || pending[i] <= now
  {
  }

  // ---------------------------------------------------------------------
  // The whole service

  /** The fields of the service; `shownPressCount` is the count the notification shows. */
  datatype ServiceState = ServiceState(
    lastVolumes: map<Stream, int>,
    window: Window,
    alarm: AlarmState,
    shownPressCount: int)

  predicate ServiceValid(s: ServiceState) {
    && WindowValid(s.window)
    && AlarmValid(s.alarm)
    && 0 <= s.shownPressCount < RequiredPresses
  }

  /** The state `onCreate` leaves: every tracked stream recorded, nothing counted, no alarm. */
  function Created(current: Levels): (r: ServiceState)
    ensures ServiceValid(r)
    ensures forall s :: s in r.lastVolumes && r.lastVolumes[s] == current(s)
    ensures !r.alarm.active && r.alarm.pendingStops == [] && r.window.pressCount == 0
      && r.shownPressCount == 0
  {
    ServiceState(Refreshed(map[], current), Reset, Idle, 0)
  }

  function Start(s: ServiceState, now: int, device: Device): (r: ServiceState) {
    s.(alarm := StartAlarm(s.alarm, now, device))
  }

  /** `stopBackgroundAlarm`: also puts the notification back to the instruction text. */
  function Stop(s: ServiceState): (r: ServiceState)
    ensures !s.alarm.active ==> r == s
    ensures s.alarm.active ==> r.shownPressCount == 0
    ensures r.alarm == StopAlarm(s.alarm) && r.window == s.window && r.lastVolumes == s.lastVolumes
  {
    if !s.alarm.active then s else s.(alarm := StopAlarm(s.alarm), shownPressCount := 0)
  }

  datatype TickOutcome = TickOutcome(state: ServiceState, broadcast: bool)

  /** `onVolumeChanged`; `broadcast` is whether ACTION_TRIGGER is sent. */
  function VolumeChanged(s: ServiceState, now: int, current: Levels, device: Device): (r: TickOutcome)
    ensures forall st :: st in r.state.lastVolumes && r.state.lastVolumes[st] == current(st)
    ensures !IsPress(s.lastVolumes, current) ==>
      !r.broadcast && r.state == s.(lastVolumes := r.state.lastVolumes)
    ensures IsPress(s.lastVolumes, current) ==>
      var p := Press(s.window, now);
      && r.state.window == p.window
      && r.broadcast == p.fired
      && r.state.shownPressCount == p.window.pressCount
    ensures r.broadcast ==> r.state.window == Reset && r.state.alarm == StartAlarm(s.alarm, now, device)
    ensures !r.broadcast ==> r.state.alarm == s.alarm
    ensures ServiceValid(s) ==> ServiceValid(r.state)
  {
    var scanned := s.(lastVolumes := Refreshed(s.lastVolumes, current));
    if !IsPress(s.lastVolumes, current) then TickOutcome(scanned, false)
    else
      var p := Press(s.window, now);
      var counted := scanned.(window := p.window, shownPressCount := p.window.pressCount);
      if p.fired then TickOutcome(Start(counted, now, device), true)
      else TickOutcome(counted, false)
  }

  /** The main handler running every auto-stop due at `now`. */
  function RunDue(s: ServiceState, now: int): (r: ServiceState)
    ensures r.alarm.pendingStops == NotDue(s.alarm.pendingStops, now)
    ensures AnyDue(s.alarm.pendingStops, now) ==> !r.alarm.active
    ensures !AnyDue(s.alarm.pendingStops, now) ==> r.alarm.active == s.alarm.active
    ensures r.window == s.window && r.lastVolumes == s.lastVolumes
    ensures !AnyDue(s.alarm.pendingStops, now) ==>
      r == s.(alarm := s.alarm.(pendingStops := r.alarm.pendingStops))
    ensures AnyDue(s.alarm.pendingStops, now) ==>
      r == Stop(s).(alarm := Stop(s).alarm.(pendingStops := r.alarm.pendingStops))
    ensures ServiceValid(s) ==> ServiceValid(r)
  {
    var t := if AnyDue(s.alarm.pendingStops, now) then Stop(s) else s;
    t.(alarm := t.alarm.(pendingStops := NotDue(s.alarm.pendingStops, now)))
  }

  /** `onStartCommand`: only ACTION_STOP_ALARM has an effect. */
  function StartCommand(s: ServiceState, action: Option<string>): (r: ServiceState)
    ensures action == Some(ActionStopAlarm) ==> r == Stop(s)
    ensures action != Some(ActionStopAlarm) ==> r == s
  {
    if action == Some(ActionStopAlarm) then Stop(s) else s
  }

  /** Without a manual stop, a session ends when its own auto-stop falls due. */
  lemma FailsafeEndsSession(s: ServiceState, t: int, device: Device)
    requires !s.alarm.active
    ensures var r := RunDue(Start(s, t, device), t + FailsafeDelayMs);
      !r.alarm.active && !r.alarm.soundOn && !r.alarm.vibrating && !r.alarm.ringtone
  {
  }

  /** Before its deadline, and with no older auto-stop due, a session keeps running. */
  lemma SessionRunsUntilFailsafe(s: ServiceState, t: int, device: Device, now: int)
    requires !s.alarm.active && now < t + FailsafeDelayMs
    requires forall i :: 0 <= i < |s.alarm.pendingStops| ==> s.alarm.pendingStops[i] > now
    ensures RunDue(Start(s, t, device), now).alarm.active
  {
  }

  /**
   * The auto-stop of a session is not cancelled by a manual stop, so it
   * ends the next session early: a session started at `t2` is stopped at
   * `t1 + 30000`, before its own deadline `t2 + 30000`.
   */
  lemma StaleFailsafeStopsNextSession(s: ServiceState, t1: int, t2: int, device: Device)
    requires !s.alarm.active && t1 <= t2
    ensures var second := Start(Stop(Start(s, t1, device)), t2, device);
      && second.alarm.active
      && !RunDue(second, t1 + FailsafeDelayMs).alarm.active
  {
    var second := Start(Stop(Start(s, t1, device)), t2, device);
    var p := second.alarm.pendingStops;
    assert p[|s.alarm.pendingStops|] == t1 + FailsafeDelayMs;
  }

  /** One volume-change tick: its time and the levels read then. */
  datatype Tick = Tick(now: int, current: Levels)

  datatype RunOutcome = RunOutcome(state: ServiceState, broadcasts: nat)

  /** A run of ticks, and how many ACTION_TRIGGER broadcasts it sent. */
  function RunTicks(s: ServiceState, ticks: seq<Tick>, device: Device): (r: RunOutcome)
    decreases |ticks|
  {
    if ticks == [] then RunOutcome(s, 0)
    else
      var t := VolumeChanged(s, ticks[0].now, ticks[0].current, device);
      var rest := RunTicks(t.state, ticks[1..], device);
      RunOutcome(rest.state, rest.broadcasts + if t.broadcast then 1 else 0)
  }

  /** The times of the ticks of a run that count as presses. */
  function PressTimes(last: map<Stream, int>, ticks: seq<Tick>): (r: seq<int>)
    ensures |r| <= |ticks|
    decreases |ticks|
  {
    if ticks == [] then []
    else
      (if IsPress(last, ticks[0].current) then [ticks[0].now] else [])
      + PressTimes(Refreshed(last, ticks[0].current), ticks[1..])
  }

  /** The stored levels after a run of ticks. */
  function LevelsAfter(last: map<Stream, int>, ticks: seq<Tick>): (r: map<Stream, int>)
    decreases |ticks|
  {
    if ticks == [] then last else LevelsAfter(Refreshed(last, ticks[0].current), ticks[1..])
  }

  /**
   * One more tick adds at most one press time: its own, exactly when it is a
   * press against the levels stored before it.
   */
  lemma {:induction false} PressTimesOnePerTick(last: map<Stream, int>, ticks: seq<Tick>, t: Tick)
    ensures PressTimes(last, ticks + [t]) ==
      PressTimes(last, ticks) + if IsPress(LevelsAfter(last, ticks), t.current) then [t.now] else []
    ensures LevelsAfter(last, ticks + [t]) == Refreshed(LevelsAfter(last, ticks), t.current)
    decreases |ticks|
  {
    var own := if IsPress(LevelsAfter(last, ticks), t.current) then [t.now] else [];
    if ticks == [] {
      assert [t][1..] == [];
      assert PressTimes(last, [t]) == own + PressTimes(Refreshed(last, t.current), []);
    } else {
      var head := ticks[0];
      var next := Refreshed(last, head.current);
      var first := if IsPress(last, head.current) then [head.now] else [];
      assert (ticks + [t])[0] == head;
      assert (ticks + [t])[1..] == ticks[1..] + [t];
      PressTimesOnePerTick(next, ticks[1..], t);
      assert LevelsAfter(last, ticks) == LevelsAfter(next, ticks[1..]);
      calc {
        PressTimes(last, ticks + [t]);
        first + PressTimes(next, ticks[1..] + [t]);
        first + (PressTimes(next, ticks[1..]) + own);
        (first + PressTimes(next, ticks[1..])) + own;
        PressTimes(last, ticks) + own;
      }
    }
  }

  /**
   * On a run of ticks the press window evolves exactly as under the presses
   * alone, and the service broadcasts once per firing.
   */
  lemma {:induction false} TicksFoldPresses(s: ServiceState, ticks: seq<Tick>, device: Device)
    ensures var r := RunTicks(s, ticks, device);
      var p := PressAll(s.window, PressTimes(s.lastVolumes, ticks));
      r.state.window == p.window && r.broadcasts == p.fires
    decreases |ticks|
  {
    if ticks != [] {
      var tick := ticks[0];
      var t := VolumeChanged(s, tick.now, tick.current, device);
      var later := PressTimes(Refreshed(s.lastVolumes, tick.current), ticks[1..]);
      TicksFoldPresses(t.state, ticks[1..], device);
      if IsPress(s.lastVolumes, tick.current) {
        var times := [tick.now] + later;
        assert times[0] == tick.now && times[1..] == later;
      } else {
        assert PressTimes(s.lastVolumes, ticks) == later;
      }
    }
  }

  /** Every ACTION_TRIGGER broadcast of a run takes three press ticks. */
  lemma BroadcastsNeedThreePressTicks(s: ServiceState, ticks: seq<Tick>, device: Device)
    requires ServiceValid(s)
    ensures RequiredPresses * RunTicks(s, ticks, device).broadcasts
      <= s.window.pressCount + |PressTimes(s.lastVolumes, ticks)|
  {
    TicksFoldPresses(s, ticks, device);
    FiringsNeedThreePresses(s.window, PressTimes(s.lastVolumes, ticks));
    PressAllKeepsValid(s.window, PressTimes(s.lastVolumes, ticks));
  }

  /** A re-trigger while the alarm rings still broadcasts, but changes nothing in the session. */
  lemma RetriggerWhileActive(s: ServiceState, now: int, current: Levels, device: Device)
    requires s.alarm.active
    ensures VolumeChanged(s, now, current, device).state.alarm == s.alarm
    ensures VolumeChanged(s, now, current, device).broadcast <==>
      IsPress(s.lastVolumes, current) && Press(s.window, now).fired
  {
  }

  // ---------------------------------------------------------------------
  // Notification text

  /** The status line of the service notification for a press count. */
  function StatusText(count: int): (r: string)
    ensures count <= 0 ==> r == Instruction
    ensures count > 0 ==>
      r == PressesPrefix + Decimal.NatText(count) + "/" + Decimal.IntText(RequiredPresses)
  {
    if count > 0 then PressesPrefix + Decimal.IntText(count) + "/" + Decimal.IntText(RequiredPresses)
    else Instruction
  }

  /** The count can be read back from the status line. */
  lemma StatusTextShowsCount(count: int)
    requires count > 0
    ensures var r := StatusText(count);
      && |PressesPrefix| + 2 < |r|
      && Decimal.AllDigits(r[|PressesPrefix|..|r| - 2])
      && Decimal.ParseNat(r[|PressesPrefix|..|r| - 2]) == count
  {
    var r := StatusText(count);
    var digits := Decimal.NatText(count);
    assert r == PressesPrefix + digits + "/3";
    assert r[|PressesPrefix|..|r| - 2] == digits;
    Decimal.ParseNatText(count);
  }

  /** Distinct positive counts show distinct lines; no count shows the instruction. */
  lemma StatusTextDistinguishesCounts(a: int, b: int)
    ensures a > 0 ==> StatusText(a) != Instruction
    ensures a > 0 && StatusText(a) == StatusText(b) ==> a == b
  {
    if a > 0 {
      StatusTextShowsCount(a);
      if b > 0 {
        StatusTextShowsCount(b);
      }
    }
  }

  // ---------------------------------------------------------------------
  // The service object

  class VolumeTriggerService {
    var lastVolumes: map<Stream, int>
    var pressCount: int
    var firstPressAt: int
    /** `ringtone != null` */
    var ringtone: bool
    var isAlarmActive: bool
    /** Deadlines of the posted `stopBackgroundAlarm` callbacks not yet run. */
    var pendingStops: seq<int>
    /** The count passed to the last `updateNotification`. */
    var shownPressCount: int
    ghost var soundOn: bool
    ghost var vibrating: bool

    ghost function State(): ServiceState
      reads this
    {
      ServiceState(lastVolumes, Window(pressCount, firstPressAt),
                   AlarmState(isAlarmActive, ringtone, soundOn, vibrating, pendingStops),
                   shownPressCount)
    }

    ghost predicate Valid()
      reads this
    {
      ServiceValid(State())
    }

    /** The status line the service notification currently shows. */
    function NotificationText(): (r: string)
      reads this
      ensures Valid() ==> (r == Instruction <==> shownPressCount == 0)
    {
      StatusTextDistinguishesCounts(shownPressCount, 0);
      StatusText(shownPressCount)
    }

    /** `onCreate`: records the current level of every tracked stream. */
    constructor (current: Levels)
      ensures Valid() && State() == Created(current)
    {
      var levels := map[];
      var i := 0;
      while i < |TrackedStreams|
        invariant 0 <= i <= |TrackedStreams|
        invariant levels == RefreshedUpTo(map[], current, i)
      {
        var stream := TrackedStreams[i];
        assert TrackedStreams[..i + 1] == TrackedStreams[..i] + [stream];
        levels := levels[stream := current(stream)];
        i := i + 1;
      }
      lastVolumes := levels;
      pressCount, firstPressAt := 0, 0;
      ringtone, isAlarmActive := false, false;
      pendingStops := [];
      shownPressCount := 0;
      soundOn, vibrating := false, false;
    }

    /** One volume-change tick at time `now`; `broadcast` says whether ACTION_TRIGGER is sent. */
    method OnVolumeChanged(now: int, current: Levels, device: Device) returns (broadcast: bool)
      requires Valid()
      modifies this
      ensures Valid()
      ensures TickOutcome(State(), broadcast) == VolumeChanged(old(State()), now, current, device)
    {
      var detectedVolumeDown := ScanStreams(current);
      if !detectedVolumeDown {
        return false;
      }
      if now - firstPressAt > WindowMs {
        firstPressAt := now;
        pressCount := 1;
      } else {
        pressCount := pressCount + 1;
      }
      shownPressCount := pressCount;
      broadcast := false;
      if pressCount >= RequiredPresses {
        pressCount := 0;
        firstPressAt := 0;
        shownPressCount := 0;
        TriggerBackgroundAlarm(now, device);
        broadcast := true;
      }
    }

    /** The loop of `onVolumeChanged` over the tracked streams. */
    method ScanStreams(current: Levels) returns (detectedVolumeDown: bool)
      modifies this`lastVolumes
      ensures lastVolumes == Refreshed(old(lastVolumes), current)
      ensures detectedVolumeDown == IsPress(old(lastVolumes), current)
    {
      detectedVolumeDown := false;
      var i := 0;
      while i < |TrackedStreams|
        invariant 0 <= i <= |TrackedStreams|
        invariant lastVolumes == RefreshedUpTo(old(lastVolumes), current, i)
        invariant detectedVolumeDown == DownAmong(old(lastVolumes), current, i)
      {
        var stream := TrackedStreams[i];
        var level := current(stream);
        ScanStep(old(lastVolumes), current, i);
        if stream in lastVolumes && level < lastVolumes[stream] {
          detectedVolumeDown := true;
        }
        lastVolumes := lastVolumes[stream := level];
        i := i + 1;
      }
    }

    /** Starts the alarm unless it is already active. */
    method TriggerBackgroundAlarm(now: int, device: Device)
      requires Valid()
      modifies this
      ensures Valid()
      ensures State() == Start(old(State()), now, device)
    {
      if isAlarmActive {
        return;
      }
      isAlarmActive := true;
      ringtone := device.ringtoneFound;
      soundOn := device.ringtoneFound;
      vibrating := device.hasVibrator;
      pendingStops := pendingStops + [now + FailsafeDelayMs];
    }

    /** Stops the alarm if it is active; posted auto-stops stay pending. */
    method StopBackgroundAlarm()
      requires Valid()
      modifies this
      ensures Valid()
      ensures State() == Stop(old(State()))
    {
      if !isAlarmActive {
        return;
      }
      isAlarmActive := false;
      soundOn := false;
      ringtone := false;
      vibrating := false;
      shownPressCount := 0;
    }

    /** `onStartCommand`; an intent without an action is `None`. */
    method OnStartCommand(action: Option<string>) returns (r: int)
      requires Valid()
      modifies this
      ensures Valid()
      ensures r == StartSticky
      ensures State() == StartCommand(old(State()), action)
    {
      if action == Some(ActionStopAlarm) {
        StopBackgroundAlarm();
      }
      r := StartSticky;
    }

    /** The main handler reaching time `now`: every posted auto-stop due by then runs. */
    method RunDueCallbacks(now: int)
      requires Valid()
      modifies this
      ensures Valid()
      ensures State() == RunDue(old(State()), now)
    {
      var queue := pendingStops;
      var kept := [];
      var i := 0;
      while i < |queue|
        invariant 0 <= i <= |queue|
        invariant Valid()
        invariant pendingStops == queue
        invariant kept == NotDue(queue[..i], now)
        invariant State() == if AnyDue(queue[..i], now) then Stop(old(State())) else old(State())
      {
        AnyDueStep(queue, i, now);
        assert queue[..i + 1][..i] == queue[..i];
        if queue[i] <= now {
          StopBackgroundAlarm();
        } else {
          kept := kept + [queue[i]];
        }
        i := i + 1;
      }
      assert queue[..i] == queue;
      pendingStops := kept;
    }
  }

  lemma StopServiceIsIdempotent(s: ServiceState)
    ensures Stop(Stop(s)) == Stop(s)
  {
  }

  /**
   * Session 1 starts at 10 s and is stopped by hand; session 2 starts at
   * 20 s; the auto-stop session 1 posted ends session 2 at 40 s instead of
   * 50 s.
   */
  method StaleFailsafeScenario() returns (activeAt39: bool, activeAt40: bool)
    ensures activeAt39 && !activeAt40
  {
    var device := Device(true, true);
    var service := new VolumeTriggerService((s: Stream) => 7);
    service.TriggerBackgroundAlarm(10000, device);
    service.StopBackgroundAlarm();
    service.TriggerBackgroundAlarm(20000, device);
    service.RunDueCallbacks(39999);
    activeAt39 := service.isAlarmActive;
    service.RunDueCallbacks(40000);
    activeAt40 := service.isAlarmActive;
  }
}
