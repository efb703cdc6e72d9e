/** The decision rules of the alarm evaluator, as pure functions, and the
    evaluator seen as a state machine over a trace of events. The class in
    module Service is specified by these functions; the lemmas here state
    what the rules promise over single events and over whole traces. */
module AlarmRules {
  import opened Data

  datatype Option<T> = None | Some(value: T)

  /** The alarm status a decision writes to the store, if any, as a
      sequence of zero or one `setAlarmStatus` calls. */
  function Written(w: Option<AlarmStatus>): seq<AlarmStatus>
  {
    if w.Some? then [w.value] else []
  }

  /** The store's alarm status after a decision `w` is applied to `alarm`. */
  function Apply(w: Option<AlarmStatus>, alarm: AlarmStatus): AlarmStatus
  {
    if w.Some? then w.value else alarm
  }

  /** One rung up the ladder, capped at Alarm. */
  function Escalate(a: AlarmStatus): (r: AlarmStatus)
    ensures Rank(a) <= Rank(r) <= Rank(a) + 1
    ensures r == a <==> a == Alarm
  {
    match a
    case NoAlarm => PendingAlarm
    case PendingAlarm => Alarm
    case Alarm => Alarm
  }

  /** Alarm write caused by `changeSensorActivationStatus(sensor, true)`.
      `wasActive` is the sensor's flag before the call. Activating an
      inactive sensor while armed raises the alarm one rung; re-activating
      an active one raises PendingAlarm to Alarm. Nothing is written while
      disarmed. */
  function OnActivation(arming: ArmingStatus, alarm: AlarmStatus, wasActive: bool): (w: Option<AlarmStatus>)
    ensures arming == Disarmed ==> w == None
    ensures w.Some? ==> Rank(w.value) == Rank(alarm) + 1
    ensures !wasActive ==> (w.Some? <==> arming != Disarmed && alarm != Alarm)
    ensures wasActive ==> (w.Some? <==> arming != Disarmed && alarm == PendingAlarm)
  {
    if arming == Disarmed then None
    else if wasActive then
      (if alarm == PendingAlarm then Some(Alarm) else None)
    else if alarm == Alarm then None
    else Some(Escalate(alarm))
  }

  /** Alarm write caused by `changeSensorActivationStatus(sensor, false)`.
      `allInactive` is whether every sensor of the store is inactive once
      the sensor has been switched off. Only a pending alarm is ever
      cleared; Alarm is sticky and an already inactive sensor changes
      nothing. */
  function OnDeactivation(alarm: AlarmStatus, wasActive: bool, allInactive: bool): (w: Option<AlarmStatus>)
    ensures w.Some? ==> w.value == NoAlarm
    ensures w.Some? <==> wasActive && alarm == PendingAlarm && allInactive
  {
    if wasActive && alarm == PendingAlarm && allInactive then Some(NoAlarm) else None
  }

  /** Alarm write caused by `processImage` once the classifier has given
      its verdict `containsCat`. */
  function OnImage(arming: ArmingStatus, containsCat: bool, allInactive: bool): (w: Option<AlarmStatus>)
    ensures w == Some(Alarm) <==> containsCat && arming == ArmedHome
    ensures w == Some(NoAlarm) <==> !containsCat && allInactive
    ensures w == None <==> (containsCat && arming != ArmedHome) || (!containsCat && !allInactive)
  {
    if containsCat then
      (if arming == ArmedHome then Some(Alarm) else None)
    else if allInactive then Some(NoAlarm)
    else None
  }

  /** Alarm write caused by `setArmingStatus(status)`, given the retained
      cat verdict. */
  function OnArming(status: ArmingStatus, catDetected: bool): (w: Option<AlarmStatus>)
    ensures w == Some(NoAlarm) <==> status == Disarmed
    ensures w == Some(Alarm) <==> status == ArmedHome && catDetected
    ensures w == None <==> status == ArmedAway || (status == ArmedHome && !catDetected)
  {
    match status
    case Disarmed => Some(NoAlarm)
    case ArmedHome => if catDetected then Some(Alarm) else None
    case ArmedAway => None
  }

  /** The evaluator's observable state: the store's arming and alarm
      status and the evaluator's private cat memory. */
  datatype Monitor = Monitor(arming: ArmingStatus, alarm: AlarmStatus, catDetected: bool)
  {
    /** Disarming always wins: no alarm while disarmed. */
    predicate Quiet()
    {
      arming == Disarmed ==> alarm == NoAlarm
    }
  }

  /** One call into the evaluator, with what it observes of the sensors. */
  datatype Event =
    | SensorChange(wasActive: bool, active: bool, allInactiveAfter: bool)
    | ImageProcessed(containsCat: bool, allInactive: bool)
    | ArmingChanged(status: ArmingStatus)

  function AlarmWrite(m: Monitor, e: Event): Option<AlarmStatus>
  {
    match e
    case SensorChange(wasActive, active, allInactiveAfter) =>
      if active then OnActivation(m.arming, m.alarm, wasActive)
      else OnDeactivation(m.alarm, wasActive, allInactiveAfter)
    case ImageProcessed(containsCat, allInactive) => OnImage(m.arming, containsCat, allInactive)
    case ArmingChanged(status) => OnArming(status, m.catDetected)
  }

  function Step(m: Monitor, e: Event): Monitor
  {
    var alarm := Apply(AlarmWrite(m, e), m.alarm);
    match e
    case SensorChange(_, _, _) => m.(alarm := alarm)
    case ImageProcessed(containsCat, _) => m.(alarm := alarm, catDetected := containsCat)
    case ArmingChanged(status) => m.(arming := status, alarm := alarm)
  }

  /** The state after a trace of events, applied first to last. */
  function Run(m: Monitor, es: seq<Event>): Monitor
    decreases |es|
  {
    if es == [] then m else Run(Step(m, es[0]), es[1..])
  }

  /** A negative image with no active sensor, or disarming: the only
      events that take the monitor out of Alarm. */
  predicate Clears(e: Event)
  {
    e == ArmingChanged(Disarmed) || (e.ImageProcessed? && !e.containsCat && e.allInactive)
  }

  lemma {:induction false} RunAppend(m: Monitor, a: seq<Event>, b: seq<Event>)
    ensures Run(m, a + b) == Run(Run(m, a), b)
    decreases |a|
  {
    if a == [] {
      assert a + b == b;
    } else {
      assert (a + b)[1..] == a[1..] + b;
      RunAppend(Step(m, a[0]), a[1..], b);
    }
  }

  /** Every event keeps "no alarm while disarmed". */
  lemma StepKeepsQuiet(m: Monitor, e: Event)
    requires m.Quiet()
    ensures Step(m, e).Quiet()
  {
  }

  /** No trace of events, however long, raises an alarm while disarmed. */
  lemma {:induction false} RunKeepsQuiet(m: Monitor, es: seq<Event>)
    requires m.Quiet()
    ensures Run(m, es).Quiet()
    decreases |es|
  {
    if es != [] {
      StepKeepsQuiet(m, es[0]);
      RunKeepsQuiet(Step(m, es[0]), es[1..]);
    }
  }

  /** Sensor activity alone never takes the monitor out of Alarm. */
  lemma {:induction false} AlarmStickyUnderSensorChanges(m: Monitor, es: seq<Event>)
    requires m.alarm == Alarm
    requires forall i :: 0 <= i < |es| ==> es[i].SensorChange?
    ensures Run(m, es).alarm == Alarm
    decreases |es|
  {
    if es != [] {
      AlarmStickyUnderSensorChanges(Step(m, es[0]), es[1..]);
    }
  }

  /** A trace that leaves Alarm holds a disarm or a clearing negative image. */
  lemma {:induction false} AlarmLeftOnlyByClearing(m: Monitor, es: seq<Event>)
    requires m.alarm == Alarm
    requires Run(m, es).alarm != Alarm
    ensures exists i :: 0 <= i < |es| && Clears(es[i])
    decreases |es|
  {
    if Clears(es[0]) {
      assert Clears(es[0]);
    } else {
      assert Step(m, es[0]).alarm == Alarm;
      AlarmLeftOnlyByClearing(Step(m, es[0]), es[1..]);
      var i :| 0 <= i < |es[1..]| && Clears(es[1..][i]);
      assert Clears(es[i + 1]);
    }
  }

  /** Sensor activations never lower the alarm. */
  lemma {:induction false} ActivationsNeverLowerAlarm(m: Monitor, es: seq<Event>)
    requires forall i :: 0 <= i < |es| ==> es[i].SensorChange? && es[i].active
    ensures Rank(Run(m, es).alarm) >= Rank(m.alarm)
    decreases |es|
  {
    if es != [] {
      ActivationsNeverLowerAlarm(Step(m, es[0]), es[1..]);
    }
  }

  /** Two activations of inactive sensors while armed take NoAlarm to Alarm. */
  lemma TwoActivationsRaiseAlarm(m: Monitor, x: bool, y: bool)
    requires m.arming != Disarmed && m.alarm == NoAlarm
    ensures Step(m, SensorChange(false, true, x)).alarm == PendingAlarm
    ensures Run(m, [SensorChange(false, true, x), SensorChange(false, true, y)]).alarm == Alarm
  {
    var es := [SensorChange(false, true, x), SensorChange(false, true, y)];
    var m1 := Step(m, es[0]);
    assert Run(m, es) == Run(m1, es[1..]);
    assert Run(m1, es[1..]) == Run(Step(m1, es[1]), es[1..][1..]);
    assert es[1..][1..] == [];
  }

  /** Switching off a sensor that is already off writes nothing and
      changes nothing, whatever the alarm status. */
  lemma InactiveDeactivationIsNoOp(m: Monitor, allInactive: bool)
    ensures AlarmWrite(m, SensorChange(false, false, allInactive)) == None
    ensures Step(m, SensorChange(false, false, allInactive)) == m
  {
  }

  /** The arming status is exactly what the last arming event set. */
  lemma {:induction false} ArmingOnlyChangedByArmingEvents(m: Monitor, es: seq<Event>)
    requires forall i :: 0 <= i < |es| ==> !es[i].ArmingChanged?
    ensures Run(m, es).arming == m.arming
    decreases |es|
  {
    if es != [] {
      ArmingOnlyChangedByArmingEvents(Step(m, es[0]), es[1..]);
    }
  }

  /** The cat verdict of an image is retained until the next image. */
  lemma {:induction false} CatVerdictRetained(m: Monitor, containsCat: bool, allInactive: bool, es: seq<Event>)
    requires forall i :: 0 <= i < |es| ==> !es[i].ImageProcessed?
    ensures Run(m, [ImageProcessed(containsCat, allInactive)] + es).catDetected == containsCat
    decreases |es|
  {
    CatMemoryUnchanged(Step(m, ImageProcessed(containsCat, allInactive)), es);
    assert ([ImageProcessed(containsCat, allInactive)] + es)[1..] == es;
  }

  lemma {:induction false} CatMemoryUnchanged(m: Monitor, es: seq<Event>)
    requires forall i :: 0 <= i < |es| ==> !es[i].ImageProcessed?
    ensures Run(m, es).catDetected == m.catDetected
    decreases |es|
  {
    if es != [] {
      CatMemoryUnchanged(Step(m, es[0]), es[1..]);
    }
  }

  /** A cat seen in an image, followed by any events but further images,
      raises Alarm the moment the system is armed at home. */
  lemma RetainedCatAlarmsOnArmHome(m: Monitor, allInactive: bool, es: seq<Event>)
    requires forall i :: 0 <= i < |es| ==> !es[i].ImageProcessed?
    ensures Run(m, [ImageProcessed(true, allInactive)] + es + [ArmingChanged(ArmedHome)]).alarm == Alarm
  {
    var prefix := [ImageProcessed(true, allInactive)] + es;
    CatVerdictRetained(m, true, allInactive, es);
    RunAppend(m, prefix, [ArmingChanged(ArmedHome)]);
    assert Run(Run(m, prefix), [ArmingChanged(ArmedHome)]) == Step(Run(m, prefix), ArmingChanged(ArmedHome));
  }
}
