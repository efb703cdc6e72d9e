/** The alarm-state evaluator (com.udacity.catpoint.service.SecurityService).
    The security repository it talks to is represented by fields of the
    service: the sensor set, the arming status and the alarm status, with
    one log per repository write so that which writes happened, and how
    often, is part of the state. */
module Service {
  import opened Data
  import opened AlarmRules

  /** Adding a new element to a set adds it once to the set's multiset. */
  lemma MultisetOfSetAdd<T>(a: set<T>, x: T)
    requires x !in a
    ensures multiset(a + {x}) == multiset(a) + multiset{x}
  {
  }

  class SecurityService {
    // Repository state.
    var sensors: set<Sensor>
    var armingStatus: ArmingStatus
    var alarmStatus: AlarmStatus
    // Repository writes, oldest first: setAlarmStatus and setArmingStatus;
    // updateSensor calls are kept as a multiset, since set iteration has no order.
    var alarmStatusWrites: seq<AlarmStatus>
    var armingStatusWrites: seq<ArmingStatus>
    var sensorUpdates: multiset<Sensor>
    // The verdict on the most recently processed image.
    var catDetected: bool

    /** A service over a repository holding `sensors`, `arming` and `alarm`. */
    constructor (sensors: set<Sensor>, arming: ArmingStatus, alarm: AlarmStatus)
      ensures this.sensors == sensors && armingStatus == arming && alarmStatus == alarm
      ensures alarmStatusWrites == [] && armingStatusWrites == [] && sensorUpdates == multiset{}
      ensures !catDetected
    {
      this.sensors := sensors;
      armingStatus := arming;
      alarmStatus := alarm;
      alarmStatusWrites := [];
      armingStatusWrites := [];
      sensorUpdates := multiset{};
      catDetected := false;
    }

    /** The state the alarm rules speak about. */
    function Model(): Monitor
      reads this
    {
      Monitor(armingStatus, alarmStatus, catDetected)
    }

    /** The service's getAlarmStatus: the repository's current alarm status. */
    function GetAlarmStatus(): (r: AlarmStatus)
      reads this
      ensures r == Model().alarm
    {
      alarmStatus
    }

    /** The repository's getArmingStatus: the persisted arming status. */
    function GetArmingStatus(): (r: ArmingStatus)
      reads this
      ensures r == Model().arming
    {
      armingStatus
    }

    /** The sensors of the repository that are currently active. */
    function ActiveSensors(): set<Sensor>
      reads this, sensors
    {
      set s | s in sensors && s.active
    }

    /** True iff no sensor of the repository is active (so, for an empty
        repository, true). */
    function CheckAllSensorsInactive(): (r: bool)
      reads this, sensors
      ensures r <==> ActiveSensors() == {}
    {
      assert forall s :: s in sensors && s.active ==> s in ActiveSensors();
      forall s :: s in sensors ==> !s.active
    }

    /** The repository's setAlarmStatus. */
    method WriteAlarmStatus(status: AlarmStatus)
      modifies this
      ensures alarmStatus == status && alarmStatusWrites == old(alarmStatusWrites) + [status]
      ensures sensors == old(sensors) && armingStatus == old(armingStatus) && catDetected == old(catDetected)
      ensures armingStatusWrites == old(armingStatusWrites) && sensorUpdates == old(sensorUpdates)
    {
      alarmStatus := status;
      alarmStatusWrites := alarmStatusWrites + [status];
    }

    /** Sets `sensor` to `active` and updates the alarm. The sensor need not
        belong to the repository; when it does, the change is seen there. */
    method ChangeSensorActivationStatus(sensor: Sensor, active: bool)
      modifies this, sensor
      ensures sensor.active == active
      ensures sensors == old(sensors)
      ensures sensorUpdates == old(sensorUpdates) + multiset{sensor}
      ensures var e := SensorChange(old(sensor.active), active, CheckAllSensorsInactive());
              && Model() == Step(old(Model()), e)
              && alarmStatusWrites == old(alarmStatusWrites) + Written(AlarmWrite(old(Model()), e))
      ensures armingStatusWrites == old(armingStatusWrites)
      ensures active ==> Rank(alarmStatus) >= Rank(old(alarmStatus))
      ensures !active ==> Rank(alarmStatus) <= Rank(old(alarmStatus))
      ensures old(Model()).Quiet() ==> Model().Quiet()
    {
      var wasActive := sensor.active;
      sensor.active := active;
      sensorUpdates := sensorUpdates + multiset{sensor};
      if active {
        if armingStatus != Disarmed {
          if wasActive {
            if alarmStatus == PendingAlarm {
              WriteAlarmStatus(Alarm);
            }
          } else if alarmStatus == NoAlarm {
            WriteAlarmStatus(PendingAlarm);
          } else if alarmStatus == PendingAlarm {
            WriteAlarmStatus(Alarm);
          }
        }
      } else if wasActive && alarmStatus == PendingAlarm && CheckAllSensorsInactive() {
        WriteAlarmStatus(NoAlarm);
      }
    }

    /** Records the verdict on a new image and updates the alarm. */
    method ProcessImage(containsCat: bool)
      modifies this
      ensures catDetected == containsCat
      ensures var e := ImageProcessed(containsCat, CheckAllSensorsInactive());
              && Model() == Step(old(Model()), e)
              && alarmStatusWrites == old(alarmStatusWrites) + Written(AlarmWrite(old(Model()), e))
      ensures sensors == old(sensors) && sensorUpdates == old(sensorUpdates)
      ensures armingStatusWrites == old(armingStatusWrites)
      ensures old(Model()).Quiet() ==> Model().Quiet()
    {
      catDetected := containsCat;
      if containsCat {
        if armingStatus == ArmedHome {
          WriteAlarmStatus(Alarm);
        }
      } else if CheckAllSensorsInactive() {
        WriteAlarmStatus(NoAlarm);
      }
    }

    /** Persists the arming status. Disarming clears the alarm; arming
        switches every repository sensor off and persists it, and arming at home with a
        cat in memory raises Alarm. */
    method SetArmingStatus(status: ArmingStatus)
      modifies this, sensors
      ensures armingStatus == status && armingStatusWrites == old(armingStatusWrites) + [status]
      ensures Model() == Step(old(Model()), ArmingChanged(status))
      ensures alarmStatusWrites == old(alarmStatusWrites) + Written(OnArming(status, old(catDetected)))
      ensures sensors == old(sensors)
      ensures status != Disarmed ==> forall s :: s in sensors ==> !s.active
      ensures status != Disarmed ==> sensorUpdates == old(sensorUpdates) + multiset(sensors)
      ensures status == Disarmed ==> sensorUpdates == old(sensorUpdates)
      ensures status == Disarmed ==> forall s :: s in sensors ==> s.active == old(s.active)
      ensures old(Model()).Quiet() ==> Model().Quiet()
    {
      if status == Disarmed {
        WriteAlarmStatus(NoAlarm);
      } else {
        if status == ArmedHome && catDetected {
          WriteAlarmStatus(Alarm);
        }
        ResetAllSensors();
      }
      armingStatus := status;
      armingStatusWrites := armingStatusWrites + [status];
    }

    /** Switches every repository sensor off and persists each of them. */
    method ResetAllSensors()
      modifies this, sensors
      ensures forall s :: s in sensors ==> !s.active
      ensures sensorUpdates == old(sensorUpdates) + multiset(sensors)
      ensures sensors == old(sensors) && armingStatus == old(armingStatus) && alarmStatus == old(alarmStatus)
      ensures catDetected == old(catDetected)
      ensures alarmStatusWrites == old(alarmStatusWrites) && armingStatusWrites == old(armingStatusWrites)
    {
      var all := sensors;
      var pending := all;
      ghost var done: set<Sensor> := {};
      var persisted: multiset<Sensor> := multiset{};
      while pending != {}
        modifies all
        invariant pending <= all && done == all - pending
        invariant forall s :: s in done ==> !s.active
        invariant persisted == multiset(done)
        decreases pending
      {
        var s :| s in pending;
        MultisetOfSetAdd(done, s);
        s.active := false;
        persisted := persisted + multiset{s};
        pending := pending - {s};
        done := done + {s};
      }
      sensorUpdates := sensorUpdates + persisted;
    }
  }
}
