/** Client code that drives the service through the situations the
    SecurityServiceTest suite sets up, and asserts what the suite expects.
    Each method verifies from the contracts of Service alone. A repository
    status the suite leaves unstubbed is a parameter here; an unstubbed
    sensor set is empty. An unstubbed status getter returns null in the
    suite, and the service compares it with `==`, so null acts as "not
    DISARMED" and "not ARMED_HOME". Two methods say so in a requires:
    SensorActivatedWhileAlreadyActive (arming is not Disarmed) and
    CatDetectedThenArmedHome (arming is not ArmedHome). Every other
    parameter ranges over all values. */
module ServiceScenarios {
  import opened Data
  import opened Service

  /** Activating a sensor while armed: NoAlarm becomes PendingAlarm and
      PendingAlarm becomes Alarm; the sensor is active and persisted. */
  method ArmedAndSensorActivated(armed: ArmingStatus, initial: AlarmStatus, expected: AlarmStatus)
    requires (armed == ArmedHome && initial == NoAlarm && expected == PendingAlarm)
          || (armed == ArmedAway && initial == PendingAlarm && expected == Alarm)
  {
    var door := new Sensor("door", Door);
    var service := new SecurityService({}, armed, initial);
    service.ChangeSensorActivationStatus(door, true);
    assert door.active;
    assert service.alarmStatusWrites == [expected];
    assert service.sensorUpdates == multiset{door};
  }

  /** Deactivating an active sensor that is not in the repository, whose
      sensors are all inactive: PendingAlarm is cleared, Alarm is not
      written at all. */
  method AlarmChangeInSensor(arming: ArmingStatus, initial: AlarmStatus, expected: AlarmStatus)
    requires (initial == PendingAlarm && expected == NoAlarm) || (initial == Alarm && expected == Alarm)
  {
    var door := new Sensor("door", Door);
    door.SetActive(true);
    var window := new Sensor("window", Window);
    var motion := new Sensor("motion", Motion);
    var service := new SecurityService({window, motion}, arming, initial);
    service.ChangeSensorActivationStatus(door, false);
    assert service.CheckAllSensorsInactive();
    if expected == NoAlarm {
      assert service.alarmStatusWrites == [NoAlarm];
    } else {
      assert service.alarmStatusWrites == [];
    }
  }

  /** The deactivation of one repository sensor is seen through the shared
      reference, and another active sensor keeps the check false. */
  method AllInactiveFalseWhileAnotherIsActive(arming: ArmingStatus, alarm: AlarmStatus)
  {
    var door := new Sensor("door", Door);
    door.SetActive(true);
    var window := new Sensor("window", Window);
    window.SetActive(true);
    var service := new SecurityService({window, door}, arming, alarm);
    service.ChangeSensorActivationStatus(door, false);
    assert !door.active && window.active;
    assert window in service.ActiveSensors();
    assert !service.CheckAllSensorsInactive();
  }

  /** Re-activating an active sensor while PendingAlarm writes Alarm. The
      suite leaves the arming status null, which is not DISARMED. */
  method SensorActivatedWhileAlreadyActive(arming: ArmingStatus)
    requires arming != Disarmed
  {
    var door := new Sensor("door", Door);
    door.SetActive(true);
    var service := new SecurityService({}, arming, PendingAlarm);
    service.ChangeSensorActivationStatus(door, true);
    assert service.alarmStatusWrites == [Alarm];
  }

  /** Deactivating an inactive sensor writes no alarm status, whatever the
      alarm status is. */
  method SensorDeactivatedWhileAlreadyInactive(arming: ArmingStatus, alarm: AlarmStatus)
  {
    var door := new Sensor("door", Door);
    var service := new SecurityService({}, arming, alarm);
    service.ChangeSensorActivationStatus(door, false);
    assert service.alarmStatusWrites == [];
    assert service.GetAlarmStatus() == alarm;
  }

  method ArmedHomeCatDetected(alarm: AlarmStatus)
  {
    var service := new SecurityService({}, ArmedHome, alarm);
    service.ProcessImage(true);
    assert service.alarmStatusWrites == [Alarm];
  }

  method CatNotDetectedAllSensorsInactive(arming: ArmingStatus, alarm: AlarmStatus)
  {
    var service := new SecurityService({}, arming, alarm);
    service.ProcessImage(false);
    assert service.alarmStatusWrites == [NoAlarm];
  }

  method DisarmedSetsNoAlarm(arming: ArmingStatus, alarm: AlarmStatus)
  {
    var service := new SecurityService({}, arming, alarm);
    service.SetArmingStatus(Disarmed);
    assert service.alarmStatusWrites == [NoAlarm];
  }

  /** Arming at home switches off every sensor of the repository. */
  method ArmedResetsAllSensorsToInactive(arming: ArmingStatus, alarm: AlarmStatus)
  {
    var door := new Sensor("door", Door);
    door.SetActive(true);
    var window := new Sensor("window", Window);
    window.SetActive(true);
    var motion := new Sensor("motion", Motion);
    motion.SetActive(true);
    var service := new SecurityService({door, window, motion}, arming, alarm);
    service.SetArmingStatus(ArmedHome);
    assert !door.active && !window.active && !motion.active;
  }

  /** A cat seen while not armed at home writes nothing; arming at home
      afterwards writes Alarm exactly once. The suite leaves the arming
      status null, which is not ARMED_HOME. */
  method CatDetectedThenArmedHome(arming: ArmingStatus, alarm: AlarmStatus)
    requires arming != ArmedHome
  {
    var service := new SecurityService({}, arming, alarm);
    service.ProcessImage(true);
    assert service.alarmStatusWrites == [];
    service.SetArmingStatus(ArmedHome);
    assert service.alarmStatusWrites == [Alarm];
  }

  /** Every arming status is persisted; disarming leaves NoAlarm. */
  method SetArmingStatusUpdatesRepository(status: ArmingStatus, arming: ArmingStatus, alarm: AlarmStatus)
  {
    var service := new SecurityService({}, arming, alarm);
    service.SetArmingStatus(status);
    assert service.armingStatusWrites == [status];
    assert service.GetArmingStatus() == status;
    if status == Disarmed {
      assert service.GetAlarmStatus() == NoAlarm;
    }
  }
}
