# CatPoint security service: a verified model of the alarm evaluator

CatPoint is a home-security monitor. Its `SecurityService` decides the alarm status from three inputs:
- sensor activity: door, window and motion sensors, each with a mutable `active` flag;
- the arming mode: `DISARMED`, `ARMED_HOME` or `ARMED_AWAY`;
- whether the last camera image showed a cat.

The alarm status climbs a ladder, NO_ALARM < PENDING_ALARM < ALARM. The service reads and writes a security repository, which holds the sensors, the arming status and the alarm status. It remembers the last cat verdict itself. The contracts are written from the assertions of SecurityServiceTest.java.

Files:
- `data.dfy` (module `Data`): the three enumerations, the ladder rank, and the `Sensor` class. A sensor's `active` flag changes in place, so every holder of a reference sees the change.
- `alarm_rules.dfy` (module `AlarmRules`): one decision function per operation. Each says which alarm status the operation writes to the repository, if any. On top of them sits `Step`, the evaluator as a state machine over `Monitor` (arming, alarm, cat memory), and `Run`, which applies `Step` along a trace of events. Lemmas state what the rules promise over single events and over whole traces.
- `security_service.dfy` (module `Service`): the class `SecurityService`.
  - Its fields stand in for the repository state and the cat memory.
  - Write logs stand in for the repository calls the tests verify: `alarmStatusWrites` and `armingStatusWrites` are sequences, and `sensorUpdates` is a multiset of persisted sensors.
  - Each event method (`ChangeSensorActivationStatus`, `ProcessImage`, `SetArmingStatus`) ties its new state and its writes to `Step` and to the decision functions.
  - "setAlarmStatus(X) was called once" becomes "the log grew by `[X]`", and "never called" becomes "the log is unchanged".
- `scenarios.dfy` (module `ServiceScenarios`): client methods that set up the situations the tests use and assert the tests' expectations. They use only the contracts of `Service`. A repository status a test leaves unstubbed is a parameter, and an unstubbed sensor set is empty, which is what the mock returns. An unstubbed status getter returns null, which the service compares with `==`, so null behaves as "not DISARMED" and "not ARMED_HOME". So two scenarios exclude one value: `SensorActivatedWhileAlreadyActive` requires arming other than DISARMED (lines 99-106), and `CatDetectedThenArmedHome` requires arming other than ARMED_HOME (lines 160-167). Every other parameter ranges over all values.

Behaviour where the tests are silent. Each choice below is an assumption:
- Activating a sensor while DISARMED writes no alarm status. Because of this gate, the lemmas can prove that no sequence of events raises an alarm while disarmed (`RunKeepsQuiet`).
- Re-activating a sensor that is already active escalates only PENDING_ALARM, to ALARM. At NO_ALARM or ALARM it writes nothing.
- Deactivation is not gated on arming. Only PENDING_ALARM is cleared, and only when every repository sensor is then inactive.
- Every call to `changeSensorActivationStatus` persists the sensor once. Arming, to `ARMED_HOME` or `ARMED_AWAY`, switches off and persists every repository sensor.
- A negative image with no active sensor writes NO_ALARM whatever the arming status. A positive image writes ALARM only when armed at home.

Two consequences of the test file for the model:
- The test at `SecurityServiceTest.java:99-106` makes re-activating an active sensor raise PENDING_ALARM to ALARM. So a toggle to the sensor's current value is not a no-op.
- No test fixes activation while DISARMED: wherever a sensor is activated, the arming status is armed (line 48) or unstubbed (lines 101-104). The model gates activation on the arming status.

## Model

| member | source | states |
|---|---|---|
| Data.Sensor.constructor | starter/catpoint-parent/securityService/src/test/java/com/udacity/catpoint/service/SecurityServiceTest.java:111-115 | a new sensor has the given name and type and is inactive, which the test relies on when it deactivates a fresh sensor "already inactive" |
| Data.Sensor.SetActive | starter/catpoint-parent/securityService/src/test/java/com/udacity/catpoint/service/SecurityServiceTest.java:64-66 | the sensor's flag becomes the given value |
| AlarmRules.Escalate | starter/catpoint-parent/securityService/src/test/java/com/udacity/catpoint/service/SecurityServiceTest.java:39-56 | the result is at most one rung above the input and never below it, and stays equal to the input only at ALARM |
| AlarmRules.OnActivation | starter/catpoint-parent/securityService/src/test/java/com/udacity/catpoint/service/SecurityServiceTest.java:39-56 | when armed, activating an inactive sensor writes the next rung unless the alarm is already ALARM. Re-activating an active sensor writes exactly when PENDING_ALARM (lines 99-106). Every write is exactly one rung up, and nothing is written while disarmed |
| AlarmRules.OnDeactivation | starter/catpoint-parent/securityService/src/test/java/com/udacity/catpoint/service/SecurityServiceTest.java:58-83 | a write happens if and only if the sensor was active, the alarm is PENDING_ALARM and all sensors are then inactive, and the write is NO_ALARM. So ALARM is never written over, and an inactive sensor never causes a write (lines 108-116) |
| AlarmRules.OnImage | starter/catpoint-parent/securityService/src/test/java/com/udacity/catpoint/service/SecurityServiceTest.java:117-133 | ALARM is written if and only if a cat is seen while ARMED_HOME. NO_ALARM is written if and only if no cat is seen and all sensors are inactive. Otherwise nothing is written |
| AlarmRules.OnArming | starter/catpoint-parent/securityService/src/test/java/com/udacity/catpoint/service/SecurityServiceTest.java:135-167 | NO_ALARM is written if and only if disarming. ALARM is written if and only if arming at home with a cat in memory. Otherwise nothing is written |
| AlarmRules.StepKeepsQuiet | starter/catpoint-parent/securityService/src/test/java/com/udacity/catpoint/service/SecurityServiceTest.java:135-139 | every single event keeps "disarmed implies NO_ALARM" |
| AlarmRules.RunKeepsQuiet | starter/catpoint-parent/securityService/src/test/java/com/udacity/catpoint/service/SecurityServiceTest.java:135-139 | along any trace of events, "disarmed implies NO_ALARM" persists once it holds |
| AlarmRules.AlarmStickyUnderSensorChanges | starter/catpoint-parent/securityService/src/test/java/com/udacity/catpoint/service/SecurityServiceTest.java:58-83 | from ALARM, any trace of sensor changes alone ends in ALARM |
| AlarmRules.AlarmLeftOnlyByClearing | starter/catpoint-parent/securityService/src/test/java/com/udacity/catpoint/service/SecurityServiceTest.java:126-139 | a trace that starts at ALARM and ends elsewhere contains a disarm or a negative image seen with all sensors inactive |
| AlarmRules.ActivationsNeverLowerAlarm | starter/catpoint-parent/securityService/src/test/java/com/udacity/catpoint/service/SecurityServiceTest.java:39-56 | any trace of activations ends at or above the rung it started on |
| AlarmRules.TwoActivationsRaiseAlarm | starter/catpoint-parent/securityService/src/test/java/com/udacity/catpoint/service/SecurityServiceTest.java:39-56 | when armed, one activation takes NO_ALARM to PENDING_ALARM and a second one reaches ALARM |
| AlarmRules.InactiveDeactivationIsNoOp | starter/catpoint-parent/securityService/src/test/java/com/udacity/catpoint/service/SecurityServiceTest.java:108-116 | deactivating an inactive sensor writes nothing and leaves the state unchanged, for every alarm status |
| AlarmRules.ArmingOnlyChangedByArmingEvents | starter/catpoint-parent/securityService/src/test/java/com/udacity/catpoint/service/SecurityServiceTest.java:168-183 | a trace without arming events leaves the arming status unchanged |
| AlarmRules.CatMemoryUnchanged | starter/catpoint-parent/securityService/src/test/java/com/udacity/catpoint/service/SecurityServiceTest.java:160-167 | a trace without images leaves the cat memory unchanged |
| AlarmRules.CatVerdictRetained | starter/catpoint-parent/securityService/src/test/java/com/udacity/catpoint/service/SecurityServiceTest.java:160-167 | after an image, the cat memory holds that image's verdict until the next image |
| AlarmRules.RetainedCatAlarmsOnArmHome | starter/catpoint-parent/securityService/src/test/java/com/udacity/catpoint/service/SecurityServiceTest.java:160-167 | after a positive image, any events other than images followed by arming at home end in ALARM |
| Service.SecurityService.constructor | starter/catpoint-parent/securityService/src/test/java/com/udacity/catpoint/service/SecurityServiceTest.java:34-37 | the service starts over the given repository state, with empty write logs and no cat in memory |
| Service.SecurityService.GetAlarmStatus | starter/catpoint-parent/securityService/src/test/java/com/udacity/catpoint/service/SecurityServiceTest.java:108-116 | the service's getAlarmStatus returns the repository's current alarm status, which is what lines 115 and 177 compare against |
| Service.SecurityService.GetArmingStatus | starter/catpoint-parent/securityService/src/test/java/com/udacity/catpoint/service/SecurityServiceTest.java:180-182 | the repository's getArmingStatus returns the persisted arming status, so after setArmingStatus(s) it returns s |
| Service.SecurityService.CheckAllSensorsInactive | starter/catpoint-parent/securityService/src/test/java/com/udacity/catpoint/service/SecurityServiceTest.java:85-97 | true if and only if the set of active repository sensors is empty, which includes an empty repository |
| Service.SecurityService.WriteAlarmStatus | starter/catpoint-parent/securityService/src/test/java/com/udacity/catpoint/service/SecurityServiceTest.java:54 | the repository's alarm status becomes the value and exactly one write of it is logged. Nothing else changes |
| Service.SecurityService.ChangeSensorActivationStatus | starter/catpoint-parent/securityService/src/test/java/com/udacity/catpoint/service/SecurityServiceTest.java:39-116 | the sensor takes the new flag and is persisted once. The new state and the alarm writes are those of `Step` and of `OnActivation`/`OnDeactivation`, given the prior flag and the post-change "all inactive" check. Activation never lowers the alarm and deactivation never raises it. Arming status, sensor set and cat memory are unchanged, and "disarmed implies NO_ALARM" is kept |
| Service.SecurityService.ProcessImage | starter/catpoint-parent/securityService/src/test/java/com/udacity/catpoint/service/SecurityServiceTest.java:117-133 | the cat memory becomes the verdict. The new state and the alarm writes are those of `Step` and `OnImage`. Sensors and arming are untouched, and "disarmed implies NO_ALARM" is kept |
| Service.SecurityService.SetArmingStatus | starter/catpoint-parent/securityService/src/test/java/com/udacity/catpoint/service/SecurityServiceTest.java:135-183 | the status is persisted with exactly one write. The alarm writes are those of `OnArming` on the retained cat verdict. Arming switches off every repository sensor and persists each one; disarming leaves sensors and sensor log untouched. "Disarmed implies NO_ALARM" is kept |
| Service.SecurityService.ResetAllSensors | starter/catpoint-parent/securityService/src/test/java/com/udacity/catpoint/service/SecurityServiceTest.java:141-158 | every sensor of the repository set is inactive afterwards, and each was persisted exactly once (the update log grows by the set's multiset). No other repository state changes |

## Scenarios

The methods of `ServiceScenarios` restate the test cases of `SecurityServiceTest.java` as client code. `ArmedAndSensorActivated` restates lines 39-56; `AlarmChangeInSensor` lines 58-83; `AllInactiveFalseWhileAnotherIsActive` lines 85-97; `SensorActivatedWhileAlreadyActive` lines 99-106; `SensorDeactivatedWhileAlreadyInactive` lines 108-116; `ArmedHomeCatDetected` lines 117-124; `CatNotDetectedAllSensorsInactive` lines 126-133; `DisarmedSetsNoAlarm` lines 135-139; `ArmedResetsAllSensorsToInactive` lines 141-158; `CatDetectedThenArmedHome` lines 160-167, including the single ALARM write; `SetArmingStatusUpdatesRepository` lines 168-183. They carry no postconditions: their assertions are the expectations of the tests.

## Left out

- The image classifier, `BufferedImage` and the 50.0 confidence threshold. `ProcessImage` takes the classifier's verdict as a boolean, because detection and the floating-point comparison belong to the image service, not the evaluator.
- The repository's persistence mechanism, the status listeners, the UI and logging. The repository is plain fields plus write logs.
- Mockito's stubbing, and the `null` that an unstubbed status getter returns. Model statuses are always one of the enumerated values. Two scenarios read the null as "not DISARMED" or "not ARMED_HOME" and exclude only that value.
- Adding and removing sensors is not modelled; the sensor set is fixed at construction.
- Sensor equality: the Java sensor's equality and hash code stand behind the `HashSet`. The model uses object identity.
- Failures of the repository or the classifier, which propagate to the caller unchanged. No call in the model fails.
- Service.SecurityService.SetArmingStatus: the order between writes to different repository methods is not recorded, since each method has its own log.
- Service.SecurityService.ResetAllSensors: the order in which the set's sensors are persisted is not recorded, because a Java `HashSet` has no iteration order.
- Service.SecurityService.ChangeSensorActivationStatus: gating activation on the arming mode is an assumption that no test fixes. So is the absence of a write when an active sensor is re-activated at NO_ALARM or ALARM.
- Resetting sensors on `ARMED_AWAY` as well as on `ARMED_HOME` is an assumption; only `ARMED_HOME` is exercised.
