/** Value types and the sensor entity of the CatPoint security monitor
    (package com.udacity.catpoint.data). */
module Data {

  /** The operator-selected posture of the system. */
  datatype ArmingStatus = Disarmed | ArmedHome | ArmedAway

  /** The alarm ladder: NoAlarm < PendingAlarm < Alarm. */
  datatype AlarmStatus = NoAlarm | PendingAlarm | Alarm

  datatype SensorType = Door | Window | Motion

  /** Position of an alarm status on the escalation ladder. */
  function Rank(a: AlarmStatus): nat
  {
    match a
    case NoAlarm => 0
    case PendingAlarm => 1
    case Alarm => 2
  }

  /** A named, typed contact or presence detector. Its `active` flag is
      mutated in place, so every holder of a reference sees the change. */
  class Sensor {
    const name: string
    const sensorType: SensorType
    var active: bool

    /** A new sensor starts inactive. */
    constructor (name: string, sensorType: SensorType)
      ensures this.name == name && this.sensorType == sensorType
      ensures !active
    {
      this.name := name;
      this.sensorType := sensorType;
      active := false;
    }

    method SetActive(active: bool)
      modifies this
      ensures this.active == active
    {
      this.active := active;
    }
  }
}
