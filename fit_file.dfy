/**
 * What the FIT decoder hands to the parser: an activity file as its activity message, its sessions
 * and its records, each reduced to the integer fields the parser and the helpers read.
 * Decoding itself is not part of this model.
 */
module FitFile {
  import opened Ints

  /** One sample of the record messages; a field the device did not fill holds its invalid sentinel. */
  datatype Record = Record(speed: uint16, gpsAccuracy: uint8, temperature: int8, distance: uint32)

  /** One session message: distance in centimetres, ascent and descent in metres. */
  datatype Session = Session(totalDistance: uint32, totalAscent: uint16, totalDescent: uint16)

  /** The activity message: timestamps as integer instants and the timer time in milliseconds. */
  datatype ActivityMesg = ActivityMesg(timestamp: int, localTimestamp: int, totalTimerTime: uint32)

  /** A decoded activity file. */
  datatype Activity = Activity(activity: ActivityMesg, sessions: seq<Session>, records: seq<Record>)
}
