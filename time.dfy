/**
 * Calendar dates and start instants, already parsed from their ISO-8601 text
 * ("2016-01-01T01:01:01", "2020-01-13T08:11:04.000+00:00") down to the second.
 */
module Time {

  datatype Date = Date(year: int, month: nat, day: nat)

  datatype Timestamp = Timestamp(date: Date, hour: nat, minute: nat, second: nat)

  /** The instant cut down to its minute: the seconds are dropped. */
  function ToMinute(t: Timestamp): Timestamp {
    t.(second := 0)
  }

}
