/**
 * The records the Kimai service returns (kimai/client.go), as plain values.
 * Money is kept in integer cents and durations in integer seconds, so that the
 * sums the report forms are exact.
 */
module Kimai {

  /** A project as listed by the service. */
  datatype Project = Project(id: int, name: string)

  /** An activity as listed by the service. */
  datatype Activity = Activity(id: int, name: string)

  /**
   * A `KimaiTime` after parsing: the wall-clock reading at the UTC offset
   * the service sent, which is all that the report's formatting looks at.
   */
  datatype KimaiTime = KimaiTime(year: int, month: int, day: int, hour: int, minute: int, second: int)
  {
    /** The ranges a normalised Go time keeps its calendar fields in. */
    predicate Valid() {
      && 1 <= month <= 12 && 1 <= day <= 31
      && 0 <= hour < 24 && 0 <= minute < 60 && 0 <= second < 60
    }
  }

  /** One time-tracking record. `rate` and `internalRate` are in cents. */
  datatype TimeSheet = TimeSheet(
    id: int,
    activityId: int,
    begin: KimaiTime,
    end: KimaiTime,
    duration: int,
    description: string,
    projectId: int,
    rate: int,
    internalRate: int)

  /** What a Go map lookup of a missing project id yields: the zero struct. */
  const ZeroProject: Project := Project(0, "")

  /** What a Go map lookup of a missing activity id yields: the zero struct. */
  const ZeroActivity: Activity := Activity(0, "")
}
