/**
 * The points rule of PATCH /api/chores/:id on the web back end: a chore that
 * turns COMPLETED adds its points to its assignee's chorePoints.
 */
module ChoreCompletion {
  import opened Wrappers
  import opened Json

  /** The stored chore, before and after the update. */
  datatype StoredChore = StoredChore(status: string, assignedTo: Option<string>, points: Option<int>)

  /** `x || 0` on a stored number that may be null. */
  function OrZero(x: Option<int>): int
  {
    x.GetOr(0)
  }

  /** The condition under which the assignee is credited. */
  predicate CompletesNow(bodyStatus: Option<Json>, existing: StoredChore, updated: StoredChore)
  {
    bodyStatus == Some(JStr("COMPLETED")) && existing.status != "COMPLETED"
    && updated.assignedTo.Some? && updated.assignedTo.value != []
  }

  /** The assignee's new chorePoints, or None when no user is updated.
      `pointsOf` is the user lookup: None when no such user, else the
      user's stored chorePoints. */
  function Award(bodyStatus: Option<Json>, existing: StoredChore, updated: StoredChore,
                 pointsOf: string -> Option<Option<int>>): (r: Option<int>)
    ensures r.Some? <==> CompletesNow(bodyStatus, existing, updated) && pointsOf(updated.assignedTo.value).Some?
    ensures r.Some? ==> r.value == OrZero(pointsOf(updated.assignedTo.value).value) + OrZero(updated.points)
  {
    if CompletesNow(bodyStatus, existing, updated) then
      match pointsOf(updated.assignedTo.value)
      case None => None
      case Some(current) => Some(OrZero(current) + OrZero(updated.points))
    else None
  }

  /** Patching a chore that is already COMPLETED credits nobody, so a
      repeated completion is rewarded once. */
  lemma CompletedTwiceAwardsOnce(bodyStatus: Option<Json>, existing: StoredChore, updated: StoredChore,
                                 pointsOf: string -> Option<Option<int>>)
    requires existing.status == "COMPLETED"
    ensures Award(bodyStatus, existing, updated, pointsOf).None?
  {
  }

  /** Any status other than COMPLETED in the body credits nobody. */
  lemma OtherStatusAwardsNothing(s: string, existing: StoredChore, updated: StoredChore,
                                 pointsOf: string -> Option<Option<int>>)
    requires s != "COMPLETED"
    ensures Award(Some(JStr(s)), existing, updated, pointsOf).None?
  {
  }

  /** A chore without points or with null chorePoints counts as 0, so a
      credit never lowers a non-negative balance when points are non-negative. */
  lemma AwardNeverLowers(bodyStatus: Option<Json>, existing: StoredChore, updated: StoredChore,
                         pointsOf: string -> Option<Option<int>>)
    requires CompletesNow(bodyStatus, existing, updated) && pointsOf(updated.assignedTo.value).Some?
    requires OrZero(updated.points) >= 0
    ensures Award(bodyStatus, existing, updated, pointsOf).value >= OrZero(pointsOf(updated.assignedTo.value).value)
  {
  }
}
