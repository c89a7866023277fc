/**
 * The Spring chores endpoints: the household's pending chores, the
 * leaderboard of points per assignee over completed chores, creating a
 * chore and completing one. The collection is the controller's field; the
 * signed-in user's lookup, the generated id and the clock are parameters.
 */
module ChoreController {
  import opened Wrappers
  import opened Seqs
  import opened Text
  import opened JsNum
  import opened Records
  import opened MongoStore
  import S = AIScheduleService

  const ChoreNotFound: string := "Chore not found"
  /** What Collectors.groupingBy throws for a null key. */
  const NullKey: string := "element cannot be mapped to a null key"

  /** The bound CreateChoreRequest; `points` keeps its default of 10 when absent. */
  datatype CreateChoreRequest = CreateChoreRequest(
    title: Option<string>, description: Option<string>, assignedToId: Option<string>,
    startTime: Option<S.DateTime>, dueDate: Option<S.DateTime>, points: int)

  /** What @Valid demands of it. */
  predicate ValidChoreRequest(r: CreateChoreRequest)
  {
    NotBlank(r.title) && NotBlank(r.assignedToId) && r.dueDate.Some?
  }

  // ------------------------------------------------------------ pending

  predicate PendingIn(householdId: Option<string>, c: S.Chore)
  {
    c.householdId == householdId && !c.completed
  }

  predicate CompletedIn(householdId: Option<string>, c: S.Chore)
  {
    c.householdId == householdId && c.completed
  }

  /** findByHouseholdIdAndCompleted(householdId, false). */
  function PendingChores(chores: Collection<S.Chore>, householdId: Option<string>): (r: Collection<S.Chore>)
    ensures forall i :: 0 <= i < |r| ==> r[i] in chores && PendingIn(householdId, r[i].1)
    ensures forall i :: 0 <= i < |chores| && PendingIn(householdId, chores[i].1) ==> chores[i] in r
  {
    Where(chores, c => PendingIn(householdId, c))
  }

  /** findByHouseholdIdAndCompleted(householdId, true). */
  function CompletedChores(chores: Collection<S.Chore>, householdId: Option<string>): (r: Collection<S.Chore>)
    ensures forall i :: 0 <= i < |r| ==> r[i] in chores && CompletedIn(householdId, r[i].1)
    ensures forall i :: 0 <= i < |chores| && CompletedIn(householdId, chores[i].1) ==> chores[i] in r
  {
    Where(chores, c => CompletedIn(householdId, c))
  }

  // ------------------------------------------------------------ leaderboard

  /** The reference total: the points of the chores assigned to `a`. */
  function PointsFor(cs: seq<S.Chore>, a: string): int
    decreases |cs|
  {
    if cs == [] then 0
    else PointsFor(cs[..|cs| - 1], a) + (if cs[|cs| - 1].assignedToId == Some(a) then cs[|cs| - 1].points else 0)
  }

  /** groupingBy(assignedToId, summingInt(points)), element by element: an
      int sum per assignee, or None once an assignee is null. */
  function Tally(cs: seq<S.Chore>): Option<map<string, int>>
    decreases |cs|
  {
    if cs == [] then Some(map[])
    else
      match Tally(cs[..|cs| - 1])
      case None => None
      case Some(m) =>
        var c := cs[|cs| - 1];
        if c.assignedToId.None? then None else Some(Credit(m, c.assignedToId.value, c.points))
  }

  /** The assignee's entry after adding `points`, wrapped to 32 bits. */
  function Credit(m: map<string, int>, a: string, points: int): map<string, int>
  {
    m[a := ToInt32((if a in m then m[a] else 0) + points)]
  }

  /** Wrapping the running sum before each addition wraps the total. */
  lemma WrapAdd(x: int, p: int)
    ensures ToInt32(ToInt32(x) + p) == ToInt32(x + p)
  {
    var k := (ToInt32(x) - x) / TwoTo32;
    DivModFundamental(ToInt32(x) - x, TwoTo32);
    assert ToInt32(x) + p == (x + p) + k * TwoTo32;
    ToInt32Shift(x + p, k);
  }

  predicate AllAssigned(cs: seq<S.Chore>)
  {
    forall i :: 0 <= i < |cs| ==> cs[i].assignedToId.Some?
  }

  predicate AssignedSome(cs: seq<S.Chore>, a: string)
  {
    exists i :: 0 <= i < |cs| && cs[i].assignedToId == Some(a)
  }

  /** One more chore adds its assignee and nothing else. */
  lemma AssignedSnoc(cs: seq<S.Chore>)
    requires cs != []
    ensures forall a :: AssignedSome(cs, a) <==>
              AssignedSome(cs[..|cs| - 1], a) || cs[|cs| - 1].assignedToId == Some(a)
    ensures AllAssigned(cs) <==> AllAssigned(cs[..|cs| - 1]) && cs[|cs| - 1].assignedToId.Some?
  {
    var init := cs[..|cs| - 1];
    assert forall i :: 0 <= i < |init| ==> init[i] == cs[i];
    forall a | AssignedSome(cs, a) ensures AssignedSome(init, a) || cs[|cs| - 1].assignedToId == Some(a) {
      var i :| 0 <= i < |cs| && cs[i].assignedToId == Some(a);
      if i < |init| { assert init[i] == cs[i]; }
    }
  }

  /** Nobody has points without a chore assigned to them. */
  lemma {:induction false} PointsForUnassigned(cs: seq<S.Chore>, a: string)
    requires !AssignedSome(cs, a)
    ensures PointsFor(cs, a) == 0
    decreases |cs|
  {
    if cs != [] {
      AssignedSnoc(cs);
      PointsForUnassigned(cs[..|cs| - 1], a);
    }
  }

  /** The tally exists exactly when every chore is assigned. */
  lemma {:induction false} TallyDefined(cs: seq<S.Chore>)
    ensures Tally(cs).Some? <==> AllAssigned(cs)
    decreases |cs|
  {
    if cs != [] {
      AssignedSnoc(cs);
      TallyDefined(cs[..|cs| - 1]);
    }
  }

  /** The tally's keys are the assignees, and each assignee's value is
      their points total wrapped to 32 bits. */
  lemma {:induction false} TallySums(cs: seq<S.Chore>)
    requires Tally(cs).Some?
    ensures forall a :: a in Tally(cs).value <==> AssignedSome(cs, a)
    ensures forall a :: a in Tally(cs).value ==> Tally(cs).value[a] == ToInt32(PointsFor(cs, a))
    decreases |cs|
  {
    if cs != [] {
      var init := cs[..|cs| - 1];
      var c := cs[|cs| - 1];
      AssignedSnoc(cs);
      TallyStep(cs);
      TallySums(init);
      var m := Tally(init).value;
      var a := c.assignedToId.value;
      var prior := if a in m then m[a] else 0;
      var m' := Tally(cs).value;
      assert m' == Credit(m, a, c.points) == m[a := ToInt32(prior + c.points)];
      forall b | b in m' ensures m'[b] == ToInt32(PointsFor(cs, b)) {
        assert PointsFor(cs, b) == PointsFor(init, b) + (if b == a then c.points else 0);
        if b == a {
          if a in m {
            WrapAdd(PointsFor(init, a), c.points);
          } else {
            PointsForUnassigned(init, a);
          }
        }
      }
    }
  }

  /** One more chore, with every chore assigned: its assignee's entry is
      the wrapped sum. */
  lemma TallyStep(cs: seq<S.Chore>)
    requires cs != [] && Tally(cs).Some?
    ensures Tally(cs[..|cs| - 1]).Some? && cs[|cs| - 1].assignedToId.Some?
    ensures Tally(cs).value == Credit(Tally(cs[..|cs| - 1]).value, cs[|cs| - 1].assignedToId.value, cs[|cs| - 1].points)
  {
  }

  /** No chore is credited to an assignee outside the completed ones, so a
      pending chore never adds to the board. */
  lemma LeaderboardCountsCompletedOnly(chores: Collection<S.Chore>, householdId: Option<string>, a: string)
    requires forall i :: 0 <= i < |chores| && chores[i].1.assignedToId == Some(a) ==> !CompletedIn(householdId, chores[i].1)
    ensures PointsFor(Values(CompletedChores(chores, householdId)), a) == 0
  {
    PointsForUnassigned(Values(CompletedChores(chores, householdId)), a);
  }

  // ------------------------------------------------------------ create and complete

  /** The chore createChore builds; createdAt and updatedAt are not modelled. */
  function NewChore(request: CreateChoreRequest, user: S.User): (c: S.Chore)
    requires ValidChoreRequest(request)
    ensures !c.completed && c.completedAt.None?
    ensures c.points == request.points
    ensures c.title == request.title && c.description == request.description
    ensures c.assignedToId == request.assignedToId && c.startTime == request.startTime
    ensures Some(c.dueDate) == request.dueDate
    ensures c.householdId == user.householdId && c.createdBy == user.id
  {
    S.Chore(request.title, request.description, request.dueDate.value, request.points, false,
            user.householdId, user.id, request.assignedToId, request.startTime, None)
  }

  /** completeChore's setters on the loaded chore. */
  function MarkCompleted(c: S.Chore, now: S.DateTime): (r: S.Chore)
    ensures r.completed && r.completedAt == Some(now)
    ensures r.(completed := c.completed, completedAt := c.completedAt) == c
  {
    c.(completed := true, completedAt := Some(now))
  }

  /** Completing a chore again keeps it completed and only moves its stamp. */
  lemma CompleteTwice(c: S.Chore, t1: S.DateTime, t2: S.DateTime)
    ensures MarkCompleted(MarkCompleted(c, t1), t2) == MarkCompleted(c, t2)
    ensures MarkCompleted(MarkCompleted(c, t1), t2).completed
  {
  }

  /** completeChore on a collection: None when the id is unknown. */
  function CompleteIn(chores: Collection<S.Chore>, id: string, now: S.DateTime): (r: Option<Collection<S.Chore>>)
    ensures r.Some? <==> Get(chores, id).Some?
  {
    match Get(chores, id)
    case None => None
    case Some(c) => Some(Put(chores, id, MarkCompleted(c, now)))
  }

  /** A completed chore stays completed: a second call on the same id finds
      it completed and leaves it so, with the later stamp. */
  lemma CompleteInTwice(chores: Collection<S.Chore>, id: string, t1: S.DateTime, t2: S.DateTime)
    requires Get(chores, id).Some?
    ensures CompleteIn(chores, id, t1).Some?
    ensures Get(CompleteIn(chores, id, t1).value, id).Some?
    ensures Get(CompleteIn(chores, id, t1).value, id).value.completed
    ensures CompleteIn(CompleteIn(chores, id, t1).value, id, t2) == CompleteIn(chores, id, t2)
  {
    var c := Get(chores, id).value;
    var once := Put(chores, id, MarkCompleted(c, t1));
    GetPut(chores, id, MarkCompleted(c, t1), id);
    SaveTwice(chores, id, MarkCompleted(c, t1), MarkCompleted(MarkCompleted(c, t1), t2));
    CompleteTwice(c, t1, t2);
  }

  class Controller {
    var chores: Collection<S.Chore>

    predicate Valid()
      reads this
    {
      UniqueIds(chores)
    }

    constructor(initial: Collection<S.Chore>)
      requires UniqueIds(initial)
      ensures Valid() && chores == initial
    {
      chores := initial;
    }

    /** GET /api/chores/pending; `user` is what findByEmail returned. */
    method GetPendingChores(user: Option<S.User>) returns (r: Response<Collection<S.Chore>>)
      ensures user.None? ==> r == ServerError(UserNotFound)
      ensures user.Some? ==> r.Ok?
      ensures r.Ok? ==> forall i :: 0 <= i < |r.body| ==>
                r.body[i] in chores && !r.body[i].1.completed && r.body[i].1.householdId == user.value.householdId
      ensures r.Ok? ==> forall i :: 0 <= i < |chores| && PendingIn(user.value.householdId, chores[i].1) ==>
                chores[i] in r.body
    {
      if user.None? {
        return ServerError(UserNotFound);
      }
      r := Ok(PendingChores(chores, user.value.householdId));
    }

    /** GET /api/chores/leaderboard. */
    method GetLeaderboard(user: Option<S.User>) returns (r: Response<map<string, int>>)
      ensures user.None? ==> r == ServerError(UserNotFound)
      ensures user.Some? ==>
                var done := Values(CompletedChores(chores, user.value.householdId));
                (Tally(done).None? <==> r == ServerError(NullKey)) &&
                (Tally(done).Some? <==> r.Ok?) &&
                (r.Ok? ==> r.body == Tally(done).value)
    {
      if user.None? {
        return ServerError(UserNotFound);
      }
      var tally := Tally(Values(CompletedChores(chores, user.value.householdId)));
      if tally.None? {
        return ServerError(NullKey);
      }
      r := Ok(tally.value);
    }

    /** POST /api/chores; `newId` is the id save generates. */
    method CreateChore(user: Option<S.User>, request: CreateChoreRequest, newId: string)
        returns (r: Response<(string, S.Chore)>)
      requires Valid() && newId !in Keys(chores)
      modifies this
      ensures Valid()
      ensures !ValidChoreRequest(request) ==> r == BadRequest && chores == old(chores)
      ensures ValidChoreRequest(request) && user.None? ==> r == ServerError(UserNotFound) && chores == old(chores)
      ensures ValidChoreRequest(request) && user.Some? ==>
                r == Ok((newId, NewChore(request, user.value))) &&
                chores == old(chores) + [(newId, NewChore(request, user.value))]
    {
      if !ValidChoreRequest(request) {
        return BadRequest;
      }
      if user.None? {
        return ServerError(UserNotFound);
      }
      var chore := NewChore(request, user.value);
      SaveNew(chores, newId, chore);
      chores := Put(chores, newId, chore);
      r := Ok((newId, chore));
    }

    /** PATCH /api/chores/{id}/complete at time `now`. */
    method CompleteChore(id: string, now: S.DateTime) returns (r: Response<(string, S.Chore)>)
      requires Valid()
      modifies this
      ensures Valid()
      ensures Get(old(chores), id).None? ==> r == ServerError(ChoreNotFound) && chores == old(chores)
      ensures Get(old(chores), id).Some? ==>
                r == Ok((id, MarkCompleted(Get(old(chores), id).value, now))) &&
                Some(chores) == CompleteIn(old(chores), id, now)
    {
      var found := Get(chores, id);
      if found.None? {
        return ServerError(ChoreNotFound);
      }
      var chore := MarkCompleted(found.value, now);
      SaveExisting(chores, id, chore);
      chores := Put(chores, id, chore);
      r := Ok((id, chore));
    }
  }
}
