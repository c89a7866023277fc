/**
 * The Spring medication endpoints: creating a medication, logging a dose
 * (a taken dose uses up one unit of stock, if there is any) and setting the
 * stock. The two collections are the controller's fields; the signed-in
 * user's lookup, the generated ids and the clock are parameters.
 */
module MedicationController {
  import opened Wrappers
  import opened Seqs
  import opened Text
  import opened JsNum
  import opened Records
  import opened MongoStore
  import S = AIScheduleService

  const MedicationNotFound: string := "Medication not found"

  datatype Status = TAKEN | SKIPPED | MISSED

  /** A medication_logs document; createdAt is not modelled. */
  datatype MedicationLog = MedicationLog(
    medicationId: string, userId: Option<string>, status: Status, scheduledTime: S.DateTime,
    takenTime: S.DateTime, notes: Option<string>, householdId: Option<string>)

  /** The bound CreateMedicationRequest; the time-of-day flags default to false. */
  datatype CreateMedicationRequest = CreateMedicationRequest(
    name: Option<string>, dosage: Option<string>, instructions: Option<string>,
    morning: bool, afternoon: bool, evening: bool, inventory: Option<int>, assignedToId: Option<string>)

  predicate ValidMedicationRequest(r: CreateMedicationRequest)
  {
    NotBlank(r.name) && r.inventory.Some? && NotBlank(r.assignedToId)
  }

  /** The bound LogMedicationRequest. */
  datatype LogMedicationRequest = LogMedicationRequest(
    medicationId: Option<string>, status: Option<Status>, scheduledTime: Option<S.DateTime>,
    takenTime: Option<S.DateTime>, notes: Option<string>)

  predicate ValidLogRequest(r: LogMedicationRequest)
  {
    NotBlank(r.medicationId) && r.status.Some? && r.scheduledTime.Some?
  }

  /** The medication createMedication builds; createdAt and updatedAt are not modelled. */
  function NewMedication(request: CreateMedicationRequest, user: S.User): (m: S.Medication)
    requires ValidMedicationRequest(request)
    ensures m.name == request.name && m.dosage == request.dosage && m.instructions == request.instructions
    ensures m.morning == request.morning && m.afternoon == request.afternoon && m.evening == request.evening
    ensures Some(m.inventory) == request.inventory && m.assignedToId == request.assignedToId
    ensures m.householdId == user.householdId
  {
    S.Medication(request.name, request.dosage, request.instructions, request.morning,
                 request.afternoon, request.evening, request.inventory.value,
                 user.householdId, request.assignedToId)
  }

  // ------------------------------------------------------------ the stock rule

  /** A dose is counted against the stock when it was taken and some is left. */
  predicate UsesStock(m: S.Medication, status: Status)
  {
    status == TAKEN && m.inventory > 0
  }

  /** The medication after a logged dose. */
  function AfterDose(m: S.Medication, status: Status): (r: S.Medication)
    ensures r.(inventory := m.inventory) == m
    ensures r.inventory == m.inventory - 1 <==> UsesStock(m, status)
    ensures !UsesStock(m, status) ==> r == m
  {
    if UsesStock(m, status) then m.(inventory := m.inventory - 1) else m
  }

  /** A log never drives the stock below zero, and only a taken dose lowers it. */
  lemma DoseKeepsStock(m: S.Medication, status: Status)
    ensures m.inventory >= 0 ==> AfterDose(m, status).inventory >= 0
    ensures AfterDose(m, status).inventory <= m.inventory
    ensures status != TAKEN ==> AfterDose(m, status).inventory == m.inventory
  {
  }

  /** `n` taken doses logged in a row. */
  function TakenDoses(m: S.Medication, n: nat): S.Medication
    decreases n
  {
    if n == 0 then m else AfterDose(TakenDoses(m, n - 1), TAKEN)
  }

  /** From a stock of k, n taken doses leave max(k - n, 0): the stock runs
      down one per dose and then stays at zero. */
  lemma {:induction false} TakenDosesRunDown(m: S.Medication, n: nat)
    requires m.inventory >= 0
    ensures TakenDoses(m, n).inventory == Max(m.inventory - n, 0)
    ensures TakenDoses(m, n).(inventory := m.inventory) == m
    decreases n
  {
    if n > 0 {
      TakenDosesRunDown(m, n - 1);
    }
  }

  /** takenTime, or the time the log was made. */
  function TakenTime(request: LogMedicationRequest, now: S.DateTime): (t: S.DateTime)
    ensures request.takenTime.Some? ==> t == request.takenTime.value
    ensures request.takenTime.None? ==> t == now
  {
    if request.takenTime.Some? then request.takenTime.value else now
  }

  /** The log logMedication builds; createdAt is not modelled. */
  function NewLog(request: LogMedicationRequest, user: S.User, now: S.DateTime): (l: MedicationLog)
    requires ValidLogRequest(request)
    ensures Some(l.medicationId) == request.medicationId && Some(l.status) == request.status
    ensures Some(l.scheduledTime) == request.scheduledTime && l.takenTime == TakenTime(request, now)
    ensures l.notes == request.notes && l.userId == user.id && l.householdId == user.householdId
  {
    MedicationLog(request.medicationId.value, user.id, request.status.value,
                  request.scheduledTime.value, TakenTime(request, now), request.notes, user.householdId)
  }

  class Controller {
    var medications: Collection<S.Medication>
    var logs: Collection<MedicationLog>

    predicate Valid()
      reads this
    {
      UniqueIds(medications) && UniqueIds(logs)
    }

    constructor(meds: Collection<S.Medication>, history: Collection<MedicationLog>)
      requires UniqueIds(meds) && UniqueIds(history)
      ensures Valid() && medications == meds && logs == history
    {
      medications, logs := meds, history;
    }

    /** POST /api/medications; `newId` is the id save generates. */
    method CreateMedication(user: Option<S.User>, request: CreateMedicationRequest, newId: string)
        returns (r: Response<(string, S.Medication)>)
      requires Valid() && newId !in Keys(medications)
      modifies this
      ensures Valid() && logs == old(logs)
      ensures !ValidMedicationRequest(request) ==> r == BadRequest && medications == old(medications)
      ensures ValidMedicationRequest(request) && user.None? ==>
                r == ServerError(UserNotFound) && medications == old(medications)
      ensures ValidMedicationRequest(request) && user.Some? ==>
                r == Ok((newId, NewMedication(request, user.value))) &&
                medications == old(medications) + [(newId, NewMedication(request, user.value))]
    {
      if !ValidMedicationRequest(request) {
        return BadRequest;
      }
      if user.None? {
        return ServerError(UserNotFound);
      }
      var medication := NewMedication(request, user.value);
      SaveNew(medications, newId, medication);
      medications := Put(medications, newId, medication);
      r := Ok((newId, medication));
    }

    /** POST /api/medications/log at time `now`; `newLogId` is the id the
        log's save generates. */
    method LogMedication(user: Option<S.User>, request: LogMedicationRequest, newLogId: string, now: S.DateTime)
        returns (r: Response<(string, MedicationLog)>)
      requires Valid() && newLogId !in Keys(logs)
      modifies this
      ensures Valid()
      ensures !ValidLogRequest(request) ==>
                r == BadRequest && medications == old(medications) && logs == old(logs)
      ensures ValidLogRequest(request) && user.None? ==>
                r == ServerError(UserNotFound) && medications == old(medications) && logs == old(logs)
      ensures ValidLogRequest(request) && user.Some? && Get(old(medications), request.medicationId.value).None? ==>
                r == ServerError(MedicationNotFound) && medications == old(medications) && logs == old(logs)
      ensures ValidLogRequest(request) && user.Some? && Get(old(medications), request.medicationId.value).Some? ==>
                var id := request.medicationId.value;
                var m := Get(old(medications), id).value;
                && medications == (if UsesStock(m, request.status.value)
                                   then Put(old(medications), id, AfterDose(m, request.status.value))
                                   else old(medications))
                && r == Ok((newLogId, NewLog(request, user.value, now)))
                && logs == old(logs) + [(newLogId, NewLog(request, user.value, now))]
    {
      if !ValidLogRequest(request) {
        return BadRequest;
      }
      if user.None? {
        return ServerError(UserNotFound);
      }
      var id := request.medicationId.value;
      var found := Get(medications, id);
      if found.None? {
        return ServerError(MedicationNotFound);
      }
      var medication := found.value;
      if UsesStock(medication, request.status.value) {
        medication := AfterDose(medication, request.status.value);
        SaveExisting(medications, id, medication);
        medications := Put(medications, id, medication);
      }
      var log := NewLog(request, user.value, now);
      SaveNew(logs, newLogId, log);
      logs := Put(logs, newLogId, log);
      r := Ok((newLogId, log));
    }

    /** PATCH /api/medications/{id}/inventory: the stock becomes `quantity`,
        whatever its sign. */
    method UpdateInventory(id: string, quantity: int) returns (r: Response<(string, S.Medication)>)
      requires Valid()
      modifies this
      ensures Valid() && logs == old(logs)
      ensures Get(old(medications), id).None? ==>
                r == ServerError(MedicationNotFound) && medications == old(medications)
      ensures Get(old(medications), id).Some? ==>
                var m := Get(old(medications), id).value;
                && r == Ok((id, m.(inventory := quantity)))
                && medications == Put(old(medications), id, m.(inventory := quantity))
                && Get(medications, id) == Some(m.(inventory := quantity))
    {
      var found := Get(medications, id);
      if found.None? {
        return ServerError(MedicationNotFound);
      }
      var medication := found.value.(inventory := quantity);
      SaveExisting(medications, id, medication);
      GetPut(medications, id, medication, id);
      medications := Put(medications, id, medication);
      r := Ok((id, medication));
    }
  }
}
