// The appointment list kept under the key 'mindora_appointments'
// (src/app/coaching/appointments.service.ts) and the pure list rules the
// coaching page and the service share.

module Appointments {
  import opened Common

  datatype Status = Upcoming | Past | Cancelled

  /** A stored appointment; `date` is yyyy-mm-dd and `time` is HH:mm. */
  datatype Appointment = Appointment(id: int, psychologist: string, date: string, time: string,
                                     kind: string, status: Status)

  /** Every appointment with `id` gets status cancelled; the others stay as they are. */
  function CancelIn(list: seq<Appointment>, id: int): (r: seq<Appointment>)
    ensures |r| == |list|
    ensures forall i :: 0 <= i < |r| && list[i].id == id ==> r[i] == list[i].(status := Cancelled)
    ensures forall i :: 0 <= i < |r| && list[i].id != id ==> r[i] == list[i]
  {
    MapWhere(list, (a: Appointment) => a.id == id, (a: Appointment) => a.(status := Cancelled))
  }

  /** The service's rule: matching appointments move to the slot and become upcoming again. */
  function RescheduleIn(list: seq<Appointment>, id: int, date: string, time: string): (r: seq<Appointment>)
    ensures |r| == |list|
    ensures forall i :: 0 <= i < |r| && list[i].id == id ==>
      r[i] == list[i].(date := date, time := time, status := Upcoming)
    ensures forall i :: 0 <= i < |r| && list[i].id != id ==> r[i] == list[i]
  {
    MapWhere(list, (a: Appointment) => a.id == id,
             (a: Appointment) => a.(date := date, time := time, status := Upcoming))
  }

  /** Cancelling twice is cancelling once. */
  lemma CancelIdempotent(list: seq<Appointment>, id: int)
    ensures CancelIn(CancelIn(list, id), id) == CancelIn(list, id)
  {
  }

  /** Rescheduling twice to the same slot is rescheduling once. */
  lemma RescheduleIdempotent(list: seq<Appointment>, id: int, date: string, time: string)
    ensures RescheduleIn(RescheduleIn(list, id, date, time), id, date, time) == RescheduleIn(list, id, date, time)
  {
  }

  /** What `load` returns: [] for a missing key and for content JSON.parse rejects. */
  function Loaded(c: Cell<seq<Appointment>>): seq<Appointment>
  {
    if c.Stored? then c.value else []
  }

  /** The store behind the service. */
  class AppointmentsService {
    /** The key 'mindora_appointments'. */
    var store: Cell<seq<Appointment>>

    constructor (initial: Cell<seq<Appointment>>)
      ensures store == initial
    {
      store := initial;
    }

    /** `load`. */
    method Load() returns (list: seq<Appointment>)
      ensures store.Stored? ==> list == store.value
      ensures !store.Stored? ==> list == []
    {
      match store {
        case Stored(l) => list := l;
        case _ => list := [];
      }
    }

    /** `save`. */
    method Save(list: seq<Appointment>)
      modifies this`store
      ensures store == Stored(list)
    {
      store := Stored(list);
    }

    /** `cancel`: cancel every appointment with `id`, persist the new list and return it. */
    method Cancel(id: int) returns (list: seq<Appointment>)
      modifies this`store
      ensures list == CancelIn(Loaded(old(store)), id)
      ensures store == Stored(list)
    {
      var current := Load();
      list := CancelIn(current, id);
      Save(list);
    }

    /** `reschedule`: move every appointment with `id`, persist the new list and return it. */
    method Reschedule(id: int, date: string, time: string) returns (list: seq<Appointment>)
      modifies this`store
      ensures list == RescheduleIn(Loaded(old(store)), id, date, time)
      ensures store == Stored(list)
    {
      var current := Load();
      list := RescheduleIn(current, id, date, time);
      Save(list);
    }
  }

  /** `load` after `save(list)` returns `list`. */
  method SaveThenLoad(list: seq<Appointment>) returns (loaded: seq<Appointment>)
    ensures loaded == list
  {
    var svc := new AppointmentsService(Unparsable);
    svc.Save(list);
    loaded := svc.Load();
  }

  /** `load` on a key whose content does not parse returns []. */
  method LoadUnparsable() returns (loaded: seq<Appointment>)
    ensures loaded == []
  {
    var svc := new AppointmentsService(Unparsable);
    loaded := svc.Load();
  }
}
