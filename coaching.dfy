// The list-keeping parts of the coaching page (src/app/coaching/coaching.ts):
// appointments with the conflict check, challenges, groups, saved resources,
// stress triggers and the two list filters. The breathing session of the same
// page is in module BoxBreathing.

module Coaching {
  import opened Common
  import opened Appointments

  datatype Psychologist = Psychologist(id: int, name: string, specialty: string, specialties: seq<string>)

  datatype Challenge = Challenge(id: int, title: string, description: string, target: int, progress: int, joined: bool)

  datatype Group = Group(id: int, name: string, members: int, joined: bool)

  datatype ResourceCategory = Article | Video | Guide

  datatype Resource = Resource(id: int, title: string, category: ResourceCategory)

  /** The resource tab's filter: 'all', one category, or 'saved'. */
  datatype ResourceFilter = AllResources | OnlyCategory(category: ResourceCategory) | SavedOnly

  datatype Trigger = Trigger(id: int, text: string, tags: seq<string>, ts: int)

  const MissingSlotError: string := "Selecciona fecha y hora."
  const ConflictError: string := "Ya tienes una cita en ese horario."
  const BookedKind: string := "Videollamada"

  // ---------------------------------------------------------------------
  // Appointment slots

  /** The text `${date} ${time}` the conflict check compares. */
  function Slot(a: Appointment): string
  {
    a.date + " " + a.time
  }

  /** `a` blocks the slot for a booking that ignores `ignoreId` (`ignoreId ?? -1`). */
  predicate Clashes(a: Appointment, date: string, time: string, ignoreId: Option<int>)
  {
    a.id != ignoreId.GetOr(-1) && Slot(a) == date + " " + time && a.status != Cancelled
  }

  /** `hasConflict`. */
  predicate HasConflict(list: seq<Appointment>, date: string, time: string, ignoreId: Option<int>)
  {
    exists i :: 0 <= i < |list| && Clashes(list[i], date, time, ignoreId)
  }

  /** Before the joining space there is no space. */
  lemma SpaceFreePrefix(u: string, v: string)
    requires ' ' !in u
    ensures forall k :: 0 <= k < |u| ==> (u + " " + v)[k] != ' '
  {
  }

  /** Joining with a space is one-to-one while the left parts hold no space. */
  lemma JoinedSlotsEqual(x: string, y: string, u: string, v: string)
    requires ' ' !in x && ' ' !in u
    ensures x + " " + y == u + " " + v <==> x == u && y == v
  {
    var l, m := x + " " + y, u + " " + v;
    if l == m {
      SpaceFreePrefix(x, y);
      SpaceFreePrefix(u, v);
      assert l[|x|] == ' ' && m[|u|] == ' ';
      assert |x| == |u|;
      assert x == l[..|x|] && u == m[..|u|];
      assert y == l[|x| + 1..] && v == m[|u| + 1..];
    }
  }

  /**
   * With dates free of spaces (yyyy-mm-dd), `hasConflict` holds iff some
   * appointment that is not cancelled and not the ignored one has the same
   * date and the same time.
   */
  lemma HasConflictMeaning(list: seq<Appointment>, date: string, time: string, ignoreId: Option<int>)
    requires ' ' !in date
    requires forall i :: 0 <= i < |list| ==> ' ' !in list[i].date
    ensures HasConflict(list, date, time, ignoreId) <==>
      exists i :: 0 <= i < |list| && list[i].id != ignoreId.GetOr(-1) && list[i].date == date &&
        list[i].time == time && list[i].status != Cancelled
  {
    forall i | 0 <= i < |list|
      ensures Clashes(list[i], date, time, ignoreId) <==>
        list[i].id != ignoreId.GetOr(-1) && list[i].date == date && list[i].time == time && list[i].status != Cancelled
    {
      JoinedSlotsEqual(list[i].date, list[i].time, date, time);
    }
  }

  /** No two appointments that are not cancelled share a slot. */
  predicate NoDoubleBooking(list: seq<Appointment>)
  {
    forall i, j :: 0 <= i < j < |list| && list[i].status != Cancelled && list[j].status != Cancelled ==>
      Slot(list[i]) != Slot(list[j])
  }

  predicate UniqueIds(list: seq<Appointment>)
  {
    forall i, j :: 0 <= i < j < |list| ==> list[i].id != list[j].id
  }

  /**
   * Appending a booking that passed the conflict check keeps the list free of
   * double bookings, as long as no stored id is -1 (the id `ignoreId ?? -1` skips).
   */
  lemma BookingKeepsNoDoubleBooking(list: seq<Appointment>, a: Appointment)
    requires NoDoubleBooking(list)
    requires forall i :: 0 <= i < |list| ==> list[i].id != -1
    requires !HasConflict(list, a.date, a.time, None)
    ensures NoDoubleBooking(list + [a])
  {
    var l := list + [a];
    forall i, j | 0 <= i < j < |l| && l[i].status != Cancelled && l[j].status != Cancelled
      ensures Slot(l[i]) != Slot(l[j])
    {
      if j == |list| {
        assert !Clashes(list[i], a.date, a.time, None);
      }
    }
  }

  /** The page's own reschedule rule: matching appointments move, their status is kept. */
  function MoveIn(list: seq<Appointment>, id: int, date: string, time: string): (r: seq<Appointment>)
    ensures |r| == |list|
    ensures forall i :: 0 <= i < |r| && list[i].id == id ==> r[i] == list[i].(date := date, time := time)
    ensures forall i :: 0 <= i < |r| && list[i].id != id ==> r[i] == list[i]
  {
    MapWhere(list, (a: Appointment) => a.id == id, (a: Appointment) => a.(date := date, time := time))
  }

  /** A reschedule that passed the conflict check keeps the list free of double bookings. */
  lemma RescheduleKeepsNoDoubleBooking(list: seq<Appointment>, id: int, date: string, time: string)
    requires NoDoubleBooking(list) && UniqueIds(list)
    requires !HasConflict(list, date, time, Some(id))
    ensures NoDoubleBooking(MoveIn(list, id, date, time))
  {
    var r := MoveIn(list, id, date, time);
    forall i, j | 0 <= i < j < |r| && r[i].status != Cancelled && r[j].status != Cancelled
      ensures Slot(r[i]) != Slot(r[j])
    {
      if list[i].id == id {
        assert !Clashes(list[j], date, time, Some(id));
      } else if list[j].id == id {
        assert !Clashes(list[i], date, time, Some(id));
      }
    }
  }

  /** Cancelling never creates a double booking. */
  lemma CancelKeepsNoDoubleBooking(list: seq<Appointment>, id: int)
    requires NoDoubleBooking(list)
    ensures NoDoubleBooking(CancelIn(list, id))
  {
  }

  // ---------------------------------------------------------------------
  // Challenges and groups

  /** `joinChallenge` on the list. */
  function JoinChallengeIn(list: seq<Challenge>, id: int): (r: seq<Challenge>)
    ensures |r| == |list|
    ensures forall i :: 0 <= i < |r| ==> r[i] == if list[i].id == id then list[i].(joined := true) else list[i]
  {
    MapWhere(list, (c: Challenge) => c.id == id, (c: Challenge) => c.(joined := true))
  }

  /** `incrementChallenge` on the list: one more step, but never past the target. */
  function IncrementIn(list: seq<Challenge>, id: int): (r: seq<Challenge>)
    ensures |r| == |list|
    ensures forall i :: 0 <= i < |r| && list[i].id != id ==> r[i] == list[i]
    ensures forall i :: 0 <= i < |r| && list[i].id == id ==>
      r[i].progress <= r[i].target && r[i].target == list[i].target &&
      (list[i].progress < list[i].target ==> r[i].progress == list[i].progress + 1) &&
      r[i] == list[i].(progress := r[i].progress)
  {
    MapWhere(list, (c: Challenge) => c.id == id,
             (c: Challenge) => c.(progress := if c.target < c.progress + 1 then c.target else c.progress + 1))
  }

  /** `resetChallenge` on the list. */
  function ResetChallengeIn(list: seq<Challenge>, id: int): (r: seq<Challenge>)
    ensures |r| == |list|
    ensures forall i :: 0 <= i < |r| ==> r[i] == if list[i].id == id then list[i].(progress := 0, joined := false) else list[i]
  {
    MapWhere(list, (c: Challenge) => c.id == id, (c: Challenge) => c.(progress := 0, joined := false))
  }

  /** Every challenge's progress lies between 0 and its target. */
  predicate ProgressInRange(list: seq<Challenge>)
  {
    forall i :: 0 <= i < |list| ==> 0 <= list[i].progress <= list[i].target
  }

  /** Join, increment and reset all keep every progress within 0..target. */
  lemma ChallengeActionsKeepRange(list: seq<Challenge>, id: int)
    requires ProgressInRange(list)
    ensures ProgressInRange(JoinChallengeIn(list, id))
    ensures ProgressInRange(IncrementIn(list, id))
    ensures ProgressInRange(ResetChallengeIn(list, id))
  {
  }

  /** `k` increments of the same challenge. */
  function IncrementTimes(list: seq<Challenge>, id: int, k: nat): seq<Challenge>
  {
    if k == 0 then list else IncrementIn(IncrementTimes(list, id, k - 1), id)
  }

  /** After `k` increments a challenge in range stands at min(target, progress + k). */
  lemma {:induction false} IncrementSaturates(list: seq<Challenge>, id: int, k: nat)
    requires ProgressInRange(list)
    ensures |IncrementTimes(list, id, k)| == |list|
    ensures forall i :: 0 <= i < |list| && list[i].id == id ==>
      IncrementTimes(list, id, k)[i] ==
        list[i].(progress := if list[i].progress + k < list[i].target then list[i].progress + k else list[i].target)
    ensures forall i :: 0 <= i < |list| && list[i].id != id ==> IncrementTimes(list, id, k)[i] == list[i]
  {
    if k > 0 {
      IncrementSaturates(list, id, k - 1);
    }
  }

  /** `joinGroup` on the list. */
  function JoinGroupIn(list: seq<Group>, id: int): (r: seq<Group>)
    ensures |r| == |list|
    ensures forall i :: 0 <= i < |r| && list[i].id != id ==> r[i] == list[i]
    ensures forall i :: 0 <= i < |r| && list[i].id == id ==>
      r[i].joined && r[i].members == list[i].members + 1 && r[i].id == id && r[i].name == list[i].name
  {
    MapWhere(list, (g: Group) => g.id == id, (g: Group) => g.(joined := true, members := g.members + 1))
  }

  /** `leaveGroup` on the list: one member less, but never below 0. */
  function LeaveGroupIn(list: seq<Group>, id: int): (r: seq<Group>)
    ensures |r| == |list|
    ensures forall i :: 0 <= i < |r| && list[i].id != id ==> r[i] == list[i]
    ensures forall i :: 0 <= i < |r| && list[i].id == id ==>
      !r[i].joined && r[i].members >= 0 && r[i].id == id && r[i].name == list[i].name &&
      (list[i].members >= 1 ==> r[i].members == list[i].members - 1)
  {
    MapWhere(list, (g: Group) => g.id == id,
             (g: Group) => g.(joined := false, members := if g.members - 1 < 0 then 0 else g.members - 1))
  }

  predicate MembersNonNegative(list: seq<Group>)
  {
    forall i :: 0 <= i < |list| ==> list[i].members >= 0
  }

  /** Joining and leaving keep every member count at 0 or above. */
  lemma GroupActionsKeepNonNegative(list: seq<Group>, id: int)
    requires MembersNonNegative(list)
    ensures MembersNonNegative(JoinGroupIn(list, id))
    ensures MembersNonNegative(LeaveGroupIn(list, id))
  {
  }

  /** Joining then leaving restores every member count and leaves the group unjoined. */
  lemma JoinThenLeave(list: seq<Group>, id: int)
    requires MembersNonNegative(list)
    ensures LeaveGroupIn(JoinGroupIn(list, id), id)
         == MapWhere(list, (g: Group) => g.id == id, (g: Group) => g.(joined := false))
  {
  }

  // ---------------------------------------------------------------------
  // Saved resources and filters

  /** `toggleResourceSaved` on the list: through a Set, then delete or add. */
  function ToggleSaved(saved: seq<int>, id: int): (r: seq<int>)
    ensures NoDup(r)
    ensures forall x :: x in r <==> (x in saved) != (x == id)
  {
    ToggleIn(Dedup(saved), id)
  }

  /**
   * Toggling twice restores the saved set; on a duplicate-free list without
   * the id it restores the list itself.
   */
  lemma {:induction false} ToggleSavedTwice(saved: seq<int>, id: int)
    ensures forall x :: x in ToggleSaved(ToggleSaved(saved, id), id) <==> x in saved
    ensures NoDup(saved) && id !in saved ==> ToggleSaved(ToggleSaved(saved, id), id) == saved
  {
    if NoDup(saved) && id !in saved {
      var once := ToggleSaved(saved, id);
      assert Dedup(saved) == saved;
      assert once == saved + [id];
      assert Dedup(once) == once;
      ToggleTwice(saved, id);
    }
  }

  /** `filteredResources`. */
  function FilteredResources(resources: seq<Resource>, filter: ResourceFilter, saved: seq<int>): (r: seq<Resource>)
    ensures filter.AllResources? ==> r == resources
    ensures filter.SavedOnly? ==> forall x :: x in r <==> x in resources && x.id in saved
    ensures filter.OnlyCategory? ==> forall x :: x in r <==> x in resources && x.category == filter.category
  {
    match filter
    case SavedOnly => Filter(resources, (x: Resource) => x.id in saved)
    case OnlyCategory(c) => Filter(resources, (x: Resource) => x.category == c)
    case AllResources => resources
  }

  /** The specialty filter and the search box of the psychologist list. */
  predicate MatchesPsychologist(p: Psychologist, filter: string, query: string)
  {
    (filter == "all" || exists s :: s in p.specialties && Contains(ToLower(s), ToLower(filter))) &&
    (ToLower(query) == "" || Contains(ToLower(p.name), ToLower(query)) || Contains(ToLower(p.specialty), ToLower(query)))
  }

  /** `filteredPsychologists`: the matching psychologists, in order. */
  function FilteredPsychologists(ps: seq<Psychologist>, filter: string, query: string): (r: seq<Psychologist>)
    ensures forall p :: p in r <==> p in ps && MatchesPsychologist(p, filter, query)
  {
    Filter(ps, (p: Psychologist) => MatchesPsychologist(p, filter, query))
  }

  /** With filter 'all' and an empty search every psychologist is listed. */
  lemma UnfilteredPsychologists(ps: seq<Psychologist>)
    ensures FilteredPsychologists(ps, "all", "") == ps
  {
    FilterAll(ps, (p: Psychologist) => MatchesPsychologist(p, "all", ""));
  }

  // ---------------------------------------------------------------------
  // The page

  const DefaultChallenges: seq<Challenge> := [
    Challenge(1, "Respira 4-4-4-4 (5 días)", "Completa una sesión diaria de 2 minutos.", 5, 0, false),
    Challenge(2, "Micro-pausas (hoy)", "Realiza 3 micro-pausas en tu jornada.", 3, 0, false)
  ]

  const DefaultGroups: seq<Group> := [
    Group(1, "Ansiedad en el trabajo", 324, false),
    Group(2, "Mindfulness para principiantes", 512, false),
    Group(3, "Recuperación del burnout", 276, false)
  ]

  const DefaultAppointments: seq<Appointment> := [
    Appointment(1, "Dra. María González", "2025-10-10", "15:00", BookedKind, Upcoming),
    Appointment(2, "Dr. Carlos Ruiz", "2025-09-28", "10:00", BookedKind, Past)
  ]

  /** The coaching page's lists, forms and storage keys. */
  class CoachingPage {
    const svc: AppointmentsService
    var appointments: seq<Appointment>
    var challenges: seq<Challenge>
    /** The key 'mindora_challenges'. */
    var challengesCell: Cell<seq<Challenge>>
    var groups: seq<Group>
    /** The key 'mindora_groups'. */
    var groupsCell: Cell<seq<Group>>
    var savedResources: seq<int>
    /** The key 'mindora_saved_resources'. */
    var savedCell: Cell<seq<int>>
    var triggers: seq<Trigger>
    /** The key 'mindora_triggers'. */
    var triggersCell: Cell<seq<Trigger>>
    var triggerText: string
    var selectedTags: seq<string>
    var selectedPsychologist: Option<Psychologist>
    var bookingDate: string
    var bookingTime: string
    var bookingError: string
    var showBookingModal: bool
    var apptToEdit: Option<Appointment>
    var rescheduleDate: string
    var rescheduleTime: string
    var rescheduleError: string
    var showRescheduleModal: bool
    var showCancelModal: bool

    constructor (svc: AppointmentsService, challengesCell: Cell<seq<Challenge>>, groupsCell: Cell<seq<Group>>,
                 savedCell: Cell<seq<int>>, triggersCell: Cell<seq<Trigger>>)
      ensures this.svc == svc && appointments == DefaultAppointments
      ensures challenges == DefaultChallenges && groups == DefaultGroups
      ensures savedResources == [] && triggers == [] && selectedTags == [] && triggerText == ""
      ensures this.challengesCell == challengesCell && this.groupsCell == groupsCell
      ensures this.savedCell == savedCell && this.triggersCell == triggersCell
      ensures selectedPsychologist.None? && apptToEdit.None?
    {
      this.svc := svc;
      appointments := DefaultAppointments;
      challenges := DefaultChallenges;
      this.challengesCell := challengesCell;
      groups := DefaultGroups;
      this.groupsCell := groupsCell;
      savedResources := [];
      this.savedCell := savedCell;
      triggers := [];
      this.triggersCell := triggersCell;
      triggerText := "";
      selectedTags := [];
      selectedPsychologist := None;
      bookingDate := "";
      bookingTime := "";
      bookingError := "";
      showBookingModal := false;
      apptToEdit := None;
      rescheduleDate := "";
      rescheduleTime := "";
      rescheduleError := "";
      showRescheduleModal := false;
      showCancelModal := false;
    }

    /**
     * `ngOnInit`: parsable stored lists replace the demo lists; stored
     * appointments replace the demo ones, otherwise the demo ones are saved.
     */
    method Init()
      modifies this`appointments, this`challenges, this`groups, this`triggers, this`savedResources, svc`store
      ensures |Loaded(old(svc.store))| > 0 ==> appointments == Loaded(old(svc.store)) && svc.store == old(svc.store)
      ensures |Loaded(old(svc.store))| == 0 ==> appointments == old(appointments) && svc.store == Stored(appointments)
      ensures challengesCell.Stored? ==> challenges == challengesCell.value
      ensures !challengesCell.Stored? ==> challenges == old(challenges)
      ensures groupsCell.Stored? ==> groups == groupsCell.value
      ensures !groupsCell.Stored? ==> groups == old(groups)
      ensures triggersCell.Stored? ==> triggers == triggersCell.value
      ensures !triggersCell.Stored? ==> triggers == old(triggers)
      ensures savedCell.Stored? ==> savedResources == savedCell.value
      ensures !savedCell.Stored? ==> savedResources == old(savedResources)
    {
      var stored := svc.Load();
      if challengesCell.Stored? {
        challenges := challengesCell.value;
      }
      if triggersCell.Stored? {
        triggers := triggersCell.value;
      }
      if groupsCell.Stored? {
        groups := groupsCell.value;
      }
      if savedCell.Stored? {
        savedResources := savedCell.value;
      }
      if |stored| > 0 {
        appointments := stored;
      } else {
        svc.Save(appointments);
      }
    }

    /** `openBooking`. */
    method OpenBooking(p: Psychologist)
      modifies this`selectedPsychologist, this`bookingDate, this`bookingTime, this`bookingError, this`showBookingModal
      ensures selectedPsychologist == Some(p) && bookingDate == "" && bookingTime == "" && bookingError == ""
      ensures showBookingModal
    {
      selectedPsychologist := Some(p);
      bookingDate := "";
      bookingTime := "";
      bookingError := "";
      showBookingModal := true;
    }

    /**
     * `confirmBooking`: a missing psychologist, date or time, or a taken slot,
     * sets an error and keeps the list; otherwise exactly one upcoming video
     * call is appended, saved and the modal closes. `now` stands for Date.now().
     */
    method ConfirmBooking(now: int)
      modifies this`appointments, this`bookingError, this`showBookingModal, this`selectedPsychologist, svc`store
      ensures old(selectedPsychologist.None? || bookingDate == "" || bookingTime == "") ==>
        bookingError == MissingSlotError && appointments == old(appointments) && svc.store == old(svc.store)
      ensures old(selectedPsychologist.Some? && bookingDate != "" && bookingTime != "") &&
              HasConflict(old(appointments), bookingDate, bookingTime, None) ==>
        bookingError == ConflictError && appointments == old(appointments) && svc.store == old(svc.store)
      ensures old(selectedPsychologist.Some? && bookingDate != "" && bookingTime != "") &&
              !HasConflict(old(appointments), bookingDate, bookingTime, None) ==>
        appointments == old(appointments) +
          [Appointment(now, old(selectedPsychologist).value.name, bookingDate, bookingTime, BookedKind, Upcoming)] &&
        svc.store == Stored(appointments) && !showBookingModal && selectedPsychologist.None? &&
        bookingError == old(bookingError)
    {
      if selectedPsychologist.None? || bookingDate == "" || bookingTime == "" {
        bookingError := MissingSlotError;
        return;
      }
      if HasConflict(appointments, bookingDate, bookingTime, None) {
        bookingError := ConflictError;
        return;
      }
      var added := Appointment(now, selectedPsychologist.value.name, bookingDate, bookingTime, BookedKind, Upcoming);
      appointments := appointments + [added];
      svc.Save(appointments);
      showBookingModal := false;
      selectedPsychologist := None;
    }

    /** `openReschedule`. */
    method OpenReschedule(a: Appointment)
      modifies this`apptToEdit, this`rescheduleDate, this`rescheduleTime, this`rescheduleError, this`showRescheduleModal
      ensures apptToEdit == Some(a) && rescheduleDate == a.date && rescheduleTime == a.time
      ensures rescheduleError == "" && showRescheduleModal
    {
      apptToEdit := Some(a);
      rescheduleDate := a.date;
      rescheduleTime := a.time;
      rescheduleError := "";
      showRescheduleModal := true;
    }

    /**
     * `confirmReschedule`: only the appointments carrying the edited id move
     * to the new date and time; the length, the other entries and every
     * status stay as they were.
     */
    method ConfirmReschedule()
      modifies this`appointments, this`rescheduleError, this`showRescheduleModal, this`apptToEdit, svc`store
      ensures old(apptToEdit.None? || rescheduleDate == "" || rescheduleTime == "") ==>
        rescheduleError == MissingSlotError && appointments == old(appointments) && svc.store == old(svc.store)
      ensures old(apptToEdit.Some? && rescheduleDate != "" && rescheduleTime != "") &&
              HasConflict(old(appointments), rescheduleDate, rescheduleTime, Some(old(apptToEdit).value.id)) ==>
        rescheduleError == ConflictError && appointments == old(appointments) && svc.store == old(svc.store)
      ensures old(apptToEdit.Some? && rescheduleDate != "" && rescheduleTime != "") &&
              !HasConflict(old(appointments), rescheduleDate, rescheduleTime, Some(old(apptToEdit).value.id)) ==>
        appointments == MoveIn(old(appointments), old(apptToEdit).value.id, rescheduleDate, rescheduleTime) &&
        svc.store == Stored(appointments) && !showRescheduleModal && apptToEdit.None?
    {
      if apptToEdit.None? || rescheduleDate == "" || rescheduleTime == "" {
        rescheduleError := MissingSlotError;
        return;
      }
      var id := apptToEdit.value.id;
      if HasConflict(appointments, rescheduleDate, rescheduleTime, Some(id)) {
        rescheduleError := ConflictError;
        return;
      }
      appointments := MoveIn(appointments, id, rescheduleDate, rescheduleTime);
      svc.Save(appointments);
      showRescheduleModal := false;
      apptToEdit := None;
    }

    /** `openCancel`. */
    method OpenCancel(a: Appointment)
      modifies this`apptToEdit, this`showCancelModal
      ensures apptToEdit == Some(a) && showCancelModal
    {
      apptToEdit := Some(a);
      showCancelModal := true;
    }

    /** `confirmCancel`: only the appointments carrying the edited id become cancelled. */
    method ConfirmCancel()
      modifies this`appointments, this`showCancelModal, this`apptToEdit, svc`store
      ensures old(apptToEdit.None?) ==> appointments == old(appointments) && svc.store == old(svc.store)
      ensures old(apptToEdit.Some?) ==>
        appointments == CancelIn(old(appointments), old(apptToEdit).value.id) &&
        svc.store == Stored(appointments) && !showCancelModal && apptToEdit.None?
    {
      if apptToEdit.None? {
        return;
      }
      appointments := CancelIn(appointments, apptToEdit.value.id);
      svc.Save(appointments);
      showCancelModal := false;
      apptToEdit := None;
    }

    /** `joinChallenge`. */
    method JoinChallenge(id: int)
      modifies this`challenges, this`challengesCell
      ensures challenges == JoinChallengeIn(old(challenges), id) && challengesCell == Stored(challenges)
    {
      challenges := JoinChallengeIn(challenges, id);
      challengesCell := Stored(challenges);
    }

    /** `incrementChallenge`. */
    method IncrementChallenge(id: int)
      modifies this`challenges, this`challengesCell
      ensures challenges == IncrementIn(old(challenges), id) && challengesCell == Stored(challenges)
    {
      challenges := IncrementIn(challenges, id);
      challengesCell := Stored(challenges);
    }

    /** `resetChallenge`. */
    method ResetChallenge(id: int)
      modifies this`challenges, this`challengesCell
      ensures challenges == ResetChallengeIn(old(challenges), id) && challengesCell == Stored(challenges)
    {
      challenges := ResetChallengeIn(challenges, id);
      challengesCell := Stored(challenges);
    }

    /** `joinGroup`. */
    method JoinGroup(id: int)
      modifies this`groups, this`groupsCell
      ensures groups == JoinGroupIn(old(groups), id) && groupsCell == Stored(groups)
    {
      groups := JoinGroupIn(groups, id);
      groupsCell := Stored(groups);
    }

    /** `leaveGroup`. */
    method LeaveGroup(id: int)
      modifies this`groups, this`groupsCell
      ensures groups == LeaveGroupIn(old(groups), id) && groupsCell == Stored(groups)
    {
      groups := LeaveGroupIn(groups, id);
      groupsCell := Stored(groups);
    }

    /** `toggleResourceSaved`. */
    method ToggleResourceSaved(id: int)
      modifies this`savedResources, this`savedCell
      ensures savedResources == ToggleSaved(old(savedResources), id) && savedCell == Stored(savedResources)
    {
      savedResources := ToggleSaved(savedResources, id);
      savedCell := Stored(savedResources);
    }

    /** `toggleTriggerTag`. */
    method ToggleTriggerTag(tag: string)
      modifies this`selectedTags
      ensures selectedTags == ToggleIn(old(selectedTags), tag)
    {
      selectedTags := ToggleIn(selectedTags, tag);
    }

    /**
     * `addTrigger`: a blank text does nothing; otherwise the trimmed text with
     * the selected tags goes to the front, is saved, and the form is cleared.
     */
    method AddTrigger(now: int)
      modifies this`triggers, this`triggersCell, this`triggerText, this`selectedTags
      ensures Trim(old(triggerText)) == "" ==>
        triggers == old(triggers) && triggersCell == old(triggersCell) && triggerText == old(triggerText) &&
        selectedTags == old(selectedTags)
      ensures Trim(old(triggerText)) != "" ==>
        triggers == [Trigger(now, Trim(old(triggerText)), old(selectedTags), now)] + old(triggers) &&
        triggersCell == Stored(triggers) && triggerText == "" && selectedTags == []
    {
      var text := Trim(triggerText);
      if text == "" {
        return;
      }
      triggers := [Trigger(now, text, selectedTags, now)] + triggers;
      triggersCell := Stored(triggers);
      triggerText := "";
      selectedTags := [];
    }

    /** `removeTrigger`: every trigger with the id goes; the rest keep their order. */
    method RemoveTrigger(id: int)
      modifies this`triggers, this`triggersCell
      ensures triggers == Filter(old(triggers), (t: Trigger) => t.id != id) && triggersCell == Stored(triggers)
      ensures forall t :: t in triggers <==> t in old(triggers) && t.id != id
    {
      triggers := Filter(triggers, (t: Trigger) => t.id != id);
      triggersCell := Stored(triggers);
    }
  }
}
