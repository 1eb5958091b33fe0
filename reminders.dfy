// The reminders modal
// (src/app/home/modals/reminders-modal/reminders-modal.component.ts): a list
// of reminders kept under 'wellnessReminders', with enable/delete and an
// add form whose day selection is toggled one day at a time.

module Reminders {
  import opened Common

  datatype ReminderType = Assessment | Breathing | Break | Water | Posture | CustomType

  function TypeName(t: ReminderType): string
  {
    match t
    case Assessment => "assessment"
    case Breathing => "breathing"
    case Break => "break"
    case Water => "water"
    case Posture => "posture"
    case CustomType => "custom"
  }

  /** A reminder; `time` is HH:mm and `days` holds ids such as "mon". */
  datatype Reminder = Reminder(id: int, kind: ReminderType, title: string, time: string, days: seq<string>,
                               enabled: bool, sound: bool, notification: bool)

  /** The two reminders shown when nothing is stored. */
  const DefaultReminders: seq<Reminder> := [
    Reminder(1, Assessment, "reminders.types.assessment", "09:00", ["mon", "wed", "fri"], true, true, true),
    Reminder(2, Water, "reminders.types.water", "10:00", ["mon", "tue", "wed", "thu", "fri"], true, false, true)
  ]

  const WorkDays: seq<string> := ["mon", "tue", "wed", "thu", "fri"]

  /** `loadReminders` for a key that is absent or parsable (unparsable content makes the parse throw). */
  function LoadReminders(c: Cell<seq<Reminder>>): (r: seq<Reminder>)
    requires !c.Unparsable?
    ensures c.Absent? ==> r == DefaultReminders && |r| == 2 && r[0].id == 1 && r[1].id == 2
    ensures c.Stored? ==> r == c.value
  {
    if c.Stored? then c.value else DefaultReminders
  }

  /** `findIndex` by id: the first position holding the id, -1 when none. */
  function FindIndex(list: seq<Reminder>, id: int): (i: int)
    ensures -1 <= i < |list|
    ensures i == -1 <==> forall k :: 0 <= k < |list| ==> list[k].id != id
    ensures i >= 0 ==> list[i].id == id && forall k :: 0 <= k < i ==> list[k].id != id
  {
    if list == [] then -1
    else if list[0].id == id then 0
    else
      var j := FindIndex(list[1..], id);
      if j == -1 then -1 else j + 1
  }

  /** `toggleReminder` on the list: the first reminder with the id flips `enabled`; nothing else changes. */
  function ToggledReminder(list: seq<Reminder>, id: int): (r: seq<Reminder>)
    ensures |r| == |list|
    ensures FindIndex(list, id) == -1 ==> r == list
    ensures FindIndex(list, id) >= 0 ==>
      var i := FindIndex(list, id);
      r[i] == list[i].(enabled := !list[i].enabled) && forall k :: 0 <= k < |list| && k != i ==> r[k] == list[k]
  {
    var index := FindIndex(list, id);
    if index != -1 then list[index := list[index].(enabled := !list[index].enabled)] else list
  }

  /** Toggling the same reminder twice restores the list. */
  lemma ToggleReminderTwice(list: seq<Reminder>, id: int)
    ensures ToggledReminder(ToggledReminder(list, id), id) == list
  {
    var i := FindIndex(list, id);
    var once := ToggledReminder(list, id);
    if i >= 0 {
      assert FindIndex(once, id) == i by {
        assert once[i].id == id;
        forall k | 0 <= k < i ensures once[k].id != id {
          assert once[k] == list[k];
        }
      }
    } else {
      assert once == list;
    }
  }

  /** `deleteReminder` on the list: every reminder with the id goes, the rest keep their order. */
  function DeletedReminder(list: seq<Reminder>, id: int): (r: seq<Reminder>)
    ensures forall x :: x in r <==> x in list && x.id != id
  {
    Filter(list, (x: Reminder) => x.id != id)
  }

  /**
   * Deleting distributes over concatenation, and one reminder stays exactly
   * when its id differs: the survivors keep their order and multiplicity.
   */
  lemma DeletedReminderAppend(a: seq<Reminder>, b: seq<Reminder>, id: int)
    ensures DeletedReminder(a + b, id) == DeletedReminder(a, id) + DeletedReminder(b, id)
  {
    FilterAppend(a, b, (x: Reminder) => x.id != id);
  }

  lemma DeletedReminderOne(x: Reminder, id: int)
    ensures DeletedReminder([x], id) == if x.id == id then [] else [x]
  {
    assert [x][1..] == [];
  }

  /** Deleting a reminder with an id that does not occur changes nothing. */
  lemma DeleteAbsent(list: seq<Reminder>, id: int)
    requires forall x :: x in list ==> x.id != id
    ensures DeletedReminder(list, id) == list
  {
    FilterAll(list, (x: Reminder) => x.id != id);
  }

  /** `toggleDay` on the selection. */
  function ToggledDay(days: seq<string>, day: string): (r: seq<string>)
    ensures day in days ==> day !in r
    ensures day !in days ==> r == days + [day]
    ensures forall d :: d != day ==> (d in r <==> d in days)
  {
    ToggleIn(days, day)
  }

  /**
   * Toggling a day twice selects the same days again, and gives back exactly
   * the same list when the day was not selected.
   */
  lemma ToggleDayTwice(days: seq<string>, day: string)
    ensures forall d :: d in ToggledDay(ToggledDay(days, day), day) <==> d in days
    ensures day !in days ==> ToggledDay(ToggledDay(days, day), day) == days
  {
    if day !in days {
      ToggleTwice(days, day);
    }
  }

  /** The title of a new reminder: the custom title as typed, or the type's translation key. */
  function NewTitle(kind: ReminderType, customTitle: string): (r: string)
    ensures kind == CustomType ==> r == customTitle
    ensures kind != CustomType ==> r == "reminders.types." + TypeName(kind)
  {
    if kind == CustomType then customTitle else "reminders.types." + TypeName(kind)
  }

  /** The icon and color for a type id, with the bell and grey for an unknown id. */
  function ReminderIcon(kind: string): (r: string)
    ensures kind !in {"assessment", "breathing", "break", "water", "posture", "custom"} ==> r == "fa-bell"
  {
    if kind == "assessment" then "fa-clipboard-list"
    else if kind == "breathing" then "fa-wind"
    else if kind == "break" then "fa-mug-hot"
    else if kind == "water" then "fa-glass-water"
    else if kind == "posture" then "fa-person-walking"
    else "fa-bell"
  }

  function ReminderColor(kind: string): (r: string)
    ensures kind !in {"assessment", "breathing", "break", "water", "posture"} ==> r == "#6c757d"
  {
    if kind == "assessment" then "#0d6efd"
    else if kind == "breathing" then "#6f42c1"
    else if kind == "break" then "#198754"
    else if kind == "water" then "#0dcaf0"
    else if kind == "posture" then "#fd7e14"
    else "#6c757d"
  }

  const NoDaysMessage: string := "Selecciona al menos un día"
  const NoTitleMessage: string := "Escribe un título para el recordatorio personalizado"

  /** The alert `addReminder` stops with: no day selected, or a custom type whose trimmed title is empty. */
  function AddError(days: seq<string>, kind: ReminderType, customTitle: string): (r: Option<string>)
    ensures r == Some(NoDaysMessage) <==> |days| == 0
    ensures r == Some(NoTitleMessage) <==> |days| > 0 && kind == CustomType && Trim(customTitle) == ""
    ensures r.None? <==> |days| > 0 && (kind != CustomType || Trim(customTitle) != "")
  {
    if |days| == 0 then Some(NoDaysMessage)
    else if kind == CustomType && Trim(customTitle) == "" then Some(NoTitleMessage)
    else None
  }

  /** A custom reminder is accepted exactly when its title has a character that is not white space. */
  lemma CustomTitleAccepted(days: seq<string>, customTitle: string)
    requires |days| > 0
    ensures AddError(days, CustomType, customTitle).None? <==> exists i :: 0 <= i < |customTitle| && !IsSpace(customTitle[i])
  {
    TrimEmptyIffBlank(customTitle);
  }

  /** The modal. */
  class RemindersModal {
    var reminders: seq<Reminder>
    var showAddForm: bool
    var newType: ReminderType
    var newTime: string
    var newDays: seq<string>
    var newSound: bool
    var newNotification: bool
    var newCustomTitle: string
    /** The key 'wellnessReminders'. */
    var store: Cell<seq<Reminder>>
    /** The messages shown with `alert`. */
    var alerts: seq<string>
    var closeEvents: nat

    /** The add form holds its defaults. */
    predicate FormIsDefault()
      reads this
    {
      newType == Assessment && newTime == "09:00" && newDays == WorkDays && newSound && newNotification &&
      newCustomTitle == ""
    }

    constructor (initial: Cell<seq<Reminder>>)
      requires !initial.Unparsable?
      ensures reminders == LoadReminders(initial) && store == initial
      ensures !showAddForm && FormIsDefault() && alerts == [] && closeEvents == 0
    {
      reminders := LoadReminders(initial);
      showAddForm := false;
      newType := Assessment;
      newTime := "09:00";
      newDays := WorkDays;
      newSound := true;
      newNotification := true;
      newCustomTitle := "";
      store := initial;
      alerts := [];
      closeEvents := 0;
    }

    method SaveReminders()
      modifies this`store
      ensures store == Stored(reminders)
    {
      store := Stored(reminders);
    }

    /** `toggleReminder`: saved only when a reminder with the id exists. */
    method ToggleReminder(id: int)
      modifies this`reminders, this`store
      ensures reminders == ToggledReminder(old(reminders), id)
      ensures FindIndex(old(reminders), id) == -1 ==> store == old(store)
      ensures FindIndex(old(reminders), id) != -1 ==> store == Stored(reminders)
    {
      var index := FindIndex(reminders, id);
      if index != -1 {
        reminders := reminders[index := reminders[index].(enabled := !reminders[index].enabled)];
        SaveReminders();
      }
    }

    /** `deleteReminder`. */
    method DeleteReminder(id: int)
      modifies this`reminders, this`store
      ensures reminders == DeletedReminder(old(reminders), id) && store == Stored(reminders)
    {
      reminders := DeletedReminder(reminders, id);
      SaveReminders();
    }

    /** `toggleDay`. */
    method ToggleDay(day: string)
      modifies this`newDays
      ensures newDays == ToggledDay(old(newDays), day)
    {
      newDays := ToggledDay(newDays, day);
    }

    method OpenAddForm()
      modifies this`showAddForm
      ensures showAddForm
    {
      showAddForm := true;
    }

    method ResetForm()
      modifies this`newType, this`newTime, this`newDays, this`newSound, this`newNotification, this`newCustomTitle
      ensures FormIsDefault()
    {
      newType := Assessment;
      newTime := "09:00";
      newDays := WorkDays;
      newSound := true;
      newNotification := true;
      newCustomTitle := "";
    }

    /** `cancelAdd`: hide the form and reset it. */
    method CancelAdd()
      modifies this`showAddForm, this`newType, this`newTime, this`newDays, this`newSound, this`newNotification,
        this`newCustomTitle
      ensures !showAddForm && FormIsDefault()
    {
      showAddForm := false;
      ResetForm();
    }

    /** The success path of `addReminder`: the form becomes one enabled reminder, appended and saved. */
    method AppendFromForm(now: int)
      modifies this`reminders, this`store
      ensures reminders == old(reminders) + [Reminder(now, newType, NewTitle(newType, newCustomTitle), newTime, newDays,
                                                      true, newSound, newNotification)]
      ensures store == Stored(reminders)
    {
      var title := if newType == CustomType then newCustomTitle else "reminders.types." + TypeName(newType);
      var newReminder := Reminder(now, newType, title, newTime, newDays, true, newSound, newNotification);
      reminders := reminders + [newReminder];
      SaveReminders();
    }

    /**
     * `addReminder`: with no day selected, or a custom type whose trimmed
     * title is empty, an alert and no change; otherwise one enabled reminder
     * is appended and saved and the form closes with its defaults. `now`
     * stands for the id taken from the clock.
     */
    method AddReminder(now: int)
      modifies this`reminders, this`store, this`alerts, this`showAddForm, this`newType, this`newTime, this`newDays,
        this`newSound, this`newNotification, this`newCustomTitle
      ensures old(AddError(newDays, newType, newCustomTitle)).Some? ==>
        alerts == old(alerts) + [old(AddError(newDays, newType, newCustomTitle)).value] &&
        reminders == old(reminders) && store == old(store) && showAddForm == old(showAddForm) &&
        newType == old(newType) && newTime == old(newTime) && newDays == old(newDays) &&
        newSound == old(newSound) && newNotification == old(newNotification) && newCustomTitle == old(newCustomTitle)
      ensures old(AddError(newDays, newType, newCustomTitle)).None? ==>
        alerts == old(alerts) &&
        reminders == old(reminders) + [Reminder(now, old(newType), NewTitle(old(newType), old(newCustomTitle)),
                                                old(newTime), old(newDays), true, old(newSound), old(newNotification))] &&
        store == Stored(reminders) && !showAddForm && FormIsDefault()
    {
      var error := AddError(newDays, newType, newCustomTitle);
      if error.Some? {
        alerts := alerts + [error.value];
        return;
      }
      AppendFromForm(now);
      CancelAdd();
    }

    method CloseModal()
      modifies this`closeEvents
      ensures closeEvents == old(closeEvents) + 1
    {
      closeEvents := closeEvents + 1;
    }
  }
}
