/**
 * The schedule-management page (`Schedules`): the in-memory list of
 * schedules with add, update-by-id and delete-by-id, the search/filter view
 * of it and the route-number drop-down.
 */
module ScheduleList {
  import opened Maybe
  import opened Seqs
  import opened RouteSearch
  import opened ScheduleForm

  /**
   * `{...schedule, ...updatedData}`. The submitted data always carries all
   * six form fields and never an `id`, so the merge keeps the id and takes
   * every field from the update.
   */
  function Merge(s: Schedule, updated: ScheduleData): (m: Schedule)
    ensures m.id == s.id && m.data == updated
  {
    s.(data := updated)
  }

  /** `schedules.map(s => s.id === id ? {...s, ...updated} : s)`. */
  function UpdateById(ss: seq<Schedule>, id: int, updated: ScheduleData): (r: seq<Schedule>)
    ensures |r| == |ss|
    ensures forall i :: 0 <= i < |ss| ==> r[i].id == ss[i].id
    ensures forall i :: 0 <= i < |ss| && ss[i].id == id ==> r[i].data == updated
    ensures forall i :: 0 <= i < |ss| && ss[i].id != id ==> r[i] == ss[i]
    decreases |ss|
  {
    if ss == [] then []
    else [if ss[0].id == id then Merge(ss[0], updated) else ss[0]] + UpdateById(ss[1..], id, updated)
  }

  /** Updating an id that no schedule carries changes nothing. */
  lemma UpdateAbsentIdIsNoop(ss: seq<Schedule>, id: int, updated: ScheduleData)
    requires forall i :: 0 <= i < |ss| ==> ss[i].id != id
    ensures UpdateById(ss, id, updated) == ss
  {
  }

  /** The record keeps a different id from `id`. */
  function HasOtherId(id: int): Schedule -> bool
  {
    (s: Schedule) => s.id != id
  }

  /** `schedules.filter(s => s.id !== id)`. */
  function DeleteById(ss: seq<Schedule>, id: int): (r: seq<Schedule>)
    ensures IsSubseq(r, ss)
    ensures forall s :: s in r ==> s in ss && s.id != id
    ensures forall s :: s in ss && s.id != id ==> multiset(r)[s] == multiset(ss)[s]
  {
    FilterIsSubseq(ss, HasOtherId(id));
    Filter(ss, HasOtherId(id))
  }

  /** Deleting an id that no schedule carries changes nothing. */
  lemma DeleteAbsentIdIsNoop(ss: seq<Schedule>, id: int)
    requires forall i :: 0 <= i < |ss| ==> ss[i].id != id
    ensures DeleteById(ss, id) == ss
  {
    FilterAll(ss, HasOtherId(id));
  }

  /** The schedule passes the page's search box and route drop-down. */
  function Matches(searchTerm: string, filterRoute: string): Schedule -> bool
  {
    (s: Schedule) => MatchesSearch(s.data.routeNo, s.data.routeName, s.data.details, searchTerm)
                     && MatchesFilter(s.data.routeNo, filterRoute)
  }

  /** `filteredSchedules`: the schedules that match, in list order. */
  function FilteredSchedules(ss: seq<Schedule>, searchTerm: string, filterRoute: string): (r: seq<Schedule>)
    ensures IsSubseq(r, ss)
    ensures forall s :: s in r ==>
              s in ss && MatchesSearch(s.data.routeNo, s.data.routeName, s.data.details, searchTerm)
    ensures filterRoute != "" ==> forall s :: s in r ==> s.data.routeNo == filterRoute
    ensures forall s :: s in ss && Matches(searchTerm, filterRoute)(s) ==> multiset(r)[s] == multiset(ss)[s]
  {
    FilterIsSubseq(ss, Matches(searchTerm, filterRoute));
    Filter(ss, Matches(searchTerm, filterRoute))
  }

  /** With an empty search box and "All Routes" selected, every schedule is shown. */
  lemma EmptyQueryShowsAllSchedules(ss: seq<Schedule>)
    ensures FilteredSchedules(ss, "", "") == ss
  {
    forall i | 0 <= i < |ss| ensures Matches("", "")(ss[i]) {
      EmptyQueryMatches(ss[i].data.routeNo, ss[i].data.routeName, ss[i].data.details);
    }
    FilterAll(ss, Matches("", ""));
  }

  /** `schedules.map(s => s.routeNo)`. */
  function RouteNos(ss: seq<Schedule>): (r: seq<string>)
    ensures |r| == |ss| && forall i :: 0 <= i < |ss| ==> r[i] == ss[i].data.routeNo
  {
    seq(|ss|, i requires 0 <= i < |ss| => ss[i].data.routeNo)
  }

  /** `routeNumbers`: each route number once, in order of first appearance. */
  function RouteNumbers(ss: seq<Schedule>): (r: seq<string>)
    ensures Distinct(r)
    ensures IsSubseq(r, RouteNos(ss))
    ensures forall n :: n in r ==> n in RouteNos(ss)
    ensures forall n :: n in r ==> exists i :: 0 <= i < |ss| && ss[i].data.routeNo == n
    ensures forall i :: 0 <= i < |ss| ==> ss[i].data.routeNo in r
    ensures forall i, j :: 0 <= i < j < |r| ==> FirstIndex(RouteNos(ss), r[i]) < FirstIndex(RouteNos(ss), r[j])
  {
    DedupFirstOccurrenceOrder(RouteNos(ss));
    DedupIsSubseq(RouteNos(ss));
    Dedup(RouteNos(ss))
  }

  /**
   * The `schedules`, `isModalOpen` and `editingSchedule` state of the page,
   * and the schedule modal, which stays mounted and is given `editing` as its
   * `schedule` prop. The modal reloads its form only when that prop changes.
   */
  class ScheduleBoard {
    var schedules: seq<Schedule>
    var modalOpen: bool
    var editing: Option<Schedule>
    const modal: ScheduleModal

    constructor ()
      ensures schedules == [] && !modalOpen && editing == None
      ensures fresh(modal) && modal.form == EmptyForm
    {
      schedules := [];
      modalOpen := false;
      editing := None;
      modal := new ScheduleModal();
    }

    /**
     * `setEditingSchedule`, together with the modal's effect on its
     * `schedule` prop: the form is reloaded exactly when the prop changes,
     * and otherwise keeps whatever was typed into it.
     */
    method SetEditing(e: Option<Schedule>)
      modifies this, modal
      ensures editing == e && schedules == old(schedules) && modalOpen == old(modalOpen)
      ensures e != old(editing) ==> modal.form == InitialForm(e)
      ensures e == old(editing) ==> modal.form == old(modal.form)
    {
      if e != editing {
        modal.LoadSchedule(e);
      }
      editing := e;
    }

    /** The mount effect that installs the initial list. */
    method LoadSchedules(initial: seq<Schedule>)
      modifies this
      ensures schedules == initial && modalOpen == old(modalOpen) && editing == old(editing)
    {
      schedules := initial;
    }

    /**
     * `addSchedule`, with the clock reading `now` as the new id. It leaves
     * `editing` and therefore the modal's form alone.
     */
    method AddSchedule(now: int, data: ScheduleData)
      modifies this
      ensures schedules == old(schedules) + [Schedule(now, data)]
      ensures !modalOpen && editing == old(editing)
    {
      schedules := schedules + [Schedule(now, data)];
      modalOpen := false;
    }

    /** `updateSchedule`: merges `data` into every schedule with this id, then closes the modal. */
    method UpdateSchedule(id: int, data: ScheduleData)
      modifies this, modal
      ensures schedules == UpdateById(old(schedules), id, data)
      ensures !modalOpen && editing == None
      ensures old(editing).Some? ==> modal.form == EmptyForm
      ensures old(editing).None? ==> modal.form == old(modal.form)
    {
      schedules := UpdateById(schedules, id, data);
      SetEditing(None);
      modalOpen := false;
    }

    /** `deleteSchedule`, with the answer to the confirmation dialog as `confirmed`. */
    method DeleteSchedule(id: int, confirmed: bool)
      modifies this
      ensures schedules == if confirmed then DeleteById(old(schedules), id) else old(schedules)
      ensures modalOpen == old(modalOpen) && editing == old(editing)
    {
      if confirmed {
        schedules := DeleteById(schedules, id);
      }
    }

    /** `handleEdit`: open the modal on an existing schedule. */
    method HandleEdit(s: Schedule)
      modifies this, modal
      ensures editing == Some(s) && modalOpen && schedules == old(schedules)
      ensures old(editing) != Some(s) ==> modal.form == s.data
      ensures old(editing) == Some(s) ==> modal.form == old(modal.form)
    {
      SetEditing(Some(s));
      modalOpen := true;
    }

    /**
     * `handleAddNew`: clear `editing` and open the modal. The form is reset
     * only when a schedule was being edited; otherwise the modal shows what
     * it last held.
     */
    method HandleAddNew()
      modifies this, modal
      ensures editing == None && modalOpen && schedules == old(schedules)
      ensures old(editing).Some? ==> modal.form == EmptyForm
      ensures old(editing).None? ==> modal.form == old(modal.form)
    {
      SetEditing(None);
      modalOpen := true;
    }

    /** The modal's `onClose`. */
    method CloseModal()
      modifies this, modal
      ensures editing == None && !modalOpen && schedules == old(schedules)
      ensures old(editing).Some? ==> modal.form == EmptyForm
      ensures old(editing).None? ==> modal.form == old(modal.form)
    {
      modalOpen := false;
      SetEditing(None);
    }

    /**
     * Submitting the modal: the modal is given `editing` as its `schedule`
     * and `editing ? updateSchedule : addSchedule` as its `onSubmit`. After
     * an update the form is reset; after an add it keeps the submitted data.
     */
    method Submit(now: int)
      modifies this, modal
      ensures old(editing).Some? ==>
        schedules == UpdateById(old(schedules), old(editing).value.id, Clean(old(modal.form)))
      ensures old(editing).None? ==> schedules == old(schedules) + [Schedule(now, Clean(old(modal.form)))]
      ensures !modalOpen && editing == None
      ensures old(editing).Some? ==> modal.form == EmptyForm
      ensures old(editing).None? ==> modal.form == old(modal.form)
    {
      var request := modal.HandleSubmit(editing);
      match request
      case UpdateRequest(id, data) => UpdateSchedule(id, data);
      case AddRequest(data) => AddSchedule(now, data);
    }
  }
}
