/**
 * The schedule editing form (`ScheduleModal`): the form state, its
 * variable-length time-slot and coordinate arrays, and the cleaning done on
 * submit.
 */
module ScheduleForm {
  import opened Maybe
  import opened Seqs
  import opened Text
  import opened Geo

  /** The point a new coordinate row starts at. */
  const DefaultPoint := Point(23.746, 90.376)

  /** `coord[0] !== 0 || coord[1] !== 0`: the point is kept on submit. */
  predicate IsSetPoint(p: Point)
  {
    p.lat != 0.0 || p.lng != 0.0
  }

  datatype TimeField = StartTime | DepartureTime
  datatype TextField = RouteNo | RouteName | Details
  datatype Axis = Lat | Lng

  /** The editable fields of a schedule: exactly the keys of `formData`. */
  datatype ScheduleData = ScheduleData(
    routeNo: string,
    routeName: string,
    startTime: seq<string>,
    departureTime: seq<string>,
    details: string,
    coordinates: seq<Point>)
  {
    function Times(f: TimeField): seq<string>
    {
      match f
      case StartTime => startTime
      case DepartureTime => departureTime
    }

    function Text(f: TextField): string
    {
      match f
      case RouteNo => routeNo
      case RouteName => routeName
      case Details => details
    }

    /** `{...prev, [field]: s}` for one of the two time arrays. */
    function WithTimes(f: TimeField, s: seq<string>): (d: ScheduleData)
      ensures d.Times(f) == s
      ensures forall g :: g != f ==> d.Times(g) == Times(g)
      ensures d.routeNo == routeNo && d.routeName == routeName && d.details == details
      ensures d.coordinates == coordinates
    {
      match f
      case StartTime => this.(startTime := s)
      case DepartureTime => this.(departureTime := s)
    }

    /** `{...prev, [name]: value}` for one of the three text inputs. */
    function WithText(f: TextField, v: string): (d: ScheduleData)
      ensures d.Text(f) == v
      ensures forall g :: g != f ==> d.Text(g) == Text(g)
      ensures d.startTime == startTime && d.departureTime == departureTime
      ensures d.coordinates == coordinates
    {
      match f
      case RouteNo => this.(routeNo := v)
      case RouteName => this.(routeName := v)
      case Details => this.(details := v)
    }
  }

  /** A stored schedule: an id next to the form fields. */
  datatype Schedule = Schedule(id: int, data: ScheduleData)

  /** The blank form: one empty slot per time array and one default point. */
  const EmptyForm := ScheduleData("", "", [""], [""], "", [DefaultPoint])

  /**
   * The form loaded for `schedule` (the effect on the `schedule` prop). Every
   * field of a stored schedule is present, and the `|| ''` / `|| ['']`
   * fallbacks only replace missing values (an array, even an empty one, is
   * truthy), so an existing schedule is loaded as it is.
   */
  function InitialForm(schedule: Option<Schedule>): (d: ScheduleData)
    ensures schedule.None? ==> d.routeNo == "" && d.routeName == "" && d.details == ""
    ensures schedule.None? ==> d.startTime == [""] && d.departureTime == [""] && d.coordinates == [DefaultPoint]
    ensures schedule.Some? ==> d == schedule.value.data
  {
    match schedule
    case None => EmptyForm
    case Some(s) => s.data
  }

  /** `s.map((x, i) => i === index ? v : x)`. */
  function ReplaceAt<T>(s: seq<T>, index: int, v: T): (r: seq<T>)
    ensures |r| == |s|
    ensures forall j :: 0 <= j < |s| && j != index ==> r[j] == s[j]
    ensures 0 <= index < |s| ==> r[index] == v
    decreases |s|
  {
    if s == [] then [] else [if index == 0 then v else s[0]] + ReplaceAt(s[1..], index - 1, v)
  }

  /** `s.filter((_, i) => i !== index)`. */
  function RemoveAt<T>(s: seq<T>, index: int): (r: seq<T>)
    ensures 0 <= index < |s| ==> |r| == |s| - 1
    ensures 0 <= index < |s| ==> forall j :: 0 <= j < index ==> r[j] == s[j]
    ensures 0 <= index < |s| ==> forall j :: index <= j < |r| ==> r[j] == s[j + 1]
    ensures !(0 <= index < |s|) ==> r == s
    decreases |s|
  {
    if s == [] then []
    else if index == 0 then s[1..]
    else [s[0]] + RemoveAt(s[1..], index - 1)
  }

  /**
   * The remove buttons: removal happens only while more than one entry is
   * left, so a non-empty array never becomes empty.
   */
  function GuardedRemove<T>(s: seq<T>, index: int): (r: seq<T>)
    ensures |s| <= 1 ==> r == s
    ensures |s| > 1 && 0 <= index < |s| ==> r == s[..index] + s[index + 1..]
    ensures !(0 <= index < |s|) ==> r == s
    ensures |s| >= 1 ==> |r| >= 1
  {
    if |s| > 1 then RemoveAt(s, index) else s
  }

  /** `time.trim() !== ''`: the slot is kept on submit, exactly when it is not all white space. */
  predicate IsFilledSlot(t: string)
    ensures IsFilledSlot(t) <==> !IsBlank(t)
  {
    TrimEmptyIffBlank(t);
    Trim(t) != ""
  }

  /** `times.filter(time => time.trim() !== '')`: the non-blank slots, in order, each as often as before. */
  function CleanTimes(times: seq<string>): (r: seq<string>)
    ensures IsSubseq(r, times)
    ensures forall t :: t in r ==> !IsBlank(t)
    ensures forall t :: t in times && !IsBlank(t) ==> multiset(r)[t] == multiset(times)[t]
  {
    FilterIsSubseq(times, IsFilledSlot);
    Filter(times, IsFilledSlot)
  }

  /** `coordinates.filter(c => c[0] !== 0 || c[1] !== 0)`: every point but `[0, 0]`, in order, each as often as before. */
  function CleanCoordinates(cs: seq<Point>): (r: seq<Point>)
    ensures IsSubseq(r, cs)
    ensures forall p :: p in r ==> p != Point(0.0, 0.0)
    ensures forall p :: p in cs && p != Point(0.0, 0.0) ==> multiset(r)[p] == multiset(cs)[p]
  {
    FilterIsSubseq(cs, IsSetPoint);
    Filter(cs, IsSetPoint)
  }

  /**
   * The `cleanData` built on submit: blank time slots and `[0, 0]` points are
   * dropped; the text fields are kept as they are.
   */
  function Clean(d: ScheduleData): (c: ScheduleData)
    ensures c.routeNo == d.routeNo && c.routeName == d.routeName && c.details == d.details
    ensures IsSubseq(c.startTime, d.startTime) && IsSubseq(c.departureTime, d.departureTime)
    ensures forall t :: t in c.startTime ==> !IsBlank(t)
    ensures forall t :: t in c.departureTime ==> !IsBlank(t)
    ensures IsSubseq(c.coordinates, d.coordinates)
    ensures forall p :: p in c.coordinates ==> p != Point(0.0, 0.0)
  {
    d.(startTime := CleanTimes(d.startTime),
       departureTime := CleanTimes(d.departureTime),
       coordinates := CleanCoordinates(d.coordinates))
  }

  /**
   * Cleaning the blank form empties both time arrays (the blank slots are
   * dropped) but keeps the default point, which is not `[0, 0]`.
   */
  lemma CleanBlankFormHasNoTimes()
    ensures Clean(EmptyForm).startTime == [] && Clean(EmptyForm).departureTime == []
    ensures Clean(EmptyForm).coordinates == [DefaultPoint]
  {
    var blank: seq<string> := [""];
    assert IsBlank(blank[0]);
    FilterNone(blank, IsFilledSlot);
    var points := [DefaultPoint];
    FilterAll(points, IsSetPoint);
  }

  /** What the form hands to its `onSubmit` callback. */
  datatype SubmitRequest = UpdateRequest(id: int, data: ScheduleData) | AddRequest(data: ScheduleData)

  /** The `formData` state of the schedule modal and its change handlers. */
  class ScheduleModal {
    var form: ScheduleData

    constructor ()
      ensures form == EmptyForm
    {
      form := EmptyForm;
    }

    /** The effect run whenever the `schedule` prop changes. */
    method LoadSchedule(schedule: Option<Schedule>)
      modifies this
      ensures form == InitialForm(schedule)
    {
      form := InitialForm(schedule);
    }

    /** `handleInputChange` for the route number, route name and details inputs. */
    method HandleInputChange(field: TextField, value: string)
      modifies this
      ensures form == old(form).WithText(field, value)
    {
      form := form.WithText(field, value);
    }

    /** `handleTimeArrayChange`: only slot `index` of `field` changes. */
    method HandleTimeArrayChange(field: TimeField, index: int, value: string)
      modifies this
      ensures form == old(form).WithTimes(field, ReplaceAt(old(form).Times(field), index, value))
      ensures |form.Times(field)| == |old(form).Times(field)|
    {
      form := form.WithTimes(field, ReplaceAt(form.Times(field), index, value));
    }

    /** `addTimeSlot`: one empty slot at the end of `field`. */
    method AddTimeSlot(field: TimeField)
      modifies this
      ensures form == old(form).WithTimes(field, old(form).Times(field) + [""])
    {
      form := form.WithTimes(field, form.Times(field) + [""]);
    }

    /** `removeTimeSlot`: a no-op while `field` has at most one slot. */
    method RemoveTimeSlot(field: TimeField, index: int)
      modifies this
      ensures form == old(form).WithTimes(field, GuardedRemove(old(form).Times(field), index))
      ensures |old(form).Times(field)| >= 1 ==> |form.Times(field)| >= 1
    {
      if |form.Times(field)| > 1 {
        form := form.WithTimes(field, RemoveAt(form.Times(field), index));
      }
    }

    /** `handleCoordinateChange`, given the already parsed number. */
    method HandleCoordinateChange(index: int, axis: Axis, value: real)
      modifies this
      ensures 0 <= index < |old(form).coordinates| ==>
        var p := old(form).coordinates[index];
        form == old(form).(coordinates := ReplaceAt(old(form).coordinates, index,
                  if axis == Lat then p.(lat := value) else p.(lng := value)))
      ensures !(0 <= index < |old(form).coordinates|) ==> form == old(form)
    {
      if 0 <= index < |form.coordinates| {
        var p := form.coordinates[index];
        var q := if axis == Lat then p.(lat := value) else p.(lng := value);
        form := form.(coordinates := ReplaceAt(form.coordinates, index, q));
      }
    }

    /** `addCoordinate`: one default point at the end. */
    method AddCoordinate()
      modifies this
      ensures form == old(form).(coordinates := old(form).coordinates + [DefaultPoint])
    {
      form := form.(coordinates := form.coordinates + [DefaultPoint]);
    }

    /** `removeCoordinate`: a no-op while there is at most one point. */
    method RemoveCoordinate(index: int)
      modifies this
      ensures form == old(form).(coordinates := GuardedRemove(old(form).coordinates, index))
      ensures |old(form).coordinates| >= 1 ==> |form.coordinates| >= 1
    {
      if |form.coordinates| > 1 {
        form := form.(coordinates := RemoveAt(form.coordinates, index));
      }
    }

    /**
     * `handleSubmit`: the cleaned form goes to the update path, with the
     * edited schedule's id, when a schedule is being edited, and to the add
     * path otherwise. The form itself is left as it was.
     */
    method HandleSubmit(schedule: Option<Schedule>) returns (request: SubmitRequest)
      ensures schedule.Some? <==> request.UpdateRequest?
      ensures schedule.Some? ==> request.id == schedule.value.id
      ensures request.data == Clean(form)
    {
      var cleanData := Clean(form);
      if schedule.Some? {
        request := UpdateRequest(schedule.value.id, cleanData);
      } else {
        request := AddRequest(cleanData);
      }
    }
  }
}
