/** Categories and tasks: the entities a chart is built from. */
module Tasks {
  import opened Wrappers
  import opened Dates
  import opened Colors

  /** `GanttCategory`: a legend entry with its normalised colour. Equal title and colour make equal categories. */
  datatype Category = Category(title: string, color: string)

  /** `GanttCategory(title, color)`: the constructor normalises the colour. */
  function NewCategory(title: string, color: string): (c: Category)
    ensures c.title == title && c.color == ParseColor(color)
    ensures ParseColor(c.color) == c.color
  {
    ParseColorIdempotent(color);
    Category(title, ParseColor(color))
  }

  /**
   * `__cmp__` through `__hash__`: two categories compare equal exactly when
   * their (title, color) pairs do, which is datatype equality here.
   */
  function SameCategory(a: Category, b: Category): (r: bool)
    ensures r <==> a == b
  {
    (a.title, a.color) == (b.title, b.color)
  }

  /** A bar of the chart, with the dates it was resolved to at construction. */
  datatype Task = Task(
    title: string,
    start: Day,
    end: Day,
    duration: int,
    category: Category,
    dependsOn: Option<Task>)
  {
    /** What construction guarantees: the bar does not end before it starts, and its duration is its span. */
    predicate Valid() {
      start <= end && duration == end - start
    }
  }

  /** The value given as `depends_on`: a task, or some other object. */
  datatype Dependency = OnTask(task: Task) | OnOther

  /** The keyword arguments of `GanttTask(title, start_date=…, end_date=…, duration=…, depends_on=…, color=…, category=…)`. */
  datatype TaskArgs = TaskArgs(
    title: string,
    startDate: Option<DateInput>,
    endDate: Option<DateInput>,
    duration: Option<int>,
    dependsOn: Option<Dependency>,
    color: Option<string>,
    category: Option<Category>)

  /** The six reasons for `InvalidTaskError`, and the `datetime` errors that pass through uncaught. */
  datatype TaskError =
    | DependencyNotATask   // depends_on is not a GanttTask
    | StartNotADate        // start_date is neither a date nor a tuple
    | NoStart              // neither depends_on nor start_date
    | EndNotADate          // end_date is neither a date nor a tuple
    | NoSpan               // neither duration nor end_date
    | StartAfterEnd        // the end date lies before the start date
    | DateLibrary(fault: DateFault)
  {
    predicate IsInvalidTaskError() {
      !DateLibrary?
    }
  }

  /** A date coercion failure as `GanttTask` reports it: `InvalidDateError` becomes `InvalidTaskError`. */
  function CoercionError(e: DateError, invalid: TaskError): (r: TaskError)
    ensures e.InvalidDate? ==> r == invalid
    ensures e.Library? ==> r == DateLibrary(e.fault) && !r.IsInvalidTaskError()
  {
    match e
    case InvalidDate => invalid
    case Library(f) => DateLibrary(f)
  }

  /** The errors the first step can raise. */
  predicate StartError(e: TaskError) {
    e.NoStart? || e.DependencyNotATask? || e.StartNotADate? || e.DateLibrary?
  }

  /** The errors the second step can raise. */
  predicate SpanError(e: TaskError) {
    e.NoSpan? || e.EndNotADate? || e.DateLibrary?
  }

  /** First step of construction: the start date, and the task it was copied from. */
  function ResolveStart(a: TaskArgs): (r: Result<(Day, Option<Task>), TaskError>)
    ensures r.Failure? ==> StartError(r.error)
    ensures r == Failure(NoStart) <==> a.dependsOn.None? && a.startDate.None?
    ensures r == Failure(DependencyNotATask) <==> a.dependsOn == Some(OnOther)
    ensures r == Failure(StartNotADate) <==> a.dependsOn.None? && a.startDate == Some(OtherValue)
    ensures a.dependsOn.Some? && a.dependsOn.value.OnTask? ==>
              r == Success((a.dependsOn.value.task.end, Some(a.dependsOn.value.task)))
    ensures r.Success? && a.dependsOn.None? ==>
              a.startDate.Some? && AsDate(a.startDate.value) == Success(r.value.0) && r.value.1.None?
    ensures a.dependsOn.None? && a.startDate.Some? && AsDate(a.startDate.value).Success? ==>
              r == Success((AsDate(a.startDate.value).value, None))
    ensures a.dependsOn.None? && a.startDate.Some? && AsDate(a.startDate.value).Failure?
            && AsDate(a.startDate.value).error.Library? ==>
              r == Failure(DateLibrary(AsDate(a.startDate.value).error.fault))
  {
    if a.dependsOn.Some? then
      match a.dependsOn.value
      case OnTask(t) => Success((t.end, Some(t)))
      case OnOther => Failure(DependencyNotATask)
    else if a.startDate.Some? then
      match AsDate(a.startDate.value)
      case Success(d) => Success((d, None))
      case Failure(e) => Failure(CoercionError(e, StartNotADate))
    else
      Failure(NoStart)
  }

  /** Second step: the end date and the duration, from the duration or else from the end date. */
  function ResolveSpan(a: TaskArgs, start: Day): (r: Result<(Day, int), TaskError>)
    ensures r.Failure? ==> SpanError(r.error)
    ensures r == Failure(NoSpan) <==> a.duration.None? && a.endDate.None?
    ensures r == Failure(EndNotADate) <==> a.duration.None? && a.endDate == Some(OtherValue)
    ensures a.duration.Some? ==>
              if 1 <= start + a.duration.value <= MAX_ORDINAL
              then r == Success((start + a.duration.value, a.duration.value))
              else r == Failure(DateLibrary(OutOfRange))
    ensures r.Success? && a.duration.None? ==>
              a.endDate.Some? && AsDate(a.endDate.value) == Success(r.value.0) && r.value.1 == r.value.0 - start
    ensures a.duration.None? && a.endDate.Some? && AsDate(a.endDate.value).Success? ==>
              r == Success((AsDate(a.endDate.value).value, AsDate(a.endDate.value).value - start))
    ensures a.duration.None? && a.endDate.Some? && AsDate(a.endDate.value).Failure?
            && AsDate(a.endDate.value).error.Library? ==>
              r == Failure(DateLibrary(AsDate(a.endDate.value).error.fault))
  {
    if a.duration.Some? then
      match AddDays(start, a.duration.value)
      case Success(e) => Success((e, a.duration.value))
      case Failure(err) => Failure(DateLibrary(OutOfRange))
    else if a.endDate.Some? then
      match AsDate(a.endDate.value)
      case Success(e) => Success((e, e - start))
      case Failure(err) => Failure(CoercionError(err, EndNotADate))
    else
      Failure(NoSpan)
  }

  /** The category a task gets: the one given, or an untitled one in the task's colour. */
  function TaskCategory(a: TaskArgs): (c: Category)
    ensures a.category.Some? ==> c == a.category.value
    ensures a.category.None? ==> c == Category("", ParseColor(a.color.GetOr(DEFAULT_COLOR)))
  {
    var color := ParseColor(a.color.GetOr(DEFAULT_COLOR));
    ParseColorIdempotent(a.color.GetOr(DEFAULT_COLOR));
    if a.category.Some? then a.category.value else NewCategory("", color)
  }

  /**
   * `GanttTask.__init__`: resolve the start (depends_on before start_date), then
   * the span (duration before end_date), then refuse a task that ends before it
   * starts. The dependency's end date is copied once; nothing links back to it.
   */
  function NewTask(a: TaskArgs): (r: Result<Task, TaskError>)
    ensures r.Success? <==>
              ResolveStart(a).Success? && ResolveSpan(a, ResolveStart(a).value.0).Success?
              && ResolveStart(a).value.0 <= ResolveSpan(a, ResolveStart(a).value.0).value.0
    ensures ResolveStart(a).Failure? ==> r == Failure(ResolveStart(a).error)
    ensures ResolveStart(a).Success? && ResolveSpan(a, ResolveStart(a).value.0).Failure? ==>
              r == Failure(ResolveSpan(a, ResolveStart(a).value.0).error)
    ensures r.Failure? && !r.error.IsInvalidTaskError() ==>
              (a.dependsOn.None? && a.startDate.Some? && a.startDate.value.DateTuple?)
              || (a.endDate.Some? && a.endDate.value.DateTuple?)
              || a.duration.Some?
    ensures r.Success? ==> r.value.Valid() && r.value.title == a.title && r.value.category == TaskCategory(a)
    ensures r.Success? && a.dependsOn.Some? ==>
              a.dependsOn.value.OnTask? && r.value.start == a.dependsOn.value.task.end
              && r.value.dependsOn == Some(a.dependsOn.value.task)
    ensures r.Success? && a.dependsOn.None? ==>
              a.startDate.Some? && AsDate(a.startDate.value) == Success(r.value.start) && r.value.dependsOn.None?
    ensures r.Success? && a.duration.Some? ==> r.value.duration == a.duration.value
    ensures r.Success? && a.duration.None? ==>
              a.endDate.Some? && AsDate(a.endDate.value) == Success(r.value.end)
    ensures r == Failure(NoStart) <==> a.dependsOn.None? && a.startDate.None?
    ensures r == Failure(DependencyNotATask) <==> a.dependsOn == Some(OnOther)
    ensures r == Failure(StartNotADate) <==> a.dependsOn.None? && a.startDate == Some(OtherValue)
    ensures r == Failure(NoSpan) <==> ResolveStart(a).Success? && a.duration.None? && a.endDate.None?
    ensures r == Failure(EndNotADate) <==>
              ResolveStart(a).Success? && a.duration.None? && a.endDate == Some(OtherValue)
    ensures r == Failure(StartAfterEnd) <==>
              ResolveStart(a).Success? && ResolveSpan(a, ResolveStart(a).value.0).Success?
              && ResolveSpan(a, ResolveStart(a).value.0).value.0 < ResolveStart(a).value.0
  {
    var s := ResolveStart(a);
    if s.Failure? then Failure(s.error)
    else
      var sp := ResolveSpan(a, s.value.0);
      if sp.Failure? then Failure(sp.error)
      else if sp.value.0 < s.value.0 then Failure(StartAfterEnd)
      else Success(Task(a.title, s.value.0, sp.value.0, sp.value.1, TaskCategory(a), s.value.1))
  }

  /** Arguments naming a start date and a duration only. */
  function StartAndDuration(title: string, start: DateInput, n: int): TaskArgs {
    TaskArgs(title, Some(start), None, Some(n), None, None, None)
  }

  /** Arguments naming a start date and an end date only. */
  function StartAndEnd(title: string, start: DateInput, end: DateInput): TaskArgs {
    TaskArgs(title, Some(start), Some(end), None, None, None, None)
  }

  /** Arguments naming a dependency and a duration only. */
  function AfterWithDuration(title: string, t: Task, n: int): TaskArgs {
    TaskArgs(title, None, None, Some(n), Some(OnTask(t)), None, None)
  }

  /**
   * start_date=D, duration=N: the task ends N days after D and keeps duration N;
   * a negative N is refused as start-after-end, and an end outside the calendar
   * is the date library's overflow.
   */
  lemma StartDurationRoundTrip(title: string, d: Day, n: int)
    ensures var r := NewTask(StartAndDuration(title, DateValue(d), n));
      && (r.Success? <==> 0 <= n && d + n <= MAX_ORDINAL)
      && (r.Success? ==> r.value.start == d && r.value.end == d + n && r.value.duration == n)
      && (n < 0 && 1 <= d + n ==> r == Failure(StartAfterEnd))
      && (!(1 <= d + n <= MAX_ORDINAL) ==> r == Failure(DateLibrary(OutOfRange)))
  {
  }

  /** start_date=D, end_date=E: the duration is E - D, and E before D is refused. */
  lemma StartEndRoundTrip(title: string, d: Day, e: Day)
    ensures var r := NewTask(StartAndEnd(title, DateValue(d), DateValue(e)));
      && (r.Success? <==> d <= e)
      && (r.Success? ==> r.value.start == d && r.value.end == e && r.value.duration == e - d)
      && (e < d ==> r == Failure(StartAfterEnd))
  {
  }

  /** depends_on=T: the task starts where T ends, whatever start_date says. */
  lemma DependsOnPrecedence(a: TaskArgs, t: Task)
    requires a.dependsOn == Some(OnTask(t))
    ensures ResolveStart(a) == Success((t.end, Some(t)))
    ensures NewTask(a).Success? ==> NewTask(a).value.start == t.end
    ensures a.duration.Some? && 0 <= a.duration.value && t.end + a.duration.value <= MAX_ORDINAL ==>
              NewTask(a).Success? && NewTask(a).value.end == t.end + a.duration.value
  {
  }

  /** The documented tasks: 2009-01-01 to 2009-02-01 lasts 31 days; 20 days after it ends on 2009-02-21. */
  lemma DocumentedTasks()
    ensures var t1 := NewTask(StartAndEnd("Test Task 1", DateValue(Ordinal(2009, 1, 1)), DateValue(Ordinal(2009, 2, 1))));
      && t1.Success? && t1.value.duration == 31
      && var t2 := NewTask(AfterWithDuration("Test Task 2", t1.value, 20));
      && t2.Success? && t2.value.start == Ordinal(2009, 2, 1) && t2.value.end == Ordinal(2009, 2, 21)
  {
    assert Ordinal(2009, 1, 1) == 733408 && Ordinal(2009, 2, 1) == 733439 && Ordinal(2009, 2, 21) == 733459;
    var a1 := StartAndEnd("Test Task 1", DateValue(733408), DateValue(733439));
    assert ResolveStart(a1) == Success((733408, None));
    assert ResolveSpan(a1, 733408) == Success((733439, 31));
    var t1 := NewTask(a1);
    assert t1.Success? && t1.value.end == 733439;
    var a2 := AfterWithDuration("Test Task 2", t1.value, 20);
    assert ResolveStart(a2) == Success((733439, Some(t1.value)));
    assert ResolveSpan(a2, 733439) == Success((733459, 20));
  }

  /** The documented colours of untitled categories: 'f00' gives FF0000FF, 'f00d' gives FF0000DD. */
  lemma DocumentedColors(t1: Task)
    ensures var a := AfterWithDuration("Test Task 2", t1, 20);
      && TaskCategory(a.(color := Some("f00"))).color == "FF0000FF"
      && TaskCategory(a.(color := Some("f00d"))).color == "FF0000DD"
      && TaskCategory(a).color == DEFAULT_COLOR
  {
    ParseColorExamples();
    DefaultColorNormalised();
  }
}
