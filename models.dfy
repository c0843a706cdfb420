/**
 * The stored entities of the project tracker and the properties derived from
 * them: Company, Tag, Project (with its six hour columns) and the
 * ProjectChanges audit record.
 *
 * Every hour column is a decimal with 2 decimal places and at most 6 digits.
 * It is modelled exactly, as an integer number of hundredths of an hour
 * whose magnitude is below 10^6 (so 9999.99 is the largest value).
 */
module Models {

  import opened Wrappers

  /** 10^6 hundredths: the first magnitude a 6-digit, 2-place decimal cannot hold. */
  const HourLimit: int := 1_000_000

  /** A value that fits a DecimalField(max_digits=6, decimal_places=2). */
  predicate IsHours(h: int)
  {
    -HourLimit < h < HourLimit
  }

  /** A calendar date; dates compare by year, then month, then day. */
  datatype Date = Date(year: int, month: int, day: int)

  /** `a < b` on dates. */
  predicate Before(a: Date, b: Date)
  {
    a.year < b.year
    || (a.year == b.year && a.month < b.month)
    || (a.year == b.year && a.month == b.month && a.day < b.day)
  }

  lemma BeforeIsStrictTotalOrder(a: Date, b: Date, c: Date)
    ensures !Before(a, a)
    ensures Before(a, b) ==> !Before(b, a)
    ensures Before(a, b) && Before(b, c) ==> Before(a, c)
    ensures a == b || Before(a, b) || Before(b, a)
  {
  }

  datatype Company = Company(id: int, name: string)

  datatype Tag = Tag(id: int, name: string)

  /** The three phases every project tracks hours for. */
  datatype Phase = Design | Development | Testing

  const AllPhases: seq<Phase> := [Design, Development, Testing]

  /**
   * A project row. `tags` are the tags attached through ProjectTagRelation,
   * in the order the database returns them.
   */
  datatype Project = Project(
    id: int,
    company: Company,
    title: string,
    startDate: Option<Date>,
    endDate: Option<Date>,
    estimatedDesign: int,
    actualDesign: int,
    estimatedDevelopment: int,
    actualDevelopment: int,
    estimatedTesting: int,
    actualTesting: int,
    tags: seq<Tag>)

  /** The estimated-hours column of a phase. */
  function Estimated(p: Project, ph: Phase): int
  {
    match ph
    case Design => p.estimatedDesign
    case Development => p.estimatedDevelopment
    case Testing => p.estimatedTesting
  }

  /** The actual-hours column of a phase. */
  function Actual(p: Project, ph: Phase): int
  {
    match ph
    case Design => p.actualDesign
    case Development => p.actualDevelopment
    case Testing => p.actualTesting
  }

  /** Every hour column of the project is a 6-digit, 2-place decimal. */
  predicate WellFormed(p: Project)
  {
    forall ph: Phase :: IsHours(Estimated(p, ph)) && IsHours(Actual(p, ph))
  }

  /** Reference definition: the estimated hours summed phase by phase. */
  function SumEstimated(p: Project, phases: seq<Phase>): int
  {
    if phases == [] then 0 else Estimated(p, phases[0]) + SumEstimated(p, phases[1..])
  }

  /** Reference definition: the actual hours summed phase by phase. */
  function SumActual(p: Project, phases: seq<Phase>): int
  {
    if phases == [] then 0 else Actual(p, phases[0]) + SumActual(p, phases[1..])
  }

  /** `total_estimated_hours`: the estimate over all three phases. */
  function TotalEstimatedHours(p: Project): (r: int)
    ensures WellFormed(p) ==> -3 * HourLimit < r < 3 * HourLimit
  {
    assert WellFormed(p) ==> IsHours(Estimated(p, Design)) && IsHours(Estimated(p, Development))
                             && IsHours(Estimated(p, Testing));
    p.estimatedDesign + p.estimatedDevelopment + p.estimatedTesting
  }

  /** `total_actual_hours`: the hours spent over all three phases. */
  function TotalActualHours(p: Project): (r: int)
    ensures WellFormed(p) ==> -3 * HourLimit < r < 3 * HourLimit
  {
    assert WellFormed(p) ==> IsHours(Actual(p, Design)) && IsHours(Actual(p, Development))
                             && IsHours(Actual(p, Testing));
    p.actualDesign + p.actualDevelopment + p.actualTesting
  }

  /** Both totals agree with the phase-by-phase reference sums. */
  lemma {:induction false} TotalsArePhaseSums(p: Project)
    ensures TotalEstimatedHours(p) == SumEstimated(p, AllPhases)
    ensures TotalActualHours(p) == SumActual(p, AllPhases)
  {
    var tail := AllPhases[1..];
    assert tail[0] == Development && tail[1..][0] == Testing && tail[1..][1..] == [];
    calc {
      SumEstimated(p, AllPhases);
      p.estimatedDesign + SumEstimated(p, tail);
      p.estimatedDesign + p.estimatedDevelopment + SumEstimated(p, tail[1..]);
      p.estimatedDesign + p.estimatedDevelopment + p.estimatedTesting + SumEstimated(p, tail[1..][1..]);
    }
    calc {
      SumActual(p, AllPhases);
      p.actualDesign + SumActual(p, tail);
      p.actualDesign + p.actualDevelopment + SumActual(p, tail[1..]);
      p.actualDesign + p.actualDevelopment + p.actualTesting + SumActual(p, tail[1..][1..]);
    }
  }

  /** `is_over_budget`: strictly more hours spent than estimated. */
  function IsOverBudget(p: Project): (r: bool)
    ensures r <==> SumActual(p, AllPhases) > SumEstimated(p, AllPhases)
    ensures TotalActualHours(p) == TotalEstimatedHours(p) ==> !r
  {
    TotalsArePhaseSums(p);
    TotalActualHours(p) > TotalEstimatedHours(p)
  }

  /** `has_ended`, with the current date passed in as `today`. */
  function HasEnded(p: Project, today: Date): (r: bool)
    ensures p.endDate.None? ==> !r
    ensures p.endDate == Some(today) ==> !r
    ensures r <==> exists d :: p.endDate == Some(d) && Before(d, today)
  {
    p.endDate.Some? && Before(p.endDate.value, today)
  }

  /** Once a project has ended it stays ended on every later day. */
  lemma HasEndedStaysEnded(p: Project, today: Date, later: Date)
    requires HasEnded(p, today)
    requires today == later || Before(today, later)
    ensures HasEnded(p, later)
  {
  }

  /**
   * A project as created: the actual-hours columns take their default 0.
   */
  function NewProject(id: int, company: Company, title: string,
                      startDate: Option<Date>, endDate: Option<Date>,
                      estimatedDesign: int, estimatedDevelopment: int,
                      estimatedTesting: int, tags: seq<Tag>): (r: Project)
    ensures forall ph: Phase :: Actual(r, ph) == 0
    ensures Estimated(r, Design) == estimatedDesign
    ensures Estimated(r, Development) == estimatedDevelopment
    ensures Estimated(r, Testing) == estimatedTesting
    ensures TotalActualHours(r) == 0
    ensures r.id == id && r.company == company && r.title == title
    ensures r.startDate == startDate && r.endDate == endDate && r.tags == tags
    ensures IsHours(estimatedDesign) && IsHours(estimatedDevelopment) && IsHours(estimatedTesting)
            ==> WellFormed(r)
  {
    Project(id, company, title, startDate, endDate,
            estimatedDesign, 0, estimatedDevelopment, 0, estimatedTesting, 0, tags)
  }

  /** A new project whose estimates are not negative is not over budget. */
  lemma NewProjectNotOverBudget(p: Project)
    requires forall ph: Phase :: Actual(p, ph) == 0
    requires forall ph: Phase :: Estimated(p, ph) >= 0
    ensures !IsOverBudget(p)
  {
    assert Actual(p, Design) == 0 && Actual(p, Development) == 0 && Actual(p, Testing) == 0;
    assert Estimated(p, Design) >= 0 && Estimated(p, Development) >= 0 && Estimated(p, Testing) >= 0;
  }

  /** The three snapshots a ProjectChanges record keeps per phase. */
  datatype Stage = Initial | Delta | Result

  /** One of the nine hour columns of ProjectChanges, e.g. delta_actual_design. */
  datatype HourField = HourField(stage: Stage, phase: Phase)

  /** The nine hour columns in declaration order. */
  const ChangeHourFields: seq<HourField> := [
    HourField(Initial, Design), HourField(Delta, Design), HourField(Result, Design),
    HourField(Initial, Development), HourField(Delta, Development), HourField(Result, Development),
    HourField(Initial, Testing), HourField(Delta, Testing), HourField(Result, Testing)]

  /** Every hour column of ProjectChanges appears in the declaration list. */
  lemma ChangeHourFieldsAreAllFields(f: HourField)
    ensures f in ChangeHourFields
  {
    var offset := match f.stage case Initial => 0 case Delta => 1 case Result => 2;
    var base := match f.phase case Design => 0 case Development => 3 case Testing => 6;
    assert ChangeHourFields[base + offset] == f;
  }

  /** A ProjectChanges row; `user` and `project` are primary keys. */
  datatype ProjectChange = ProjectChange(
    user: int,
    project: int,
    changeDate: int,
    initialActualDesign: int,
    deltaActualDesign: int,
    resultActualDesign: int,
    initialActualDevelopment: int,
    deltaActualDevelopment: int,
    resultActualDevelopment: int,
    initialActualTesting: int,
    deltaActualTesting: int,
    resultActualTesting: int)

  /** The value of one hour column of a change record. */
  function ChangeValue(c: ProjectChange, f: HourField): int
  {
    match f
    case HourField(Initial, Design) => c.initialActualDesign
    case HourField(Delta, Design) => c.deltaActualDesign
    case HourField(Result, Design) => c.resultActualDesign
    case HourField(Initial, Development) => c.initialActualDevelopment
    case HourField(Delta, Development) => c.deltaActualDevelopment
    case HourField(Result, Development) => c.resultActualDevelopment
    case HourField(Initial, Testing) => c.initialActualTesting
    case HourField(Delta, Testing) => c.deltaActualTesting
    case HourField(Result, Testing) => c.resultActualTesting
  }

  /** Every hour column of the record is a 6-digit, 2-place decimal. */
  predicate WellFormedChange(c: ProjectChange)
  {
    forall f | f in ChangeHourFields :: IsHours(ChangeValue(c, f))
  }

  /** The audit invariant: for each phase, result = initial + delta. */
  predicate Balanced(c: ProjectChange)
  {
    forall ph: Phase ::
      ChangeValue(c, HourField(Result, ph))
        == ChangeValue(c, HourField(Initial, ph)) + ChangeValue(c, HourField(Delta, ph))
  }

  /**
   * `ProjectChanges.create(**kwargs)`: the record holding exactly the given
   * keyword values; every hour column not given takes its default 0.
   */
  function Create(user: int, project: int, changeDate: int, kwargs: map<HourField, int>): (r: ProjectChange)
    ensures r.user == user && r.project == project && r.changeDate == changeDate
    ensures forall f: HourField :: f in kwargs ==> ChangeValue(r, f) == kwargs[f]
    ensures forall f: HourField :: f !in kwargs ==> ChangeValue(r, f) == 0
  {
    ProjectChange(user, project, changeDate,
                  Arg(kwargs, HourField(Initial, Design)),
                  Arg(kwargs, HourField(Delta, Design)),
                  Arg(kwargs, HourField(Result, Design)),
                  Arg(kwargs, HourField(Initial, Development)),
                  Arg(kwargs, HourField(Delta, Development)),
                  Arg(kwargs, HourField(Result, Development)),
                  Arg(kwargs, HourField(Initial, Testing)),
                  Arg(kwargs, HourField(Delta, Testing)),
                  Arg(kwargs, HourField(Result, Testing)))
  }

  /** A keyword argument, or the column default 0 when it was not passed. */
  function Arg(kwargs: map<HourField, int>, f: HourField): int
  {
    if f in kwargs then kwargs[f] else 0
  }
}
