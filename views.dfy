/**
 * The hour-update form handler and its audit trail.
 *
 * A POST for project `pk` carries three increments (design, development,
 * testing). When the form is valid, each increment is added to the stored
 * actual hours and the project is saved; when at least one increment is
 * non-zero, one ProjectChanges record with the before, delta and after
 * values is appended to the log. The acting user and the time of the change
 * are passed in.
 */
module Views {

  import opened Wrappers
  import opened Models

  /** The three submitted fields of ProjectForm; None is a blank field. */
  datatype Submission = Submission(design: Option<int>, development: Option<int>, testing: Option<int>)

  /** What the handler answers. */
  datatype Response =
    | NotFound             // no project has the primary key
    | FormInvalid          // the form is re-rendered with its errors
    | SaveRejected         // the new hours do not fit the column
    | RedirectToDashboard  // the update was stored

  /** The submitted value of one phase's field. */
  function Field(s: Submission, ph: Phase): Option<int>
  {
    match ph
    case Design => s.design
    case Development => s.development
    case Testing => s.testing
  }

  /**
   * `form.is_valid()`: every field is filled in and is a decimal with at
   * most 6 digits and 2 decimal places. The form sets no lower bound, so
   * negative increments are valid.
   */
  predicate IsValidSubmission(s: Submission)
    ensures IsValidSubmission(s) <==>
      && s.design.Some? && s.development.Some? && s.testing.Some?
      && IsHours(s.design.value) && IsHours(s.development.value) && IsHours(s.testing.value)
  {
    assert Field(s, Design) == s.design && Field(s, Development) == s.development
           && Field(s, Testing) == s.testing;
    forall ph: Phase :: Field(s, ph).Some? && IsHours(Field(s, ph).value)
  }

  /** The cleaned increment of one phase. */
  function Increment(s: Submission, ph: Phase): int
    requires IsValidSubmission(s)
  {
    Field(s, ph).value
  }

  /** `not any(form.cleaned_data.values())`: every increment is zero. */
  predicate AllZero(s: Submission)
    requires IsValidSubmission(s)
    ensures AllZero(s) <==> s.design == Some(0) && s.development == Some(0) && s.testing == Some(0)
  {
    assert Increment(s, Design) == s.design.value && Increment(s, Development) == s.development.value
           && Increment(s, Testing) == s.testing.value;
    forall ph: Phase :: Increment(s, ph) == 0
  }

  /**
   * The stored project after a valid submission: each actual-hours column
   * grows by its increment and every other column is as before.
   */
  function AddActuals(p: Project, s: Submission): (r: Project)
    requires IsValidSubmission(s)
    ensures forall ph: Phase :: Actual(r, ph) == Actual(p, ph) + Increment(s, ph)
    ensures forall ph: Phase :: Estimated(r, ph) == Estimated(p, ph)
    ensures r.id == p.id && r.company == p.company && r.title == p.title
    ensures r.startDate == p.startDate && r.endDate == p.endDate && r.tags == p.tags
  {
    p.(actualDesign := p.actualDesign + Increment(s, Design),
       actualDevelopment := p.actualDevelopment + Increment(s, Development),
       actualTesting := p.actualTesting + Increment(s, Testing))
  }

  /** An all-zero submission leaves the project exactly as it was. */
  lemma AllZeroLeavesProjectUnchanged(p: Project, s: Submission)
    requires IsValidSubmission(s) && AllZero(s)
    ensures AddActuals(p, s) == p
  {
  }

  /** The update moves the actual total by the summed increments and keeps the estimate. */
  lemma UpdateMovesTotals(p: Project, s: Submission)
    requires IsValidSubmission(s)
    ensures TotalActualHours(AddActuals(p, s))
            == TotalActualHours(p) + Increment(s, Design) + Increment(s, Development) + Increment(s, Testing)
    ensures TotalEstimatedHours(AddActuals(p, s)) == TotalEstimatedHours(p)
  {
  }

  /** Adding hours that are not negative never brings a project back under budget. */
  lemma OverBudgetPersists(p: Project, s: Submission)
    requires IsValidSubmission(s)
    requires forall ph: Phase :: Increment(s, ph) >= 0
    requires IsOverBudget(p)
    ensures IsOverBudget(AddActuals(p, s))
  {
  }

  /**
   * The value `_change_project_history` finds for one hour column: the
   * stored value before the update, the submitted increment, or the value
   * after the update.
   */
  function HistoryValue(before: Project, s: Submission, after: Project, f: HourField): (r: int)
    requires IsValidSubmission(s)
    ensures f.stage == Initial ==> r == Actual(before, f.phase)
    ensures f.stage == Delta ==> Field(s, f.phase) == Some(r)
    ensures f.stage == Result && after == AddActuals(before, s) ==>
      r == Actual(before, f.phase) + Increment(s, f.phase)
  {
    match f.stage
    case Initial => Actual(before, f.phase)
    case Delta => Increment(s, f.phase)
    case Result => Actual(after, f.phase)
  }

  /** The keyword arguments passed to `create`: only the truthy (non-zero) values. */
  function NonZeroContext(before: Project, s: Submission, after: Project): (m: map<HourField, int>)
    requires IsValidSubmission(s)
    ensures forall f: HourField :: f in m <==> HistoryValue(before, s, after, f) != 0
    ensures forall f: HourField :: f in m ==> m[f] == HistoryValue(before, s, after, f)
  {
    assert forall f: HourField :: f in ChangeHourFields by {
      forall f: HourField ensures f in ChangeHourFields {
        ChangeHourFieldsAreAllFields(f);
      }
    }
    map f | f in ChangeHourFields && HistoryValue(before, s, after, f) != 0 :: HistoryValue(before, s, after, f)
  }

  /**
   * The loop of `_change_project_history` over the hour columns: each
   * truthy value is put into the context with `setdefault`.
   */
  method BuildContext(before: Project, s: Submission, after: Project) returns (context: map<HourField, int>)
    requires IsValidSubmission(s)
    ensures forall f: HourField :: f in context <==> HistoryValue(before, s, after, f) != 0
    ensures forall f: HourField :: f in context ==> context[f] == HistoryValue(before, s, after, f)
  {
    context := map[];
    for i := 0 to |ChangeHourFields|
      invariant forall f: HourField :: f in context <==> f in ChangeHourFields[..i] && HistoryValue(before, s, after, f) != 0
      invariant forall f: HourField :: f in context ==> context[f] == HistoryValue(before, s, after, f)
    {
      var field := ChangeHourFields[i];
      var data := HistoryValue(before, s, after, field);
      if data != 0 && field !in context {
        context := context[field := data];
      }
      assert ChangeHourFields[..i + 1] == ChangeHourFields[..i] + [field];
    }
    assert ChangeHourFields[..|ChangeHourFields|] == ChangeHourFields;
    forall f: HourField ensures f in ChangeHourFields {
      ChangeHourFieldsAreAllFields(f);
    }
  }

  /** The record the update means to write: all nine values, none skipped. */
  function ChangeRecord(user: int, before: Project, s: Submission, after: Project, now: int): (c: ProjectChange)
    requires IsValidSubmission(s)
    ensures c.user == user && c.project == after.id && c.changeDate == now
    ensures forall f: HourField :: ChangeValue(c, f) == HistoryValue(before, s, after, f)
  {
    ProjectChange(user, after.id, now,
                  before.actualDesign, Increment(s, Design), after.actualDesign,
                  before.actualDevelopment, Increment(s, Development), after.actualDevelopment,
                  before.actualTesting, Increment(s, Testing), after.actualTesting)
  }

  /**
   * Skipping the zero values does not change the record: a skipped column
   * falls back to its default 0, which is the value that was skipped.
   */
  lemma SkippingZerosKeepsRecord(user: int, before: Project, s: Submission, after: Project, now: int)
    requires IsValidSubmission(s)
    ensures Create(user, after.id, now, NonZeroContext(before, s, after)) == ChangeRecord(user, before, s, after, now)
  {
  }

  /** The record of an update satisfies result = initial + delta in every phase. */
  lemma RecordIsBalanced(user: int, before: Project, s: Submission, now: int)
    requires IsValidSubmission(s)
    ensures Balanced(ChangeRecord(user, before, s, AddActuals(before, s), now))
  {
  }

  /** No two projects of the table share a primary key. */
  predicate UniqueIds(ps: seq<Project>)
  {
    forall i, j :: 0 <= i < j < |ps| ==> ps[i].id != ps[j].id
  }

  /** `Project.objects.get(pk=pk)`: the position of the project, or None. */
  function IndexOf(ps: seq<Project>, pk: int): (r: Option<nat>)
    ensures r.Some? ==> r.value < |ps| && ps[r.value].id == pk
    ensures r.None? ==> forall i :: 0 <= i < |ps| ==> ps[i].id != pk
  {
    if ps == [] then None
    else if ps[0].id == pk then Some(0)
    else match IndexOf(ps[1..], pk)
      case None => None
      case Some(i) => Some(i + 1)
  }

  /**
   * The projects table and the ProjectChanges log, updated in place by the
   * hour-update handler.
   */
  class Ledger {

    var projects: seq<Project>
    var changes: seq<ProjectChange>

    /** Keys are unique, every stored hour fits its column, every record balances. */
    ghost predicate Valid()
      reads this
    {
      && UniqueIds(projects)
      && (forall i :: 0 <= i < |projects| ==> WellFormed(projects[i]))
      && (forall j :: 0 <= j < |changes| ==> WellFormedChange(changes[j]) && Balanced(changes[j]))
    }

    /** A table of stored projects and an empty log. */
    constructor (projects: seq<Project>)
      requires UniqueIds(projects)
      requires forall i :: 0 <= i < |projects| ==> WellFormed(projects[i])
      ensures Valid()
      ensures this.projects == projects && changes == []
    {
      this.projects := projects;
      changes := [];
    }

    /**
     * `ProjectUpdateView.post`: looks up project `pk`, validates the form,
     * adds each increment to the freshly read stored value, saves, and then
     * records the change.
     */
    method UpdateHours(pk: int, user: int, now: int, submission: Submission) returns (response: Response)
      requires Valid()
      modifies this
      ensures Valid()
      ensures old(IndexOf(projects, pk)).None? ==> response == NotFound
      ensures old(IndexOf(projects, pk)).Some? && !IsValidSubmission(submission) ==> response == FormInvalid
      ensures |projects| == |old(projects)|
      ensures old(changes) <= changes && |changes| <= |old(changes)| + 1
      ensures response != RedirectToDashboard ==> projects == old(projects) && changes == old(changes)
      ensures old(IndexOf(projects, pk)).Some? && IsValidSubmission(submission) ==>
        var i := old(IndexOf(projects, pk)).value;
        var before := old(projects)[i];
        var after := AddActuals(before, submission);
        && (response == SaveRejected <==> !WellFormed(after))
        && (response == RedirectToDashboard <==> WellFormed(after))
        && (response == RedirectToDashboard ==>
              && projects == old(projects)[i := after]
              && changes == old(changes)
                 + (if AllZero(submission) then [] else [ChangeRecord(user, before, submission, after, now)]))
    {
      var found := IndexOf(projects, pk);
      if found.None? {
        return NotFound;
      }
      var obj := projects[found.value];
      if !IsValidSubmission(submission) {
        return FormInvalid;
      }
      // form.save(commit=False): the instance takes the submitted values
      var updated := obj.(actualDesign := Increment(submission, Design),
                          actualDevelopment := Increment(submission, Development),
                          actualTesting := Increment(submission, Testing));
      updated := updated.(actualDesign := updated.actualDesign + obj.actualDesign);
      updated := updated.(actualDevelopment := updated.actualDevelopment + obj.actualDevelopment);
      updated := updated.(actualTesting := updated.actualTesting + obj.actualTesting);
      assert updated == AddActuals(obj, submission);
      if !WellFormed(updated) {
        return SaveRejected;
      }
      projects := projects[found.value := updated];
      ChangeProjectHistory(user, now, submission, obj, updated);
      return RedirectToDashboard;
    }

    /**
     * `_change_project_history`: nothing when every increment is zero,
     * otherwise one appended record built from the truthy values.
     */
    method ChangeProjectHistory(user: int, now: int, submission: Submission, obj: Project, updated: Project)
      requires Valid()
      requires IsValidSubmission(submission)
      requires WellFormed(obj) && updated == AddActuals(obj, submission) && WellFormed(updated)
      modifies this`changes
      ensures Valid()
      ensures changes == old(changes)
        + (if AllZero(submission) then [] else [ChangeRecord(user, obj, submission, updated, now)])
    {
      if AllZero(submission) {
        return;
      }
      var context := BuildContext(obj, submission, updated);
      assert context == NonZeroContext(obj, submission, updated);
      SkippingZerosKeepsRecord(user, obj, submission, updated, now);
      var record := Create(user, updated.id, now, context);
      RecordIsBalanced(user, obj, submission, now);
      assert WellFormedChange(record) by {
        forall f | f in ChangeHourFields ensures IsHours(ChangeValue(record, f)) {
          assert IsHours(Actual(obj, f.phase)) && IsHours(Actual(updated, f.phase));
        }
      }
      changes := changes + [record];
    }
  }
}
