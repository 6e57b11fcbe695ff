/** The wizard's timeline step: a start date, an end date and an optional
  * list of milestones that are added, removed and edited by index. Each
  * handler builds a new timeline record and hands it to the wizard. */
module TimelineStep {
  import opened Outcome

  datatype Milestone = Milestone(date: string, description: string)

  /** The record the step edits; `milestones` is absent until the first
    * milestone is added. Dates are the date inputs' text. */
  datatype TimelineData = TimelineData(startDate: string, endDate: string, milestones: Option<seq<Milestone>>)

  /** One top-level field of the record with its new value. */
  datatype TimelineChange =
    | SetStartDate(start: string)
    | SetEndDate(end: string)
    | SetMilestones(list: seq<Milestone>)

  datatype MilestoneField = DateField | DescriptionField

  const EmptyMilestone: Milestone := Milestone("", "")

  /** `handleChange`: the record with one field replaced. */
  function HandleChange(value: TimelineData, change: TimelineChange): (r: TimelineData)
    ensures change.SetStartDate? ==> r == TimelineData(change.start, value.endDate, value.milestones)
    ensures change.SetEndDate? ==> r == TimelineData(value.startDate, change.end, value.milestones)
    ensures change.SetMilestones? ==> r == TimelineData(value.startDate, value.endDate, Some(change.list))
  {
    match change
    case SetStartDate(s) => value.(startDate := s)
    case SetEndDate(e) => value.(endDate := e)
    case SetMilestones(ms) => value.(milestones := Some(ms))
  }

  /** `value.milestones || []`. */
  function CurrentMilestones(value: TimelineData): (r: seq<Milestone>)
    ensures value.milestones.None? ==> r == []
    ensures value.milestones.Some? ==> r == value.milestones.value
  {
    match value.milestones
    case None => []
    case Some(ms) => ms
  }

  /** `handleAddMilestone`: one empty milestone at the end. */
  function AddMilestone(value: TimelineData): (r: TimelineData)
    ensures r.startDate == value.startDate && r.endDate == value.endDate
    ensures r.milestones == Some(CurrentMilestones(value) + [EmptyMilestone])
  {
    HandleChange(value, SetMilestones(CurrentMilestones(value) + [EmptyMilestone]))
  }

  /** `filter((_, i) => i !== index)`, with `index` counted from the head
    * of `ms`. */
  function WithoutIndex(ms: seq<Milestone>, index: int): (r: seq<Milestone>)
    ensures 0 <= index < |ms| ==> |r| == |ms| - 1
    ensures !(0 <= index < |ms|) ==> r == ms
    ensures forall j :: 0 <= j < |r| && j < index ==> r[j] == ms[j]
    ensures 0 <= index ==> forall j :: index <= j < |r| ==> r[j] == ms[j + 1]
  {
    if ms == [] then []
    else
      var rest := WithoutIndex(ms[1..], index - 1);
      if index == 0 then rest
      else
        var r := [ms[0]] + rest;
        assert forall j :: 1 <= j < |r| ==> r[j] == rest[j - 1];
        r
  }

  /** `handleRemoveMilestone`. */
  function RemoveMilestone(value: TimelineData, index: int): (r: TimelineData)
    ensures r.startDate == value.startDate && r.endDate == value.endDate
    ensures r.milestones.Some?
    ensures r.milestones.value == WithoutIndex(CurrentMilestones(value), index)
  {
    HandleChange(value, SetMilestones(WithoutIndex(CurrentMilestones(value), index)))
  }

  function WithField(m: Milestone, field: MilestoneField, text: string): (r: Milestone)
    ensures field == DateField ==> r.date == text && r.description == m.description
    ensures field == DescriptionField ==> r.description == text && r.date == m.date
  {
    match field
    case DateField => m.(date := text)
    case DescriptionField => m.(description := text)
  }

  /** The `map` of `updateMilestone`: element `index` gets the new field,
    * with `index` counted from the head of `ms`. */
  function UpdateAt(ms: seq<Milestone>, index: int, field: MilestoneField, text: string): (r: seq<Milestone>)
    ensures |r| == |ms|
    ensures forall j :: 0 <= j < |r| ==> r[j] == if j == index then WithField(ms[j], field, text) else ms[j]
  {
    if ms == [] then []
    else
      var head := if index == 0 then WithField(ms[0], field, text) else ms[0];
      [head] + UpdateAt(ms[1..], index - 1, field, text)
  }

  /** `updateMilestone`. */
  function UpdateMilestone(value: TimelineData, index: int, field: MilestoneField, text: string): (r: TimelineData)
    ensures r.startDate == value.startDate && r.endDate == value.endDate
    ensures r.milestones.Some?
    ensures r.milestones.value == UpdateAt(CurrentMilestones(value), index, field, text)
  {
    HandleChange(value, SetMilestones(UpdateAt(CurrentMilestones(value), index, field, text)))
  }

  /** Removing the milestone just added gives back the list as it was. */
  lemma AddThenRemove(value: TimelineData)
    ensures var added := AddMilestone(value);
            RemoveMilestone(added, |CurrentMilestones(value)|).milestones == Some(CurrentMilestones(value))
  {
    var ms := CurrentMilestones(value);
    var back := WithoutIndex(ms + [EmptyMilestone], |ms|);
    assert |back| == |ms|;
    assert forall j :: 0 <= j < |back| ==> back[j] == ms[j];
    assert CurrentMilestones(AddMilestone(value)) == ms + [EmptyMilestone];
    assert back == ms;
  }

  /** Removing by index keeps every other milestone, in order. */
  lemma {:induction false} RemoveKeepsOthers(ms: seq<Milestone>, index: int)
    requires 0 <= index < |ms|
    ensures WithoutIndex(ms, index) == ms[..index] + ms[index + 1..]
  {
    var r := WithoutIndex(ms, index);
    var s := ms[..index] + ms[index + 1..];
    assert |r| == |s|;
    forall j | 0 <= j < |r| ensures r[j] == s[j] {
      if j < index {
        assert s[j] == ms[..index][j];
      } else {
        assert s[j] == ms[index + 1..][j - index];
      }
    }
  }

  /** Writing back a milestone field's old text undoes an edit. */
  lemma UpdateUndone(value: TimelineData, index: int, field: MilestoneField, text: string)
    requires 0 <= index < |CurrentMilestones(value)|
    ensures var old_text := if field == DateField then CurrentMilestones(value)[index].date
                            else CurrentMilestones(value)[index].description;
            UpdateMilestone(UpdateMilestone(value, index, field, text), index, field, old_text).milestones
              == Some(CurrentMilestones(value))
  {
    var ms := CurrentMilestones(value);
    var once := UpdateAt(ms, index, field, text);
    var old_text := if field == DateField then ms[index].date else ms[index].description;
    var twice := UpdateAt(once, index, field, old_text);
    assert |twice| == |ms|;
    forall j | 0 <= j < |ms| ensures twice[j] == ms[j] {
      if j == index {
        assert twice[j] == WithField(once[j], field, old_text);
      }
    }
    assert CurrentMilestones(UpdateMilestone(value, index, field, text)) == once;
    assert twice == ms;
  }

  /** An index outside the list leaves the milestones as they were, though
    * an absent list becomes an empty one. */
  lemma OutOfRangeChangesNothing(value: TimelineData, index: int, field: MilestoneField, text: string)
    requires !(0 <= index < |CurrentMilestones(value)|)
    ensures RemoveMilestone(value, index).milestones == Some(CurrentMilestones(value))
    ensures UpdateMilestone(value, index, field, text).milestones == Some(CurrentMilestones(value))
  {
    var ms := CurrentMilestones(value);
    assert UpdateAt(ms, index, field, text) == ms;
  }
}
