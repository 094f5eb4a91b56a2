/** The React `Activities` component: its list of activities and its form,
    and how fetching, adding and deleting replace them. Each request's
    outcome is a parameter: the record or list the server sent, or a
    failure, after which the component only logs. */
module ActivitiesView {
  import opened Json

  /** The outcome of a request. */
  datatype Fetched<T> = Got(value: T) | Failed

  /** The form's four fields, each the text of its input. */
  datatype Form = Form(kind: string, duration: string, calories: string, notes: string)

  const EmptyForm: Form := Form("", "", "", "")

  datatype Field = KindField | DurationField | CaloriesField | NotesField

  /** The form after one input's `onChange`: that field takes the text,
      the others keep theirs. */
  function Edit(form: Form, field: Field, text: string): (r: Form)
    ensures field == KindField ==> r == form.(kind := text)
    ensures field == DurationField ==> r == form.(duration := text)
    ensures field == CaloriesField ==> r == form.(calories := text)
    ensures field == NotesField ==> r == form.(notes := text)
  {
    match field
    case KindField => form.(kind := text)
    case DurationField => form.(duration := text)
    case CaloriesField => form.(calories := text)
    case NotesField => form.(notes := text)
  }

  /** `activity._id === id`: the record has an `_id` and it is `id`. */
  predicate HasId(activity: Doc, id: Value) {
    "_id" in activity && activity["_id"] == id
  }

  /** `activities.filter(activity => activity._id !== id)`. */
  function WithoutId(activities: seq<Doc>, id: Value): (r: seq<Doc>)
    ensures |r| <= |activities|
    ensures forall i | 0 <= i < |r| :: !HasId(r[i], id) && r[i] in activities
    ensures forall a | a in activities && !HasId(a, id) :: a in r
  {
    if activities == [] then []
    else
      var rest := WithoutId(activities[..|activities| - 1], id);
      var last := activities[|activities| - 1];
      assert activities == activities[..|activities| - 1] + [last];
      if HasId(last, id) then rest else rest + [last]
  }

  /** The filter works piece by piece, so the records it keeps stay in
      their order. */
  lemma {:induction false} WithoutIdAppend(a: seq<Doc>, b: seq<Doc>, id: Value)
    ensures WithoutId(a + b, id) == WithoutId(a, id) + WithoutId(b, id)
    decreases |b|
  {
    if b == [] {
      assert a + b == a;
    } else {
      var b' := b[..|b| - 1];
      assert (a + b)[..|a + b| - 1] == a + b';
      WithoutIdAppend(a, b', id);
    }
  }

  /** Deleting an id no record has changes nothing. */
  lemma {:induction false} WithoutAbsentId(activities: seq<Doc>, id: Value)
    requires forall i | 0 <= i < |activities| :: !HasId(activities[i], id)
    ensures WithoutId(activities, id) == activities
    decreases |activities|
  {
    if activities != [] {
      var init := activities[..|activities| - 1];
      WithoutAbsentId(init, id);
      assert activities == init + [activities[|activities| - 1]];
    }
  }

  /** Deleting twice is deleting once. */
  lemma WithoutIdTwice(activities: seq<Doc>, id: Value)
    ensures WithoutId(WithoutId(activities, id), id) == WithoutId(activities, id)
  {
    WithoutAbsentId(WithoutId(activities, id), id);
  }

  /** Adding a record with a fresh id and then deleting that id gives back
      the list as it was. */
  lemma AddThenDelete(activities: seq<Doc>, record: Doc, id: Value)
    requires HasId(record, id)
    requires forall i | 0 <= i < |activities| :: !HasId(activities[i], id)
    ensures WithoutId(activities + [record], id) == activities
  {
    WithoutIdAppend(activities, [record], id);
    WithoutAbsentId(activities, id);
    assert WithoutId([record], id) == [] by {
      assert [record][..0] == [];
    }
  }

  /** The component's state: the list `activities` and the form
      `newActivity`. */
  class ActivitiesPanel {
    var activities: seq<Doc>
    var form: Form

    constructor ()
      ensures activities == [] && form == EmptyForm
    {
      activities := [];
      form := EmptyForm;
    }

    /** `fetchActivities`: the list becomes what the server sent; a failed
        request leaves it as it was. */
    method Fetch(response: Fetched<seq<Doc>>)
      modifies this`activities
      ensures response.Got? ==> activities == response.value
      ensures response.Failed? ==> activities == old(activities)
    {
      if response.Got? {
        activities := response.value;
      }
    }

    /** An input's `onChange`. */
    method Change(field: Field, text: string)
      modifies this`form
      ensures form == Edit(old(form), field, text)
    {
      form := Edit(form, field, text);
    }

    /** `handleSubmit`: the record the server sent is appended after the
        records already listed and the form is emptied; a failed request
        leaves both as they were. */
    method Submit(response: Fetched<Doc>)
      modifies this
      ensures response.Got? ==> activities == old(activities) + [response.value] && form == EmptyForm
      ensures response.Failed? ==> activities == old(activities) && form == old(form)
    {
      if response.Got? {
        activities := activities + [response.value];
        form := EmptyForm;
      }
    }

    /** `handleDelete`: once the server confirms, every record with that id
        leaves the list and the others stay in order; a failed request
        leaves the list as it was. */
    method Delete(id: Value, confirmed: bool)
      modifies this`activities
      ensures confirmed ==> activities == WithoutId(old(activities), id)
      ensures !confirmed ==> activities == old(activities)
    {
      if confirmed {
        activities := WithoutId(activities, id);
      }
    }
  }
}
