/**
 * The in-table editor of one record: a form prefilled from the record,
 * field updates, and a save that sends the record's own id with the DTO.
 */
module EditableActivityRow {
  import opened Wrappers
  import opened Types
  import opened ActivityFormRow

  /** `EditableActivityRow`: the record being edited and the form state. */
  class EditableActivityRow {
    const activity: Activity
    var formData: FormData

    /** The initial state is the record's form. */
    constructor (activity: Activity)
      ensures this.activity == activity
      ensures formData == FormFromActivity(activity)
    {
      this.activity := activity;
      formData := FormFromActivity(activity);
    }

    /** `handleChange`: only the named field changes. */
    method HandleChange(name: FormField, value: string)
      modifies this
      ensures formData == WithField(old(formData), name, value)
    {
      formData := WithField(formData, name, value);
    }

    /**
     * `handleSave`: nothing is sent when the time is empty or the crew is
     * blank; otherwise `onSave` gets this row's record id and the DTO. The
     * form is left as it is either way.
     */
    method HandleSave() returns (saved: Option<(int, CreateActivityDto)>)
      ensures saved.None? <==> formData.time == "" || JsText.IsBlank(formData.mainPerson)
      ensures saved.Some? ==> saved.value.0 == activity.id && Some(saved.value.1) == BuildActivityDto(formData)
    {
      var submitData := BuildActivityDto(formData);
      if submitData.None? {
        return None;
      }
      saved := Some((activity.id, submitData.value));
    }
  }
}
