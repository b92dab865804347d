/**
 * The row that creates a record or edits the one being edited: its text
 * form, the prefill from a record, the field updates, and the validation
 * and normalisation that turn the form into a `CreateActivityDto`. The
 * in-table editor reuses the prefill and the DTO build.
 */
module ActivityFormRow {
  import opened Wrappers
  import opened JsText
  import opened Types

  // ---------------------------------------------------------------------------
  // Normalising single fields
  // ---------------------------------------------------------------------------

  /** `value.trim() || null`: the trimmed text, or null when nothing is left. */
  function TrimOrNull(s: string): (r: Option<string>)
    ensures r.None? <==> IsBlank(s)
    ensures r.Some? ==> r.value == Trim(s) && r.value != "" && IsTrimmed(r.value)
  {
    TrimShape(s);
    if Trim(s) == "" then None else Some(Trim(s))
  }

  /** `value ? parseInt(value) : null`: an empty count is null, anything else is parsed. */
  function CountOrNull(s: string): (r: Option<int>)
    ensures s == "" ==> r.None?
    ensures s != "" ==> r == ParseInt(s)
  {
    if s == "" then None else ParseInt(s)
  }

  /** An optional text as a DTO carries it after `trim() || null`: absent, or trimmed and non-empty. */
  predicate Normalised(o: Option<string>) {
    o.Some? ==> o.value != "" && IsTrimmed(o.value)
  }

  // ---------------------------------------------------------------------------
  // Form to DTO
  // ---------------------------------------------------------------------------

  /**
   * `handleSubmit` of the row and `handleSave` of the in-table editor: no DTO
   * when the time is empty or the crew is blank; otherwise the time split on
   * `:`, the crew trimmed, the count parsed, the transport and department
   * whitelisted and the other texts trimmed or null.
   */
  function BuildActivityDto(f: FormData): (r: Option<CreateActivityDto>)
    ensures r.None? <==> f.time == "" || IsBlank(f.mainPerson)
    ensures r.Some? ==> (r.value.hour, r.value.minute) == FirstTwo(f.time, ':')
    ensures r.Some? ==> r.value.mainPerson == Trim(f.mainPerson) && r.value.mainPerson != ""
    ensures r.Some? ==> r.value.participantsCount == CountOrNull(f.participantsCount)
    ensures r.Some? ==> r.value.transportType == TransportOf(f.transportType)
    ensures r.Some? ==> r.value.department == DepartmentOf(f.department)
    ensures r.Some? ==> (r.value.transportType.Some? <==> f.transportType == "walk" || f.transportType == "car")
    ensures r.Some? ==> (r.value.department.Some? <==> f.department == "літуни" || f.department == "тіхоні")
    ensures r.Some? ==> r.value.coordinates == TrimOrNull(f.coordinates) && r.value.establishment == TrimOrNull(f.establishment)
                        && r.value.link == TrimOrNull(f.link) && r.value.comment == TrimOrNull(f.comment)
    ensures r.Some? ==> Normalised(r.value.coordinates) && Normalised(r.value.establishment)
                        && Normalised(r.value.link) && Normalised(r.value.comment)
    ensures r.Some? ==> r.value.marks.None?
  {
    if f.time == "" || f.mainPerson == "" || Trim(f.mainPerson) == "" then None
    else
      var (hour, minute) := FirstTwo(f.time, ':');
      Some(CreateActivityDto(
        hour, minute,
        CountOrNull(f.participantsCount),
        TransportOf(f.transportType),
        TrimOrNull(f.coordinates),
        Trim(f.mainPerson),
        TrimOrNull(f.establishment),
        DepartmentOf(f.department),
        TrimOrNull(f.link),
        TrimOrNull(f.comment),
        None))
  }

  /** An empty count field gives a null count; a count typed in is read by `parseInt`. */
  lemma BuildCount(f: FormData)
    requires BuildActivityDto(f).Some?
    ensures BuildActivityDto(f).value.participantsCount == if f.participantsCount == "" then None else ParseInt(f.participantsCount)
  {
  }

  // ---------------------------------------------------------------------------
  // Record to form
  // ---------------------------------------------------------------------------

  /** `x || "00"` for an hour or a minute. */
  function OrZeroes(s: string): (r: string)
    ensures r != ""
    ensures s != "" ==> r == s
  {
    if s == "" then "00" else s
  }

  /**
   * The form of a record being edited: `HH:MM` with `"00"` for a missing
   * part, the count as text, `walk` for a missing transport, and `""` for
   * every other missing field.
   */
  function FormFromActivity(a: Activity): (f: FormData)
    ensures f.time == OrZeroes(a.hour) + ":" + OrZeroes(a.minute)
    ensures f.transportType == TransportName(a.transportType.GetOr(Walk))
    ensures f.mainPerson == a.mainPerson
    ensures f.participantsCount == if a.participantsCount.Some? then IntToString(a.participantsCount.value) else ""
    ensures f.department == if a.department.Some? then DepartmentName(a.department.value) else ""
    ensures f.coordinates == a.coordinates.GetOr("") && f.establishment == a.establishment.GetOr("")
    ensures f.link == a.link.GetOr("") && f.comment == a.comment.GetOr("")
  {
    FormData(
      OrZeroes(a.hour) + ":" + OrZeroes(a.minute),
      match a.participantsCount case Some(n) => IntToString(n) case None => "",
      TransportName(a.transportType.GetOr(Walk)),
      a.coordinates.GetOr(""),
      a.mainPerson,
      a.establishment.GetOr(""),
      match a.department case Some(d) => DepartmentName(d) case None => "",
      a.link.GetOr(""),
      a.comment.GetOr(""))
  }

  /** The form of a new record: the current time, transport `walk`, everything else empty. */
  function DefaultForm(now: string): (f: FormData)
    ensures f.time == now && f.transportType == "walk"
    ensures forall name :: name != TimeField && name != TransportTypeField ==> FieldValue(f, name) == ""
  {
    FormData(now, "", "walk", "", "", "", "", "", "")
  }

  /** What the prefill effect puts in the form for the record being edited, or for none. */
  function Prefill(editingActivity: Option<Activity>, now: string): FormData {
    match editingActivity
    case Some(a) => FormFromActivity(a)
    case None => DefaultForm(now)
  }

  /** An optional text read back through `x || ""` and `trim() || null`. */
  lemma TrimOrNullOfField(o: Option<string>)
    requires Normalised(o)
    ensures TrimOrNull(o.GetOr("")) == o
  {
    if o.Some? {
      TrimTrimmed(o.value);
    }
  }

  /** The time field of a record splits back into its hour and minute, each defaulted. */
  lemma TimeRoundTrip(hour: string, minute: string)
    requires ':' !in hour && ':' !in minute
    ensures FirstTwo(OrZeroes(hour) + ":" + OrZeroes(minute), ':') == (OrZeroes(hour), OrZeroes(minute))
  {
    FirstTwoOfJoined(OrZeroes(hour), ':', OrZeroes(minute));
  }

  /** `String(n)` read back by `parseInt` is `n`, and an absent count stays absent. */
  lemma CountRoundTrip(count: Option<int>)
    ensures CountOrNull(match count case Some(n) => IntToString(n) case None => "") == count
  {
    if count.Some? {
      ParseIntToString(count.value);
    }
  }

  /** Every transport and department passes its own whitelist. */
  lemma WhitelistRoundTrip(t: Transport, d: Option<Department>)
    ensures TransportOf(TransportName(t)) == Some(t)
    ensures DepartmentOf(match d case Some(x) => DepartmentName(x) case None => "") == d
  {
  }

  /**
   * Saving the form of a record without touching it sends back the record's
   * own fields, except that an empty hour or minute becomes `"00"`, a
   * missing transport becomes `walk`, and the four extra fields are not sent.
   */
  lemma EditRoundTrip(a: Activity)
    requires ':' !in a.hour && ':' !in a.minute
    requires !IsBlank(a.mainPerson) && IsTrimmed(a.mainPerson)
    requires Normalised(a.coordinates) && Normalised(a.establishment) && Normalised(a.link) && Normalised(a.comment)
    ensures BuildActivityDto(FormFromActivity(a)) == Some(CreateActivityDto(
              OrZeroes(a.hour), OrZeroes(a.minute), a.participantsCount, Some(a.transportType.GetOr(Walk)),
              a.coordinates, a.mainPerson, a.establishment, a.department, a.link, a.comment, None))
  {
    TimeRoundTrip(a.hour, a.minute);
    TrimTrimmed(a.mainPerson);
    CountRoundTrip(a.participantsCount);
    WhitelistRoundTrip(a.transportType.GetOr(Walk), a.department);
    TrimOrNullOfField(a.coordinates);
    TrimOrNullOfField(a.establishment);
    TrimOrNullOfField(a.link);
    TrimOrNullOfField(a.comment);
  }

  /** Saving a record that has no transport type, without changing the form, sends `walk`. */
  lemma NullTransportSavedAsWalk(a: Activity)
    requires a.transportType.None? && BuildActivityDto(FormFromActivity(a)).Some?
    ensures BuildActivityDto(FormFromActivity(a)).value.transportType == Some(Walk)
  {
  }

  // ---------------------------------------------------------------------------
  // The row's state
  // ---------------------------------------------------------------------------

  /** `ActivityFormRow`: the form state and the record being edited, if any. */
  class ActivityFormRow {
    var formData: FormData
    var editingActivity: Option<Activity>

    /** Mounting: the form starts from the defaults and the prefill effect runs once. */
    constructor (editingActivity: Option<Activity>, now: string)
      ensures this.editingActivity == editingActivity
      ensures formData == Prefill(editingActivity, now)
    {
      this.editingActivity := editingActivity;
      formData := Prefill(editingActivity, now);
    }

    /** The effect on `[editingActivity]`: the form is filled from the new record, or reset. */
    method EditingActivityChanged(e: Option<Activity>, now: string)
      modifies this
      ensures editingActivity == e
      ensures formData == Prefill(e, now)
    {
      editingActivity := e;
      match e
      case Some(a) =>
        formData := FormFromActivity(a);
      case None =>
        formData := DefaultForm(now);
    }

    /** `handleChange` (also behind the name and establishment inputs): only the named field changes. */
    method HandleChange(name: FormField, value: string)
      modifies this
      ensures formData == WithField(old(formData), name, value)
      ensures editingActivity == old(editingActivity)
    {
      formData := WithField(formData, name, value);
    }

    /**
     * `handleSubmit`: an invalid form sends nothing and stays as it is; a valid
     * one is sent, and when the callback resolves in create mode the form is
     * reset to the defaults. In edit mode, or when the callback rejects, the
     * form keeps what was typed.
     */
    method HandleSubmit(onSubmitResolves: bool, now: string) returns (submitted: Option<CreateActivityDto>)
      modifies this
      ensures submitted == BuildActivityDto(old(formData))
      ensures formData == if submitted.Some? && onSubmitResolves && editingActivity.None? then DefaultForm(now) else old(formData)
      ensures editingActivity == old(editingActivity)
    {
      submitted := BuildActivityDto(formData);
      if submitted.None? {
        return;
      }
      if onSubmitResolves && editingActivity.None? {
        formData := DefaultForm(now);
      }
    }
  }
}
