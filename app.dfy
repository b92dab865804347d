/**
 * The application shell: the record list and the record being edited, the
 * handlers that call the store and reload, and the paste action that turns
 * clipboard text into a new record.
 */
module App {
  import opened Wrappers
  import opened JsText
  import opened Types
  import opened ParseActivity
  import opened ActivityFormRow
  import opened ActivityService

  // ---------------------------------------------------------------------------
  // Parsed text to a record to create
  // ---------------------------------------------------------------------------

  /** `x?.trim() || null` on an optional text. */
  function TrimmedOrNull(o: Option<string>): (r: Option<string>)
    ensures r.None? <==> o.None? || IsBlank(o.value)
    ensures r.Some? ==> r.value == Trim(o.value) && Normalised(r)
  {
    match o
    case Some(s) => TrimOrNull(s)
    case None => None
  }

  /** The text of an optional field as `x || ""` reads it. */
  function TextOf(o: Option<string>): string {
    o.GetOr("")
  }

  /**
   * The object `handlePasteActivity` builds from a parsed record, or `None`
   * when the trimmed crew is empty and nothing is created. The time falls
   * back to `00:00` and each missing part to `00`; a missing count counts as
   * one person; the status counts and the three enumerations are parsed or
   * whitelisted, and the other texts trimmed or null.
   */
  function PasteDto(p: ParsedForm): (r: Option<CreateActivityDto>)
    ensures r.None? <==> p.mainPerson.None? || IsBlank(p.mainPerson.value)
    ensures r.Some? ==> r.value.mainPerson == Trim(p.mainPerson.value) && r.value.mainPerson != ""
    ensures r.Some? ==> r.value.hour != "" && r.value.minute != ""
    ensures r.Some? && TextOf(p.time) == "" ==> r.value.hour == "00" && r.value.minute == "00"
    ensures r.Some? && TextOf(p.participantsCount) == "" ==> r.value.participantsCount == Some(1)
    ensures r.Some? && TextOf(p.participantsCount) != "" ==> r.value.participantsCount == ParseInt(p.participantsCount.value)
    ensures r.Some? ==> r.value.transportType == TransportOf(TextOf(p.transportType))
                        && r.value.department == DepartmentOf(TextOf(p.department))
    ensures r.Some? ==> (r.value.transportType.Some? <==> TextOf(p.transportType) == "walk" || TextOf(p.transportType) == "car")
    ensures r.Some? ==> (r.value.department.Some? <==> TextOf(p.department) == "літуни" || TextOf(p.department) == "тіхоні")
    ensures r.Some? ==> r.value.coordinates == TrimmedOrNull(p.coordinates) && r.value.establishment == TrimmedOrNull(p.establishment)
                        && r.value.link == TrimmedOrNull(p.link) && r.value.comment == TrimmedOrNull(p.comment)
    ensures r.Some? ==> Normalised(r.value.coordinates) && Normalised(r.value.establishment)
                        && Normalised(r.value.link) && Normalised(r.value.comment)
    ensures r.Some? ==> r.value.marks.Some?
    ensures r.Some? ==> var m := r.value.marks.value;
                        m.greenCount == CountOrNull(TextOf(p.greenCount))
                        && m.yellowCount == CountOrNull(TextOf(p.yellowCount))
                        && m.redCount == CountOrNull(TextOf(p.redCount))
                        && m.direction == DirectionOf(TextOf(p.direction))
    ensures r.Some? ==> var m := r.value.marks.value;
                        (m.greenCount.None? <== TextOf(p.greenCount) == "")
                        && (m.yellowCount.None? <== TextOf(p.yellowCount) == "")
                        && (m.redCount.None? <== TextOf(p.redCount) == "")
                        && (m.direction.Some? <==> TextOf(p.direction) in {"+", "-", "="})
  {
    var time := if TextOf(p.time) != "" then TextOf(p.time) else "00:00";
    var (hour, minute) := FirstTwo(time, ':');
    var mainPerson := if p.mainPerson.Some? then Trim(p.mainPerson.value) else "";
    if mainPerson == "" then None
    else
      Some(CreateActivityDto(
        OrZeroes(hour),
        OrZeroes(minute),
        if TextOf(p.participantsCount) != "" then ParseInt(TextOf(p.participantsCount)) else Some(1),
        TransportOf(TextOf(p.transportType)),
        TrimmedOrNull(p.coordinates),
        mainPerson,
        TrimmedOrNull(p.establishment),
        DepartmentOf(TextOf(p.department)),
        TrimmedOrNull(p.link),
        TrimmedOrNull(p.comment),
        Some(Marks(
          CountOrNull(TextOf(p.greenCount)),
          CountOrNull(TextOf(p.yellowCount)),
          CountOrNull(TextOf(p.redCount)),
          DirectionOf(TextOf(p.direction))))))
  }

  /** Without a time in the parsed record the new record is dated `00:00`. */
  lemma PasteTimeDefault(p: ParsedForm)
    requires PasteDto(p).Some? && p.time.None?
    ensures PasteDto(p).value.hour == "00" && PasteDto(p).value.minute == "00"
  {
    FirstTwoOfJoined("00", ':', "00");
  }

  // ---------------------------------------------------------------------------
  // Parser and paste together
  // ---------------------------------------------------------------------------

  /** Every value a label hands over is trimmed. */
  lemma ValueTrimmed(text: string, l: Label)
    requires LastValue(Entries(Lines(text)), l).Some?
    ensures IsTrimmed(LastValue(Entries(Lines(text)), l).value)
  {
    var lines := Lines(text);
    var es := Entries(lines);
    var v := LastValue(es, l).value;
    var i :| 0 <= i < |es| && es[i] == Some(Entry(l, v));
    var line := lines[i];
    assert Classify(line) == Some(Entry(l, v));
    StartsWithIsPrefix(line, LabelText(l));
    TrimShape(TrimStart(line[|LabelText(l)|..]));
  }

  /**
   * Pasted text creates a record exactly when one of its lines gives a
   * crew, and the record's crew is that of the last such line.
   */
  lemma PasteNeedsCrew(text: string)
    requires Parse(text).Some?
    ensures var crew := LastValue(Entries(Lines(text)), CrewLabel);
            (PasteDto(Parse(text).value).Some? <==> crew.Some?)
            && (crew.Some? ==> PasteDto(Parse(text).value).value.mainPerson == crew.value)
  {
    var es := Entries(Lines(text));
    RunTextField(es, CrewLabel);
    var crew := LastValue(es, CrewLabel);
    if crew.Some? {
      ValueTrimmed(text, CrewLabel);
      TrimTrimmed(crew.value);
    }
  }

  /** The parser's text never mentions these, so a pasted record has no establishment, department or direction. */
  lemma PasteLeavesOtherKeys(text: string)
    requires Parse(text).Some? && PasteDto(Parse(text).value).Some?
    ensures var dto := PasteDto(Parse(text).value).value;
            dto.establishment.None? && dto.department.None? && dto.marks.value.direction.None?
  {
    RunLeavesOtherKeys(Entries(Lines(text)));
  }

  /** A pasted count is read by `parseInt` from the last count line; without one, one person. */
  lemma PastedCount(text: string)
    requires Parse(text).Some? && PasteDto(Parse(text).value).Some?
    ensures var count := LastValue(Entries(Lines(text)), CountLabel);
            PasteDto(Parse(text).value).value.participantsCount == if count.None? then Some(1) else ParseInt(count.value)
  {
    RunTextField(Entries(Lines(text)), CountLabel);
  }

  /** The hour and minute of a found time: two digits each, around the colon. */
  lemma TimeParts(s: string) returns (hour: string, minute: string)
    requires TimeOf(s).Some?
    ensures TimeOf(s).value == hour + ":" + minute
    ensures |hour| == 2 && |minute| == 2
    ensures forall i :: 0 <= i < 2 ==> IsDigit(hour[i]) && IsDigit(minute[i])
  {
    var k :| TimeAt(s, k) && (forall j :: 0 <= j < k ==> !TimeAt(s, j))
             && TimeOf(s).value == s[k..k + 2] + ":" + s[k + 3..k + 5];
    hour, minute := s[k..k + 2], s[k + 3..k + 5];
  }

  /** A time the parser kept is one it found in some detection line. */
  lemma {:induction false} LastTimeFound(es: seq<Option<Entry>>) returns (s: string)
    requires LastTime(es).Some?
    ensures TimeOf(s) == LastTime(es)
  {
    var e := es[|es| - 1];
    if e.Some? && e.value.kind == DetectedLabel && TimeOf(e.value.value).Some? {
      s := e.value.value;
    } else {
      s := LastTimeFound(es[..|es| - 1]);
    }
  }

  /**
   * A pasted record is dated at the `HH:MM` of the last detection line that
   * holds a time, split back into its two-digit hour and minute; with no such
   * line it is dated `00:00`.
   */
  lemma PastedTime(text: string)
    requires Parse(text).Some? && PasteDto(Parse(text).value).Some?
    ensures var dto := PasteDto(Parse(text).value).value;
            var time := LastTime(Entries(Lines(text)));
            if time.Some? then dto.hour + ":" + dto.minute == time.value && |dto.hour| == 2 && |dto.minute| == 2
            else dto.hour == "00" && dto.minute == "00"
  {
    var es := Entries(Lines(text));
    RunTime(es);
    var time := LastTime(es);
    if time.Some? {
      var s := LastTimeFound(es);
      var hour, minute := TimeParts(s);
      assert ':' !in hour && ':' !in minute by {
        assert forall i :: 0 <= i < 2 ==> hour[i] != ':' && minute[i] != ':';
      }
      FirstTwoOfJoined(hour, ':', minute);
    } else {
      FirstTwoOfJoined("00", ':', "00");
    }
  }

  // ---------------------------------------------------------------------------
  // The application state
  // ---------------------------------------------------------------------------

  /** What pasting did. */
  datatype PasteOutcome =
    | ClipboardUnreadable   // reading the clipboard threw
    | Unrecognised          // the parser returned null
    | MissingCrew           // the crew was empty after trimming
    | Created(record: Activity)

  /** `App`: the list on screen and the record being edited, over the store. */
  class App {
    const store: Store
    var activities: seq<Activity>
    var editingActivity: Option<Activity>

    /** Mounting: nothing is being edited and the list is loaded. */
    constructor (store: Store)
      ensures this.store == store
      ensures activities == store.Records() && editingActivity.None?
    {
      this.store := store;
      var data := store.GetActivities();
      activities := data;
      editingActivity := None;
    }

    /** `loadActivities`: the list on screen becomes the stored one. */
    method LoadActivities()
      modifies this
      ensures activities == store.Records()
      ensures editingActivity == old(editingActivity)
    {
      var data := store.GetActivities();
      activities := data;
    }

    /** `handleCreate`: the record is created and the list reloaded. */
    method HandleCreate(activityData: CreateActivityDto) returns (created: Activity)
      modifies this, store
      ensures created == FromDto(NextId(old(store.Records())), activityData)
      ensures store.blob == Stored(old(store.Records()) + [created])
      ensures activities == store.Records() && editingActivity == old(editingActivity)
    {
      created := store.CreateActivity(activityData);
      LoadActivities();
    }

    /**
     * `handleUpdate`: when the id is stored, the record is merged, the list
     * reloaded and editing ends; when it is not, the update throws, the alert
     * is shown and nothing else changes, so the record stays in edit.
     */
    method HandleUpdate(id: int, activityData: CreateActivityDto)
      modifies this, store
      ensures FindIndex(old(store.Records()), id).None? ==>
                store.blob == old(store.blob) && activities == old(activities) && editingActivity == old(editingActivity)
      ensures FindIndex(old(store.Records()), id).Some? ==>
                var i := FindIndex(old(store.Records()), id).value;
                store.blob == Stored(old(store.Records())[i := Merge(old(store.Records())[i], activityData)])
                && activities == store.Records() && editingActivity.None?
    {
      var r := store.UpdateActivity(id, activityData);
      if r.Err? {
        return;
      }
      LoadActivities();
      editingActivity := None;
    }

    /** `handleDelete`: only a confirmed delete reaches the store. */
    method HandleDelete(id: int, confirmed: bool)
      modifies this, store
      ensures !confirmed ==> store.blob == old(store.blob) && activities == old(activities)
      ensures confirmed ==> store.blob == Stored(Without(old(store.Records()), id)) && activities == store.Records()
      ensures editingActivity == old(editingActivity)
    {
      if confirmed {
        store.DeleteActivity(id);
        LoadActivities();
      }
    }

    /** `handleEdit`: the record goes into the form. */
    method HandleEdit(activity: Activity)
      modifies this
      ensures editingActivity == Some(activity) && activities == old(activities)
    {
      editingActivity := Some(activity);
    }

    /** `handleCancelEdit`: nothing is being edited any more. */
    method HandleCancelEdit()
      modifies this
      ensures editingActivity.None? && activities == old(activities)
    {
      editingActivity := None;
    }

    /**
     * `handlePasteActivity`: the clipboard text is parsed and converted;
     * unreadable text, text the parser does not recognise and a record
     * without a crew create nothing, anything else is created as `PasteDto`
     * says.
     */
    method HandlePasteActivity(clipboardText: Option<string>) returns (outcome: PasteOutcome)
      modifies this, store
      ensures clipboardText.None? ==> outcome == ClipboardUnreadable
      ensures clipboardText.Some? && Parse(clipboardText.value).None? ==> outcome == Unrecognised
      ensures clipboardText.Some? && Parse(clipboardText.value).Some? ==>
                (PasteDto(Parse(clipboardText.value).value).None? ==> outcome == MissingCrew)
      ensures clipboardText.Some? && Parse(clipboardText.value).Some? ==>
                (PasteDto(Parse(clipboardText.value).value).Some? ==> outcome.Created?)
      ensures !outcome.Created? ==> store.blob == old(store.blob) && activities == old(activities)
      ensures outcome.Created? ==>
                clipboardText.Some? && Parse(clipboardText.value).Some?
                && var dto := PasteDto(Parse(clipboardText.value).value);
                   dto.Some? && outcome.record == FromDto(NextId(old(store.Records())), dto.value)
                   && store.blob == Stored(old(store.Records()) + [outcome.record])
                   && activities == store.Records()
      ensures editingActivity == old(editingActivity)
    {
      if clipboardText.None? {
        return ClipboardUnreadable;
      }
      var parsed := ParseActivityFromClipboard(clipboardText.value);
      if parsed.None? {
        return Unrecognised;
      }
      var activityData := PasteDto(parsed.value);
      if activityData.None? {
        return MissingCrew;
      }
      var created := HandleCreate(activityData.value);
      outcome := Created(created);
    }
  }
}
