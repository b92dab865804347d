/**
 * The row that adds a detail under a record: a larger text form with the
 * three status counts, a submit that only needs a time, the link pasted
 * from the clipboard when it is an http(s) URL, and the status setters.
 */
module DetailsFormRow {
  import opened Wrappers
  import opened JsText
  import opened ActivityFormRow

  /** The detail form's text fields. */
  datatype DetailForm = DetailForm(
    time: string,
    participantsCount: string,
    transportType: string,
    greenCount: string,
    yellowCount: string,
    redCount: string,
    direction: string,
    coordinates: string,
    mainPerson: string,
    establishment: string,
    department: string,
    link: string,
    comment: string)

  /** The `name` of a detail form input. */
  datatype DetailField =
    | TimeField | ParticipantsCountField | TransportTypeField | GreenCountField | YellowCountField
    | RedCountField | DirectionField | CoordinatesField | MainPersonField | EstablishmentField
    | DepartmentField | LinkField | CommentField

  function DetailValue(f: DetailForm, name: DetailField): string {
    match name
    case TimeField => f.time
    case ParticipantsCountField => f.participantsCount
    case TransportTypeField => f.transportType
    case GreenCountField => f.greenCount
    case YellowCountField => f.yellowCount
    case RedCountField => f.redCount
    case DirectionField => f.direction
    case CoordinatesField => f.coordinates
    case MainPersonField => f.mainPerson
    case EstablishmentField => f.establishment
    case DepartmentField => f.department
    case LinkField => f.link
    case CommentField => f.comment
  }

  /** `{ ...prev, [name]: value }`: the named field takes the value and no other changes. */
  function WithDetail(f: DetailForm, name: DetailField, value: string): (r: DetailForm)
    ensures DetailValue(r, name) == value
    ensures forall other :: other != name ==> DetailValue(r, other) == DetailValue(f, other)
  {
    match name
    case TimeField => f.(time := value)
    case ParticipantsCountField => f.(participantsCount := value)
    case TransportTypeField => f.(transportType := value)
    case GreenCountField => f.(greenCount := value)
    case YellowCountField => f.(yellowCount := value)
    case RedCountField => f.(redCount := value)
    case DirectionField => f.(direction := value)
    case CoordinatesField => f.(coordinates := value)
    case MainPersonField => f.(mainPerson := value)
    case EstablishmentField => f.(establishment := value)
    case DepartmentField => f.(department := value)
    case LinkField => f.(link := value)
    case CommentField => f.(comment := value)
  }

  /** The empty detail form: the current time, transport `walk`, everything else empty. */
  function DefaultDetailForm(now: string): (f: DetailForm)
    ensures f.time == now && f.transportType == "walk"
    ensures forall name :: name != TimeField && name != TransportTypeField ==> DetailValue(f, name) == ""
  {
    DetailForm(now, "", "walk", "", "", "", "", "", "", "", "", "", "")
  }

  /** The object handed to `onSubmit`: the keys the submit builds, and no others. */
  datatype DetailDto = DetailDto(
    hour: string,
    minute: string,
    mainPerson: string,
    participantsCount: Option<int>,
    coordinates: Option<string>,
    greenCount: Option<int>,
    yellowCount: Option<int>,
    redCount: Option<int>,
    link: Option<string>,
    comment: Option<string>)

  /**
   * `handleSubmit`'s object: nothing when the time is empty; otherwise the
   * time split on `:`, the crew trimmed (and allowed to be empty), the
   * counts parsed or null, and the texts trimmed or null.
   */
  function BuildDetailDto(f: DetailForm): (r: Option<DetailDto>)
    ensures r.None? <==> f.time == ""
    ensures r.Some? ==> (r.value.hour, r.value.minute) == FirstTwo(f.time, ':') && r.value.mainPerson == Trim(f.mainPerson)
    ensures r.Some? ==> r.value.participantsCount == CountOrNull(f.participantsCount)
    ensures r.Some? ==> r.value.coordinates == TrimOrNull(f.coordinates) && r.value.link == TrimOrNull(f.link)
                        && r.value.comment == TrimOrNull(f.comment)
    ensures r.Some? ==> r.value.greenCount == CountOrNull(f.greenCount) && r.value.yellowCount == CountOrNull(f.yellowCount)
                        && r.value.redCount == CountOrNull(f.redCount)
    ensures r.Some? ==> Normalised(r.value.coordinates) && Normalised(r.value.link) && Normalised(r.value.comment)
  {
    if f.time == "" then None
    else
      var (hour, minute) := FirstTwo(f.time, ':');
      Some(DetailDto(
        hour, minute,
        Trim(f.mainPerson),
        CountOrNull(f.participantsCount),
        TrimOrNull(f.coordinates),
        CountOrNull(f.greenCount),
        CountOrNull(f.yellowCount),
        CountOrNull(f.redCount),
        TrimOrNull(f.link),
        TrimOrNull(f.comment)))
  }

  /** A blank crew does not stop the submit: it is sent as `""`. */
  lemma BlankCrewAccepted(f: DetailForm)
    requires f.time != "" && IsBlank(f.mainPerson)
    ensures BuildDetailDto(f).Some? && BuildDetailDto(f).value.mainPerson == ""
  {
  }

  /** An empty status count is sent as null, a filled one as its `parseInt`. */
  lemma StatusCounts(f: DetailForm)
    requires f.time != ""
    ensures BuildDetailDto(f).value.greenCount == if f.greenCount == "" then None else ParseInt(f.greenCount)
    ensures BuildDetailDto(f).value.yellowCount == if f.yellowCount == "" then None else ParseInt(f.yellowCount)
    ensures BuildDetailDto(f).value.redCount == if f.redCount == "" then None else ParseInt(f.redCount)
  {
  }

  /** The transport, direction, establishment and department fields never reach the detail object. */
  lemma IgnoredFields(f: DetailForm, transport: string, direction: string, establishment: string, department: string)
    ensures BuildDetailDto(f) == BuildDetailDto(f.(transportType := transport, direction := direction,
                                                   establishment := establishment, department := department))
  {
  }

  /**
   * `isValidUrl`: the text is a URL whose protocol is `http:` or `https:`.
   * `protocolOf` stands for `new URL(text).protocol`, `None` when the
   * constructor throws.
   */
  predicate IsValidUrl(text: string, protocolOf: string -> Option<string>) {
    match protocolOf(text)
    case Some(p) => p == "http:" || p == "https:"
    case None => false
  }

  /** What the paste button did with the text it read. */
  datatype PasteOutcome = Pasted | Rejected | NothingRead

  /**
   * The text the paste button reads: the clipboard's, or, when the
   * clipboard cannot be read, what the older paste command put in a scratch
   * text area (`None` when that command fails too).
   */
  function PastedText(clipboardText: Option<string>, fallbackText: Option<string>): (r: Option<string>)
    ensures clipboardText.Some? ==> r == clipboardText
    ensures clipboardText.None? ==> r == fallbackText
  {
    if clipboardText.Some? then clipboardText else fallbackText
  }

  /** `DetailsFormRow`: the form, the parent record's id and the last clipboard text seen. */
  class DetailsFormRow {
    const parentId: int
    var formData: DetailForm
    var clipboardLink: string

    constructor (parentId: int, now: string)
      ensures this.parentId == parentId
      ensures formData == DefaultDetailForm(now) && clipboardLink == ""
    {
      this.parentId := parentId;
      formData := DefaultDetailForm(now);
      clipboardLink := "";
    }

    /** `handleChange`: only the named field changes. */
    method HandleChange(name: DetailField, value: string)
      modifies this
      ensures formData == WithDetail(old(formData), name, value)
      ensures clipboardLink == old(clipboardLink)
    {
      formData := WithDetail(formData, name, value);
    }

    /**
     * `handleSubmit`: nothing is sent without a time; otherwise the parent id
     * and the detail go to `onSubmit`, and when it resolves the form is reset.
     */
    method HandleSubmit(onSubmitResolves: bool, now: string) returns (submitted: Option<(int, DetailDto)>)
      modifies this
      ensures submitted.None? <==> old(formData).time == ""
      ensures submitted.Some? ==> submitted.value.0 == parentId && Some(submitted.value.1) == BuildDetailDto(old(formData))
      ensures formData == if submitted.Some? && onSubmitResolves then DefaultDetailForm(now) else old(formData)
      ensures clipboardLink == old(clipboardLink)
    {
      var submitData := BuildDetailDto(formData);
      if submitData.None? {
        return None;
      }
      submitted := Some((parentId, submitData.value));
      if onSubmitResolves {
        formData := DefaultDetailForm(now);
      }
    }

    /**
     * `handleCheckClipboard`: the clipboard text, or `""` when it cannot be
     * read. The program runs it from an effect on mount and whenever the link
     * changes; here the caller makes that call, after a paste as well.
     */
    method CheckClipboard(clipboardText: Option<string>)
      modifies this
      ensures clipboardLink == clipboardText.GetOr("")
      ensures formData == old(formData)
    {
      match clipboardText
      case Some(text) =>
        clipboardLink := text;
      case None =>
        clipboardLink := "";
    }

    /**
     * `handlePasteLink`: the text read becomes the link when it is an http(s)
     * URL; any other text, or no text at all, leaves the form as it was.
     */
    method HandlePasteLink(clipboardText: Option<string>, fallbackText: Option<string>, protocolOf: string -> Option<string>)
      returns (outcome: PasteOutcome)
      modifies this
      ensures var text := PastedText(clipboardText, fallbackText);
              match text
              case None => outcome == NothingRead && formData == old(formData)
              case Some(t) =>
                if IsValidUrl(t, protocolOf) then outcome == Pasted && formData == old(formData).(link := t)
                else outcome == Rejected && formData == old(formData)
      ensures clipboardLink == old(clipboardLink)
    {
      var text: string;
      if clipboardText.Some? {
        text := clipboardText.value;
      } else if fallbackText.Some? {
        text := fallbackText.value;
      } else {
        return NothingRead;
      }
      if !IsValidUrl(text, protocolOf) {
        return Rejected;
      }
      formData := formData.(link := text);
      outcome := Pasted;
    }

    /** The green setter of the status popup: only the green count changes. */
    method SetGreenCount(value: string)
      modifies this
      ensures formData == old(formData).(greenCount := value) && clipboardLink == old(clipboardLink)
    {
      formData := formData.(greenCount := value);
    }

    /** The yellow setter: only the yellow count changes. */
    method SetYellowCount(value: string)
      modifies this
      ensures formData == old(formData).(yellowCount := value) && clipboardLink == old(clipboardLink)
    {
      formData := formData.(yellowCount := value);
    }

    /** The red setter: only the red count changes. */
    method SetRedCount(value: string)
      modifies this
      ensures formData == old(formData).(redCount := value) && clipboardLink == old(clipboardLink)
    {
      formData := formData.(redCount := value);
    }
  }
}
