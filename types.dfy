/**
 * The records of the activity log: a stored `Activity`, the `CreateActivityDto`
 * the forms and the paste action hand to the store, and the `FormData` the
 * form rows edit as text.
 */
module Types {
  import opened Wrappers

  /** `transportType`: `'walk'` (shown as 🐷) or `'car'` (shown as 🚗). */
  datatype Transport = Walk | Car

  /** `department`: one of the two units `'літуни'` and `'тіхоні'`. */
  datatype Department = Lituny | Tikhoni

  /** `direction`: `'+'`, `'-'` or `'='`. */
  datatype Direction = Plus | Minus | Equals

  function TransportName(t: Transport): string {
    match t
    case Walk => "walk"
    case Car => "car"
  }

  function DepartmentName(d: Department): string {
    match d
    case Lituny => "літуни"
    case Tikhoni => "тіхоні"
  }

  function DirectionName(d: Direction): string {
    match d
    case Plus => "+"
    case Minus => "-"
    case Equals => "="
  }

  /** The whitelist `value === 'walk' || value === 'car' ? value : null`. */
  function TransportOf(s: string): (r: Option<Transport>)
    ensures r.Some? <==> s == "walk" || s == "car"
    ensures r.Some? ==> TransportName(r.value) == s
  {
    if s == "walk" then Some(Walk) else if s == "car" then Some(Car) else None
  }

  /** The whitelist `value === 'літуни' || value === 'тіхоні' ? value : null`. */
  function DepartmentOf(s: string): (r: Option<Department>)
    ensures r.Some? <==> s == "літуни" || s == "тіхоні"
    ensures r.Some? ==> DepartmentName(r.value) == s
  {
    if s == "літуни" then Some(Lituny) else if s == "тіхоні" then Some(Tikhoni) else None
  }

  /** The whitelist `value === '+' || value === '-' || value === '=' ? value : null`. */
  function DirectionOf(s: string): (r: Option<Direction>)
    ensures r.Some? <==> s == "+" || s == "-" || s == "="
    ensures r.Some? ==> DirectionName(r.value) == s
  {
    if s == "+" then Some(Plus) else if s == "-" then Some(Minus) else if s == "=" then Some(Equals) else None
  }

  /**
   * The fields `greenCount`, `yellowCount`, `redCount` and `direction`. The
   * paste action puts them into the object it creates, the store keeps them
   * (it spreads the whole object) and the statistics read `direction`; the
   * declared interfaces do not list them.
   */
  datatype Marks = Marks(
    greenCount: Option<int>,
    yellowCount: Option<int>,
    redCount: Option<int>,
    direction: Option<Direction>)

  /** A record that has none of the four fields. */
  const NoMarks := Marks(None, None, None, None)

  /**
   * A stored record. `None` is `null` or a missing key; an `int` that is
   * `None` also stands for the `NaN` that `parseInt` returns for a
   * non-number (it is falsy like `null` wherever the code reads it).
   */
  datatype Activity = Activity(
    id: int,
    hour: string,
    minute: string,
    participantsCount: Option<int>,
    transportType: Option<Transport>,
    coordinates: Option<string>,
    mainPerson: string,
    establishment: Option<string>,
    department: Option<Department>,
    link: Option<string>,
    comment: Option<string>,
    marks: Marks)

  /**
   * The object passed to `createActivity` and `updateActivity`. Every form
   * supplies all the declared keys; `marks` is `None` when the object has none
   * of the four extra keys (the forms) and `Some` when it has all of them
   * (the paste action).
   */
  datatype CreateActivityDto = CreateActivityDto(
    hour: string,
    minute: string,
    participantsCount: Option<int>,
    transportType: Option<Transport>,
    coordinates: Option<string>,
    mainPerson: string,
    establishment: Option<string>,
    department: Option<Department>,
    link: Option<string>,
    comment: Option<string>,
    marks: Option<Marks>)

  /** The text fields of the activity form rows. */
  datatype FormData = FormData(
    time: string,
    participantsCount: string,
    transportType: string,
    coordinates: string,
    mainPerson: string,
    establishment: string,
    department: string,
    link: string,
    comment: string)

  /** The `name` attribute of a form input. */
  datatype FormField =
    | TimeField | ParticipantsCountField | TransportTypeField | CoordinatesField
    | MainPersonField | EstablishmentField | DepartmentField | LinkField | CommentField

  /** The value of one form field. */
  function FieldValue(f: FormData, name: FormField): string {
    match name
    case TimeField => f.time
    case ParticipantsCountField => f.participantsCount
    case TransportTypeField => f.transportType
    case CoordinatesField => f.coordinates
    case MainPersonField => f.mainPerson
    case EstablishmentField => f.establishment
    case DepartmentField => f.department
    case LinkField => f.link
    case CommentField => f.comment
  }

  /** `{ ...prev, [name]: value }`: the named field takes the value and no other field changes. */
  function WithField(f: FormData, name: FormField, value: string): (r: FormData)
    ensures FieldValue(r, name) == value
    ensures forall other :: other != name ==> FieldValue(r, other) == FieldValue(f, other)
  {
    match name
    case TimeField => f.(time := value)
    case ParticipantsCountField => f.(participantsCount := value)
    case TransportTypeField => f.(transportType := value)
    case CoordinatesField => f.(coordinates := value)
    case MainPersonField => f.(mainPerson := value)
    case EstablishmentField => f.(establishment := value)
    case DepartmentField => f.(department := value)
    case LinkField => f.(link := value)
    case CommentField => f.(comment := value)
  }
}
