/**
 * The activity store: the list of activities kept under one storage key,
 * with create, update, delete, the lists of distinct names and
 * establishments for autocompletion, and the Markdown export.
 */
module ActivityService {
  import opened Wrappers
  import opened JsText
  import opened Types
  import opened Seqs

  /**
   * What the storage key `company_activities` holds: nothing (or an empty
   * string), text that does not parse as JSON, or a stored list.
   */
  datatype Blob = Missing | Corrupt | Stored(records: seq<Activity>)

  /** The error `updateActivity` throws: `Activity with id ${id} not found`. */
  datatype NotFound = NotFound(id: int)

  /** The list a read of the storage yields: corrupt or missing data read as no activities. */
  function Load(b: Blob): seq<Activity> {
    if b.Stored? then b.records else []
  }

  // ---------------------------------------------------------------------------
  // Identifiers
  // ---------------------------------------------------------------------------

  /** `Math.max(...activities.map(a => a.id))`. */
  function MaxId(s: seq<Activity>): (m: int)
    requires s != []
    ensures forall a :: a in s ==> a.id <= m
    ensures exists a :: a in s && a.id == m
  {
    if |s| == 1 then s[0].id
    else
      var m := MaxId(s[1..]);
      assert s == [s[0]] + s[1..];
      if s[0].id > m then s[0].id else m
  }

  /** The id `createActivity` gives a new record: one more than the largest, or 1 in an empty store. */
  function NextId(s: seq<Activity>): (id: int)
    ensures forall a :: a in s ==> a.id < id
    ensures s == [] ==> id == 1
    ensures s != [] ==> exists a :: a in s && a.id == id - 1
  {
    if s == [] then 1 else MaxId(s) + 1
  }

  /** No two records share an id. */
  ghost predicate UniqueIds(s: seq<Activity>) {
    forall i, j :: 0 <= i < j < |s| ==> s[i].id != s[j].id
  }

  // ---------------------------------------------------------------------------
  // Records built from a DTO
  // ---------------------------------------------------------------------------

  /** `{ id, ...dto }`. */
  function FromDto(id: int, dto: CreateActivityDto): (a: Activity)
    ensures a.id == id && a.hour == dto.hour && a.minute == dto.minute && a.mainPerson == dto.mainPerson
    ensures a.participantsCount == dto.participantsCount && a.transportType == dto.transportType
    ensures a.coordinates == dto.coordinates && a.establishment == dto.establishment
    ensures a.department == dto.department && a.link == dto.link && a.comment == dto.comment
    ensures a.marks == if dto.marks.Some? then dto.marks.value else NoMarks
  {
    Activity(id, dto.hour, dto.minute, dto.participantsCount, dto.transportType, dto.coordinates,
             dto.mainPerson, dto.establishment, dto.department, dto.link, dto.comment,
             dto.marks.GetOr(NoMarks))
  }

  /**
   * `{ ...a, ...dto }`: every key the DTO has replaces the record's, the id
   * stays, and the four extra fields stay unless the DTO supplies them.
   */
  function Merge(a: Activity, dto: CreateActivityDto): (r: Activity)
    ensures r.id == a.id
    ensures r == FromDto(a.id, dto).(marks := if dto.marks.Some? then dto.marks.value else a.marks)
  {
    Activity(a.id, dto.hour, dto.minute, dto.participantsCount, dto.transportType, dto.coordinates,
             dto.mainPerson, dto.establishment, dto.department, dto.link, dto.comment,
             if dto.marks.Some? then dto.marks.value else a.marks)
  }

  // ---------------------------------------------------------------------------
  // Lookup and deletion
  // ---------------------------------------------------------------------------

  /** `findIndex(a => a.id === id)`, with `None` for -1. */
  function FindIndex(s: seq<Activity>, id: int): (r: Option<nat>)
    ensures r.Some? ==> r.value < |s| && s[r.value].id == id
                        && forall j :: 0 <= j < r.value ==> s[j].id != id
    ensures r.None? <==> forall j :: 0 <= j < |s| ==> s[j].id != id
  {
    if s == [] then None
    else if s[0].id == id then Some(0)
    else
      match FindIndex(s[1..], id)
      case Some(k) => Some(k + 1)
      case None =>
        assert forall j :: 1 <= j < |s| ==> s[j] == s[1..][j - 1];
        None
  }

  /** `find(a => a.id === id) || null`: the first record with that id. */
  function Find(s: seq<Activity>, id: int): (r: Option<Activity>)
    ensures r.None? <==> forall a :: a in s ==> a.id != id
    ensures r.Some? ==> r.value.id == id &&
                        exists i :: 0 <= i < |s| && s[i] == r.value && forall j :: 0 <= j < i ==> s[j].id != id
  {
    match FindIndex(s, id)
    case Some(i) => Some(s[i])
    case None => None
  }

  /** `filter(a => a.id !== id)`. */
  function Without(s: seq<Activity>, id: int): (r: seq<Activity>)
    ensures forall a :: a in r <==> a in s && a.id != id
    ensures |r| <= |s|
  {
    if s == [] then []
    else
      var rest := Without(s[..|s| - 1], id);
      assert s == s[..|s| - 1] + [s[|s| - 1]];
      if s[|s| - 1].id != id then rest + [s[|s| - 1]] else rest
  }

  /** The filter keeps the survivors in their order: it works piece by piece. */
  lemma {:induction false} WithoutAppend(s: seq<Activity>, t: seq<Activity>, id: int)
    ensures Without(s + t, id) == Without(s, id) + Without(t, id)
    decreases |t|
  {
    if t == [] {
      assert s + t == s;
    } else {
      var t' := t[..|t| - 1];
      WithoutAppend(s, t', id);
      assert (s + t)[..|s + t| - 1] == s + t';
      assert (s + t)[|s + t| - 1] == t[|t| - 1];
    }
  }

  /** Deleting an id no record has changes nothing: ids are never renumbered. */
  lemma {:induction false} WithoutAbsent(s: seq<Activity>, id: int)
    requires forall a :: a in s ==> a.id != id
    ensures Without(s, id) == s
  {
    if s != [] {
      assert s == s[..|s| - 1] + [s[|s| - 1]];
      WithoutAbsent(s[..|s| - 1], id);
    }
  }

  /** Deleting twice is deleting once. */
  lemma WithoutIdempotent(s: seq<Activity>, id: int)
    ensures Without(Without(s, id), id) == Without(s, id)
  {
    WithoutAbsent(Without(s, id), id);
  }

  /** Deleting keeps every survivor in its relative place, with its id. */
  lemma {:induction false} WithoutKeepsOrder(s: seq<Activity>, id: int, i: int, j: int)
    requires 0 <= i < j < |s| && s[i].id != id && s[j].id != id
    ensures exists p, q :: 0 <= p < q < |Without(s, id)| && Without(s, id)[p] == s[i] && Without(s, id)[q] == s[j]
  {
    SplitAt(s, j);
    WithoutAppend(s[..j], s[j..], id);
    WithoutAppend([s[j]], s[j + 1..], id);
    assert Without([s[j]], id) == [s[j]] by {
      assert [s[j]][..0] == [];
    }
    var left := Without(s[..j], id);
    assert s[i] == s[..j][i];
    var p :| 0 <= p < |left| && left[p] == s[i];
    var right := [s[j]] + Without(s[j + 1..], id);
    assert Without(s, id) == left + right;
    IndexAppend(left, right, p);
    IndexAppend(left, right, |left|);
  }

  // ---------------------------------------------------------------------------
  // Invariant: ids stay unique
  // ---------------------------------------------------------------------------

  /** Appending a record with the next id keeps ids unique. */
  lemma CreateKeepsIdsUnique(s: seq<Activity>, dto: CreateActivityDto)
    requires UniqueIds(s)
    ensures UniqueIds(s + [FromDto(NextId(s), dto)])
  {
    var t := s + [FromDto(NextId(s), dto)];
    forall i, j | 0 <= i < j < |t| ensures t[i].id != t[j].id {
      if j == |s| {
        assert t[i] in s;
      } else {
        assert t[i] == s[i] && t[j] == s[j];
      }
    }
  }

  /** Replacing a record by its merge with a DTO keeps ids unique. */
  lemma UpdateKeepsIdsUnique(s: seq<Activity>, i: nat, dto: CreateActivityDto)
    requires UniqueIds(s) && i < |s|
    ensures UniqueIds(s[i := Merge(s[i], dto)])
  {
  }

  /** Deleting keeps ids unique. */
  lemma {:induction false} DeleteKeepsIdsUnique(s: seq<Activity>, id: int)
    requires UniqueIds(s)
    ensures UniqueIds(Without(s, id))
  {
    if s != [] {
      var init := s[..|s| - 1];
      var last := s[|s| - 1];
      assert UniqueIds(init);
      DeleteKeepsIdsUnique(init, id);
      var r := Without(s, id);
      if last.id != id {
        forall i, j | 0 <= i < j < |r| ensures r[i].id != r[j].id {
          if j == |r| - 1 {
            assert r[i] in Without(init, id);
            assert r[i] in init;
            var k :| 0 <= k < |init| && init[k] == r[i];
            assert s[k] == r[i];
          }
        }
      }
    }
  }

  /** Creating in an empty store, deleting that record and creating again gives id 1 both times. */
  lemma CreateDeleteCreate(d1: CreateActivityDto, d2: CreateActivityDto)
    ensures NextId([]) == 1
    ensures NextId(Without([FromDto(NextId([]), d1)], 1)) == 1
  {
    assert Without([FromDto(1, d1)], 1) == [] by {
      assert [FromDto(1, d1)][..0] == [];
    }
  }

  // ---------------------------------------------------------------------------
  // Distinct values for autocompletion
  // ---------------------------------------------------------------------------

  /** `activities.map(a => a.mainPerson).filter(Boolean)`. */
  function MainPersonValues(s: seq<Activity>): (r: seq<string>)
    ensures forall x :: x in r <==> x != "" && exists a :: a in s && a.mainPerson == x
  {
    if s == [] then []
    else
      var rest := MainPersonValues(s[..|s| - 1]);
      var last := s[|s| - 1];
      assert s == s[..|s| - 1] + [last];
      if last.mainPerson != "" then rest + [last.mainPerson] else rest
  }

  /** `activities.map(a => a.establishment).filter(Boolean)`. */
  function EstablishmentValues(s: seq<Activity>): (r: seq<string>)
    ensures forall x :: x in r <==> x != "" && exists a :: a in s && a.establishment == Some(x)
  {
    if s == [] then []
    else
      var rest := EstablishmentValues(s[..|s| - 1]);
      var last := s[|s| - 1];
      assert s == s[..|s| - 1] + [last];
      if last.establishment.Some? && last.establishment.value != "" then rest + [last.establishment.value] else rest
  }

  /** `getUniqueMainPersons`: the non-empty names of the store, each once, sorted. */
  function UniqueMainPersons(s: seq<Activity>): (r: seq<string>)
    ensures StrictlySorted(r)
    ensures forall i, j :: 0 <= i < |r| && 0 <= j < |r| && i != j ==> r[i] != r[j]
    ensures forall x :: x in r <==> x != "" && exists a :: a in s && a.mainPerson == x
  {
    var r := SortedUnique(MainPersonValues(s));
    StrictlySortedDistinct(r);
    r
  }

  /** `getUniqueEstablishments`: the non-empty establishments of the store, each once, sorted. */
  function UniqueEstablishments(s: seq<Activity>): (r: seq<string>)
    ensures StrictlySorted(r)
    ensures forall i, j :: 0 <= i < |r| && 0 <= j < |r| && i != j ==> r[i] != r[j]
    ensures forall x :: x in r <==> x != "" && exists a :: a in s && a.establishment == Some(x)
  {
    var r := SortedUnique(EstablishmentValues(s));
    StrictlySortedDistinct(r);
    r
  }

  // ---------------------------------------------------------------------------
  // Markdown export
  // ---------------------------------------------------------------------------

  /** The whole export of an empty store. */
  const EmptyExport: string := "# Відстеження переміщень\n\nНемає переміщень.\n"

  /** The first line of a non-empty export. */
  const Title: string := "# Відстеження активності компанії\n\n"

  /** The line on which every section, and the header, ends. */
  const Rule: string := "---\n\n"

  /** The captions of the `**caption:** value` paragraphs. */
  datatype Caption =
    | TotalCaption | TimeCaption | CountCaption | TypeCaption | CoordinatesCaption
    | StreamCaption | EstablishmentCaption | DepartmentCaption | LinkCaption | CommentCaption

  function CaptionText(c: Caption): string {
    match c
    case TotalCaption => "Загальна кількість переміщень"
    case TimeCaption => "Час"
    case CountCaption => "Кількість"
    case TypeCaption => "Тип"
    case CoordinatesCaption => "Координати"
    case StreamCaption => "Стрім"
    case EstablishmentCaption => "Заклад"
    case DepartmentCaption => "Відділ"
    case LinkCaption => "Посилання"
    case CommentCaption => "Коментар"
  }

  /** One block of the export: a section heading, a captioned value, or the rule. */
  datatype Paragraph = Heading(id: int) | Labelled(caption: Caption, value: string) | RuleLine

  /** The text of a paragraph, with its blank line. */
  function Render(p: Paragraph): string {
    match p
    case Heading(id) => "## Активність #" + IntToString(id) + "\n\n"
    case Labelled(c, v) => "**" + CaptionText(c) + ":** " + v + "\n\n"
    case RuleLine => Rule
  }

  /** 🐷 for `walk`, 🚗 for any other transport. */
  function TransportGlyph(t: Transport): string {
    if t == Walk then "🐷" else "🚗"
  }

  /** A link written as a Markdown link to itself. */
  function LinkText(link: string): string {
    "[" + link + "](" + link + ")"
  }

  /** A paragraph written only when the value is truthy (present and not ""). */
  function Optional(c: Caption, value: Option<string>): seq<Paragraph> {
    if value.Some? && value.value != "" then [Labelled(c, value.value)] else []
  }

  /** The title, the record count and a rule. */
  function Header(count: int): string {
    Title + Render(Labelled(TotalCaption, IntToString(count))) + Rule
  }

  /**
   * The paragraphs of one record's section, in the order they are written:
   * a zero or absent count, an absent transport or department, and an empty
   * or absent text are skipped.
   */
  function SectionParagraphs(a: Activity): seq<Paragraph> {
    [Heading(a.id)] + [Labelled(TimeCaption, a.hour + ":" + a.minute)]
    + CountPart(a) + TypePart(a) + Optional(CoordinatesCaption, a.coordinates)
    + [Labelled(StreamCaption, a.mainPerson)]
    + Optional(EstablishmentCaption, a.establishment) + DepartmentPart(a) + LinkPart(a)
    + Optional(CommentCaption, a.comment)
    + [RuleLine]
  }

  function CountPart(a: Activity): seq<Paragraph> {
    if a.participantsCount.Some? && a.participantsCount.value != 0
    then [Labelled(CountCaption, IntToString(a.participantsCount.value))] else []
  }

  function TypePart(a: Activity): seq<Paragraph> {
    if a.transportType.Some? then [Labelled(TypeCaption, TransportGlyph(a.transportType.value))] else []
  }

  function DepartmentPart(a: Activity): seq<Paragraph> {
    if a.department.Some? then [Labelled(DepartmentCaption, DepartmentName(a.department.value))] else []
  }

  function LinkPart(a: Activity): seq<Paragraph> {
    if a.link.Some? && a.link.value != "" then [Labelled(LinkCaption, LinkText(a.link.value))] else []
  }

  /** The section of one record. */
  function Section(a: Activity): string {
    ConcatMap(SectionParagraphs(a), Render)
  }

  /** The sections of the records, in storage order. */
  function Sections(s: seq<Activity>): string {
    ConcatMap(s, Section)
  }

  /** `exportToMarkdown` as a function of the stored records. */
  function Markdown(s: seq<Activity>): string {
    if s == [] then EmptyExport else Header(|s|) + Sections(s)
  }

  /** Sections of a concatenation are the concatenated sections: one section per record, in order. */
  lemma SectionsAppend(s: seq<Activity>, t: seq<Activity>)
    ensures Sections(s + t) == Sections(s) + Sections(t)
  {
    ConcatMapAppend(s, t, Section);
  }

  /** A one-record store's sections are that record's section. */
  lemma SectionsSingle(a: Activity)
    ensures Sections([a]) == Section(a)
  {
    ConcatMapSingle(a, Section);
  }

  /** The export is the fixed empty-store text exactly when the store is empty. */
  lemma MarkdownEmptyIff(s: seq<Activity>)
    ensures Markdown(s) == EmptyExport <==> s == []
  {
    if s != [] {
      var m := Markdown(s);
      assert m[..|Title|] == Title;
      assert Title[16] != EmptyExport[16];
    }
  }

  /** The paragraph list of a section, split where the always-written `Стрім` paragraph is. */
  lemma SectionSplit(a: Activity) returns (before: seq<Paragraph>, after: seq<Paragraph>)
    ensures Section(a) == ConcatMap(before + [Labelled(StreamCaption, a.mainPerson)], Render) + ConcatMap(after, Render)
    ensures |before| >= 2 && before[..2] == [Heading(a.id), Labelled(TimeCaption, a.hour + ":" + a.minute)]
  {
    var p2 := [Heading(a.id)] + [Labelled(TimeCaption, a.hour + ":" + a.minute)];
    before := p2 + CountPart(a) + TypePart(a) + Optional(CoordinatesCaption, a.coordinates);
    after := Optional(EstablishmentCaption, a.establishment) + DepartmentPart(a) + LinkPart(a)
             + Optional(CommentCaption, a.comment) + [RuleLine];
    var q := before + [Labelled(StreamCaption, a.mainPerson)];
    var e, d, l, c := Optional(EstablishmentCaption, a.establishment), DepartmentPart(a), LinkPart(a),
                      Optional(CommentCaption, a.comment);
    AppendAssoc(q, e, d);
    AppendAssoc(q, e + d, l);
    AppendAssoc(q, e + d + l, c);
    AppendAssoc(q, e + d + l + c, [RuleLine]);
    assert SectionParagraphs(a) == q + after;
    ConcatMapAppend(before + [Labelled(StreamCaption, a.mainPerson)], after, Render);
    assert before[..2] == p2;
  }

  /** A section starts with the record's id and its time. */
  lemma SectionOpening(a: Activity)
    ensures Render(Heading(a.id)) + Render(Labelled(TimeCaption, a.hour + ":" + a.minute)) <= Section(a)
  {
    var before, after := SectionSplit(a);
    var opening := [Heading(a.id), Labelled(TimeCaption, a.hour + ":" + a.minute)];
    assert before == opening + before[2..];
    ConcatMapPair(opening[0], opening[1], Render);
    assert before + [Labelled(StreamCaption, a.mainPerson)] == opening + (before[2..] + [Labelled(StreamCaption, a.mainPerson)]);
    ConcatMapAppend(opening, before[2..] + [Labelled(StreamCaption, a.mainPerson)], Render);
  }

  /** A section contains the `Стрім` paragraph with the record's main person. */
  lemma SectionNamesMainPerson(a: Activity)
    ensures exists k :: OccursAt(Section(a), Render(Labelled(StreamCaption, a.mainPerson)), k)
  {
    var before, after := SectionSplit(a);
    OccursLast(before, Labelled(StreamCaption, a.mainPerson), Render);
    OccursExtended(before + [Labelled(StreamCaption, a.mainPerson)], after, Render,
      Render(Labelled(StreamCaption, a.mainPerson)), |ConcatMap(before, Render)|);
    ConcatMapAppend(before + [Labelled(StreamCaption, a.mainPerson)], after, Render);
  }

  /** A section ends with the rule. */
  lemma SectionEndsWithRule(a: Activity)
    ensures Section(a)[|Section(a)| - |Rule|..] == Rule
  {
    var ps := SectionParagraphs(a);
    ConcatMapSnoc(ps[..|ps| - 1], RuleLine, Render);
    assert ps == ps[..|ps| - 1] + [RuleLine];
    EndsWith(ConcatMap(ps[..|ps| - 1], Render), Render(RuleLine));
  }

  /**
   * The body of the `forEach` in `exportToMarkdown`: appends one record's
   * paragraphs to the text, each guarded by the same truthiness test.
   */
  method WriteSection(text: string, a: Activity) returns (markdown: string)
    ensures markdown == text + Section(a)
  {
    markdown := text + Render(Heading(a.id));
    ghost var written: seq<Paragraph> := [Heading(a.id)];
    ConcatMapSingle(Heading(a.id), Render);
    markdown := Write(text, markdown, written, Labelled(TimeCaption, a.hour + ":" + a.minute));
    written := written + [Labelled(TimeCaption, a.hour + ":" + a.minute)];
    if a.participantsCount.Some? && a.participantsCount.value != 0 {
      markdown := Write(text, markdown, written, Labelled(CountCaption, IntToString(a.participantsCount.value)));
    } else {
      Skip(text, markdown, written);
    }
    written := written + CountPart(a);
    if a.transportType.Some? {
      markdown := Write(text, markdown, written, Labelled(TypeCaption, TransportGlyph(a.transportType.value)));
    } else {
      Skip(text, markdown, written);
    }
    written := written + TypePart(a);
    if a.coordinates.Some? && a.coordinates.value != "" {
      markdown := Write(text, markdown, written, Labelled(CoordinatesCaption, a.coordinates.value));
    } else {
      Skip(text, markdown, written);
    }
    written := written + Optional(CoordinatesCaption, a.coordinates);
    markdown := Write(text, markdown, written, Labelled(StreamCaption, a.mainPerson));
    written := written + [Labelled(StreamCaption, a.mainPerson)];
    if a.establishment.Some? && a.establishment.value != "" {
      markdown := Write(text, markdown, written, Labelled(EstablishmentCaption, a.establishment.value));
    } else {
      Skip(text, markdown, written);
    }
    written := written + Optional(EstablishmentCaption, a.establishment);
    if a.department.Some? {
      markdown := Write(text, markdown, written, Labelled(DepartmentCaption, DepartmentName(a.department.value)));
    } else {
      Skip(text, markdown, written);
    }
    written := written + DepartmentPart(a);
    if a.link.Some? && a.link.value != "" {
      markdown := Write(text, markdown, written, Labelled(LinkCaption, LinkText(a.link.value)));
    } else {
      Skip(text, markdown, written);
    }
    written := written + LinkPart(a);
    if a.comment.Some? && a.comment.value != "" {
      markdown := Write(text, markdown, written, Labelled(CommentCaption, a.comment.value));
    } else {
      Skip(text, markdown, written);
    }
    written := written + Optional(CommentCaption, a.comment);
    markdown := Write(text, markdown, written, RuleLine);
    written := written + [RuleLine];
  }

  /** `markdown += ...` for one paragraph, after the paragraphs `written` since `start`. */
  method Write(ghost start: string, markdown: string, ghost written: seq<Paragraph>, p: Paragraph)
    returns (r: string)
    requires markdown == start + ConcatMap(written, Render)
    ensures r == start + ConcatMap(written + [p], Render)
  {
    r := markdown + Render(p);
    ConcatMapSnoc(written, p, Render);
    AppendAssoc(start, ConcatMap(written, Render), Render(p));
  }

  /** A paragraph whose test fails adds nothing. */
  lemma Skip(start: string, markdown: string, written: seq<Paragraph>)
    requires markdown == start + ConcatMap(written, Render)
    ensures markdown == start + ConcatMap(written + [], Render)
  {
    assert written + [] == written;
  }

  // ---------------------------------------------------------------------------
  // The store
  // ---------------------------------------------------------------------------

  /** The storage key `company_activities`. */
  class Store {
    var blob: Blob

    constructor (initial: Blob)
      ensures blob == initial
    {
      blob := initial;
    }

    /** The current list of activities, as every operation reads it first. */
    function Records(): seq<Activity>
      reads this
    {
      Load(blob)
    }

    /** `getActivities`: the stored list, or [] when nothing parses. */
    method GetActivities() returns (r: seq<Activity>)
      ensures blob.Stored? ==> r == blob.records
      ensures !blob.Stored? ==> r == []
    {
      match blob
      case Stored(records) => r := records;
      case Missing => r := [];
      case Corrupt => r := [];
    }

    /** `getActivity`: the first record with the id, or null. */
    method GetActivity(id: int) returns (r: Option<Activity>)
      ensures r.None? <==> forall a :: a in Records() ==> a.id != id
      ensures r.Some? ==> r.value.id == id && r.value in Records()
      ensures r == Find(Records(), id)
    {
      var activities := GetActivities();
      r := Find(activities, id);
    }

    /**
     * `createActivity`: the record gets the next id and the DTO's fields and
     * is appended; the earlier records stay as they were.
     */
    method CreateActivity(dto: CreateActivityDto) returns (a: Activity)
      modifies this
      ensures a == FromDto(NextId(old(Records())), dto)
      ensures blob == Stored(old(Records()) + [a])
      ensures UniqueIds(old(Records())) ==> UniqueIds(Records())
    {
      var activities := GetActivities();
      var newId := if |activities| > 0 then MaxId(activities) + 1 else 1;
      a := FromDto(newId, dto);
      if UniqueIds(activities) {
        CreateKeepsIdsUnique(activities, dto);
      }
      activities := activities + [a];
      blob := Stored(activities);
    }

    /**
     * `updateActivity`: the first record with the id is merged with the DTO;
     * an absent id throws and leaves the storage as it was.
     */
    method UpdateActivity(id: int, dto: CreateActivityDto) returns (r: Result<Activity, NotFound>)
      modifies this
      ensures FindIndex(old(Records()), id).None? ==> r == Err(NotFound(id)) && blob == old(blob)
      ensures FindIndex(old(Records()), id).Some? ==>
                var i := FindIndex(old(Records()), id).value;
                r == Ok(Merge(old(Records())[i], dto)) && blob == Stored(old(Records())[i := r.value])
      ensures UniqueIds(old(Records())) ==> UniqueIds(Records())
    {
      var activities := GetActivities();
      var index := FindIndex(activities, id);
      if index.None? {
        return Err(NotFound(id));
      }
      if UniqueIds(activities) {
        UpdateKeepsIdsUnique(activities, index.value, dto);
      }
      activities := activities[index.value := Merge(activities[index.value], dto)];
      blob := Stored(activities);
      r := Ok(activities[index.value]);
    }

    /** `deleteActivity`: writes back the records whose id differs, without renumbering. */
    method DeleteActivity(id: int)
      modifies this
      ensures blob == Stored(Without(old(Records()), id))
      ensures UniqueIds(old(Records())) ==> UniqueIds(Records())
    {
      var activities := GetActivities();
      if UniqueIds(activities) {
        DeleteKeepsIdsUnique(activities, id);
      }
      blob := Stored(Without(activities, id));
    }

    /** `exportToMarkdown`: builds the text section by section. */
    method ExportToMarkdown() returns (markdown: string)
      ensures markdown == Markdown(Records())
    {
      var activities := GetActivities();
      if |activities| == 0 {
        return EmptyExport;
      }
      markdown := Title;
      markdown := markdown + Render(Labelled(TotalCaption, IntToString(|activities|)));
      markdown := markdown + Rule;
      assert activities[..0] == [];
      AppendEmpty(markdown);
      for index := 0 to |activities|
        invariant markdown == Header(|activities|) + Sections(activities[..index])
      {
        assert activities[..index + 1] == activities[..index] + [activities[index]];
        ConcatMapSnoc(activities[..index], activities[index], Section);
        AppendAssoc(Header(|activities|), Sections(activities[..index]), Section(activities[index]));
        markdown := WriteSection(markdown, activities[index]);
      }
      assert activities[..|activities|] == activities;
    }
  }
}
