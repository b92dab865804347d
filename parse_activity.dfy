/**
 * `parseActivityFromClipboard`: reads an event report pasted as text, one
 * `Label: value` per line, into a partial form record, or `null` when no
 * line set anything.
 */
module ParseActivity {
  import opened Wrappers
  import opened Seqs
  import opened JsText

  /**
   * The object the parser builds and the paste action reads. `None` is a key
   * the object does not have. The parser never sets `establishment`,
   * `department` or `direction`; the paste action reads them all the same.
   */
  datatype ParsedForm = ParsedForm(
    time: Option<string>,
    participantsCount: Option<string>,
    transportType: Option<string>,
    coordinates: Option<string>,
    mainPerson: Option<string>,
    establishment: Option<string>,
    department: Option<string>,
    link: Option<string>,
    comment: Option<string>,
    greenCount: Option<string>,
    yellowCount: Option<string>,
    redCount: Option<string>,
    direction: Option<string>)

  /** The object `{}` the parser starts from. */
  const NothingParsed := ParsedForm(None, None, None, None, None, None, None, None, None, None, None, None, None)

  // ---------------------------------------------------------------------------
  // Lines and labels
  // ---------------------------------------------------------------------------

  /** `.map(line => line.trim()).filter(line => line)`. */
  function CleanLines(parts: seq<string>): (r: seq<string>)
    ensures forall i :: 0 <= i < |r| ==> r[i] != "" && IsTrimmed(r[i])
    ensures forall x :: x in r <==> x != "" && exists p :: p in parts && Trim(p) == x
  {
    if parts == [] then []
    else
      var rest := CleanLines(parts[..|parts| - 1]);
      var last := parts[|parts| - 1];
      TrimShape(last);
      assert forall p :: p in parts <==> p in parts[..|parts| - 1] || p == last by {
        SplitLast(parts);
      }
      if Trim(last) != "" then rest + [Trim(last)] else rest
  }

  /** One line is kept, trimmed, exactly when it is not blank. */
  lemma CleanLinesSingle(p: string)
    ensures CleanLines([p]) == if Trim(p) == "" then [] else [Trim(p)]
  {
    assert [p][..0] == [];
  }

  /**
   * Cleaning keeps the lines in their order, repeats included: the lines of
   * a concatenation are the lines of each part, one after the other.
   */
  lemma {:induction false} CleanLinesAppend(a: seq<string>, b: seq<string>)
    ensures CleanLines(a + b) == CleanLines(a) + CleanLines(b)
    decreases |b|
  {
    if b == [] {
      assert a + b == a;
    } else {
      var init := b[..|b| - 1];
      assert (a + b)[..|a + b| - 1] == a + init;
      assert (a + b)[|a + b| - 1] == b[|b| - 1];
      CleanLinesAppend(a, init);
      var t := Trim(b[|b| - 1]);
      if t != "" {
        AppendAssoc(CleanLines(a), CleanLines(init), [t]);
      }
    }
  }

  /** The lines the parser looks at: split on `\n`, trimmed, blank ones dropped. */
  function Lines(text: string): seq<string> {
    CleanLines(Split(text, '\n'))
  }

  /** The labels, in the order the `else if` chain tries them. */
  datatype Label =
    | LinkLabel | CrewLabel | CountLabel | CommentLabel | CoordinatesLabel
    | DetectedLabel | TypeLabel | ReadinessLabel

  function LabelText(l: Label): string {
    match l
    case LinkLabel => "Посилання:"
    case CrewLabel => "Екіпаж:"
    case CountLabel => "Кількість:"
    case CommentLabel => "Коментар:"
    case CoordinatesLabel => "Координати (MGRS):"
    case DetectedLabel => "Дата/час виявлення:"
    case TypeLabel => "Тип:"
    case ReadinessLabel => "Боєздатність:"
  }

  /** The branch of the `else if` chain a line takes: the first label that starts it. */
  function Dispatch(line: string): (r: Option<Label>)
    ensures r.Some? ==> StartsWith(line, LabelText(r.value))
    ensures r.None? ==> forall l :: !StartsWith(line, LabelText(l))
  {
    if StartsWith(line, LabelText(LinkLabel)) then Some(LinkLabel)
    else if StartsWith(line, LabelText(CrewLabel)) then Some(CrewLabel)
    else if StartsWith(line, LabelText(CountLabel)) then Some(CountLabel)
    else if StartsWith(line, LabelText(CommentLabel)) then Some(CommentLabel)
    else if StartsWith(line, LabelText(CoordinatesLabel)) then Some(CoordinatesLabel)
    else if StartsWith(line, LabelText(DetectedLabel)) then Some(DetectedLabel)
    else if StartsWith(line, LabelText(TypeLabel)) then Some(TypeLabel)
    else if StartsWith(line, LabelText(ReadinessLabel)) then Some(ReadinessLabel)
    else None
  }

  /** The first three characters of each label; no two labels share them. */
  function Initials(l: Label): (char, char, char) {
    match l
    case LinkLabel => ('П', 'о', 'с')
    case CrewLabel => ('Е', 'к', 'і')
    case CountLabel => ('К', 'і', 'л')
    case CommentLabel => ('К', 'о', 'м')
    case CoordinatesLabel => ('К', 'о', 'о')
    case DetectedLabel => ('Д', 'а', 'т')
    case TypeLabel => ('Т', 'и', 'п')
    case ReadinessLabel => ('Б', 'о', 'є')
  }

  lemma InitialsOf(l: Label)
    ensures |LabelText(l)| >= 3 && (LabelText(l)[0], LabelText(l)[1], LabelText(l)[2]) == Initials(l)
  {
  }

  /**
   * No label starts another, so a line starts with at most one label and the
   * order of the chain never matters: a line is handled by the label it starts with.
   */
  lemma DispatchFindsTheLabel(line: string, l: Label)
    requires StartsWith(line, LabelText(l))
    ensures Dispatch(line) == Some(l)
  {
    InitialsOf(l);
    StartsWithAt(line, LabelText(l), 0);
    StartsWithAt(line, LabelText(l), 1);
    StartsWithAt(line, LabelText(l), 2);
    forall other | StartsWith(line, LabelText(other))
      ensures other == l
    {
      InitialsOf(other);
      StartsWithAt(line, LabelText(other), 0);
      StartsWithAt(line, LabelText(other), 1);
      StartsWithAt(line, LabelText(other), 2);
    }
  }

  /**
   * The value of a labelled line: the label and the whitespace after it
   * (the `\s` of the pattern is the set `trim` removes) are dropped, then the
   * rest is trimmed.
   */
  function ValueAfter(line: string, l: Label): string
    requires StartsWith(line, LabelText(l))
  {
    StartsWithIsPrefix(line, LabelText(l));
    Trim(TrimStart(line[|LabelText(l)|..]))
  }

  // ---------------------------------------------------------------------------
  // The time pattern (\d{2}):(\d{2}):\d{2}
  // ---------------------------------------------------------------------------

  /** `dd:dd:dd` starts at offset `k` of `s` (`\d` is an ASCII digit). */
  predicate TimeAt(s: string, k: int) {
    0 <= k && k + 8 <= |s|
    && IsDigit(s[k]) && IsDigit(s[k + 1]) && s[k + 2] == ':'
    && IsDigit(s[k + 3]) && IsDigit(s[k + 4]) && s[k + 5] == ':'
    && IsDigit(s[k + 6]) && IsDigit(s[k + 7])
  }

  /** The leftmost offset at or after `k` where the pattern matches: where the regex search stops. */
  function FirstTimeFrom(s: string, k: nat): (r: Option<nat>)
    requires k <= |s|
    ensures r.Some? ==> k <= r.value && TimeAt(s, r.value)
    ensures r.Some? ==> forall j :: k <= j < r.value ==> !TimeAt(s, j)
    ensures r.None? ==> forall j :: k <= j ==> !TimeAt(s, j)
    decreases |s| - k
  {
    if k + 8 > |s| then None
    else if TimeAt(s, k) then Some(k)
    else FirstTimeFrom(s, k + 1)
  }

  /** `HH:MM` from the first `dd:dd:dd` in the text, or `None` when there is none. */
  function TimeOf(dateTime: string): (r: Option<string>)
    ensures r.None? <==> forall k :: !TimeAt(dateTime, k)
    ensures r.Some? ==> exists k :: TimeAt(dateTime, k) && (forall j :: 0 <= j < k ==> !TimeAt(dateTime, j))
                                    && r.value == dateTime[k..k + 2] + ":" + dateTime[k + 3..k + 5]
  {
    match FirstTimeFrom(dateTime, 0)
    case None => None
    case Some(k) => Some(dateTime[k..k + 2] + ":" + dateTime[k + 3..k + 5])
  }

  // ---------------------------------------------------------------------------
  // One line at a time
  // ---------------------------------------------------------------------------

  /** The `Тип:` value that means the crew is on foot. */
  const OnFoot := "Особовий склад"

  /** The three `Боєздатність:` values. */
  const FullyReady := "Повністю боєздатний"
  const PartlyReady := "Частково боєздатний"
  const NotReady := "Небоєздатний"

  /**
   * The status bucket for a count and a combat status: the green, yellow and
   * red values, or `None` when the count is empty or the status unknown.
   */
  function Bucket(count: string, status: string): (r: Option<(string, string, string)>)
    ensures r.Some? <==> count != "" && (status == FullyReady || status == PartlyReady || status == NotReady)
    ensures r.Some? ==> r.value.0 == (if status == FullyReady then count else "")
    ensures r.Some? ==> r.value.1 == (if status == PartlyReady then count else "")
    ensures r.Some? ==> r.value.2 == (if status == NotReady then count else "")
  {
    if count != "" && status == FullyReady then Some((count, "", ""))
    else if count != "" && status == PartlyReady then Some(("", count, ""))
    else if count != "" && status == NotReady then Some(("", "", count))
    else None
  }

  /** What the loop carries from line to line: the object and the `participantsCount` variable. */
  datatype ParserState = ParserState(parsed: ParsedForm, count: string)

  const Start := ParserState(NothingParsed, "")

  /**
   * The count variable always mirrors the parsed `participantsCount`, so the
   * fallback `participantsCount || parsed.participantsCount` never changes the outcome.
   */
  ghost predicate Mirrored(st: ParserState) {
    st.count == st.parsed.participantsCount.GetOr("")
  }

  /** What the branch of label `l` does with the value `v` of its line. */
  function Apply(st: ParserState, l: Label, v: string): (r: ParserState)
    ensures Mirrored(st) ==> Mirrored(r)
  {
    var p := st.parsed;
    match l
    case LinkLabel => if v != "" then st.(parsed := p.(link := Some(v))) else st
    case CrewLabel => if v != "" then st.(parsed := p.(mainPerson := Some(v))) else st
    case CountLabel => if v != "" then ParserState(p.(participantsCount := Some(v)), v) else st
    case CommentLabel => if v != "" then st.(parsed := p.(comment := Some(v))) else st
    case CoordinatesLabel => if v != "" then st.(parsed := p.(coordinates := Some(v))) else st
    case DetectedLabel =>
      (match TimeOf(v)
       case Some(t) => st.(parsed := p.(time := Some(t)))
       case None => st)
    case TypeLabel => st.(parsed := p.(transportType := Some(if v == OnFoot then "walk" else "car")))
    case ReadinessLabel =>
      var count := if st.count != "" then st.count else p.participantsCount.GetOr("");
      (match Bucket(count, v)
       case Some((g, y, r)) => st.(parsed := p.(greenCount := Some(g), yellowCount := Some(y), redCount := Some(r)))
       case None => st)
  }

  /** A line the `else if` chain handles: its label and its value. */
  datatype Entry = Entry(kind: Label, value: string)

  /** The branch a line takes and the value it hands to that branch; `None` for a line no branch takes. */
  function Classify(line: string): (r: Option<Entry>)
    ensures r.Some? ==> StartsWith(line, LabelText(r.value.kind)) && r.value.value == ValueAfter(line, r.value.kind)
    ensures r.None? ==> forall l :: !StartsWith(line, LabelText(l))
  {
    match Dispatch(line)
    case None => None
    case Some(l) => Some(Entry(l, ValueAfter(line, l)))
  }

  /** A line that starts with a label is handled by that label's branch. */
  lemma ClassifyLabelled(line: string, l: Label)
    requires StartsWith(line, LabelText(l))
    ensures Classify(line) == Some(Entry(l, ValueAfter(line, l)))
  {
    DispatchFindsTheLabel(line, l);
  }

  /** The lines, each classified. */
  function Entries(lines: seq<string>): (r: seq<Option<Entry>>)
    ensures |r| == |lines|
    ensures forall i :: 0 <= i < |lines| ==> r[i] == Classify(lines[i])
  {
    if lines == [] then [] else Entries(lines[..|lines| - 1]) + [Classify(lines[|lines| - 1])]
  }

  /** One pass of the loop body, on a classified line. */
  function Step(st: ParserState, e: Option<Entry>): (r: ParserState)
    ensures Mirrored(st) ==> Mirrored(r)
  {
    match e
    case None => st
    case Some(Entry(l, v)) => Apply(st, l, v)
  }

  /** The state after the loop has seen the classified lines `es`. */
  function Run(es: seq<Option<Entry>>): (r: ParserState)
    ensures Mirrored(r)
  {
    if es == [] then Start else Step(Run(es[..|es| - 1]), es[|es| - 1])
  }

  /** `parseActivityFromClipboard` as a function of the text. */
  function Parse(text: string): Option<ParsedForm> {
    var st := Run(Entries(Lines(text)));
    if st.parsed != NothingParsed then Some(st.parsed) else None
  }

  /** The parser itself: a loop over the lines that updates the object field by field. */
  method ParseActivityFromClipboard(text: string) returns (r: Option<ParsedForm>)
    ensures r == Parse(text)
  {
    var lines := Lines(text);
    ghost var es := Entries(lines);
    var parsed := NothingParsed;
    var participantsCount := "";
    for i := 0 to |lines|
      invariant ParserState(parsed, participantsCount) == Run(es[..i])
    {
      var line := lines[i];
      assert es[..i + 1][..i] == es[..i];
      ghost var before := ParserState(parsed, participantsCount);
      if StartsWith(line, LabelText(LinkLabel)) {
        ClassifyLabelled(line, LinkLabel);
        var link := ValueAfter(line, LinkLabel);
        if link != "" {
          parsed := parsed.(link := Some(link));
        }
      } else if StartsWith(line, LabelText(CrewLabel)) {
        ClassifyLabelled(line, CrewLabel);
        var mainPerson := ValueAfter(line, CrewLabel);
        if mainPerson != "" {
          parsed := parsed.(mainPerson := Some(mainPerson));
        }
      } else if StartsWith(line, LabelText(CountLabel)) {
        ClassifyLabelled(line, CountLabel);
        var count := ValueAfter(line, CountLabel);
        if count != "" {
          participantsCount := count;
          parsed := parsed.(participantsCount := Some(count));
        }
      } else if StartsWith(line, LabelText(CommentLabel)) {
        ClassifyLabelled(line, CommentLabel);
        var comment := ValueAfter(line, CommentLabel);
        if comment != "" {
          parsed := parsed.(comment := Some(comment));
        }
      } else if StartsWith(line, LabelText(CoordinatesLabel)) {
        ClassifyLabelled(line, CoordinatesLabel);
        var coordinates := ValueAfter(line, CoordinatesLabel);
        if coordinates != "" {
          parsed := parsed.(coordinates := Some(coordinates));
        }
      } else if StartsWith(line, LabelText(DetectedLabel)) {
        ClassifyLabelled(line, DetectedLabel);
        var dateTime := ValueAfter(line, DetectedLabel);
        var timeMatch := TimeOf(dateTime);
        if timeMatch.Some? {
          parsed := parsed.(time := timeMatch);
        }
      } else if StartsWith(line, LabelText(TypeLabel)) {
        ClassifyLabelled(line, TypeLabel);
        var kind := ValueAfter(line, TypeLabel);
        if kind == OnFoot {
          parsed := parsed.(transportType := Some("walk"));
        } else {
          parsed := parsed.(transportType := Some("car"));
        }
      } else if StartsWith(line, LabelText(ReadinessLabel)) {
        ClassifyLabelled(line, ReadinessLabel);
        var combatStatus := ValueAfter(line, ReadinessLabel);
        var count := if participantsCount != "" then participantsCount else parsed.participantsCount.GetOr("");
        if count != "" && combatStatus == FullyReady {
          parsed := parsed.(greenCount := Some(count), yellowCount := Some(""), redCount := Some(""));
        } else if count != "" && combatStatus == PartlyReady {
          parsed := parsed.(greenCount := Some(""), yellowCount := Some(count), redCount := Some(""));
        } else if count != "" && combatStatus == NotReady {
          parsed := parsed.(greenCount := Some(""), yellowCount := Some(""), redCount := Some(count));
        }
      } else {
        assert Classify(line).None?;
      }
      assert ParserState(parsed, participantsCount) == Step(before, es[i]);
    }
    assert es[..|lines|] == es;
    r := if parsed != NothingParsed then Some(parsed) else None;
  }

  // ---------------------------------------------------------------------------
  // What the parser produces, field by field
  // ---------------------------------------------------------------------------

  /** The value of the last line with the label and a non-empty value. */
  function LastValue(es: seq<Option<Entry>>, l: Label): (r: Option<string>)
    ensures r.Some? ==> r.value != "" && Some(Entry(l, r.value)) in es
  {
    if es == [] then None
    else
      var e := es[|es| - 1];
      if e.Some? && e.value.kind == l && e.value.value != "" then Some(e.value.value)
      else LastValue(es[..|es| - 1], l)
  }

  /** `walk` or `car` for the last `Тип:` line. */
  function LastType(es: seq<Option<Entry>>): (r: Option<string>)
    ensures r.Some? ==> r.value == "walk" || r.value == "car"
  {
    if es == [] then None
    else
      var e := es[|es| - 1];
      if e.Some? && e.value.kind == TypeLabel then Some(if e.value.value == OnFoot then "walk" else "car")
      else LastType(es[..|es| - 1])
  }

  /** The time of the last `Дата/час виявлення:` line whose value holds the pattern. */
  function LastTime(es: seq<Option<Entry>>): Option<string> {
    if es == [] then None
    else
      var e := es[|es| - 1];
      if e.Some? && e.value.kind == DetectedLabel && TimeOf(e.value.value).Some? then TimeOf(e.value.value)
      else LastTime(es[..|es| - 1])
  }

  /**
   * The bucket of the last `Боєздатність:` line that has one, each judged with
   * the count of the last `Кількість:` line above it.
   */
  function LastBucket(es: seq<Option<Entry>>): Option<(string, string, string)> {
    if es == [] then None
    else
      var e := es[|es| - 1];
      var before := es[..|es| - 1];
      var b := if e.Some? && e.value.kind == ReadinessLabel
               then Bucket(LastValue(before, CountLabel).GetOr(""), e.value.value)
               else None;
      if b.Some? then b else LastBucket(before)
  }

  /** The labels whose non-empty value is copied into a field as it is. */
  predicate IsTextLabel(l: Label) {
    l == LinkLabel || l == CrewLabel || l == CountLabel || l == CommentLabel || l == CoordinatesLabel
  }

  /** The field a text label fills. */
  function TextField(p: ParsedForm, l: Label): Option<string>
    requires IsTextLabel(l)
  {
    match l
    case LinkLabel => p.link
    case CrewLabel => p.mainPerson
    case CountLabel => p.participantsCount
    case CommentLabel => p.comment
    case CoordinatesLabel => p.coordinates
  }

  /**
   * For the link, crew, count, comment and coordinates labels, the last line
   * with a non-empty value wins; an empty value leaves the field as it was.
   * The count is kept as the raw trimmed text.
   */
  lemma {:induction false} RunTextField(es: seq<Option<Entry>>, l: Label)
    requires IsTextLabel(l)
    ensures TextField(Run(es).parsed, l) == LastValue(es, l)
  {
    if es != [] {
      RunTextField(es[..|es| - 1], l);
    }
  }

  /** `Тип:` gives `walk` exactly for `Особовий склад` and `car` for anything else; the last one wins. */
  lemma {:induction false} RunType(es: seq<Option<Entry>>)
    ensures Run(es).parsed.transportType == LastType(es)
  {
    if es != [] {
      RunType(es[..|es| - 1]);
    }
  }

  /** The time is that of the last detection line holding the pattern; other lines leave it alone. */
  lemma {:induction false} RunTime(es: seq<Option<Entry>>)
    ensures Run(es).parsed.time == LastTime(es)
  {
    if es != [] {
      RunTime(es[..|es| - 1]);
    }
  }

  /**
   * Green, yellow and red are set together, by the last readiness line with a
   * count above it and a known status: one of them to the count, the other two
   * to "". Without such a line none of them is set.
   */
  lemma {:induction false} RunStatus(es: seq<Option<Entry>>)
    ensures LastBucket(es).None? ==>
              Run(es).parsed.greenCount.None? && Run(es).parsed.yellowCount.None? && Run(es).parsed.redCount.None?
    ensures LastBucket(es).Some? ==>
              var b := LastBucket(es).value;
              Run(es).parsed.greenCount == Some(b.0) && Run(es).parsed.yellowCount == Some(b.1)
              && Run(es).parsed.redCount == Some(b.2)
  {
    if es != [] {
      var before := es[..|es| - 1];
      RunStatus(before);
      RunTextField(before, CountLabel);
    }
  }

  /** The parser never sets `establishment`, `department` or `direction`. */
  lemma {:induction false} RunLeavesOtherKeys(es: seq<Option<Entry>>)
    ensures Run(es).parsed.establishment.None?
    ensures Run(es).parsed.department.None?
    ensures Run(es).parsed.direction.None?
  {
    if es != [] {
      RunLeavesOtherKeys(es[..|es| - 1]);
    }
  }

  /**
   * Nothing is set exactly when no line set anything: no label with a value,
   * no `Тип:` line, no detection time and no status bucket.
   */
  lemma NothingSetIff(es: seq<Option<Entry>>)
    ensures Run(es).parsed == NothingParsed <==>
              (forall l :: IsTextLabel(l) ==> LastValue(es, l).None?)
              && LastType(es).None? && LastTime(es).None? && LastBucket(es).None?
  {
    RunTextField(es, LinkLabel);
    RunTextField(es, CrewLabel);
    RunTextField(es, CountLabel);
    RunTextField(es, CommentLabel);
    RunTextField(es, CoordinatesLabel);
    RunType(es);
    RunTime(es);
    RunStatus(es);
    RunLeavesOtherKeys(es);
  }

  /** The parser returns `null` exactly when no line of the text set anything. */
  lemma ParseNullIff(text: string)
    ensures Parse(text).None? <==>
              var es := Entries(Lines(text));
              (forall l :: IsTextLabel(l) ==> LastValue(es, l).None?)
              && LastType(es).None? && LastTime(es).None? && LastBucket(es).None?
  {
    NothingSetIff(Entries(Lines(text)));
  }

  /** A text in which no line starts with a label parses to `null`. */
  lemma NoLabelsNoResult(text: string)
    requires forall i, l :: 0 <= i < |Lines(text)| ==> !StartsWith(Lines(text)[i], LabelText(l))
    ensures Parse(text).None?
  {
    NoLabelsRun(Entries(Lines(text)));
  }

  lemma {:induction false} NoLabelsRun(es: seq<Option<Entry>>)
    requires forall i :: 0 <= i < |es| ==> es[i].None?
    ensures Run(es) == Start
  {
    if es != [] {
      NoLabelsRun(es[..|es| - 1]);
    }
  }
}
