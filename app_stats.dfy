/**
 * The statistics the main screen shows under the table: the people who
 * moved by car and on foot, the direction counts, and the per-establishment
 * summary of the records on foot, ordered by number of events.
 */
module AppStats {
  import opened Wrappers
  import opened Types
  import opened Seqs

  // ---------------------------------------------------------------------------
  // Reference definitions: filters and sums
  // ---------------------------------------------------------------------------

  /** `activity.participantsCount || 0`: a missing count (or NaN) counts as nobody. */
  function Headcount(a: Activity): int {
    a.participantsCount.GetOr(0)
  }

  /** The total head count of the records. */
  function Total(s: seq<Activity>): int {
    if s == [] then 0 else Total(s[..|s| - 1]) + Headcount(s[|s| - 1])
  }

  /** The records whose transport is `t`. */
  function OfTransport(s: seq<Activity>, t: Transport): (r: seq<Activity>)
    ensures forall a :: a in r <==> a in s && a.transportType == Some(t)
  {
    if s == [] then []
    else
      var rest := OfTransport(s[..|s| - 1], t);
      assert s == s[..|s| - 1] + [s[|s| - 1]];
      if s[|s| - 1].transportType == Some(t) then rest + [s[|s| - 1]] else rest
  }

  /** The records with no transport type. */
  function Untyped(s: seq<Activity>): (r: seq<Activity>)
    ensures forall a :: a in r <==> a in s && a.transportType.None?
  {
    if s == [] then []
    else
      var rest := Untyped(s[..|s| - 1]);
      assert s == s[..|s| - 1] + [s[|s| - 1]];
      if s[|s| - 1].transportType.None? then rest + [s[|s| - 1]] else rest
  }

  /** The records whose direction is `d`. */
  function OfDirection(s: seq<Activity>, d: Direction): seq<Activity> {
    if s == [] then []
    else
      var rest := OfDirection(s[..|s| - 1], d);
      if s[|s| - 1].marks.direction == Some(d) then rest + [s[|s| - 1]] else rest
  }

  /** The records with no direction. */
  function Undirected(s: seq<Activity>): seq<Activity> {
    if s == [] then []
    else
      var rest := Undirected(s[..|s| - 1]);
      if s[|s| - 1].marks.direction.None? then rest + [s[|s| - 1]] else rest
  }

  // ---------------------------------------------------------------------------
  // People by transport
  // ---------------------------------------------------------------------------

  /**
   * `totalPeopleByCar` (for `Car`) and `totalPeopleByWalk` (for `Walk`): a
   * fold that adds the head count of every record with that transport.
   */
  method TotalPeopleBy(activities: seq<Activity>, t: Transport) returns (sum: int)
    ensures sum == Total(OfTransport(activities, t))
  {
    sum := 0;
    for i := 0 to |activities|
      invariant sum == Total(OfTransport(activities[..i], t))
    {
      var activity := activities[i];
      assert activities[..i + 1][..i] == activities[..i];
      if activity.transportType == Some(t) {
        var chosen := OfTransport(activities[..i], t);
        assert (chosen + [activity])[..|chosen|] == chosen;
        sum := sum + Headcount(activity);
      }
    }
    assert activities[..|activities|] == activities;
  }

  lemma {:induction false} TotalAppend(s: seq<Activity>, t: seq<Activity>)
    ensures Total(s + t) == Total(s) + Total(t)
    decreases |t|
  {
    if t != [] {
      var init := t[..|t| - 1];
      assert (s + t)[..|s + t| - 1] == s + init;
      assert (s + t)[|s + t| - 1] == t[|t| - 1];
      TotalAppend(s, init);
    } else {
      assert s + t == s;
    }
  }

  /**
   * Every head is counted once: by car, on foot, or (for a record without a
   * transport type) by neither sum.
   */
  lemma {:induction false} PeopleSplit(s: seq<Activity>)
    ensures Total(OfTransport(s, Car)) + Total(OfTransport(s, Walk)) + Total(Untyped(s)) == Total(s)
  {
    if s != [] {
      var init := s[..|s| - 1];
      var a := s[|s| - 1];
      PeopleSplit(init);
      assert Total(s) == Total(init) + Headcount(a);
      var car, walk, none := OfTransport(init, Car), OfTransport(init, Walk), Untyped(init);
      match a.transportType
      case Some(Car) =>
        assert (car + [a])[..|car|] == car;
      case Some(Walk) =>
        assert (walk + [a])[..|walk|] == walk;
      case None =>
        assert (none + [a])[..|none|] == none;
    }
  }

  // ---------------------------------------------------------------------------
  // Directions
  // ---------------------------------------------------------------------------

  /** The accumulator `{ plus, minus, equals }`. */
  datatype DirectionCounts = DirectionCounts(plus: int, minus: int, equals: int)

  /** The counts the direction fold reaches on a list of records. */
  function DirectionsOf(s: seq<Activity>): DirectionCounts {
    DirectionCounts(|OfDirection(s, Plus)|, |OfDirection(s, Minus)|, |OfDirection(s, Equals)|)
  }

  /** One record's contribution: the counter of its direction goes up by one. */
  function Count(c: DirectionCounts, d: Option<Direction>): DirectionCounts {
    match d
    case Some(Plus) => c.(plus := c.plus + 1)
    case Some(Minus) => c.(minus := c.minus + 1)
    case Some(Equals) => c.(equals := c.equals + 1)
    case None => c
  }

  lemma DirectionsOfSnoc(s: seq<Activity>, a: Activity)
    ensures DirectionsOf(s + [a]) == Count(DirectionsOf(s), a.marks.direction)
  {
    assert (s + [a])[..|s|] == s;
  }

  /** `directionStats`: the number of records with each direction. */
  method DirectionStats(activities: seq<Activity>) returns (acc: DirectionCounts)
    ensures acc == DirectionsOf(activities)
  {
    acc := DirectionCounts(0, 0, 0);
    for i := 0 to |activities|
      invariant acc == DirectionsOf(activities[..i])
    {
      var activity := activities[i];
      assert activities[..i + 1] == activities[..i] + [activity];
      DirectionsOfSnoc(activities[..i], activity);
      if activity.marks.direction == Some(Plus) {
        acc := acc.(plus := acc.plus + 1);
      } else if activity.marks.direction == Some(Minus) {
        acc := acc.(minus := acc.minus + 1);
      } else if activity.marks.direction == Some(Equals) {
        acc := acc.(equals := acc.equals + 1);
      }
    }
    assert activities[..|activities|] == activities;
  }

  /** Each record is counted under its own direction, and a record without one is counted nowhere. */
  lemma {:induction false} DirectionsCover(s: seq<Activity>)
    ensures DirectionsOf(s).plus + DirectionsOf(s).minus + DirectionsOf(s).equals + |Undirected(s)| == |s|
  {
    if s != [] {
      var init := s[..|s| - 1];
      DirectionsCover(init);
      assert s == init + [s[|s| - 1]];
      DirectionsOfSnoc(init, s[|s| - 1]);
    }
  }

  // ---------------------------------------------------------------------------
  // Establishments
  // ---------------------------------------------------------------------------

  /** The establishment that makes a record count: `activity.establishment` when it is truthy. */
  predicate AtEstablishment(a: Activity) {
    a.transportType == Some(Walk) && a.establishment.Some? && a.establishment.value != ""
  }

  /** `.filter(a => a.transportType === 'walk' && a.establishment)`. */
  function OnFootAt(s: seq<Activity>): (r: seq<Activity>)
    ensures forall a :: a in r <==> a in s && AtEstablishment(a)
  {
    if s == [] then []
    else
      var rest := OnFootAt(s[..|s| - 1]);
      assert s == s[..|s| - 1] + [s[|s| - 1]];
      if AtEstablishment(s[|s| - 1]) then rest + [s[|s| - 1]] else rest
  }

  /** `activity.establishment || ""`: the key a record is counted under. */
  function Key(a: Activity): string {
    a.establishment.GetOr("")
  }

  /** The keys in the order the fold first meets them. */
  function Keys(s: seq<Activity>): seq<string> {
    if s == [] then []
    else
      var rest := Keys(s[..|s| - 1]);
      var e := Key(s[|s| - 1]);
      if e in rest then rest else rest + [e]
  }

  /** The records counted under `e`. */
  function Group(s: seq<Activity>, e: string): seq<Activity> {
    if s == [] then []
    else
      var rest := Group(s[..|s| - 1], e);
      if Key(s[|s| - 1]) == e then rest + [s[|s| - 1]] else rest
  }

  /** The keys are the keys of the records, each listed once. */
  lemma {:induction false} KeysMembers(s: seq<Activity>)
    ensures forall e :: e in Keys(s) <==> exists a :: a in s && Key(a) == e
    ensures forall i, j :: 0 <= i < j < |Keys(s)| ==> Keys(s)[i] != Keys(s)[j]
  {
    if s != [] {
      var a := s[|s| - 1];
      KeysMembers(s[..|s| - 1]);
      assert forall b :: b in s <==> b in s[..|s| - 1] || b == a by {
        SplitLast(s);
      }
    }
  }

  /** A group holds exactly the records with its key. */
  lemma {:induction false} GroupMembers(s: seq<Activity>, e: string)
    ensures forall a :: a in Group(s, e) <==> a in s && Key(a) == e
  {
    if s != [] {
      GroupMembers(s[..|s| - 1], e);
      SplitLast(s);
    }
  }

  lemma KeysSnoc(s: seq<Activity>, a: Activity)
    ensures Keys(s + [a]) == if Key(a) in Keys(s) then Keys(s) else Keys(s) + [Key(a)]
  {
    assert (s + [a])[..|s|] == s;
  }

  lemma GroupSnoc(s: seq<Activity>, a: Activity, e: string)
    ensures Group(s + [a], e) == if Key(a) == e then Group(s, e) + [a] else Group(s, e)
  {
    assert (s + [a])[..|s|] == s;
  }

  /** What the fold keeps per establishment. */
  datatype Tally = Tally(events: int, people: int, directions: DirectionCounts)

  /** The tally of a group: its size, its head count and its direction counts. */
  function TallyOf(group: seq<Activity>): Tally {
    Tally(|group|, Total(group), DirectionsOf(group))
  }

  /** A row of `establishmentStatsArray`. */
  datatype EstablishmentStat = EstablishmentStat(establishment: string, events: int, people: int, directions: DirectionCounts)

  function StatOf(e: string, t: Tally): EstablishmentStat {
    EstablishmentStat(e, t.events, t.people, t.directions)
  }

  /** The per-establishment rows before sorting: one per key, in first-appearance order. */
  function Summary(activities: seq<Activity>): seq<EstablishmentStat> {
    var walkers := OnFootAt(activities);
    var keys := Keys(walkers);
    seq(|keys|, k requires 0 <= k < |keys| => StatOf(keys[k], TallyOf(Group(walkers, keys[k]))))
  }

  /** The tally after one more record of the group. */
  lemma TallySnoc(g: seq<Activity>, a: Activity)
    ensures TallyOf(g + [a]) == Tally(|g| + 1, Total(g) + Headcount(a), Count(DirectionsOf(g), a.marks.direction))
  {
    assert (g + [a])[..|g|] == g;
    DirectionsOfSnoc(g, a);
  }

  /** The tally a new establishment starts from. */
  const NoTally := Tally(0, 0, DirectionCounts(0, 0, 0))

  /** The tally after one more record. */
  function Add(t: Tally, a: Activity): Tally {
    Tally(t.events + 1, t.people + Headcount(a), Count(t.directions, a.marks.direction))
  }

  /** The dictionary the fold builds, record by record: a new key starts from the zero tally. */
  function Tallies(s: seq<Activity>): map<string, Tally> {
    if s == [] then map[]
    else
      var acc := Tallies(s[..|s| - 1]);
      var a := s[|s| - 1];
      acc[Key(a) := Add(if Key(a) in acc then acc[Key(a)] else NoTally, a)]
  }

  /** No record carries a key that is not listed, so its group is empty. */
  lemma {:induction false} GroupOfAbsent(s: seq<Activity>, e: string)
    requires e !in Keys(s)
    ensures Group(s, e) == []
  {
    if s != [] {
      GroupOfAbsent(s[..|s| - 1], e);
    }
  }

  /** The dictionary has an entry for each key and for nothing else. */
  lemma {:induction false} TalliesDomain(s: seq<Activity>)
    ensures forall e :: e in Tallies(s) <==> e in Keys(s)
  {
    if s != [] {
      TalliesDomain(s[..|s| - 1]);
    }
  }

  /** The entry of a key is the tally of that key's group. */
  lemma {:induction false} TalliesValues(s: seq<Activity>, e: string)
    requires e in Tallies(s)
    ensures Tallies(s)[e] == TallyOf(Group(s, e))
  {
    var seen := s[..|s| - 1];
    var a := s[|s| - 1];
    SplitLast(s);
    GroupSnoc(seen, a, e);
    if Key(a) == e {
      if e in Tallies(seen) {
        TalliesValues(seen, e);
      } else {
        TalliesDomain(seen);
        GroupOfAbsent(seen, e);
      }
      TallySnoc(Group(seen, e), a);
    } else {
      TalliesValues(seen, e);
    }
  }

  /**
   * The fold of `establishmentStats`: a dictionary from establishment to
   * tally, with its keys in insertion order.
   */
  method EstablishmentStats(activities: seq<Activity>) returns (acc: map<string, Tally>, order: seq<string>)
    ensures order == Keys(OnFootAt(activities))
    ensures forall e :: e in acc <==> e in order
    ensures forall e :: e in acc ==> acc[e] == TallyOf(Group(OnFootAt(activities), e))
  {
    var walkers := OnFootAt(activities);
    acc := map[];
    order := [];
    for i := 0 to |walkers|
      invariant acc == Tallies(walkers[..i])
      invariant order == Keys(walkers[..i])
    {
      var activity := walkers[i];
      var establishment := Key(activity);
      assert walkers[..i + 1][..i] == walkers[..i];
      TalliesDomain(walkers[..i]);
      ghost var before := acc;
      ghost var entry := if establishment in acc then acc[establishment] else NoTally;
      if establishment !in acc {
        acc := acc[establishment := NoTally];
        order := order + [establishment];
      }
      var t := acc[establishment];
      t := t.(events := t.events + 1);
      t := t.(people := t.people + Headcount(activity));
      if activity.marks.direction == Some(Plus) {
        t := t.(directions := t.directions.(plus := t.directions.plus + 1));
      } else if activity.marks.direction == Some(Minus) {
        t := t.(directions := t.directions.(minus := t.directions.minus + 1));
      } else if activity.marks.direction == Some(Equals) {
        t := t.(directions := t.directions.(equals := t.directions.equals + 1));
      }
      assert t == Add(entry, activity);
      acc := acc[establishment := t];
      assert acc == before[establishment := Add(entry, activity)];
    }
    assert walkers[..|walkers|] == walkers;
    TalliesDomain(walkers);
    forall e | e in acc
      ensures acc[e] == TallyOf(Group(walkers, e))
    {
      TalliesValues(walkers, e);
    }
  }

  /** `Object.entries(establishmentStats).map(...)`: one row per key, in key order. */
  function EntryRows(acc: map<string, Tally>, order: seq<string>): (r: seq<EstablishmentStat>)
    requires forall e :: e in order ==> e in acc
    ensures |r| == |order|
    ensures forall k :: 0 <= k < |order| ==> r[k] == StatOf(order[k], acc[order[k]])
  {
    seq(|order|, k requires 0 <= k < |order| => StatOf(order[k], acc[order[k]]))
  }

  /** Every establishment of the summary is a truthy establishment of a record on foot, and each appears once. */
  lemma SummaryRows(activities: seq<Activity>)
    ensures forall i, j :: 0 <= i < j < |Summary(activities)| ==>
              Summary(activities)[i].establishment != Summary(activities)[j].establishment
    ensures forall i :: 0 <= i < |Summary(activities)| ==>
              Summary(activities)[i].establishment != "" && Summary(activities)[i].events >= 1
  {
    var walkers := OnFootAt(activities);
    var keys := Keys(walkers);
    KeysMembers(walkers);
    forall i | 0 <= i < |keys|
      ensures keys[i] != "" && |Group(walkers, keys[i])| >= 1
    {
      assert keys[i] in keys;
      GroupMembers(walkers, keys[i]);
      var a :| a in walkers && Key(a) == keys[i];
      assert a in Group(walkers, keys[i]);
    }
  }

  // ---------------------------------------------------------------------------
  // Ordering by events
  // ---------------------------------------------------------------------------

  /** Rows with more events come first. */
  predicate ByEventsDescending(s: seq<EstablishmentStat>) {
    forall i, j :: 0 <= i < j < |s| ==> s[i].events >= s[j].events
  }

  /** A descending list stays descending when a row with no more events than any of it is put last. */
  lemma SnocDescending(s: seq<EstablishmentStat>, x: EstablishmentStat)
    requires ByEventsDescending(s)
    requires forall i :: 0 <= i < |s| ==> s[i].events >= x.events
    ensures ByEventsDescending(s + [x])
  {
  }

  /** Inserts `x` behind every row with at least as many events. */
  function InsertByEvents(s: seq<EstablishmentStat>, x: EstablishmentStat): (r: seq<EstablishmentStat>)
    requires ByEventsDescending(s)
    ensures ByEventsDescending(r)
    ensures multiset(r) == multiset(s) + multiset{x}
  {
    if s == [] then [x]
    else
      var init := s[..|s| - 1];
      var last := s[|s| - 1];
      SplitLast(s);
      if last.events >= x.events then
        SnocDescending(s, x);
        s + [x]
      else
        var r := InsertByEvents(init, x);
        assert forall i :: 0 <= i < |r| ==> r[i].events >= last.events by {
          forall i | 0 <= i < |r|
            ensures r[i].events >= last.events
          {
            assert r[i] in multiset(r);
            if r[i] != x {
              assert r[i] in multiset(init);
              var k :| 0 <= k < |init| && init[k] == r[i];
              assert s[k] == init[k];
            }
          }
        }
        SnocDescending(r, last);
        r + [last]
  }

  /** `.sort((a, b) => b.events - a.events)`: the rows ordered by events, descending. */
  function SortByEvents(s: seq<EstablishmentStat>): (r: seq<EstablishmentStat>)
    ensures ByEventsDescending(r)
    ensures multiset(r) == multiset(s)
  {
    if s == [] then []
    else
      assert s == s[..|s| - 1] + [s[|s| - 1]];
      InsertByEvents(SortByEvents(s[..|s| - 1]), s[|s| - 1])
  }

  /** `establishmentStatsArray`: the fold, its entries, then the sort. */
  method EstablishmentStatsArray(activities: seq<Activity>) returns (r: seq<EstablishmentStat>)
    ensures r == SortByEvents(Summary(activities))
  {
    var acc, order := EstablishmentStats(activities);
    var rows := EntryRows(acc, order);
    assert rows == Summary(activities);
    r := SortByEvents(rows);
  }
}
