/**
 * The locally stored list of crew names: reading it back, adding a name if
 * it is not there yet, and the case-insensitive substring filter that the
 * suggestion lists also use.
 */
module NameAutocomplete {
  import opened Wrappers
  import opened JsText
  import opened Seqs

  /** The storage key the list lives under. */
  const StorageKey := "activity_main_persons"

  /** What storage holds under the key: nothing, text that does not parse, or a list. */
  datatype NameBlob = Missing | Corrupt | Stored(names: seq<string>)

  /** `getNames`: the stored list, or `[]` when nothing is stored or it fails to parse. */
  function ReadNames(b: NameBlob): (r: seq<string>)
    ensures b.Stored? ==> r == b.names
    ensures !b.Stored? ==> r == []
  {
    match b
    case Stored(names) => names
    case _ => []
  }

  /** No name occurs twice. */
  predicate Distinct(names: seq<string>) {
    forall i, j :: 0 <= i < j < |names| ==> names[i] != names[j]
  }

  // ---------------------------------------------------------------------------
  // Adding a name
  // ---------------------------------------------------------------------------

  /** The list after `saveName`: unchanged for a blank or known name, else the trimmed name appended. */
  function Saved(names: seq<string>, name: string): seq<string> {
    if IsBlank(name) || Trim(name) in names then names else names + [Trim(name)]
  }

  /**
   * `saveName` never removes or reorders: the old list is a prefix of the new
   * one, which is at most one longer, and a non-blank name is in it afterwards,
   * trimmed.
   */
  lemma SavedShape(names: seq<string>, name: string)
    ensures names <= Saved(names, name) && |Saved(names, name)| <= |names| + 1
    ensures IsBlank(name) ==> Saved(names, name) == names
    ensures !IsBlank(name) ==> Trim(name) in Saved(names, name)
    ensures forall n :: n in Saved(names, name) ==> n in names || (n == Trim(name) && !IsBlank(name))
  {
  }

  /** A duplicate-free list stays duplicate-free. */
  lemma SavedDistinct(names: seq<string>, name: string)
    requires Distinct(names)
    ensures Distinct(Saved(names, name))
  {
    var r := Saved(names, name);
    if r != names {
      forall i, j | 0 <= i < j < |r| ensures r[i] != r[j] {
        if j == |names| {
          assert r[i] == names[i];
        }
      }
    }
  }

  /** Saving the same name twice is the same as saving it once. */
  lemma SavedIdempotent(names: seq<string>, name: string)
    ensures Saved(Saved(names, name), name) == Saved(names, name)
  {
    if !IsBlank(name) && Trim(name) !in names {
      assert Saved(names, name)[|names|] == Trim(name);
    }
  }

  // ---------------------------------------------------------------------------
  // Filtering
  // ---------------------------------------------------------------------------

  /** `name.toLowerCase().includes(query.toLowerCase())`. */
  predicate Matches(name: string, query: string) {
    Contains(Lower(name), Lower(query))
  }

  /** `names.filter(...)` with `Matches`: the matching names in their order, repeats kept. */
  function Matching(names: seq<string>, query: string): (r: seq<string>)
    ensures |r| <= |names|
    ensures forall n :: n in r <==> n in names && Matches(n, query)
  {
    Filter(names, n => Matches(n, query))
  }

  /**
   * `filterNames` on a given list: all of it for a blank (or empty) query,
   * otherwise the names containing the query, both lower-cased; the query
   * itself is not trimmed.
   */
  function FilterByQuery(names: seq<string>, query: string): (r: seq<string>)
    ensures IsBlank(query) ==> r == names
    ensures !IsBlank(query) ==> r == Matching(names, query)
    ensures !IsBlank(query) ==> forall n :: n in r <==> n in names && Matches(n, query)
  {
    if query == "" || IsBlank(query) then names else Matching(names, query)
  }

  /**
   * The filter keeps order: there is a strictly increasing choice of
   * positions in `names` whose names are exactly the result, and every
   * position holding a matching name is among them.
   */
  lemma MatchingOrder(names: seq<string>, query: string) returns (positions: seq<nat>)
    ensures |positions| == |Matching(names, query)|
    ensures forall k :: 0 <= k < |positions| ==> positions[k] < |names| && Matching(names, query)[k] == names[positions[k]]
    ensures forall j, k :: 0 <= j < k < |positions| ==> positions[j] < positions[k]
    ensures forall i :: 0 <= i < |names| && Matches(names[i], query) ==> i in positions
  {
    positions := FilterPositions(names, n => Matches(n, query));
  }

  /** Lower-casing twice is lower-casing once. */
  lemma LowerIdempotent(s: string)
    ensures Lower(Lower(s)) == Lower(s)
  {
  }

  /** Lower-casing keeps exactly the whitespace where it was, so blank stays blank. */
  lemma LowerBlank(s: string)
    ensures IsBlank(Lower(s)) <==> IsBlank(s)
  {
    BlankIffAllSpace(s);
    BlankIffAllSpace(Lower(s));
    assert forall i :: 0 <= i < |s| ==> (IsSpace(Lower(s)[i]) <==> IsSpace(s[i]));
  }

  /** The filter does not see the case of the query: a lower-cased query selects the same names. */
  lemma FilterIgnoresQueryCase(names: seq<string>, query: string)
    ensures FilterByQuery(names, Lower(query)) == FilterByQuery(names, query)
  {
    LowerBlank(query);
    LowerIdempotent(query);
    if !IsBlank(query) {
      MatchingSameQuery(names, query, Lower(query));
    }
  }

  /** Two queries with the same lower-case form select the same names. */
  lemma MatchingSameQuery(names: seq<string>, q1: string, q2: string)
    requires Lower(q1) == Lower(q2)
    ensures Matching(names, q1) == Matching(names, q2)
  {
    FilterAgreeing(names, n => Matches(n, q1), n => Matches(n, q2));
  }

  // ---------------------------------------------------------------------------
  // The stored list
  // ---------------------------------------------------------------------------

  /** Storage under `StorageKey`. */
  class NameStore {
    var blob: NameBlob

    constructor (initial: NameBlob)
      ensures blob == initial
    {
      blob := initial;
    }

    /** The list as `getNames` reads it. */
    function Names(): seq<string>
      reads this
    {
      ReadNames(blob)
    }

    /** `getNames`. */
    method GetNames() returns (names: seq<string>)
      ensures names == Names()
      ensures blob.Stored? ==> names == blob.names
      ensures !blob.Stored? ==> names == []
    {
      match blob
      case Stored(stored) =>
        names := stored;
      case _ =>
        names := [];
    }

    /**
     * `saveName`: a blank name, or one already in the list after trimming,
     * leaves storage as it is; any other name is trimmed, appended and the
     * whole list written back.
     */
    method SaveName(name: string)
      modifies this
      ensures IsBlank(name) || Trim(name) in old(Names()) ==> blob == old(blob)
      ensures !IsBlank(name) && Trim(name) !in old(Names()) ==> blob == Stored(old(Names()) + [Trim(name)])
      ensures Names() == Saved(old(Names()), name)
    {
      if name == "" || Trim(name) == "" {
        return;
      }
      var names := GetNames();
      var trimmedName := Trim(name);
      if trimmedName !in names {
        names := names + [trimmedName];
        blob := Stored(names);
      }
    }

    /** `filterNames`: the stored list filtered by the query. */
    method FilterNames(query: string) returns (r: seq<string>)
      ensures r == FilterByQuery(Names(), query)
    {
      var names := GetNames();
      if query == "" || Trim(query) == "" {
        return names;
      }
      r := Matching(names, query);
    }
  }
}
