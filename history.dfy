/**
 * The calculation history panel (src/components/History.tsx): a list of
 * saved calculations, newest first and at most 60 long, with the note
 * field, the set of entries whose details are shown, and the search and
 * period filters.
 *
 * The browser supplies what the panel cannot compute itself: identifiers
 * and dates are parameters of `Add`, the two confirmation dialogs of
 * `ClearAll` are its two answers, and the locale month labels, lower-casing
 * and the age of a date are the functions of an `Environment`.
 */
module History {
  import opened JsRuntime
  import opened Types
  import Calc

  /** The most entries the panel keeps. */
  const MaxItems: nat := 60

  /** The most characters of a note that are stored. */
  const MaxNoteLength: nat := 120

  /** The figures of a calculation kept with an entry. */
  datatype Snapshot = Snapshot(
    depositA: real,
    depositB: real,
    cashNeeded: real,
    usedTR: real,
    partnerAName: string,
    partnerBName: string)

  /** One saved calculation. */
  datatype Item = Item(id: string, dateISO: string, note: string, inputs: Inputs, result: Snapshot)

  // ----- Sequences filtered in order -----

  /** `r` can be obtained from `s` by deleting elements. */
  predicate IsSubsequence<T(==,!new)>(r: seq<T>, s: seq<T>)
    decreases |s|
  {
    if r == [] then true
    else if s == [] then false
    else IsSubsequence(r, s[1..]) || (r[0] == s[0] && IsSubsequence(r[1..], s[1..]))
  }

  /**
   * `Array.prototype.filter`: the elements of `s` satisfying `p`, in their
   * order, each as many times as it occurs in `s`.
   */
  function Filter<T(==,!new)>(s: seq<T>, p: T -> bool): (r: seq<T>)
    ensures |r| <= |s|
    ensures forall k :: 0 <= k < |r| ==> p(r[k])
    ensures IsSubsequence(r, s)
    ensures forall x :: multiset(r)[x] == if p(x) then multiset(s)[x] else 0
  {
    if s == [] then []
    else
      var rest := Filter(s[1..], p);
      assert s == [s[0]] + s[1..];
      if p(s[0]) then
        assert ([s[0]] + rest)[1..] == rest;
        [s[0]] + rest
      else rest
  }

  /** A filter that keeps everything returns the sequence unchanged. */
  lemma {:induction false} FilterKeepingAll<T(!new)>(s: seq<T>, p: T -> bool)
    requires forall k :: 0 <= k < |s| ==> p(s[k])
    ensures Filter(s, p) == s
  {
    if s != [] {
      FilterKeepingAll(s[1..], p);
      assert s == [s[0]] + s[1..];
    }
  }

  /** A stricter condition keeps a subsequence of what a weaker one keeps. */
  lemma {:induction false} FilterStricterIsSubsequence<T(!new)>(s: seq<T>, p: T -> bool, q: T -> bool)
    requires forall x :: p(x) ==> q(x)
    ensures IsSubsequence(Filter(s, p), Filter(s, q))
  {
    if s != [] {
      FilterStricterIsSubsequence(s[1..], p, q);
      var rp, rq := Filter(s[1..], p), Filter(s[1..], q);
      if p(s[0]) {
        assert ([s[0]] + rp)[1..] == rp && ([s[0]] + rq)[1..] == rq;
      } else if q(s[0]) {
        SubsequenceOfTail(rp, s[0], rq);
      }
    }
  }

  lemma {:induction false} SubsequenceOfTail<T(!new)>(r: seq<T>, x: T, s: seq<T>)
    requires IsSubsequence(r, s)
    ensures IsSubsequence(r, [x] + s)
  {
    if r != [] {
      assert ([x] + s)[1..] == s;
    }
  }

  // ----- Pure parts of the panel -----

  /** `buildResultSnapshot`: the deposits, the cash need, the credited vouchers and the display names. */
  function BuildResultSnapshot(result: Calc.Result, inputs: Inputs): (s: Snapshot)
    ensures s.depositA == result.depositD && s.depositB == result.depositM
    ensures s.cashNeeded == result.cashNeeded && s.usedTR == result.V
    ensures s.partnerAName != [] && Trim(s.partnerAName) == s.partnerAName
    ensures s.partnerBName != [] && Trim(s.partnerBName) == s.partnerBName
    ensures s.partnerAName == DisplayName(inputs.partnerAName, PlaceholderA)
    ensures s.partnerBName == DisplayName(inputs.partnerBName, PlaceholderB)
  {
    DisplayNamesAreTrimmed(inputs);
    Snapshot(result.depositD, result.depositM, result.cashNeeded, result.V,
             DisplayName(inputs.partnerAName, PlaceholderA),
             DisplayName(inputs.partnerBName, PlaceholderB))
  }

  /** Both display names of a record are non-blank and already trimmed. */
  lemma DisplayNamesAreTrimmed(inputs: Inputs)
    ensures var a := DisplayName(inputs.partnerAName, PlaceholderA); a != [] && Trim(a) == a
    ensures var b := DisplayName(inputs.partnerBName, PlaceholderB); b != [] && Trim(b) == b
  {
    DisplayNameWithPlaceholder(inputs.partnerAName, PlaceholderA);
    DisplayNameWithPlaceholder(inputs.partnerBName, PlaceholderB);
  }

  /**
   * The snapshot of a calculation keeps its invariant: two non-negative
   * deposits adding up to the cash need (0 when that is negative), and the
   * names the calculation's warnings use.
   */
  lemma SnapshotOfCalculation(inputs: Inputs)
    ensures var s := BuildResultSnapshot(Calc.Calculate(inputs), inputs);
            && s.depositA >= 0.0 && s.depositB >= 0.0
            && s.depositA + s.depositB == Calc.Max(0.0, s.cashNeeded)
            && s.partnerAName == Calc.Work(inputs).figures.partnerAName
            && s.partnerBName == Calc.Work(inputs).figures.partnerBName
  {
  }

  /** `note.trim().slice(0, 120)`. */
  function StoredNote(note: string): (r: string)
    ensures |r| <= MaxNoteLength
    ensures |r| <= |Trim(note)| && r == Trim(note)[..|r|]
    ensures |Trim(note)| <= MaxNoteLength ==> r == Trim(note)
    ensures |Trim(note)| > MaxNoteLength ==> |r| == MaxNoteLength
  {
    var trimmed := Trim(note);
    if |trimmed| <= MaxNoteLength then trimmed else trimmed[..MaxNoteLength]
  }

  /** `[item, ...prev].slice(0, 60)`: the new entry first, the oldest dropped beyond 60. */
  function Prepend(item: Item, prev: seq<Item>): (r: seq<Item>)
    ensures 0 < |r| <= MaxItems
    ensures r[0] == item
    ensures |r| - 1 <= |prev| && r[1..] == prev[..|r| - 1]
    ensures |prev| < MaxItems ==> r[1..] == prev
    ensures |prev| >= MaxItems ==> |r| == MaxItems
  {
    var next := [item] + prev;
    assert next[1..] == prev;
    if |next| <= MaxItems then next else next[..MaxItems]
  }

  /** `prev.filter((i) => i.id !== id)`. */
  function WithoutId(items: seq<Item>, id: string): (r: seq<Item>)
    ensures forall k :: 0 <= k < |r| ==> r[k].id != id
    ensures IsSubsequence(r, items)
    ensures forall x :: multiset(r)[x] == if x.id != id then multiset(items)[x] else 0
  {
    Filter(items, (item: Item) => item.id != id)
  }

  /** Deleting an id that no entry has changes nothing. */
  lemma WithoutAbsentId(items: seq<Item>, id: string)
    requires forall k :: 0 <= k < |items| ==> items[k].id != id
    ensures WithoutId(items, id) == items
  {
    FilterKeepingAll(items, (item: Item) => item.id != id);
  }

  /** Flips the membership of `id`, as `toggleDetails` does on its copy of the set. */
  function Toggle(expanded: set<string>, id: string): (r: set<string>)
    ensures id in r <==> id !in expanded
    ensures forall other :: other != id ==> (other in r <==> other in expanded)
  {
    if id in expanded then expanded - {id} else expanded + {id}
  }

  /** Toggling the same entry twice restores the set. */
  lemma ToggleTwice(expanded: set<string>, id: string)
    ensures Toggle(Toggle(expanded, id), id) == expanded
  {
  }

  // ----- The search and period filters -----

  datatype Period = All | ThreeMonths | SixMonths | TwelveMonths

  /** The age limit of a period, in months of 30.4375 days. */
  function PeriodLimit(period: Period): real
  {
    match period
    case All => 0.0
    case ThreeMonths => 3.0
    case SixMonths => 6.0
    case TwelveMonths => 12.0
  }

  /**
   * What the browser supplies to the filters: the locale month label of a
   * date, `toLowerCase`, and the age in months of a date as of now (NaN
   * for a date the browser cannot read).
   */
  datatype Environment = Environment(
    monthLabel: string -> string,
    lower: string -> string,
    monthsSince: string -> JsNumber)

  /** `x <= limit` on a JavaScript number: false for NaN, true for minus infinity. */
  predicate AtMost(x: JsNumber, limit: real)
  {
    match x
    case Finite(v) => v <= limit
    case NaN => false
    case Infinity(negative) => negative
  }

  predicate MatchesPeriod(dateISO: string, period: Period, env: Environment)
  {
    period == All || AtMost(env.monthsSince(dateISO), PeriodLimit(period))
  }

  /** `needle` occurs in `haystack` starting at index `k`. */
  predicate OccursAt(haystack: string, needle: string, k: int)
  {
    0 <= k <= |haystack| - |needle| && haystack[k..k + |needle|] == needle
  }

  /** `haystack.includes(needle)`. */
  predicate Contains(haystack: string, needle: string)
  {
    exists k :: 0 <= k <= |haystack| - |needle| && OccursAt(haystack, needle, k)
  }

  /** The note as the list shows it, with a stand-in when it is empty. */
  function NoteLabel(note: string): string
  {
    if note == [] then "(sans note)" else note
  }

  /** The `filteredItems` predicate, for an already trimmed and lower-cased search term. */
  predicate Matches(item: Item, term: string, period: Period, env: Environment)
  {
    && MatchesPeriod(item.dateISO, period, env)
    && (term == []
        || Contains(env.lower(NoteLabel(item.note)), term)
        || Contains(env.lower(env.monthLabel(item.dateISO)), term))
  }

  /** `filteredItems`: the entries matching the period and the search term, in list order. */
  function FilteredItems(items: seq<Item>, searchTerm: string, period: Period, env: Environment): (r: seq<Item>)
    ensures IsSubsequence(r, items)
    ensures forall k :: 0 <= k < |r| ==> Matches(r[k], env.lower(Trim(searchTerm)), period, env)
    ensures forall x :: multiset(r)[x] ==
              if Matches(x, env.lower(Trim(searchTerm)), period, env) then multiset(items)[x] else 0
  {
    var term := env.lower(Trim(searchTerm));
    Filter(items, (item: Item) => Matches(item, term, period, env))
  }

  /** With the whole period and a blank search term, every entry is listed. */
  lemma EverythingListedByDefault(items: seq<Item>, searchTerm: string, env: Environment)
    requires Trim(searchTerm) == [] && env.lower([]) == []
    ensures FilteredItems(items, searchTerm, All, env) == items
  {
    var term := env.lower(Trim(searchTerm));
    FilterKeepingAll(items, (item: Item) => Matches(item, term, All, env));
  }

  /** A shorter period lists a subsequence of what a longer one lists. */
  lemma ShorterPeriodListsFewer(items: seq<Item>, searchTerm: string, env: Environment)
    ensures IsSubsequence(FilteredItems(items, searchTerm, ThreeMonths, env),
                          FilteredItems(items, searchTerm, SixMonths, env))
    ensures IsSubsequence(FilteredItems(items, searchTerm, SixMonths, env),
                          FilteredItems(items, searchTerm, TwelveMonths, env))
    ensures IsSubsequence(FilteredItems(items, searchTerm, TwelveMonths, env),
                          FilteredItems(items, searchTerm, All, env))
  {
    var term := env.lower(Trim(searchTerm));
    FilterStricterIsSubsequence(items, (item: Item) => Matches(item, term, ThreeMonths, env),
                                (item: Item) => Matches(item, term, SixMonths, env));
    FilterStricterIsSubsequence(items, (item: Item) => Matches(item, term, SixMonths, env),
                                (item: Item) => Matches(item, term, TwelveMonths, env));
    FilterStricterIsSubsequence(items, (item: Item) => Matches(item, term, TwelveMonths, env),
                                (item: Item) => Matches(item, term, All, env));
  }

  // ----- The panel's state -----

  /** The state of the history panel and its updates. */
  class HistoryPanel {
    var items: seq<Item>
    var note: string
    var expanded: set<string>
    var searchTerm: string
    var period: Period

    /** The panel opens on the stored list, with an empty note, nothing expanded and no filter. */
    constructor (stored: seq<Item>)
      ensures items == stored && note == "" && expanded == {} && searchTerm == "" && period == All
    {
      items := stored;
      note := "";
      expanded := {};
      searchTerm := "";
      period := All;
    }

    /** The entries currently listed. */
    function Listed(env: Environment): seq<Item>
      reads this
    {
      FilteredItems(items, searchTerm, period, env)
    }

    method EditNote(text: string)
      modifies this
      ensures note == text
      ensures items == old(items) && expanded == old(expanded)
      ensures searchTerm == old(searchTerm) && period == old(period)
    {
      note := text;
    }

    method EditSearchTerm(text: string)
      modifies this
      ensures searchTerm == text
      ensures items == old(items) && note == old(note) && expanded == old(expanded) && period == old(period)
    {
      searchTerm := text;
    }

    method SelectPeriod(p: Period)
      modifies this
      ensures period == p
      ensures items == old(items) && note == old(note) && expanded == old(expanded)
      ensures searchTerm == old(searchTerm)
    {
      period := p;
    }

    /**
     * `add`: saves the current calculation first in the list, with the
     * stored form of the note, and empties the note field.
     */
    method Add(id: string, dateISO: string, inputs: Inputs, result: Calc.Result)
      modifies this
      ensures items == Prepend(Item(id, dateISO, StoredNote(old(note)), inputs,
                                    BuildResultSnapshot(result, inputs)), old(items))
      ensures note == ""
      ensures expanded == old(expanded) && searchTerm == old(searchTerm) && period == old(period)
    {
      var trimmedNote := StoredNote(note);
      var snapshot := BuildResultSnapshot(result, inputs);
      items := Prepend(Item(id, dateISO, trimmedNote, inputs, snapshot), items);
      note := "";
    }

    /** `del`: removes every entry with this id, and the id from the expanded set. */
    method Delete(id: string)
      modifies this
      ensures items == WithoutId(old(items), id)
      ensures expanded == old(expanded) - {id}
      ensures note == old(note) && searchTerm == old(searchTerm) && period == old(period)
    {
      items := WithoutId(items, id);
      expanded := expanded - {id};
    }

    /** `clearAll`: empties the list and the expanded set once both confirmations are accepted. */
    method ClearAll(first: bool, second: bool)
      modifies this
      ensures first && second ==> items == [] && expanded == {}
      ensures !(first && second) ==> items == old(items) && expanded == old(expanded)
      ensures note == old(note) && searchTerm == old(searchTerm) && period == old(period)
    {
      if !first {
        return;
      }
      if !second {
        return;
      }
      items := [];
      expanded := {};
    }

    /** `toggleDetails`: shows or hides the details of one entry. */
    method ToggleDetails(id: string)
      modifies this
      ensures expanded == Toggle(old(expanded), id)
      ensures items == old(items) && note == old(note)
      ensures searchTerm == old(searchTerm) && period == old(period)
    {
      expanded := Toggle(expanded, id);
    }
  }

  /**
   * Saving a calculation and deleting it again restores the list, as long
   * as the list was short enough to lose nothing and no entry already had
   * the new id.
   */
  method AddThenDelete(panel: HistoryPanel, id: string, dateISO: string, inputs: Inputs)
    requires |panel.items| < MaxItems
    requires forall k :: 0 <= k < |panel.items| ==> panel.items[k].id != id
    modifies panel
    ensures panel.items == old(panel.items)
    ensures panel.expanded == old(panel.expanded) - {id}
  {
    ghost var before := panel.items;
    panel.Add(id, dateISO, inputs, Calc.Calculate(inputs));
    assert panel.items == [panel.items[0]] + before;
    panel.Delete(id);
    WithoutAbsentId(before, id);
  }
}
