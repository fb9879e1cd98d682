/** The NCS colour picker: the search filter over the colour table, the grouping by category,
    the colour click and the single expanded category. The colour table itself is a parameter. */
module NcsColorPicker {
  import opened Wrappers
  import Seqs
  import Strings

  datatype NcsColor = NcsColor(code: string, name: string, hex: string, category: string)

  /** `NCS_CATEGORIES`, in display order. */
  const Categories: seq<string> := [
    "Whites & Neutrals", "Yellows", "Oranges", "Reds", "Pinks",
    "Purples", "Blues", "Greens", "Browns", "Grays"]

  /** The colour matches the (already lower-cased) query in its code, name or category. */
  predicate Matches(color: NcsColor, query: string) {
    || Strings.Contains(Strings.ToLower(color.code), query)
    || Strings.Contains(Strings.ToLower(color.name), query)
    || Strings.Contains(Strings.ToLower(color.category), query)
  }

  function MatchesQuery(query: string): NcsColor -> bool {
    (color: NcsColor) => Matches(color, query)
  }

  /** `filteredColors`: a blank query shows every colour; otherwise the colours whose lower-cased
      code, name or category contains the lower-cased query, which is not trimmed. */
  function FilteredColors(colors: seq<NcsColor>, searchQuery: string): (r: seq<NcsColor>)
    ensures Strings.IsBlank(searchQuery) ==> r == colors
    ensures !Strings.IsBlank(searchQuery) ==>
      && (forall i :: 0 <= i < |r| ==> Matches(r[i], Strings.ToLower(searchQuery)))
      && (forall i :: 0 <= i < |colors| && Matches(colors[i], Strings.ToLower(searchQuery)) ==> colors[i] in r)
  {
    if Strings.IsBlank(searchQuery) then colors
    else Seqs.Filter(colors, MatchesQuery(Strings.ToLower(searchQuery)))
  }

  /** The search result is the table with the non-matching colours deleted: an order-preserving
      subsequence keeping each matching colour as often as the table lists it. */
  lemma FilteredIsOrderedSelection(colors: seq<NcsColor>, searchQuery: string)
    ensures Seqs.SubsequenceOf(FilteredColors(colors, searchQuery), colors)
    ensures !Strings.IsBlank(searchQuery) ==> forall c ::
      multiset(FilteredColors(colors, searchQuery))[c]
        == if Matches(c, Strings.ToLower(searchQuery)) then multiset(colors)[c] else 0
  {
    var p := MatchesQuery(Strings.ToLower(searchQuery));
    Seqs.FilterIsSubsequence(colors, p);
    Seqs.FilterMultiset(colors, p);
    if Strings.IsBlank(searchQuery) {
      Seqs.FilterAll(colors, _ => true);
      Seqs.FilterIsSubsequence(colors, _ => true);
    }
  }

  /** A colour matches exactly when the lower-cased query occurs in one of its lower-cased fields. */
  lemma MatchesIff(color: NcsColor, query: string)
    ensures Matches(color, query) <==>
      || (exists i :: Strings.OccursAt(Strings.ToLower(color.code), query, i))
      || (exists i :: Strings.OccursAt(Strings.ToLower(color.name), query, i))
      || (exists i :: Strings.OccursAt(Strings.ToLower(color.category), query, i))
  {
    Strings.ContainsIff(Strings.ToLower(color.code), query);
    Strings.ContainsIff(Strings.ToLower(color.name), query);
    Strings.ContainsIff(Strings.ToLower(color.category), query);
  }

  /** Letter case in the query does not matter. */
  lemma QueryCaseInsensitive(colors: seq<NcsColor>, searchQuery: string, other: string)
    requires Strings.ToLower(other) == Strings.ToLower(searchQuery)
    requires Strings.IsBlank(other) == Strings.IsBlank(searchQuery)
    ensures FilteredColors(colors, other) == FilteredColors(colors, searchQuery)
  {
  }

  function InCategory(category: string): NcsColor -> bool {
    (color: NcsColor) => color.category == category
  }

  /** One entry of `colorsByCategory`: the filtered colours of that category, in filtered order. */
  function Group(filtered: seq<NcsColor>, category: string): (g: seq<NcsColor>)
    ensures forall i :: 0 <= i < |g| ==> g[i].category == category && g[i] in filtered
    ensures forall i :: 0 <= i < |filtered| && filtered[i].category == category ==> filtered[i] in g
  {
    Seqs.Filter(filtered, InCategory(category))
  }

  /** `colorsByCategory`: a group for every category, and no other key. */
  function ColorsByCategory(filtered: seq<NcsColor>): (m: map<string, seq<NcsColor>>)
    ensures m.Keys == set i | 0 <= i < |Categories| :: Categories[i]
    ensures forall i :: 0 <= i < |Categories| ==> m[Categories[i]] == Group(filtered, Categories[i])
  {
    map i | 0 <= i < |Categories| :: Categories[i] := Group(filtered, Categories[i])
  }

  /** The groups keep each colour of their category as often as the filtered list holds it, in order. */
  lemma GroupIsOrderedSelection(filtered: seq<NcsColor>, category: string)
    ensures Seqs.SubsequenceOf(Group(filtered, category), filtered)
    ensures forall c ::
      (multiset(Group(filtered, category))[c] == if c.category == category then multiset(filtered)[c] else 0)
  {
    Seqs.FilterIsSubsequence(filtered, InCategory(category));
    Seqs.FilterMultiset(filtered, InCategory(category));
  }

  /** The categories drawn: those with at least one filtered colour, in display order. */
  function RenderedCategories(filtered: seq<NcsColor>): (r: seq<string>)
    ensures forall i :: 0 <= i < |r| ==> r[i] in Categories && |Group(filtered, r[i])| > 0
    ensures forall i :: 0 <= i < |Categories| && |Group(filtered, Categories[i])| > 0 ==> Categories[i] in r
    ensures Seqs.SubsequenceOf(r, Categories)
  {
    var drawn := (category: string) => |Group(filtered, category)| > 0;
    Seqs.FilterIsSubsequence(Categories, drawn);
    Seqs.Filter(Categories, drawn)
  }

  /** A category is drawn exactly when some filtered colour belongs to it. */
  lemma RenderedIff(filtered: seq<NcsColor>, category: string)
    requires category in Categories
    ensures category in RenderedCategories(filtered) <==>
      exists i :: 0 <= i < |filtered| && filtered[i].category == category
  {
    var g := Group(filtered, category);
    var r := RenderedCategories(filtered);
    if exists i :: 0 <= i < |filtered| && filtered[i].category == category {
      var i :| 0 <= i < |filtered| && filtered[i].category == category;
      assert filtered[i] in g;
      var k :| 0 <= k < |Categories| && Categories[k] == category;
      assert category in r;
    }
    if category in r {
      var j :| 0 <= j < |r| && r[j] == category;
      assert |g| > 0;
      assert g[0] in filtered && g[0].category == category;
    }
  }

  /** What a click hands to `onColorSelect`. */
  datatype Selection = Selection(name: string, hex: string)

  /** `handleColorClick`: nothing while disabled, otherwise "NCS <code>" and the colour's hex. */
  function HandleColorClick(disabled: bool, color: NcsColor): (r: Option<Selection>)
    ensures disabled <==> r == None
    ensures r.Some? ==>
      (r.value.hex == color.hex && |r.value.name| == |color.code| + 4
       && r.value.name[..4] == "NCS " && r.value.name[4..] == color.code)
  {
    if disabled then None else Some(Selection("NCS " + color.code, color.hex))
  }

  /** The selection identifies the colour: two enabled clicks select the same thing exactly when
      the colours share their code and their hex. */
  lemma ClickIdentifiesColour(a: NcsColor, b: NcsColor)
    ensures HandleColorClick(false, a) == HandleColorClick(false, b) <==> a.code == b.code && a.hex == b.hex
  {
    if HandleColorClick(false, a) == HandleColorClick(false, b) {
      assert ("NCS " + a.code)[4..] == a.code;
      assert ("NCS " + b.code)[4..] == b.code;
    }
  }

  /** `toggleCategory`: collapse the category if it is the expanded one, else expand it alone. */
  function ToggleCategory(expanded: Option<string>, category: string): (r: Option<string>)
    ensures expanded == Some(category) <==> r == None
    ensures r != None ==> r == Some(category)
  {
    if expanded == Some(category) then None else Some(category)
  }

  /** Clicking the same category twice returns to the start when it was expanded or nothing was;
      when another category was expanded, two clicks leave all collapsed. */
  lemma ToggleCategoryTwice(expanded: Option<string>, category: string)
    ensures expanded == None || expanded == Some(category) ==>
      ToggleCategory(ToggleCategory(expanded, category), category) == expanded
    ensures expanded.Some? && expanded != Some(category) ==>
      ToggleCategory(ToggleCategory(expanded, category), category) == None
  {
  }
}
