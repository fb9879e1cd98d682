/** The measured sections of a room, shared by the single-room and the multi-room editors:
    a section is a length and a width as typed, and a room's area is the sum of their products. */
module Sections {
  import Seqs
  import Strings
  import Numbers

  /** A section as the form holds it; the source field `label` is `caption` here (`label` is a Dafny keyword). */
  datatype Section = Section(id: string, caption: string, length: string, width: string)

  /** The two editable fields of a section. */
  datatype Dimension = Length | Width

  /** `(parseFloat(length) || 0) * (parseFloat(width) || 0)`. A typed minus sign could make it
      negative, but the editors keep only digits and points, and those never read as negative. */
  function Area(s: Section): (a: real)
    ensures Sanitised(s) ==> a >= 0.0
    ensures s.length == "" || s.width == "" ==> a == 0.0
  {
    var l, w := Numbers.ParseDecimal(s.length), Numbers.ParseDecimal(s.width);
    assert s.length == "" || s.width == "" ==> l * w == 0.0 by {
      if s.length == "" || s.width == "" {
        Numbers.ProductWithZero(l, w);
      }
    }
    assert Sanitised(s) ==> l * w >= 0.0 by {
      if Sanitised(s) {
        Numbers.ProductNonNegative(l, w);
      }
    }
    l * w
  }

  /** The `reduce` that sums the section areas. Real addition is exact, so summing from the
      front gives the same number as the source's left-to-right reduction. */
  function Total(sections: seq<Section>): (t: real)
    ensures AllSanitised(sections) ==> t >= 0.0
  {
    assert AllSanitised(sections) ==> Seqs.Sum(sections, Area) >= 0.0 by {
      if AllSanitised(sections) {
        Seqs.SumNonNegative(sections, Area);
      }
    }
    Seqs.Sum(sections, Area)
  }

  /** The total of a concatenation is the sum of the totals. */
  lemma TotalAppend(a: seq<Section>, b: seq<Section>)
    ensures Total(a + b) == Total(a) + Total(b)
  {
    Seqs.SumAppend(a, b, Area);
  }

  /** Replacing one section changes the total by exactly the difference of the two areas. */
  lemma TotalReplace(sections: seq<Section>, i: nat, s: Section)
    requires i < |sections|
    ensures Total(sections[i := s]) == Total(sections) - Area(sections[i]) + Area(s)
  {
    Seqs.SumReplace(sections, i, s, Area);
  }

  lemma TotalOne(s: Section)
    ensures Total([s]) == Area(s)
  {
    Seqs.SumSingleton(s, Area);
  }

  /** With sanitised dimensions, each section's area is at most the total. */
  lemma TotalAtLeastEach(sections: seq<Section>, i: nat)
    requires i < |sections| && AllSanitised(sections)
    ensures Area(sections[i]) <= Total(sections)
  {
    Seqs.SumAtLeastEach(sections, Area, i);
  }

  /** A fresh section with both dimensions empty. */
  function Blank(id: string, caption: string): (s: Section)
    ensures Area(s) == 0.0
  {
    Section(id, caption, "", "")
  }

  /** A section whose dimensions hold only digits and points, as every edit leaves them. */
  predicate Sanitised(s: Section) {
    Strings.IsNumeric(s.length) && Strings.IsNumeric(s.width)
  }

  predicate AllSanitised(sections: seq<Section>) {
    forall i :: 0 <= i < |sections| ==> Sanitised(sections[i])
  }

  /** No two sections share an id, as freshly generated ids guarantee. */
  predicate DistinctIds(sections: seq<Section>) {
    forall i, j :: 0 <= i < j < |sections| ==> sections[i].id != sections[j].id
  }

  /** Appending a section with empty dimensions under a fresh id keeps the sections sanitised with
      distinct ids, and adds no area. */
  lemma AppendBlank(sections: seq<Section>, blank: Section)
    requires AllSanitised(sections) && DistinctIds(sections)
    requires blank.length == "" && blank.width == ""
    requires forall j :: 0 <= j < |sections| ==> sections[j].id != blank.id
    ensures AllSanitised(sections + [blank]) && DistinctIds(sections + [blank])
    ensures Total(sections + [blank]) == Total(sections)
  {
    var grown := sections + [blank];
    assert Sanitised(blank) by {
      assert Strings.IsNumeric("");
    }
    forall j | 0 <= j < |grown|
      ensures Sanitised(grown[j])
    {
      if j < |sections| {
        assert grown[j] == sections[j];
      }
    }
    forall i, j | 0 <= i < j < |grown|
      ensures grown[i].id != grown[j].id
    {
      assert grown[i] == sections[i];
      if j < |sections| {
        assert grown[j] == sections[j];
      }
    }
    TotalAppend(sections, [blank]);
    TotalOne(blank);
  }

  /** Overwrite one dimension of a section with the typed value, sanitised to digits and points. */
  function SetDimension(s: Section, field: Dimension, typed: string): Section {
    match field
    case Length => s.(length := Strings.Sanitize(typed))
    case Width => s.(width := Strings.Sanitize(typed))
  }

  /** `sections.map(s => s.id === id ? { ...s, [field]: sanitized } : s)`. */
  function Edit(sections: seq<Section>, id: string, field: Dimension, typed: string): (r: seq<Section>)
    ensures |r| == |sections|
    ensures forall i :: 0 <= i < |r| && sections[i].id != id ==> r[i] == sections[i]
    ensures forall i :: 0 <= i < |r| && sections[i].id == id ==>
      && r[i].id == id && r[i].caption == sections[i].caption
      && (field == Length ==> r[i].length == Strings.Sanitize(typed) && r[i].width == sections[i].width)
      && (field == Width ==> r[i].width == Strings.Sanitize(typed) && r[i].length == sections[i].length)
    ensures AllSanitised(sections) ==> AllSanitised(r)
  {
    seq(|sections|, i requires 0 <= i < |sections| =>
      if sections[i].id == id then SetDimension(sections[i], field, typed) else sections[i])
  }

  /** An edit never changes an id, so distinct ids stay distinct. */
  lemma EditKeepsIds(sections: seq<Section>, id: string, field: Dimension, typed: string)
    ensures forall i :: 0 <= i < |sections| ==> Edit(sections, id, field, typed)[i].id == sections[i].id
    ensures DistinctIds(sections) ==> DistinctIds(Edit(sections, id, field, typed))
  {
    var r := Edit(sections, id, field, typed);
    assert forall i :: 0 <= i < |sections| ==> r[i].id == sections[i].id;
  }

  /** With distinct ids, an edit of the section at index `i` is a single replacement, so the
      total moves by exactly the change of that one section's area. */
  lemma EditTotal(sections: seq<Section>, i: nat, field: Dimension, typed: string)
    requires i < |sections| && DistinctIds(sections)
    ensures var edited := SetDimension(sections[i], field, typed);
      && Edit(sections, sections[i].id, field, typed) == sections[i := edited]
      && Total(Edit(sections, sections[i].id, field, typed))
         == Total(sections) - Area(sections[i]) + Area(edited)
  {
    var edited := SetDimension(sections[i], field, typed);
    assert Edit(sections, sections[i].id, field, typed) == sections[i := edited];
    TotalReplace(sections, i, edited);
  }

  function WithId(id: string): Section -> bool {
    (s: Section) => s.id == id
  }

  function WithoutId(id: string): Section -> bool {
    (s: Section) => s.id != id
  }

  /** `sections.filter(s => s.id !== id)`. */
  function Remove(sections: seq<Section>, id: string): (r: seq<Section>)
    ensures forall i :: 0 <= i < |r| ==> r[i].id != id && r[i] in sections
    ensures forall i :: 0 <= i < |sections| && sections[i].id != id ==> sections[i] in r
    ensures AllSanitised(sections) ==> AllSanitised(r)
  {
    Seqs.Filter(sections, WithoutId(id))
  }

  /** With distinct ids, removing an existing section drops exactly it, keeping the rest in order. */
  lemma RemoveExisting(sections: seq<Section>, i: nat)
    requires i < |sections| && DistinctIds(sections)
    ensures Remove(sections, sections[i].id) == sections[..i] + sections[i + 1..]
    ensures |Remove(sections, sections[i].id)| == |sections| - 1
  {
    var id := sections[i].id;
    forall j | 0 <= j < |sections| && j != i
      ensures WithoutId(id)(sections[j])
    {
      if j < i {
        assert sections[j].id != sections[i].id;
      } else {
        assert sections[i].id != sections[j].id;
      }
    }
    Seqs.FilterDropsOne(sections, WithoutId(id), i);
  }

  /** Removing sections takes off exactly the area of the removed ones. */
  lemma RemoveTotal(sections: seq<Section>, id: string)
    ensures Total(Remove(sections, id)) == Total(sections) - Total(Seqs.Filter(sections, WithId(id)))
  {
    var p := WithoutId(id);
    Seqs.SumPartition(sections, p, Area);
    FilterSameBehaviour(sections, Seqs.Not(p), WithId(id));
  }

  lemma {:induction false} FilterSameBehaviour(sections: seq<Section>, p: Section -> bool, q: Section -> bool)
    requires forall s :: p(s) == q(s)
    ensures Seqs.Filter(sections, p) == Seqs.Filter(sections, q)
  {
    if sections != [] {
      FilterSameBehaviour(sections[1..], p, q);
    }
  }

  /** Removing keeps the remaining ids distinct. */
  lemma {:induction false} RemoveKeepsDistinct(sections: seq<Section>, id: string)
    requires DistinctIds(sections)
    ensures DistinctIds(Remove(sections, id))
  {
    if sections != [] {
      RemoveKeepsDistinct(sections[1..], id);
      var rest := Remove(sections[1..], id);
      assert forall j :: 0 <= j < |rest| ==> rest[j] in sections[1..];
      assert forall j :: 0 <= j < |rest| ==> rest[j].id != sections[0].id;
    }
  }

  /** With distinct ids, removing from two or more sections leaves at least one. */
  lemma RemoveLeavesOne(sections: seq<Section>, id: string)
    requires |sections| > 1 && DistinctIds(sections)
    ensures |Remove(sections, id)| >= 1
    ensures DistinctIds(Remove(sections, id))
  {
    var k := if sections[0].id != id then 0 else 1;
    assert sections[k] in Remove(sections, id);
    RemoveKeepsDistinct(sections, id);
  }
}
