/** The project-details form of the quote request: its state record, the partial `update`, the
    surface toggle, the wallpaper radio and the sanitised ceiling height. An unanswered choice
    (the empty string literal in the form) is `None`. */
module ProjectDetails {
  import opened Wrappers
  import Seqs
  import Strings

  datatype Answer = Yes /* "yes" */ | No /* "no" */
  datatype WallpaperAction = PaintOver /* "paint_over" */ | RemoveWallpaper /* "remove" */
  datatype WallAge = New /* "new" */ | Old /* "old" */
  datatype Party = Customer /* "customer" */ | Painter /* "painter" */
  datatype TimeOfDay = Daytime /* "daytime" */ | Evening /* "evening" */
  /** A calendar pick, as the moment it denotes. */
  datatype Date = Date(epochMillis: int)

  datatype Details = Details(
    ceilingHeight: string,
    surfaces: seq<string>,
    hasWallpaper: Option<Answer>,
    wallpaperAction: Option<WallpaperAction>,
    wallCondition: Option<WallAge>,
    desiredColorCode: string,
    paintSupply: Option<Party>,
    furnitureHandling: Option<Party>,
    preferredTime: Option<TimeOfDay>,
    preferredDate: Option<Date>)

  /** `defaultProjectDetails`: nothing typed, nothing chosen, no surfaces, no date. */
  function DefaultDetails(): (d: Details)
    ensures d.ceilingHeight == "" && d.desiredColorCode == "" && d.surfaces == []
    ensures d.hasWallpaper == None && d.wallpaperAction == None && d.wallCondition == None
    ensures d.paintSupply == None && d.furnitureHandling == None && d.preferredTime == None
    ensures d.preferredDate == None
  {
    Details("", [], None, None, None, "", None, None, None, None)
  }

  /** A `Partial<ProjectDetails>`: the fields it supplies are `Some`. A supplied `preferredDate`
      may itself be `None`, which clears the date as `{ preferredDate: undefined }` does. */
  datatype Patch = Patch(
    ceilingHeight: Option<string>,
    surfaces: Option<seq<string>>,
    hasWallpaper: Option<Option<Answer>>,
    wallpaperAction: Option<Option<WallpaperAction>>,
    wallCondition: Option<Option<WallAge>>,
    desiredColorCode: Option<string>,
    paintSupply: Option<Option<Party>>,
    furnitureHandling: Option<Option<Party>>,
    preferredTime: Option<Option<TimeOfDay>>,
    preferredDate: Option<Option<Date>>)

  /** The patch that supplies no field. */
  const NoChange := Patch(None, None, None, None, None, None, None, None, None, None)

  /** `update`: `{ ...data, ...partial }`, the supplied fields overwrite and the rest stay. */
  function Update(d: Details, p: Patch): (r: Details)
    ensures p.ceilingHeight.Some? ==> r.ceilingHeight == p.ceilingHeight.value
    ensures p.ceilingHeight.None? ==> r.ceilingHeight == d.ceilingHeight
    ensures p.surfaces.Some? ==> r.surfaces == p.surfaces.value
    ensures p.surfaces.None? ==> r.surfaces == d.surfaces
    ensures p.hasWallpaper.Some? ==> r.hasWallpaper == p.hasWallpaper.value
    ensures p.hasWallpaper.None? ==> r.hasWallpaper == d.hasWallpaper
    ensures p.wallpaperAction.Some? ==> r.wallpaperAction == p.wallpaperAction.value
    ensures p.wallpaperAction.None? ==> r.wallpaperAction == d.wallpaperAction
    ensures p.wallCondition.Some? ==> r.wallCondition == p.wallCondition.value
    ensures p.wallCondition.None? ==> r.wallCondition == d.wallCondition
    ensures p.desiredColorCode.Some? ==> r.desiredColorCode == p.desiredColorCode.value
    ensures p.desiredColorCode.None? ==> r.desiredColorCode == d.desiredColorCode
    ensures p.paintSupply.Some? ==> r.paintSupply == p.paintSupply.value
    ensures p.paintSupply.None? ==> r.paintSupply == d.paintSupply
    ensures p.furnitureHandling.Some? ==> r.furnitureHandling == p.furnitureHandling.value
    ensures p.furnitureHandling.None? ==> r.furnitureHandling == d.furnitureHandling
    ensures p.preferredTime.Some? ==> r.preferredTime == p.preferredTime.value
    ensures p.preferredTime.None? ==> r.preferredTime == d.preferredTime
    ensures p.preferredDate.Some? ==> r.preferredDate == p.preferredDate.value
    ensures p.preferredDate.None? ==> r.preferredDate == d.preferredDate
  {
    Details(
      p.ceilingHeight.GetOr(d.ceilingHeight),
      p.surfaces.GetOr(d.surfaces),
      p.hasWallpaper.GetOr(d.hasWallpaper),
      p.wallpaperAction.GetOr(d.wallpaperAction),
      p.wallCondition.GetOr(d.wallCondition),
      p.desiredColorCode.GetOr(d.desiredColorCode),
      p.paintSupply.GetOr(d.paintSupply),
      p.furnitureHandling.GetOr(d.furnitureHandling),
      p.preferredTime.GetOr(d.preferredTime),
      p.preferredDate.GetOr(d.preferredDate))
  }

  /** The empty patch changes nothing, and applying the same patch twice is applying it once. */
  lemma UpdateLaws(d: Details, p: Patch)
    ensures Update(d, NoChange) == d
    ensures Update(Update(d, p), p) == Update(d, p)
  {
  }

  /** One patch doing the work of `p` followed by `q`: each field comes from `q` when `q` supplies it. */
  function Merge(p: Patch, q: Patch): Patch {
    Patch(
      if q.ceilingHeight.Some? then q.ceilingHeight else p.ceilingHeight,
      if q.surfaces.Some? then q.surfaces else p.surfaces,
      if q.hasWallpaper.Some? then q.hasWallpaper else p.hasWallpaper,
      if q.wallpaperAction.Some? then q.wallpaperAction else p.wallpaperAction,
      if q.wallCondition.Some? then q.wallCondition else p.wallCondition,
      if q.desiredColorCode.Some? then q.desiredColorCode else p.desiredColorCode,
      if q.paintSupply.Some? then q.paintSupply else p.paintSupply,
      if q.furnitureHandling.Some? then q.furnitureHandling else p.furnitureHandling,
      if q.preferredTime.Some? then q.preferredTime else p.preferredTime,
      if q.preferredDate.Some? then q.preferredDate else p.preferredDate)
  }

  /** Two successive updates are one update by the merged patch: a later patch wins over an earlier
      one on the fields both supply, and the earlier patch's other fields survive. */
  lemma LaterPatchWins(d: Details, p: Patch, q: Patch)
    ensures Update(Update(d, p), q) == Update(d, Merge(p, q))
    ensures q.desiredColorCode.Some? ==> Update(Update(d, p), q).desiredColorCode == q.desiredColorCode.value
    ensures q.surfaces.None? ==> Update(Update(d, p), q).surfaces == Update(d, p).surfaces
  {
  }

  /** The surface list after a click: a listed surface is removed wherever it occurs and the others
      keep their order and number, an unlisted one is appended. */
  function ToggleList(surfaces: seq<string>, surface: string): (r: seq<string>)
    ensures surface in surfaces ==> surface !in r
    ensures surface in surfaces ==> forall i :: 0 <= i < |surfaces| && surfaces[i] != surface ==> surfaces[i] in r
    ensures surface in surfaces ==> forall x :: x in r ==> x in surfaces
    ensures surface in surfaces ==> Seqs.SubsequenceOf(r, surfaces)
    ensures surface in surfaces ==>
      forall x :: multiset(r)[x] == if x == surface then 0 else multiset(surfaces)[x]
    ensures surface !in surfaces ==> r == surfaces + [surface]
  {
    if surface in surfaces then
      var keep := (s: string) => s != surface;
      Seqs.FilterIsSubsequence(surfaces, keep);
      Seqs.FilterMultiset(surfaces, keep);
      Seqs.Filter(surfaces, keep)
    else surfaces + [surface]
  }

  /** `toggleSurface`: update the surface list and nothing else. */
  function ToggleSurface(d: Details, surface: string): (r: Details)
    ensures r == d.(surfaces := ToggleList(d.surfaces, surface))
    ensures (surface in r.surfaces) != (surface in d.surfaces)
  {
    Update(d, NoChange.(surfaces := Some(ToggleList(d.surfaces, surface))))
  }

  /** Toggling an unlisted surface twice restores the original list. */
  lemma ToggleTwiceRestores(surfaces: seq<string>, surface: string)
    requires surface !in surfaces
    ensures ToggleList(ToggleList(surfaces, surface), surface) == surfaces
  {
    var p := (s: string) => s != surface;
    Seqs.FilterAppend(surfaces, [surface], p);
    Seqs.FilterAll(surfaces, p);
  }

  /** Starting from a listed surface, two clicks move it to the end instead of restoring the list. */
  lemma ToggleTwiceMovesListedToEnd()
    ensures ToggleList(ToggleList(["walls", "ceiling"], "walls"), "walls") == ["ceiling", "walls"]
  {
    var p := (s: string) => s != "walls";
    assert ToggleList(["walls", "ceiling"], "walls") == Seqs.Filter(["walls", "ceiling"], p);
    assert ["walls", "ceiling"][1..] == ["ceiling"];
    assert Seqs.Filter(["walls", "ceiling"], p) == ["ceiling"];
  }

  /** The ceiling-height input keeps only digits and points of what was typed. */
  function SetCeilingHeight(d: Details, typed: string): (r: Details)
    ensures r == d.(ceilingHeight := Strings.Sanitize(typed))
    ensures Strings.IsNumeric(r.ceilingHeight)
  {
    Update(d, NoChange.(ceilingHeight := Some(Strings.Sanitize(typed))))
  }

  /** The wallpaper radio: answering "no" clears the wallpaper action, "yes" keeps it. */
  function ChooseWallpaper(d: Details, answer: Answer): (r: Details)
    ensures r.hasWallpaper == Some(answer)
    ensures answer == No ==> r.wallpaperAction == None
    ensures answer == Yes ==> r.wallpaperAction == d.wallpaperAction
    ensures r.(hasWallpaper := d.hasWallpaper, wallpaperAction := d.wallpaperAction) == d
  {
    Update(d, NoChange.(
      hasWallpaper := Some(Some(answer)),
      wallpaperAction := Some(if answer == No then None else d.wallpaperAction)))
  }
}
