/** The single-room measurement editor: its sections, their total area and an optional floor photo.
    Each handler is a pure function from the current data to the data passed to `onChange`. */
module RoomMeasurement {
  import opened Wrappers
  import Strings
  import opened Sections

  datatype RoomData = RoomData(sections: seq<Section>, totalSquareMeters: real, floorPhoto: Option<string>)

  /** The data the editor keeps consistent: the total is the sections' total, every dimension is
      sanitised, at least one section exists, and section ids are distinct. */
  predicate Consistent(d: RoomData) {
    && d.totalSquareMeters == Total(d.sections)
    && AllSanitised(d.sections)
    && |d.sections| >= 1
    && DistinctIds(d.sections)
  }

  /** `calculateTotal`: the sum of length × width, an empty or unreadable field counting as 0. */
  function CalculateTotal(sections: seq<Section>): (t: real)
    ensures AllSanitised(sections) ==> t >= 0.0
    ensures AllSanitised(sections) ==> forall i :: 0 <= i < |sections| ==> Area(sections[i]) <= t
  {
    forall i | 0 <= i < |sections| && AllSanitised(sections) ensures Area(sections[i]) <= Total(sections) {
      TotalAtLeastEach(sections, i);
    }
    Total(sections)
  }

  /** `updateSections`: replace the sections and recompute the total, keeping the photo. */
  function UpdateSections(d: RoomData, newSections: seq<Section>): (r: RoomData)
    ensures r.sections == newSections
    ensures r.totalSquareMeters == CalculateTotal(newSections)
    ensures r.floorPhoto == d.floorPhoto
  {
    d.(sections := newSections, totalSquareMeters := CalculateTotal(newSections))
  }

  /** `handleAddSection`: append one blank section labelled "Section n+1" under a fresh id. */
  function AddSection(d: RoomData, freshId: string): (r: RoomData)
    ensures |r.sections| == |d.sections| + 1
    ensures r.sections[..|d.sections|] == d.sections
    ensures r.sections[|d.sections|] == Section(freshId, "Section " + Strings.NatToString(|d.sections| + 1), "", "")
    ensures r.totalSquareMeters == Total(r.sections)
    ensures r.floorPhoto == d.floorPhoto
  {
    UpdateSections(d, d.sections + [Blank(freshId, "Section " + Strings.NatToString(|d.sections| + 1))])
  }

  /** `handleRemoveSection`: nothing happens while only one section is left. */
  function RemoveSection(d: RoomData, id: string): (r: RoomData)
    ensures |d.sections| <= 1 ==> r == d
    ensures |d.sections| > 1 ==>
      r.sections == Remove(d.sections, id) && r.totalSquareMeters == Total(r.sections)
    ensures r.floorPhoto == d.floorPhoto
  {
    if |d.sections| <= 1 then d else UpdateSections(d, Remove(d.sections, id))
  }

  /** `handleSectionChange`: sanitise the typed value into one field of the sections with that id. */
  function SectionChange(d: RoomData, id: string, field: Dimension, typed: string): (r: RoomData)
    ensures r.sections == Edit(d.sections, id, field, typed)
    ensures r.totalSquareMeters == Total(r.sections)
    ensures r.floorPhoto == d.floorPhoto
  {
    UpdateSections(d, Edit(d.sections, id, field, typed))
  }

  /** `processFile`: only a file whose type starts with "image/" becomes the floor photo;
      `dataUrl` stands for what the file reader produces. */
  function ProcessFile(d: RoomData, fileType: string, dataUrl: string): (r: RoomData)
    ensures !Strings.StartsWith(fileType, "image/") ==> r == d
    ensures Strings.StartsWith(fileType, "image/") ==> r.floorPhoto == Some(dataUrl)
    ensures r.sections == d.sections && r.totalSquareMeters == d.totalSquareMeters
  {
    if !Strings.StartsWith(fileType, "image/") then d else d.(floorPhoto := Some(dataUrl))
  }

  /** `handleRemovePhoto`: clear the photo and nothing else. */
  function RemovePhoto(d: RoomData): (r: RoomData)
    ensures r.floorPhoto == None
    ensures r.sections == d.sections && r.totalSquareMeters == d.totalSquareMeters
  {
    d.(floorPhoto := None)
  }

  // ---- Every handler keeps the data consistent ----

  lemma AddSectionConsistent(d: RoomData, freshId: string)
    requires Consistent(d)
    requires forall i :: 0 <= i < |d.sections| ==> d.sections[i].id != freshId
    ensures Consistent(AddSection(d, freshId))
    ensures AddSection(d, freshId).totalSquareMeters == d.totalSquareMeters
  {
    var r := AddSection(d, freshId);
    var blank := r.sections[|d.sections|];
    assert r.sections == d.sections + [blank];
    AppendBlank(d.sections, blank);
  }

  /** Removing never leaves the room without a section. */
  lemma RemoveSectionConsistent(d: RoomData, id: string)
    requires Consistent(d)
    ensures Consistent(RemoveSection(d, id))
  {
    if |d.sections| > 1 {
      RemoveLeavesOne(d.sections, id);
    }
  }

  lemma SectionChangeConsistent(d: RoomData, id: string, field: Dimension, typed: string)
    requires Consistent(d)
    ensures Consistent(SectionChange(d, id, field, typed))
  {
  }

  lemma PhotoChangesConsistent(d: RoomData, fileType: string, dataUrl: string)
    requires Consistent(d)
    ensures Consistent(ProcessFile(d, fileType, dataUrl))
    ensures Consistent(RemovePhoto(d))
  {
  }
}
