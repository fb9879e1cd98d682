/** The multi-room measurement editor: rooms, each with sections, a total and an optional photo,
    and a grand total over the rooms. Each handler is a pure function from the current data to the
    data passed to `onChange`; fresh ids and the translated words for "room"/"section" are parameters. */
module MultiRoomMeasurement {
  import opened Wrappers
  import Seqs
  import Strings
  import opened Sections

  /** A room as the form holds it (`caption` is the source's `label`). */
  datatype Room = Room(id: string, caption: string, photo: Option<string>, sections: seq<Section>, totalSquareMeters: real)

  datatype MultiRoomData = MultiRoomData(rooms: seq<Room>, grandTotalSquareMeters: real)

  /** `calculateSectionTotal`: the same sum of length × width as the single-room editor. */
  function CalculateSectionTotal(sections: seq<Section>): (t: real)
    ensures AllSanitised(sections) ==> t >= 0.0
    ensures AllSanitised(sections) ==> forall i :: 0 <= i < |sections| && Area(sections[i]) > 0.0 ==> t > 0.0
  {
    forall i | 0 <= i < |sections| && AllSanitised(sections) && Area(sections[i]) > 0.0
      ensures Total(sections) > 0.0
    {
      TotalAtLeastEach(sections, i);
    }
    Total(sections)
  }

  function RoomTotal(room: Room): real {
    room.totalSquareMeters
  }

  /** `calculateGrandTotal`: the sum of the rooms' stored totals. */
  function GrandTotal(rooms: seq<Room>): real {
    Seqs.Sum(rooms, RoomTotal)
  }

  lemma GrandTotalAppend(a: seq<Room>, b: seq<Room>)
    ensures GrandTotal(a + b) == GrandTotal(a) + GrandTotal(b)
  {
    Seqs.SumAppend(a, b, RoomTotal);
  }

  /** Replacing one room changes the grand total by exactly the change of that room's total. */
  lemma GrandTotalReplace(rooms: seq<Room>, i: nat, room: Room)
    requires i < |rooms|
    ensures GrandTotal(rooms[i := room])
         == GrandTotal(rooms) - rooms[i].totalSquareMeters + room.totalSquareMeters
  {
    Seqs.SumReplace(rooms, i, room, RoomTotal);
  }

  /** With every room consistent, the grand total is non-negative. */
  lemma GrandTotalNonNegative(rooms: seq<Room>)
    requires forall i :: 0 <= i < |rooms| ==> RoomConsistent(rooms[i])
    ensures GrandTotal(rooms) >= 0.0
  {
    Seqs.SumNonNegative(rooms, RoomTotal);
  }

  /** `updateRooms`: replace the rooms and recompute the grand total. */
  function UpdateRooms(newRooms: seq<Room>): (r: MultiRoomData)
    ensures r.rooms == newRooms
    ensures r.grandTotalSquareMeters == GrandTotal(newRooms)
  {
    MultiRoomData(newRooms, GrandTotal(newRooms))
  }

  /** Apply `f` to the rooms with id `roomId` and keep every other room as it is. */
  function MapRoom(rooms: seq<Room>, roomId: string, f: Room -> Room): (r: seq<Room>)
    ensures |r| == |rooms|
    ensures forall i :: 0 <= i < |rooms| && rooms[i].id != roomId ==> r[i] == rooms[i]
    ensures forall i :: 0 <= i < |rooms| && rooms[i].id == roomId ==> r[i] == f(rooms[i])
  {
    seq(|rooms|, i requires 0 <= i < |rooms| => if rooms[i].id == roomId then f(rooms[i]) else rooms[i])
  }

  /** Room totals match their sections, dimensions are sanitised, every room keeps at least one
      section, section ids are distinct within a room, and the grand total is the sum. */
  predicate RoomConsistent(room: Room) {
    && room.totalSquareMeters == Total(room.sections)
    && AllSanitised(room.sections)
    && |room.sections| >= 1
    && DistinctIds(room.sections)
  }

  /** No two rooms share an id, as freshly generated ids guarantee. */
  predicate DistinctRoomIds(rooms: seq<Room>) {
    forall i, j :: 0 <= i < j < |rooms| ==> rooms[i].id != rooms[j].id
  }

  /** The data the editor keeps consistent: every room is consistent, room ids are distinct, at
      least one room exists, and the grand total is the sum of the room totals. */
  predicate Consistent(d: MultiRoomData) {
    && d.grandTotalSquareMeters == GrandTotal(d.rooms)
    && (forall i :: 0 <= i < |d.rooms| ==> RoomConsistent(d.rooms[i]))
    && DistinctRoomIds(d.rooms)
    && |d.rooms| >= 1
  }

  /** `handleAddRoom`: append a room "<room> n+1" with no photo, one blank section "<section> 1"
      and total 0. */
  function AddRoom(d: MultiRoomData, roomId: string, sectionId: string, roomWord: string, sectionWord: string)
    : (r: MultiRoomData)
    ensures |r.rooms| == |d.rooms| + 1 && r.rooms[..|d.rooms|] == d.rooms
    ensures var room := r.rooms[|d.rooms|];
      && room.id == roomId && room.photo == None && room.totalSquareMeters == 0.0
      && room.caption == roomWord + " " + Strings.NatToString(|d.rooms| + 1)
      && room.sections == [Section(sectionId, sectionWord + " 1", "", "")]
    ensures r.grandTotalSquareMeters == GrandTotal(d.rooms)
  {
    var room := Room(roomId, roomWord + " " + Strings.NatToString(|d.rooms| + 1), None,
                     [Blank(sectionId, sectionWord + " 1")], 0.0);
    GrandTotalAppend(d.rooms, [room]);
    Seqs.SumSingleton(room, RoomTotal);
    UpdateRooms(d.rooms + [room])
  }

  function WithoutRoom(roomId: string): Room -> bool {
    (room: Room) => room.id != roomId
  }

  /** `handleRemoveRoom`: nothing happens while only one room is left; otherwise the rooms with that
      id go, every other room stays, in its order, and the grand total is recomputed. */
  function RemoveRoom(d: MultiRoomData, roomId: string): (r: MultiRoomData)
    ensures |d.rooms| <= 1 ==> r == d
    ensures |d.rooms| > 1 ==>
      && (forall i :: 0 <= i < |r.rooms| ==> r.rooms[i].id != roomId && r.rooms[i] in d.rooms)
      && (forall i :: 0 <= i < |d.rooms| && d.rooms[i].id != roomId ==> d.rooms[i] in r.rooms)
      && Seqs.SubsequenceOf(r.rooms, d.rooms)
      && r.grandTotalSquareMeters == GrandTotal(r.rooms)
  {
    if |d.rooms| <= 1 then d
    else
      Seqs.FilterIsSubsequence(d.rooms, WithoutRoom(roomId));
      UpdateRooms(Seqs.Filter(d.rooms, WithoutRoom(roomId)))
  }

  /** With distinct ids, removing an existing room drops exactly that room and keeps the rest in order. */
  lemma RemoveRoomExisting(d: MultiRoomData, k: nat)
    requires 1 < |d.rooms| && k < |d.rooms| && DistinctRoomIds(d.rooms)
    ensures RemoveRoom(d, d.rooms[k].id).rooms == d.rooms[..k] + d.rooms[k + 1..]
  {
    var id := d.rooms[k].id;
    forall j | 0 <= j < |d.rooms| && j != k
      ensures WithoutRoom(id)(d.rooms[j])
    {
      if j < k {
        assert d.rooms[j].id != d.rooms[k].id;
      } else {
        assert d.rooms[k].id != d.rooms[j].id;
      }
    }
    Seqs.FilterDropsOne(d.rooms, WithoutRoom(id), k);
  }

  /** Removing an id no room has changes no room. */
  lemma RemoveUnknownRoom(d: MultiRoomData, roomId: string)
    requires forall i :: 0 <= i < |d.rooms| ==> d.rooms[i].id != roomId
    ensures RemoveRoom(d, roomId).rooms == d.rooms
  {
    if |d.rooms| > 1 {
      Seqs.FilterAll(d.rooms, WithoutRoom(roomId));
    }
  }

  /** Room `k` is the first room whose id is not `roomId`. */
  predicate FirstOtherRoom(rooms: seq<Room>, roomId: string, k: int) {
    && 0 <= k < |rooms| && rooms[k].id != roomId
    && forall j :: 0 <= j < k ==> rooms[j].id == roomId
  }

  /** Which room stays expanded after `handleRemoveRoom` (`newRooms[0]?.id || null`): if the
      expanded room was removed, the first room with another id, unless its id is empty; no room
      when every room had the removed id; otherwise the expanded room is unchanged. */
  function ExpandedAfterRemove(d: MultiRoomData, expanded: Option<string>, roomId: string): (e: Option<string>)
    ensures |d.rooms| <= 1 || expanded != Some(roomId) ==> e == expanded
    ensures |d.rooms| > 1 && expanded == Some(roomId) ==>
      forall k :: FirstOtherRoom(d.rooms, roomId, k) ==>
        e == if d.rooms[k].id != "" then Some(d.rooms[k].id) else None
    ensures (&& |d.rooms| > 1 && expanded == Some(roomId)
             && forall k :: 0 <= k < |d.rooms| ==> d.rooms[k].id == roomId) ==> e == None
  {
    if |d.rooms| <= 1 || expanded != Some(roomId) then expanded
    else
      var rest := RemoveRoom(d, roomId).rooms;
      assert forall k :: FirstOtherRoom(d.rooms, roomId, k) ==> |rest| > 0 && rest[0] == d.rooms[k] by {
        forall k | FirstOtherRoom(d.rooms, roomId, k)
          ensures |rest| > 0 && rest[0] == d.rooms[k]
        {
          Seqs.FilterFirst(d.rooms, WithoutRoom(roomId), k);
        }
      }
      assert (forall k :: 0 <= k < |d.rooms| ==> d.rooms[k].id == roomId) ==> rest == [] by {
        if forall k :: 0 <= k < |d.rooms| ==> d.rooms[k].id == roomId {
          Seqs.FilterNone(d.rooms, WithoutRoom(roomId));
        }
      }
      if rest != [] && rest[0].id != "" then Some(rest[0].id) else None
  }

  /** `handleSectionChange`: edit one field of the addressed sections of the addressed room and
      recompute that room's total only. */
  function SectionChange(d: MultiRoomData, roomId: string, sectionId: string, field: Dimension, typed: string)
    : (r: MultiRoomData)
    ensures |r.rooms| == |d.rooms|
    ensures forall i :: 0 <= i < |d.rooms| && d.rooms[i].id != roomId ==> r.rooms[i] == d.rooms[i]
    ensures forall i :: 0 <= i < |d.rooms| && d.rooms[i].id == roomId ==>
      var room := r.rooms[i];
      && room.sections == Edit(d.rooms[i].sections, sectionId, field, typed)
      && room.totalSquareMeters == Total(room.sections)
      && room == d.rooms[i].(sections := room.sections, totalSquareMeters := room.totalSquareMeters)
    ensures r.grandTotalSquareMeters == GrandTotal(r.rooms)
  {
    UpdateRooms(MapRoom(d.rooms, roomId, (room: Room) =>
      var newSections := Edit(room.sections, sectionId, field, typed);
      room.(sections := newSections, totalSquareMeters := CalculateSectionTotal(newSections))))
  }

  /** `handleAddSection`: append a blank section "<section> n+1"; the room total is not recomputed,
      and need not be, since the new section adds no area. */
  function AddSection(d: MultiRoomData, roomId: string, sectionId: string, sectionWord: string): (r: MultiRoomData)
    ensures |r.rooms| == |d.rooms|
    ensures forall i :: 0 <= i < |d.rooms| && d.rooms[i].id != roomId ==> r.rooms[i] == d.rooms[i]
    ensures forall i :: 0 <= i < |d.rooms| && d.rooms[i].id == roomId ==>
      var old_ := d.rooms[i];
      r.rooms[i] == old_.(sections := old_.sections
        + [Section(sectionId, sectionWord + " " + Strings.NatToString(|old_.sections| + 1), "", "")])
    ensures r.grandTotalSquareMeters == GrandTotal(r.rooms)
  {
    UpdateRooms(MapRoom(d.rooms, roomId, (room: Room) =>
      room.(sections := room.sections
        + [Blank(sectionId, sectionWord + " " + Strings.NatToString(|room.sections| + 1))])))
  }

  /** `handleRemoveSection`: a room with one section is left alone; otherwise the section goes and
      the room total is recomputed. */
  function RemoveSection(d: MultiRoomData, roomId: string, sectionId: string): (r: MultiRoomData)
    ensures |r.rooms| == |d.rooms|
    ensures forall i :: 0 <= i < |d.rooms| && (d.rooms[i].id != roomId || |d.rooms[i].sections| <= 1) ==>
      r.rooms[i] == d.rooms[i]
    ensures forall i :: 0 <= i < |d.rooms| && d.rooms[i].id == roomId && |d.rooms[i].sections| > 1 ==>
      && r.rooms[i].sections == Remove(d.rooms[i].sections, sectionId)
      && r.rooms[i].totalSquareMeters == Total(r.rooms[i].sections)
      && r.rooms[i] == d.rooms[i].(sections := r.rooms[i].sections, totalSquareMeters := r.rooms[i].totalSquareMeters)
    ensures r.grandTotalSquareMeters == GrandTotal(r.rooms)
  {
    UpdateRooms(MapRoom(d.rooms, roomId, (room: Room) =>
      if |room.sections| <= 1 then room
      else
        var newSections := Remove(room.sections, sectionId);
        room.(sections := newSections, totalSquareMeters := CalculateSectionTotal(newSections))))
  }

  /** `handlePhotoChange`: only an image file, with a target room chosen, sets that room's photo;
      `dataUrl` stands for what the file reader produces. */
  function PhotoChange(d: MultiRoomData, fileType: string, target: Option<string>, dataUrl: string)
    : (r: MultiRoomData)
    ensures !Strings.StartsWith(fileType, "image/") || target == None || target == Some("") ==> r == d
    ensures Strings.StartsWith(fileType, "image/") && target.Some? && target.value != "" ==>
      && |r.rooms| == |d.rooms|
      && (forall i :: 0 <= i < |d.rooms| ==>
            r.rooms[i] == if d.rooms[i].id == target.value then d.rooms[i].(photo := Some(dataUrl)) else d.rooms[i])
      && r.grandTotalSquareMeters == GrandTotal(r.rooms)
  {
    if !Strings.StartsWith(fileType, "image/") || target == None || target == Some("") then d
    else UpdateRooms(MapRoom(d.rooms, target.value, (room: Room) => room.(photo := Some(dataUrl))))
  }

  /** `handleRemovePhoto`: clear the addressed room's photo and nothing else. */
  function RemovePhoto(d: MultiRoomData, roomId: string): (r: MultiRoomData)
    ensures |r.rooms| == |d.rooms|
    ensures forall i :: 0 <= i < |d.rooms| ==>
      r.rooms[i] == if d.rooms[i].id == roomId then d.rooms[i].(photo := None) else d.rooms[i]
    ensures r.grandTotalSquareMeters == GrandTotal(r.rooms)
  {
    UpdateRooms(MapRoom(d.rooms, roomId, (room: Room) => room.(photo := None)))
  }

  // ---- Every handler keeps the data consistent ----

  /** A room added under a fresh id keeps the data consistent. */
  lemma AddRoomConsistent(d: MultiRoomData, roomId: string, sectionId: string, roomWord: string, sectionWord: string)
    requires Consistent(d)
    requires forall i :: 0 <= i < |d.rooms| ==> d.rooms[i].id != roomId
    ensures Consistent(AddRoom(d, roomId, sectionId, roomWord, sectionWord))
  {
    var r := AddRoom(d, roomId, sectionId, roomWord, sectionWord);
    var room := r.rooms[|d.rooms|];
    NewRoomConsistent(room, sectionId, sectionWord);
    assert r.rooms == d.rooms + [room];
    AppendedRoomConsistent(d, room);
  }

  /** Appending a consistent room under a fresh id keeps the data consistent. */
  lemma AppendedRoomConsistent(d: MultiRoomData, room: Room)
    requires Consistent(d) && RoomConsistent(room)
    requires forall i :: 0 <= i < |d.rooms| ==> d.rooms[i].id != room.id
    ensures Consistent(UpdateRooms(d.rooms + [room]))
  {
    var grown := d.rooms + [room];
    forall i | 0 <= i < |grown|
      ensures RoomConsistent(grown[i])
    {
      if i < |d.rooms| {
        assert grown[i] == d.rooms[i];
      }
    }
    forall i, j | 0 <= i < j < |grown|
      ensures grown[i].id != grown[j].id
    {
      assert grown[i] == d.rooms[i];
      if j < |d.rooms| {
        assert grown[j] == d.rooms[j];
      }
    }
  }

  lemma NewRoomConsistent(room: Room, sectionId: string, sectionWord: string)
    requires room.totalSquareMeters == 0.0
    requires room.sections == [Section(sectionId, sectionWord + " 1", "", "")]
    ensures RoomConsistent(room)
  {
    assert Strings.IsNumeric("");
    assert Sanitised(room.sections[0]);
    TotalOne(room.sections[0]);
  }

  /** Removing a room keeps the data consistent, so it never leaves the editor without a room. */
  lemma RemoveRoomConsistent(d: MultiRoomData, roomId: string)
    requires Consistent(d)
    ensures Consistent(RemoveRoom(d, roomId))
  {
    if |d.rooms| > 1 {
      var p := WithoutRoom(roomId);
      var rest := Seqs.Filter(d.rooms, p);
      assert RemoveRoom(d, roomId) == UpdateRooms(rest);
      var k := if d.rooms[0].id != roomId then 0 else 1;
      assert d.rooms[0].id != d.rooms[1].id;
      assert p(d.rooms[k]);
      assert |rest| >= 1 by {
        assert d.rooms[k] in rest;
      }
      Seqs.FilterKeepsAll(d.rooms, p, RoomConsistent);
      FilterKeepsDistinctRooms(d.rooms, p);
    }
  }

  lemma {:induction false} FilterKeepsDistinctRooms(rooms: seq<Room>, p: Room -> bool)
    requires DistinctRoomIds(rooms)
    ensures DistinctRoomIds(Seqs.Filter(rooms, p))
  {
    if rooms != [] {
      FilterKeepsDistinctRooms(rooms[1..], p);
      var rest := Seqs.Filter(rooms[1..], p);
      assert forall j :: 0 <= j < |rest| ==> rest[j] in rooms[1..];
      assert forall j :: 0 <= j < |rest| ==> rest[j].id != rooms[0].id;
    }
  }

  lemma SectionChangeConsistent(d: MultiRoomData, roomId: string, sectionId: string, field: Dimension, typed: string)
    requires Consistent(d)
    ensures Consistent(SectionChange(d, roomId, sectionId, field, typed))
  {
    var r := SectionChange(d, roomId, sectionId, field, typed);
    forall i | 0 <= i < |d.rooms| && d.rooms[i].id == roomId
      ensures RoomConsistent(r.rooms[i])
    {
      EditKeepsIds(d.rooms[i].sections, sectionId, field, typed);
    }
  }

  /** With distinct room ids, a section edit moves the grand total by exactly the change of the
      edited room's total. */
  lemma SectionChangeGrandTotal(d: MultiRoomData, k: nat, sectionId: string, field: Dimension, typed: string)
    requires k < |d.rooms| && DistinctRoomIds(d.rooms)
    ensures var r := SectionChange(d, d.rooms[k].id, sectionId, field, typed);
      r.grandTotalSquareMeters
        == GrandTotal(d.rooms) - d.rooms[k].totalSquareMeters + r.rooms[k].totalSquareMeters
  {
    var r := SectionChange(d, d.rooms[k].id, sectionId, field, typed);
    assert r.rooms == d.rooms[k := r.rooms[k]];
    GrandTotalReplace(d.rooms, k, r.rooms[k]);
  }

  /** A fresh section adds no area, so the unrecomputed room total stays correct. */
  lemma AddSectionConsistent(d: MultiRoomData, roomId: string, sectionId: string, sectionWord: string)
    requires Consistent(d)
    requires forall i, j :: 0 <= i < |d.rooms| && 0 <= j < |d.rooms[i].sections| ==>
      d.rooms[i].sections[j].id != sectionId
    ensures Consistent(AddSection(d, roomId, sectionId, sectionWord))
    ensures AddSection(d, roomId, sectionId, sectionWord).grandTotalSquareMeters == d.grandTotalSquareMeters
  {
    var r := AddSection(d, roomId, sectionId, sectionWord);
    forall i | 0 <= i < |d.rooms| && d.rooms[i].id == roomId
      ensures RoomConsistent(r.rooms[i]) && r.rooms[i].totalSquareMeters == d.rooms[i].totalSquareMeters
    {
      AddedSectionKeepsRoom(d.rooms[i], sectionId, sectionWord);
    }
    SameTotalsSameGrandTotal(d.rooms, r.rooms);
    SameIdsKeepDistinct(d.rooms, r.rooms);
  }

  lemma AddedSectionKeepsRoom(room: Room, sectionId: string, sectionWord: string)
    requires RoomConsistent(room)
    requires forall j :: 0 <= j < |room.sections| ==> room.sections[j].id != sectionId
    ensures var blank := Section(sectionId, sectionWord + " " + Strings.NatToString(|room.sections| + 1), "", "");
      && RoomConsistent(room.(sections := room.sections + [blank]))
  {
    var blank := Section(sectionId, sectionWord + " " + Strings.NatToString(|room.sections| + 1), "", "");
    AppendBlank(room.sections, blank);
  }

  /** Rooms that keep their ids position by position keep them distinct. */
  lemma SameIdsKeepDistinct(a: seq<Room>, b: seq<Room>)
    requires |a| == |b| && DistinctRoomIds(a)
    requires forall i :: 0 <= i < |a| ==> a[i].id == b[i].id
    ensures DistinctRoomIds(b)
  {
  }

  lemma SameTotalsSameGrandTotal(a: seq<Room>, b: seq<Room>)
    requires |a| == |b|
    requires forall i :: 0 <= i < |a| ==> a[i].totalSquareMeters == b[i].totalSquareMeters
    ensures GrandTotal(a) == GrandTotal(b)
  {
    Seqs.SumSameValues(a, b, RoomTotal);
  }

  lemma RemoveSectionConsistent(d: MultiRoomData, roomId: string, sectionId: string)
    requires Consistent(d)
    ensures Consistent(RemoveSection(d, roomId, sectionId))
  {
    var r := RemoveSection(d, roomId, sectionId);
    forall i | 0 <= i < |d.rooms| && d.rooms[i].id == roomId && |d.rooms[i].sections| > 1
      ensures RoomConsistent(r.rooms[i])
    {
      RemoveLeavesOne(d.rooms[i].sections, sectionId);
    }
  }

  /** Photos never touch the measurements, so setting one keeps the data consistent. */
  lemma PhotoChangeConsistent(d: MultiRoomData, fileType: string, target: Option<string>, dataUrl: string)
    requires Consistent(d)
    ensures Consistent(PhotoChange(d, fileType, target, dataUrl))
    ensures PhotoChange(d, fileType, target, dataUrl).grandTotalSquareMeters == d.grandTotalSquareMeters
  {
    var r := PhotoChange(d, fileType, target, dataUrl);
    SameTotalsSameGrandTotal(d.rooms, r.rooms);
    SameIdsKeepDistinct(d.rooms, r.rooms);
  }

  /** Clearing a photo keeps the data consistent and the grand total as it was. */
  lemma RemovePhotoConsistent(d: MultiRoomData, roomId: string)
    requires Consistent(d)
    ensures Consistent(RemovePhoto(d, roomId))
    ensures RemovePhoto(d, roomId).grandTotalSquareMeters == d.grandTotalSquareMeters
  {
    var r := RemovePhoto(d, roomId);
    SameTotalsSameGrandTotal(d.rooms, r.rooms);
    SameIdsKeepDistinct(d.rooms, r.rooms);
  }
}
