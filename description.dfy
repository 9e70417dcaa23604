/**
 * The job-description generator: the services chosen for the exterior and
 * the interior, the rooms with their painted components, the text built from
 * them, and the checkbox and room-list edits of the form.
 *
 * `DescriptionText` is the text as a composition of sections;
 * `GenerateDescription` builds it by appending, as the component does.
 */
module Description {
  import Lists
  import Text
  import opened Wrappers

  datatype ProjectType = ExteriorOnly | InteriorOnly | Both

  datatype ExteriorServices = ExteriorServices(
    softWash: bool, scraping: bool, sanding: bool, priming: bool,
    areas: seq<string>, components: seq<string>)

  datatype Room = Room(id: string, name: string, components: seq<string>)

  datatype InteriorServices = InteriorServices(
    sanding: bool, patching: bool, crackRepair: bool, rooms: seq<Room>)

  /** `coats` comes from `parseInt` on a select whose options are whole numbers. */
  datatype DescriptionData = DescriptionData(
    projectType: ProjectType, coats: nat, exterior: ExteriorServices, interior: InteriorServices)

  /** The form's initial data. */
  function DefaultData(): DescriptionData {
    DescriptionData(
      Both, 2,
      ExteriorServices(true, true, true, true, ["house"], ["trims", "siding", "windows", "doors"]),
      InteriorServices(true, true, true, [
        Room("1", "Living Room", ["walls", "trims", "ceiling"]),
        Room("2", "Kitchen", ["walls", "trims", "doors"]),
        Room("3", "Bedroom", ["walls", "trims", "ceiling"])]))
  }

  // ---------------------------------------------------------------- the text

  predicate HasExterior(t: ProjectType) { t == ExteriorOnly || t == Both }

  predicate HasInterior(t: ProjectType) { t == InteriorOnly || t == Both }

  function Header(coats: nat): string {
    "Professional " + Text.NatToString(coats) + "-Coat Painting Project\n\n"
  }

  /** `if (selected) text += line`. */
  function AddIf(text: string, selected: bool, line: string): string {
    if selected then text + line else text
  }

  /** The fixed headings and bullets; only the crack-repair bullet ends with a blank line. */
  const ExteriorHeading := "EXTERIOR WORK:\n"
  const PowerWashLine := "• Power washing and surface preparation\n"
  const ScrapingLine := "• Scraping of loose paint and debris\n"
  const ExteriorSandingLine := "• Sanding of rough surfaces\n"
  const PrimingLine := "• Application of appropriate primers\n"
  const InteriorHeading := "INTERIOR WORK:\n"
  const InteriorSandingLine := "• Surface sanding and preparation\n"
  const PatchingLine := "• Patching and repair work\n"
  const CrackRepairLine := "• Crack and hole repair\n\n"
  const BreakdownHeading := "ROOM-BY-ROOM BREAKDOWN:\n"

  function PaintingLine(areas: seq<string>): string {
    "• Painting of " + Text.Join(areas, ", ") + "\n"
  }

  function IncludingLine(components: seq<string>): string {
    "• Including: " + Text.Join(components, ", ") + "\n\n"
  }

  /** `text` followed by the exterior section. */
  function WithExterior(text: string, e: ExteriorServices): string {
    var heading := text + ExteriorHeading;
    var washed := AddIf(heading, e.softWash, PowerWashLine);
    var scraped := AddIf(washed, e.scraping, ScrapingLine);
    var sanded := AddIf(scraped, e.sanding, ExteriorSandingLine);
    var primed := AddIf(sanded, e.priming, PrimingLine);
    primed + PaintingLine(e.areas) + IncludingLine(e.components)
  }

  function RoomLine(r: Room): string {
    "• " + r.name + ": " + Text.Join(r.components, ", ") + "\n"
  }

  /** `text` followed by one line per room, in list order. */
  function WithRoomLines(text: string, rooms: seq<Room>): string
    decreases |rooms|
  {
    if rooms == [] then text else WithRoomLines(text, rooms[..|rooms| - 1]) + RoomLine(rooms[|rooms| - 1])
  }

  /**
   * `text` followed by the interior section. Only the crack-repair bullet ends
   * with a blank line, so without it the breakdown follows the bullets directly.
   */
  function WithInterior(text: string, i: InteriorServices): string {
    var heading := text + InteriorHeading;
    var sanded := AddIf(heading, i.sanding, InteriorSandingLine);
    var patched := AddIf(sanded, i.patching, PatchingLine);
    var repaired := AddIf(patched, i.crackRepair, CrackRepairLine);
    WithRoomLines(repaired + BreakdownHeading, i.rooms)
  }

  function ExteriorSection(e: ExteriorServices): string { WithExterior("", e) }

  function InteriorSection(i: InteriorServices): string { WithInterior("", i) }

  /** The whole description: the header, then the exterior section, then the interior section. */
  function DescriptionText(d: DescriptionData): string {
    var afterExterior := if HasExterior(d.projectType) then WithExterior(Header(d.coats), d.exterior)
                         else Header(d.coats);
    if HasInterior(d.projectType) then WithInterior(afterExterior, d.interior) else afterExterior
  }

  /** `generateDescription`: appends each line to `description` in turn. */
  method GenerateDescription(d: DescriptionData) returns (description: string)
    ensures description == DescriptionText(d)
  {
    description := Header(d.coats);
    if d.projectType == ExteriorOnly || d.projectType == Both {
      description := AppendExteriorWork(description, d.exterior);
    }
    if d.projectType == InteriorOnly || d.projectType == Both {
      description := AppendInteriorWork(description, d.interior);
    }
  }

  /** The exterior block of `generateDescription`. */
  method AppendExteriorWork(text: string, e: ExteriorServices) returns (description: string)
    ensures description == WithExterior(text, e)
  {
    description := text + ExteriorHeading;
    if e.softWash { description := description + PowerWashLine; }
    if e.scraping { description := description + ScrapingLine; }
    if e.sanding { description := description + ExteriorSandingLine; }
    if e.priming { description := description + PrimingLine; }
    description := description + PaintingLine(e.areas);
    description := description + IncludingLine(e.components);
  }

  /** The interior block of `generateDescription`. */
  method AppendInteriorWork(text: string, i: InteriorServices) returns (description: string)
    ensures description == WithInterior(text, i)
  {
    description := text + InteriorHeading;
    if i.sanding { description := description + InteriorSandingLine; }
    if i.patching { description := description + PatchingLine; }
    if i.crackRepair { description := description + CrackRepairLine; }
    description := description + BreakdownHeading;
    description := AppendRoomLines(description, i.rooms);
  }

  /** The `forEach` over the rooms: one line per room, appended in list order. */
  method AppendRoomLines(text: string, rooms: seq<Room>) returns (description: string)
    ensures description == WithRoomLines(text, rooms)
  {
    description := text;
    var i := 0;
    while i < |rooms|
      invariant 0 <= i <= |rooms|
      invariant description == WithRoomLines(text, rooms[..i])
    {
      var room := rooms[i];
      assert rooms[..i + 1][..i] == rooms[..i];
      description := description + RoomLine(room);
      i := i + 1;
    }
    assert rooms[..i] == rooms;
  }

  // ---------------------------------------------------------------- properties of the text

  lemma Assoc(a: string, b: string, c: string)
    ensures a + (b + c) == (a + b) + c
  {
  }

  /** Appending the room lines to a text is appending them to "" and then to the text. */
  lemma {:induction false} WithRoomLinesAppends(text: string, rooms: seq<Room>)
    ensures WithRoomLines(text, rooms) == text + WithRoomLines("", rooms)
    decreases |rooms|
  {
    if rooms == [] {
      assert text + "" == text;
    } else {
      var init := rooms[..|rooms| - 1];
      WithRoomLinesAppends(text, init);
      Assoc(text, WithRoomLines("", init), RoomLine(rooms[|rooms| - 1]));
    }
  }

  lemma AddIfAppends(text: string, s: string, selected: bool, line: string)
    ensures AddIf(text + s, selected, line) == text + AddIf(s, selected, line)
  {
    if selected {
      Assoc(text, s, line);
    }
  }

  /** The exterior section does not depend on what precedes it. */
  lemma WithExteriorAppends(text: string, e: ExteriorServices)
    ensures WithExterior(text, e) == text + ExteriorSection(e)
  {
    var h := "" + ExteriorHeading;
    assert h == ExteriorHeading;
    var washed := AddIf(h, e.softWash, PowerWashLine);
    var scraped := AddIf(washed, e.scraping, ScrapingLine);
    var sanded := AddIf(scraped, e.sanding, ExteriorSandingLine);
    var primed := AddIf(sanded, e.priming, PrimingLine);
    AddIfAppends(text, h, e.softWash, PowerWashLine);
    AddIfAppends(text, washed, e.scraping, ScrapingLine);
    AddIfAppends(text, scraped, e.sanding, ExteriorSandingLine);
    AddIfAppends(text, sanded, e.priming, PrimingLine);
    Assoc(text, primed, PaintingLine(e.areas));
    Assoc(text, primed + PaintingLine(e.areas), IncludingLine(e.components));
  }

  /** The interior section does not depend on what precedes it. */
  lemma WithInteriorAppends(text: string, i: InteriorServices)
    ensures WithInterior(text, i) == text + InteriorSection(i)
  {
    var h := "" + InteriorHeading;
    assert h == InteriorHeading;
    var sanded := AddIf(h, i.sanding, InteriorSandingLine);
    var patched := AddIf(sanded, i.patching, PatchingLine);
    var repaired := AddIf(patched, i.crackRepair, CrackRepairLine);
    AddIfAppends(text, h, i.sanding, InteriorSandingLine);
    AddIfAppends(text, sanded, i.patching, PatchingLine);
    AddIfAppends(text, patched, i.crackRepair, CrackRepairLine);
    var intro := repaired + BreakdownHeading;
    Assoc(text, repaired, BreakdownHeading);
    WithRoomLinesAppends(text + intro, i.rooms);
    WithRoomLinesAppends(intro, i.rooms);
    Assoc(text, intro, WithRoomLines("", i.rooms));
  }

  /** Which sections appear, and in which order, is decided by the project type alone. */
  lemma SectionsByProjectType(d: DescriptionData)
    ensures d.projectType == ExteriorOnly ==> DescriptionText(d) == Header(d.coats) + ExteriorSection(d.exterior)
    ensures d.projectType == InteriorOnly ==> DescriptionText(d) == Header(d.coats) + InteriorSection(d.interior)
    ensures d.projectType == Both ==>
      DescriptionText(d) == Header(d.coats) + ExteriorSection(d.exterior) + InteriorSection(d.interior)
  {
    WithExteriorAppends(Header(d.coats), d.exterior);
    WithInteriorAppends(Header(d.coats), d.interior);
    WithInteriorAppends(Header(d.coats) + ExteriorSection(d.exterior), d.interior);
  }

  /** Every description opens with the header naming the number of coats. */
  lemma StartsWithHeader(d: DescriptionData)
    ensures Text.IsPrefix(Header(d.coats), DescriptionText(d))
  {
    SectionsByProjectType(d);
    var h := Header(d.coats);
    if d.projectType == Both {
      Assoc(h, ExteriorSection(d.exterior), InteriorSection(d.interior));
    }
  }

  /** An unselected side of the job does not influence the text at all. */
  lemma UnselectedSideIgnored(d: DescriptionData, e: ExteriorServices, i: InteriorServices)
    ensures !HasExterior(d.projectType) ==> DescriptionText(d.(exterior := e)) == DescriptionText(d)
    ensures !HasInterior(d.projectType) ==> DescriptionText(d.(interior := i)) == DescriptionText(d)
  {
  }

  /** With every preparation bullet off, the breakdown heading follows the section heading directly. */
  lemma NoPreparationBullets(text: string, i: InteriorServices)
    requires !i.sanding && !i.patching && !i.crackRepair
    ensures WithInterior(text, i) == WithRoomLines(text + InteriorHeading + BreakdownHeading, i.rooms)
  {
  }

  /** The lines for two room lists in a row are the lines of the first, then those of the second. */
  lemma {:induction false} RoomLinesAppend(text: string, a: seq<Room>, b: seq<Room>)
    ensures WithRoomLines(text, a + b) == WithRoomLines(WithRoomLines(text, a), b)
    decreases |b|
  {
    if b == [] {
      assert a + b == a;
    } else {
      RoomLinesAppend(text, a, b[..|b| - 1]);
      assert (a + b)[..|a + b| - 1] == a + b[..|b| - 1];
    }
  }

  // ---------------------------------------------------------------- editing the data

  datatype ExteriorFlag = SoftWash | Scraping | Sanding | Priming

  /** `exterior[key]` for a checkbox key. */
  function ExteriorFlagValue(e: ExteriorServices, f: ExteriorFlag): bool {
    match f
    case SoftWash => e.softWash
    case Scraping => e.scraping
    case Sanding => e.sanding
    case Priming => e.priming
  }

  /** The calls the form makes to `updateExterior`. */
  datatype ExteriorEdit = SetExteriorFlag(flag: ExteriorFlag, on: bool) | SetAreas(areas: seq<string>)
                        | SetComponents(components: seq<string>)

  /** `updateExterior`: replace one entry of the exterior services. */
  function UpdateExterior(d: DescriptionData, edit: ExteriorEdit): (r: DescriptionData)
    ensures r.(exterior := d.exterior) == d
    ensures edit.SetAreas? ==> r.exterior == d.exterior.(areas := edit.areas)
    ensures edit.SetComponents? ==> r.exterior == d.exterior.(components := edit.components)
    ensures edit.SetExteriorFlag? ==> r.exterior.areas == d.exterior.areas
                                      && r.exterior.components == d.exterior.components
    ensures edit.SetExteriorFlag? ==> ExteriorFlagValue(r.exterior, edit.flag) == edit.on
    ensures edit.SetExteriorFlag? ==>
      forall f :: f != edit.flag ==> ExteriorFlagValue(r.exterior, f) == ExteriorFlagValue(d.exterior, f)
    ensures !edit.SetExteriorFlag? ==>
      forall f :: ExteriorFlagValue(r.exterior, f) == ExteriorFlagValue(d.exterior, f)
  {
    var e := d.exterior;
    d.(exterior :=
      match edit
      case SetAreas(a) => e.(areas := a)
      case SetComponents(c) => e.(components := c)
      case SetExteriorFlag(SoftWash, on) => e.(softWash := on)
      case SetExteriorFlag(Scraping, on) => e.(scraping := on)
      case SetExteriorFlag(Sanding, on) => e.(sanding := on)
      case SetExteriorFlag(Priming, on) => e.(priming := on))
  }

  /** A checkbox over a list: checking appends the item, unchecking removes every copy of it. */
  function Toggle(items: seq<string>, item: string, checked: bool): (r: seq<string>)
    ensures checked ==> r == items + [item]
    ensures !checked ==> item !in r && forall x :: x in r <==> x in items && x != item
  {
    if checked then items + [item] else Lists.Filter(items, (x: string) => x != item)
  }

  /** Unchecking undoes checking: for an item not yet listed exactly, and in any case up to that item. */
  lemma ToggleRoundTrip(items: seq<string>, item: string)
    ensures Toggle(Toggle(items, item, true), item, false) == Toggle(items, item, false)
    ensures item !in items ==> Toggle(Toggle(items, item, true), item, false) == items
  {
    var p := (x: string) => x != item;
    Lists.FilterAppend(items, [item], p);
    assert Lists.Filter([item], p) == [];
    if item !in items {
      Lists.FilterAll(items, p);
    }
  }

  /** The "Areas" checkboxes. */
  function CheckArea(d: DescriptionData, area: string, checked: bool): (r: DescriptionData)
    ensures r.(exterior := d.exterior) == d
    ensures r.exterior == d.exterior.(areas := Toggle(d.exterior.areas, area, checked))
  {
    UpdateExterior(d, SetAreas(Toggle(d.exterior.areas, area, checked)))
  }

  /** The exterior "Components" checkboxes. */
  function CheckExteriorComponent(d: DescriptionData, component: string, checked: bool): (r: DescriptionData)
    ensures r.(exterior := d.exterior) == d
    ensures r.exterior == d.exterior.(components := Toggle(d.exterior.components, component, checked))
  {
    UpdateExterior(d, SetComponents(Toggle(d.exterior.components, component, checked)))
  }

  datatype InteriorFlag = InteriorSanding | Patching | CrackRepair

  /** `interior[key]` for a checkbox key. */
  function InteriorFlagValue(i: InteriorServices, f: InteriorFlag): bool {
    match f
    case InteriorSanding => i.sanding
    case Patching => i.patching
    case CrackRepair => i.crackRepair
  }

  /** The calls the form makes to `updateInterior`. */
  datatype InteriorEdit = SetInteriorFlag(flag: InteriorFlag, on: bool) | SetRooms(rooms: seq<Room>)

  /** `updateInterior`: replace one entry of the interior services. */
  function UpdateInterior(d: DescriptionData, edit: InteriorEdit): (r: DescriptionData)
    ensures r.(interior := d.interior) == d
    ensures edit.SetRooms? ==> r.interior == d.interior.(rooms := edit.rooms)
    ensures edit.SetInteriorFlag? ==> r.interior.rooms == d.interior.rooms
    ensures edit.SetInteriorFlag? ==> InteriorFlagValue(r.interior, edit.flag) == edit.on
    ensures edit.SetInteriorFlag? ==>
      forall f :: f != edit.flag ==> InteriorFlagValue(r.interior, f) == InteriorFlagValue(d.interior, f)
    ensures edit.SetRooms? ==>
      forall f :: InteriorFlagValue(r.interior, f) == InteriorFlagValue(d.interior, f)
  {
    var i := d.interior;
    d.(interior :=
      match edit
      case SetRooms(rs) => i.(rooms := rs)
      case SetInteriorFlag(InteriorSanding, on) => i.(sanding := on)
      case SetInteriorFlag(Patching, on) => i.(patching := on)
      case SetInteriorFlag(CrackRepair, on) => i.(crackRepair := on))
  }

  /** `addRoom`: a room named "New Room" with walls only, at the end. */
  function AddRoom(d: DescriptionData, newId: string): (r: DescriptionData)
    ensures r.(interior := d.interior) == d
    ensures r.interior == d.interior.(rooms := d.interior.rooms + [Room(newId, "New Room", ["walls"])])
  {
    d.(interior := d.interior.(rooms := d.interior.rooms + [Room(newId, "New Room", ["walls"])]))
  }

  /** Adding a room to a job with an interior adds exactly its line at the end of the text. */
  lemma AddRoomAppendsLine(d: DescriptionData, newId: string)
    requires HasInterior(d.projectType)
    ensures DescriptionText(AddRoom(d, newId)) == DescriptionText(d) + RoomLine(Room(newId, "New Room", ["walls"]))
  {
    var rooms := AddRoom(d, newId).interior.rooms;
    assert rooms[..|rooms| - 1] == d.interior.rooms;
  }

  /** `Partial<Room>`. */
  datatype RoomPatch = RoomPatch(id: Option<string>, name: Option<string>, components: Option<seq<string>>)

  function ApplyRoomPatch(room: Room, u: RoomPatch): (r: Room)
    ensures r.id == u.id.GetOr(room.id) && r.name == u.name.GetOr(room.name)
    ensures r.components == u.components.GetOr(room.components)
  {
    Room(u.id.GetOr(room.id), u.name.GetOr(room.name), u.components.GetOr(room.components))
  }

  /** `updateRoom`: every room with that id takes the update; the others and the order stay. */
  function UpdateRoom(d: DescriptionData, roomId: string, u: RoomPatch): (r: DescriptionData)
    ensures r.(interior := d.interior) == d
    ensures r.interior.(rooms := d.interior.rooms) == d.interior
    ensures |r.interior.rooms| == |d.interior.rooms|
    ensures forall i :: 0 <= i < |d.interior.rooms| ==>
      r.interior.rooms[i] == (if d.interior.rooms[i].id == roomId
                              then ApplyRoomPatch(d.interior.rooms[i], u) else d.interior.rooms[i])
  {
    d.(interior := d.interior.(rooms := Lists.MapWhere(d.interior.rooms, (room: Room) => room.id == roomId,
                                                       (room: Room) => ApplyRoomPatch(room, u))))
  }

  /** `deleteRoom`: every room with that id goes, with no minimum left. */
  function DeleteRoom(d: DescriptionData, roomId: string): (r: DescriptionData)
    ensures r.(interior := d.interior) == d
    ensures r.interior.(rooms := d.interior.rooms) == d.interior
    ensures forall room :: room in r.interior.rooms <==> room in d.interior.rooms && room.id != roomId
  {
    d.(interior := d.interior.(rooms := Lists.Filter(d.interior.rooms, (room: Room) => room.id != roomId)))
  }

  /** Deleting the only room leaves the job without rooms. */
  lemma DeleteLastRoom(d: DescriptionData)
    requires |d.interior.rooms| == 1
    ensures DeleteRoom(d, d.interior.rooms[0].id).interior.rooms == []
  {
  }

  /** A room's component checkbox: the room's list, toggled, is written to every room with its id. */
  function CheckRoomComponent(d: DescriptionData, room: Room, component: string, checked: bool): (r: DescriptionData)
    ensures r == UpdateRoom(d, room.id, RoomPatch(None, None, Some(Toggle(room.components, component, checked))))
    ensures forall i :: 0 <= i < |d.interior.rooms| && d.interior.rooms[i].id == room.id ==>
      r.interior.rooms[i].components == Toggle(room.components, component, checked)
  {
    UpdateRoom(d, room.id, RoomPatch(None, None, Some(Toggle(room.components, component, checked))))
  }
}
