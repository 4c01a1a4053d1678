/** Screenshots through Electron's `screen` and `desktopCapturer` modules
    (electron/ElectronScreenshotHelper.ts): the monitor list offered to the
    settings, and the choice of the capture source for one monitor. The
    monitor list and the capture sources are parameters; a source carries
    the PNG of its thumbnail. */
module ElectronScreenshot {
  import opened Outcomes
  import opened Text

  datatype Rect = Rect(x: int, y: int, width: int, height: int)

  /** A monitor as `screen.getAllDisplays()` reports it: its id, its bounds
      and its size. */
  datatype Display = Display(id: int, bounds: Rect, width: nat, height: nat)

  /** An entry of `listDisplays`. */
  datatype ListedDisplay = ListedDisplay(id: int, name: string, bounds: Rect, index: nat)

  /** A capture source of `desktopCapturer.getSources`: its id, its
      `display_id`, its name and the PNG of its thumbnail. */
  datatype Source = Source(id: string, displayId: string, name: string, png: Bytes)

  /** `Display <index + 1> (<width>x<height>)`. */
  function DisplayName(index: nat, d: Display): string {
    "Display " + ShowNat(index + 1) + " (" + ShowNat(d.width) + "x" + ShowNat(d.height) + ")"
  }

  /** `listDisplays`: every monitor with its position in the list and a
      name built from that position and its size. */
  function ListDisplays(displays: seq<Display>): (r: seq<ListedDisplay>)
    ensures |r| == |displays|
    ensures forall i :: 0 <= i < |r| ==>
      && r[i].id == displays[i].id && r[i].bounds == displays[i].bounds && r[i].index == i
      && r[i].name == DisplayName(i, displays[i])
  {
    seq(|displays|, i requires 0 <= i < |displays| =>
      ListedDisplay(displays[i].id, DisplayName(i, displays[i]), displays[i].bounds, i))
  }

  /** The number a listed name starts with, read back: the digits after
      `Display `. */
  function DisplayNumber(name: string): Option<nat> {
    if StartsWith(name, "Display ") then
      var digits := name[8..][..Run(name[8..], Digit)];
      if digits != [] then Some(DecimalValue(digits)) else None
    else None
  }

  /** A listed name gives back the position it was built from. */
  lemma DisplayNumberOfName(index: nat, d: Display)
    ensures DisplayNumber(DisplayName(index, d)) == Some(index + 1)
  {
    var name := DisplayName(index, d);
    var number := ShowNat(index + 1);
    var rest := " (" + ShowNat(d.width) + "x" + ShowNat(d.height) + ")";
    assert name == "Display " + (number + rest);
    assert name[..8] == "Display ";
    assert name[8..] == number + rest;
    RunOf(number, rest, Digit);
    assert (number + rest)[..|number|] == number;
    DecimalOfShow(index + 1);
  }

  /** The listed names are pairwise distinct, whatever the sizes. */
  lemma ListedNamesDistinct(displays: seq<Display>, i: nat, j: nat)
    requires i < |displays| && j < |displays| && i != j
    ensures ListDisplays(displays)[i].name != ListDisplays(displays)[j].name
  {
    DisplayNumberOfName(i, displays[i]);
    DisplayNumberOfName(j, displays[j]);
  }

  /** `displays.findIndex(d => d.id === displayId)`: the first position
      with the id, or -1. */
  function FindDisplayIndex(displays: seq<Display>, displayId: int): (k: int)
    ensures -1 <= k < |displays|
    ensures k == -1 <==> forall j :: 0 <= j < |displays| ==> displays[j].id != displayId
    ensures k >= 0 ==> displays[k].id == displayId && forall j :: 0 <= j < k ==> displays[j].id != displayId
  {
    if displays == [] then -1
    else if displays[0].id == displayId then 0
    else
      var k := FindDisplayIndex(displays[1..], displayId);
      if k == -1 then -1 else k + 1
  }

  /** A source names the monitor: its `display_id` is the id in decimal,
      or its id is `screen:<id>`. */
  predicate NamesDisplay(s: Source, displayId: int) {
    s.displayId == ShowInt(displayId) || s.id == "screen:" + ShowInt(displayId)
  }

  /** The first-tier test, which also accepts any source when there is
      exactly one. */
  predicate FirstTier(s: Source, displayId: int, count: nat) {
    NamesDisplay(s, displayId) || count == 1
  }

  /** `sources.find(...)` with the first-tier test: the first position that
      passes it, or the length of the list. */
  function FindSource(sources: seq<Source>, displayId: int, count: nat): (k: nat)
    ensures k <= |sources|
    ensures forall j :: 0 <= j < k ==> !FirstTier(sources[j], displayId, count)
    ensures k < |sources| ==> FirstTier(sources[k], displayId, count)
  {
    if sources == [] then 0
    else if FirstTier(sources[0], displayId, count) then 0
    else 1 + FindSource(sources[1..], displayId, count)
  }

  /** The source `captureDisplay` saves for a monitor found in the list:
      the first source that names it (any source when there is only one);
      failing that, the source at the monitor's position when there are as
      many sources as monitors; failing that, the first source. */
  function SelectSource(displays: seq<Display>, displayId: int, sources: seq<Source>): (r: Option<Source>)
    ensures r.None? <==> sources == []
    ensures r.Some? ==> r.value in sources
  {
    var k := FindSource(sources, displayId, |sources|);
    if k < |sources| then Some(sources[k])
    else
      var index := FindDisplayIndex(displays, displayId);
      if |displays| == |sources| && 0 <= index < |sources| then Some(sources[index])
      else if |sources| > 0 then Some(sources[0])
      else None
  }

  /** With a single source, that source is used. */
  lemma SelectSingle(displays: seq<Display>, displayId: int, s: Source)
    ensures SelectSource(displays, displayId, [s]) == Some(s)
  {
    assert FirstTier(s, displayId, 1);
  }

  /** A source that names the monitor wins over any position-based choice:
      the first such source is used. */
  lemma SelectNamed(displays: seq<Display>, displayId: int, sources: seq<Source>, j: nat)
    requires j < |sources| && NamesDisplay(sources[j], displayId)
    requires forall i :: 0 <= i < j ==> !NamesDisplay(sources[i], displayId)
    requires |sources| != 1
    ensures SelectSource(displays, displayId, sources) == Some(sources[j])
  {
    var k := FindSource(sources, displayId, |sources|);
    assert FirstTier(sources[j], displayId, |sources|);
    assert k == j;
  }

  /** When no source names the monitor and there are as many sources as
      monitors (and not just one), the source at the monitor's position is used. */
  lemma SelectByPosition(displays: seq<Display>, displayId: int, sources: seq<Source>)
    requires forall i :: 0 <= i < |sources| ==> !NamesDisplay(sources[i], displayId)
    requires |displays| == |sources| && |sources| != 1
    requires FindDisplayIndex(displays, displayId) >= 0
    ensures SelectSource(displays, displayId, sources) == Some(sources[FindDisplayIndex(displays, displayId)])
  {
    assert FindSource(sources, displayId, |sources|) == |sources|;
  }

  /** When no source names the monitor and the counts differ, the first
      source is used. */
  lemma SelectFallback(displays: seq<Display>, displayId: int, sources: seq<Source>)
    requires forall i :: 0 <= i < |sources| ==> !NamesDisplay(sources[i], displayId)
    requires |displays| != |sources| && |sources| > 1
    ensures SelectSource(displays, displayId, sources) == Some(sources[0])
  {
    assert FindSource(sources, displayId, |sources|) == |sources|;
  }

  /** `captureDisplay`: the PNG written to the output path, taken from the
      source chosen for the monitor with the id. `sources` is what
      `getSources` gives and `write` how writing the file ends. */
  function CaptureDisplay(displays: seq<Display>, displayId: int, sources: Result<seq<Source>>, write: Result<()>): (r: Result<Bytes>)
    ensures FindDisplayIndex(displays, displayId) == -1 ==>
      r == Err("Display with ID " + ShowInt(displayId) + " not found")
    ensures FindDisplayIndex(displays, displayId) >= 0 && sources.Err? ==> r == Err(sources.error)
    ensures FindDisplayIndex(displays, displayId) >= 0 && sources == Ok([]) ==>
      r == Err("No screen sources available")
    ensures r.Ok? <==> FindDisplayIndex(displays, displayId) >= 0 && sources.Ok? && sources.value != [] && write.Ok?
    ensures FindDisplayIndex(displays, displayId) >= 0 && sources.Ok? && sources.value != [] && write.Err? ==>
      r == Err(write.error)
    ensures r.Ok? ==> r.value == SelectSource(displays, displayId, sources.value).value.png
  {
    if FindDisplayIndex(displays, displayId) == -1 then
      Err("Display with ID " + ShowInt(displayId) + " not found")
    else if sources.Err? then
      Err(sources.error)
    else
      match SelectSource(displays, displayId, sources.value)
      case None => Err("No screen sources available")
      case Some(s) => if write.Err? then Err(write.error) else Ok(s.png)
  }

  /** `captureAllDisplays`: the PNG of the first source, written to the
      output path. */
  function CaptureAllDisplays(sources: Result<seq<Source>>, write: Result<()>): (r: Result<Bytes>)
    ensures sources.Err? ==> r == Err(sources.error)
    ensures sources == Ok([]) ==> r == Err("No screen sources available")
    ensures sources.Ok? && sources.value != [] && write.Err? ==> r == Err(write.error)
    ensures r.Ok? <==> sources.Ok? && sources.value != [] && write.Ok?
    ensures r.Ok? ==> r.value == sources.value[0].png
  {
    if sources.Err? then Err(sources.error)
    else if sources.value == [] then Err("No screen sources available")
    else if write.Err? then Err(write.error)
    else Ok(sources.value[0].png)
  }

  /** With a single monitor and a single source, capturing that monitor and
      capturing everything write the same image. */
  lemma SingleScreenCapturesAgree(d: Display, s: Source, write: Result<()>)
    ensures CaptureDisplay([d], d.id, Ok([s]), write) == CaptureAllDisplays(Ok([s]), write)
  {
    SelectSingle([d], d.id, s);
  }
}
