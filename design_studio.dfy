/**
 * The design studio screen: six independent selections, each drawn from a
 * fixed table or slider grid, and the design record snapshotted from them
 * together with the foot photos handed in by the scanner.
 */
module DesignStudioPage {
  import opened Wrappers

  /** One selectable card: the id stored in the selection and its display name. */
  datatype Choice = Choice(id: string, name: string)

  const Styles: seq<Choice> :=
    [Choice("athletic", "Athletic"), Choice("casual", "Casual"), Choice("formal", "Formal")]

  const Materials: seq<Choice> :=
    [Choice("flexible", "Flexible TPU"), Choice("rigid", "Rigid PLA"), Choice("textured", "Textured PETG")]

  const Colors: seq<string> :=
    ["#2563EB", "#DC2626", "#059669", "#D97706",
     "#7C3AED", "#DB2777", "#0891B2", "#65A30D",
     "#374151", "#FFFFFF", "#000000", "#F59E0B"]

  const ToeShapes: seq<Choice> :=
    [Choice("rounded", "Rounded"), Choice("pointed", "Pointed"), Choice("square", "Square")]

  // The two sliders' declared ranges: heel height in mm, arch support in percent.
  const HeelMin := 5
  const HeelMax := 50
  const HeelStep := 5
  const ArchMin := 0
  const ArchMax := 100
  const ArchStep := 10

  /** `v` is a value a slider with these bounds and step can produce. */
  predicate OnGrid(v: int, lo: int, hi: int, step: int)
    requires step > 0
  {
    lo <= v <= hi && (v - lo) % step == 0
  }

  /** A slider's value array as the Slider component hands it over: one thumb on the grid. */
  predicate SliderValue(v: seq<int>, lo: int, hi: int, step: int)
    requires step > 0
  {
    |v| == 1 && OnGrid(v[0], lo, hi, step)
  }

  /** The ids of a table, in table order. */
  function Ids(table: seq<Choice>): (ids: seq<string>)
    ensures |ids| == |table|
    ensures forall i :: 0 <= i < |table| ==> ids[i] == table[i].id
  {
    if table == [] then [] else [table[0].id] + Ids(table[1..])
  }

  /** `Array.prototype.find` on a table by id: the first entry with that id, if any. */
  function Find(table: seq<Choice>, id: string): (r: Option<Choice>)
    ensures r.Some? <==> id in Ids(table)
    ensures r.Some? ==> r.value in table && r.value.id == id
    ensures r.Some? ==> exists k :: 0 <= k < |table| && table[k] == r.value && forall j :: 0 <= j < k ==> table[j].id != id
  {
    if table == [] then None
    else if table[0].id == id then Some(table[0])
    else Find(table[1..], id)
  }

  /** Optional chaining `entry?.name`. */
  function NameOf(entry: Option<Choice>): Option<string>
  {
    if entry.Some? then Some(entry.value.name) else None
  }

  /**
   * The material display name used by the preview specifications and the
   * download summary: two named ids, and every other value falls through to
   * the third name.
   */
  function MaterialLabel(material: string): (name: string)
    ensures name == "Flexible TPU" <==> material == "flexible"
    ensures name == "Rigid PLA" <==> material == "rigid"
    ensures name == "Textured PETG" <==> material != "flexible" && material != "rigid"
  {
    if material == "flexible" then "Flexible TPU"
    else if material == "rigid" then "Rigid PLA"
    else "Textured PETG"
  }

  /** The design record passed to the preview and download screens. */
  datatype DesignRecord = DesignRecord(
    style: string,
    material: string,
    color: string,
    heelHeight: int,
    archSupport: int,
    toeShape: string,
    photos: seq<string>,
    timestamp: int)

  /** Every selection field of a record lies in the domain the screen offers. */
  predicate InDomain(d: DesignRecord)
  {
    d.style in Ids(Styles) && d.material in Ids(Materials) && d.color in Colors &&
    OnGrid(d.heelHeight, HeelMin, HeelMax, HeelStep) &&
    OnGrid(d.archSupport, ArchMin, ArchMax, ArchStep) &&
    d.toeShape in Ids(ToeShapes)
  }

  /** The summary panel's material name and the preview/download label agree on every table id. */
  lemma MaterialLookupAgrees(id: string)
    requires id in Ids(Materials)
    ensures Find(Materials, id).Some?
    ensures Find(Materials, id).value.name == MaterialLabel(id)
  {
    var ids := Ids(Materials);
    assert ids == ["flexible", "rigid", "textured"];
  }

  /** The thumbnail strip: `photos.slice(0, 4)`. */
  function Thumbnails(photos: seq<string>): (shown: seq<string>)
    ensures |shown| <= 4
    ensures |shown| == if |photos| < 4 then |photos| else 4
    ensures forall i :: 0 <= i < |shown| ==> shown[i] == photos[i]
  {
    if |photos| <= 4 then photos else photos[..4]
  }

  /** The selection state of the design studio screen. */
  class Studio {
    var selectedStyle: string
    var selectedMaterial: string
    var selectedColor: string
    var heelHeight: seq<int>
    var archSupport: seq<int>
    var toeShape: string
    const photos: seq<string>

    /** Every selection holds a value the screen can offer. */
    ghost predicate Valid()
      reads this
    {
      selectedStyle in Ids(Styles) && selectedMaterial in Ids(Materials) &&
      selectedColor in Colors && toeShape in Ids(ToeShapes) &&
      SliderValue(heelHeight, HeelMin, HeelMax, HeelStep) &&
      SliderValue(archSupport, ArchMin, ArchMax, ArchStep)
    }

    constructor (photos: seq<string>)
      ensures Valid()
      ensures selectedStyle == "athletic" && selectedMaterial == "flexible"
      ensures selectedColor == "#2563EB" && heelHeight == [15] && archSupport == [50]
      ensures toeShape == "rounded" && this.photos == photos
    {
      selectedStyle := "athletic";
      selectedMaterial := "flexible";
      selectedColor := "#2563EB";
      heelHeight := [15];
      archSupport := [50];
      toeShape := "rounded";
      this.photos := photos;
      new;
      assert Ids(Styles)[0] == Styles[0].id;
      assert Ids(Materials)[0] == Materials[0].id;
      assert Ids(ToeShapes)[0] == ToeShapes[0].id;
    }

    /** A click on the `i`-th style card. */
    method SelectStyle(i: nat)
      requires Valid() && i < |Styles|
      modifies this
      ensures Valid() && selectedStyle == Styles[i].id
      ensures selectedMaterial == old(selectedMaterial) && selectedColor == old(selectedColor)
      ensures heelHeight == old(heelHeight) && archSupport == old(archSupport) && toeShape == old(toeShape)
    {
      selectedStyle := Styles[i].id;
    }

    /** A click on the `i`-th material card. */
    method SelectMaterial(i: nat)
      requires Valid() && i < |Materials|
      modifies this
      ensures Valid() && selectedMaterial == Materials[i].id
      ensures selectedStyle == old(selectedStyle) && selectedColor == old(selectedColor)
      ensures heelHeight == old(heelHeight) && archSupport == old(archSupport) && toeShape == old(toeShape)
    {
      selectedMaterial := Materials[i].id;
    }

    /** A click on the `i`-th palette swatch. */
    method SelectColor(i: nat)
      requires Valid() && i < |Colors|
      modifies this
      ensures Valid() && selectedColor == Colors[i]
      ensures selectedStyle == old(selectedStyle) && selectedMaterial == old(selectedMaterial)
      ensures heelHeight == old(heelHeight) && archSupport == old(archSupport) && toeShape == old(toeShape)
    {
      selectedColor := Colors[i];
    }

    /** A click on the `i`-th toe shape card. */
    method SelectToeShape(i: nat)
      requires Valid() && i < |ToeShapes|
      modifies this
      ensures Valid() && toeShape == ToeShapes[i].id
      ensures selectedStyle == old(selectedStyle) && selectedMaterial == old(selectedMaterial)
      ensures selectedColor == old(selectedColor) && heelHeight == old(heelHeight) && archSupport == old(archSupport)
    {
      toeShape := ToeShapes[i].id;
    }

    /** The heel slider's change handler; the slider only hands over values on its grid. */
    method SetHeelHeight(value: seq<int>)
      requires Valid() && SliderValue(value, HeelMin, HeelMax, HeelStep)
      modifies this
      ensures Valid() && heelHeight == value
      ensures selectedStyle == old(selectedStyle) && selectedMaterial == old(selectedMaterial)
      ensures selectedColor == old(selectedColor) && archSupport == old(archSupport) && toeShape == old(toeShape)
    {
      heelHeight := value;
    }

    /** The arch slider's change handler; the slider only hands over values on its grid. */
    method SetArchSupport(value: seq<int>)
      requires Valid() && SliderValue(value, ArchMin, ArchMax, ArchStep)
      modifies this
      ensures Valid() && archSupport == value
      ensures selectedStyle == old(selectedStyle) && selectedMaterial == old(selectedMaterial)
      ensures selectedColor == old(selectedColor) && heelHeight == old(heelHeight) && toeShape == old(toeShape)
    {
      archSupport := value;
    }

    /**
     * The record handed to the wizard: each selection copied field for field,
     * the sliders' first thumbs, the photos prop unchanged and the given time.
     */
    function GenerateDesign(timestamp: int): (d: DesignRecord)
      reads this
      requires Valid()
      ensures InDomain(d)
      ensures d.style == selectedStyle && d.material == selectedMaterial && d.color == selectedColor
      ensures d.heelHeight == heelHeight[0] && d.archSupport == archSupport[0] && d.toeShape == toeShape
      ensures d.photos == photos && d.timestamp == timestamp
    {
      DesignRecord(selectedStyle, selectedMaterial, selectedColor,
                   heelHeight[0], archSupport[0], toeShape, photos, timestamp)
    }

    /** The summary panel's material name: never missing while the selection is valid. */
    function SummaryMaterial(): (name: Option<string>)
      reads this
      requires Valid()
      ensures name == Some(MaterialLabel(selectedMaterial))
    {
      MaterialLookupAgrees(selectedMaterial);
      NameOf(Find(Materials, selectedMaterial))
    }
  }

  /** Two snapshots of unchanged selections differ in their timestamps only. */
  lemma GenerateTwiceDiffersOnlyInTimestamp(s: Studio, t1: int, t2: int)
    requires s.Valid()
    ensures s.GenerateDesign(t1).(timestamp := t2) == s.GenerateDesign(t2)
  {
  }
}
