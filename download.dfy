/**
 * The download screen: a simulated file generation driven by a 300 ms
 * interval whose callback counts progress up by 10, and, once progress has
 * reached 100, publishes the fixed list of placeholder files.
 */
module DownloadPage {
  import opened Wrappers
  import DesignStudioPage

  /** The four placeholder files, in list order. */
  const FileNames: seq<string> := ["shoe_upper.stl", "shoe_sole.stl", "print_settings.json", "assembly_guide.pdf"]

  /**
   * The generation state. `ticking` stands for a live interval: set when
   * generation starts, cleared by the callback's `clearInterval`.
   */
  datatype GenState = GenState(progress: int, isGenerating: bool, generatedFiles: seq<string>, ticking: bool)

  const Initial := GenState(0, false, [], false)

  /** The generate button's handler: generating, progress reset, interval started. */
  function Generate(s: GenState): (r: GenState)
    ensures r.isGenerating && r.ticking && r.progress == 0
    ensures r.generatedFiles == s.generatedFiles
  {
    s.(isGenerating := true, progress := 0, ticking := true)
  }

  /** One interval callback. */
  function Tick(s: GenState): (r: GenState)
    ensures s.progress < 100 ==> r == s.(progress := s.progress + 10)
    ensures s.progress >= 100 ==>
              r.progress == 100 && !r.isGenerating && !r.ticking && r.generatedFiles == FileNames
  {
    if s.progress >= 100 then
      s.(ticking := false, isGenerating := false, generatedFiles := FileNames, progress := 100)
    else
      s.(progress := s.progress + 10)
  }

  /** `n` interval periods: the callback runs while the interval is live. */
  function Ticks(s: GenState, n: nat): (r: GenState)
    ensures n == 0 || !s.ticking ==> r == s
    ensures r.ticking ==>
              r.generatedFiles == s.generatedFiles && r.isGenerating == s.isGenerating && r.progress >= s.progress
    ensures s.ticking && !r.ticking ==>
              r.progress == 100 && !r.isGenerating && r.generatedFiles == FileNames
    decreases n
  {
    if n == 0 || !s.ticking then s else Ticks(Tick(s), n - 1)
  }

  /**
   * From the start of generation, after `n` periods: progress is `10 n` and
   * nothing is published while `n <= 10`; the 11th callback publishes the
   * files, stops generating and clears the interval, and nothing changes
   * after that.
   */
  lemma {:induction false} TicksFromStart(n: nat)
    ensures n <= 10 ==> Ticks(Generate(Initial), n) == GenState(10 * n, true, [], true)
    ensures n >= 11 ==> Ticks(Generate(Initial), n) == GenState(100, false, FileNames, false)
  {
    if n > 0 {
      TicksFromStart(n - 1);
      var prev := Ticks(Generate(Initial), n - 1);
      TicksStep(Generate(Initial), n - 1);
      assert Ticks(Generate(Initial), n) == if prev.ticking then Tick(prev) else prev;
    }
  }

  /** The last period of a run of `n + 1` is one more callback, if the interval is still live. */
  lemma {:induction false} TicksStep(s: GenState, n: nat)
    ensures Ticks(s, n + 1) == (var p := Ticks(s, n); if p.ticking then Tick(p) else p)
    decreases n
  {
    if n > 0 && s.ticking {
      TicksStep(Tick(s), n - 1);
    }
  }

  /** Progress stays on the grid 0, 10, ..., 100 throughout a generation. */
  lemma ProgressOnGrid(n: nat)
    ensures 0 <= Ticks(Generate(Initial), n).progress <= 100
    ensures Ticks(Generate(Initial), n).progress % 10 == 0
  {
    TicksFromStart(n);
  }

  /** The files appear on exactly the 11th callback. */
  lemma FilesAppearOnEleventhTick(n: nat)
    ensures Ticks(Generate(Initial), n).generatedFiles != [] <==> n >= 11
  {
    TicksFromStart(n);
  }

  /** Which of the three panels of the generation card are shown. */
  datatype Panels = Panels(idle: bool, progressBar: bool, fileList: bool)

  function ShownPanels(s: GenState): (p: Panels)
    ensures p.idle <==> !s.isGenerating && |s.generatedFiles| == 0
    ensures p.progressBar <==> s.isGenerating
    ensures p.fileList <==> |s.generatedFiles| > 0
  {
    Panels(!s.isGenerating && |s.generatedFiles| == 0, s.isGenerating, |s.generatedFiles| > 0)
  }

  /** Exactly one panel is shown: idle before starting, then the bar, then the list. */
  predicate ExactlyOne(p: Panels)
  {
    (if p.idle then 1 else 0) + (if p.progressBar then 1 else 0) + (if p.fileList then 1 else 0) == 1
  }

  lemma OnePanelAtATime(n: nat)
    ensures ShownPanels(Initial).idle && ExactlyOne(ShownPanels(Initial))
    ensures ExactlyOne(ShownPanels(Ticks(Generate(Initial), n)))
    ensures ShownPanels(Ticks(Generate(Initial), n)).fileList <==> n >= 11
  {
    TicksFromStart(n);
  }

  /** A mock download: the anchor's text content and its download name. */
  datatype MockDownload = MockDownload(content: string, downloadName: string)

  /** The placeholder file for `fileName`; the name can be read back out of the content. */
  function MockFile(fileName: string): (d: MockDownload)
    ensures d.downloadName == fileName
    ensures |d.content| == |fileName| + 13
    ensures d.content[..5] == "Mock " && d.content[|d.content| - 8..] == " content"
    ensures d.content[5..|d.content| - 8] == fileName
  {
    MockDownload("Mock " + fileName + " content", fileName)
  }

  /** `firing` orders the file list indices: each of the four exactly once. */
  predicate FiringOrder(firing: seq<nat>)
  {
    multiset(firing) == multiset{0, 1, 2, 3}
  }

  /**
   * "Download all": one download per file, started after a random delay, so
   * in an unpredictable order; `firing` is that order.
   */
  function DownloadAll(firing: seq<nat>): (ds: seq<MockDownload>)
    requires FiringOrder(firing)
    ensures |ds| == |FileNames|
    ensures forall j :: 0 <= j < |FileNames| ==> exists i :: 0 <= i < |ds| && ds[i] == MockFile(FileNames[j])
  {
    assert |firing| == |multiset{0, 1, 2, 3}| == 4;
    assert forall i :: 0 <= i < |firing| ==> firing[i] in multiset(firing);
    var ds := seq(|firing|, i requires 0 <= i < |firing| => MockFile(FileNames[firing[i]]));
    assert forall j :: 0 <= j < |FileNames| ==> exists i :: 0 <= i < |ds| && ds[i] == MockFile(FileNames[j]) by {
      forall j | 0 <= j < |FileNames|
        ensures exists i :: 0 <= i < |ds| && ds[i] == MockFile(FileNames[j])
      {
        assert j in multiset(firing);
        var i :| 0 <= i < |firing| && firing[i] == j;
        assert ds[i] == MockFile(FileNames[j]);
      }
    }
    ds
  }

  /** The summary card's material line, the same label the preview uses. */
  function SummaryMaterial(design: DesignStudioPage.DesignRecord): (name: string)
    ensures design.material == "flexible" ==> name == "Flexible TPU"
    ensures design.material == "rigid" ==> name == "Rigid PLA"
    ensures design.material != "flexible" && design.material != "rigid" ==> name == "Textured PETG"
  {
    DesignStudioPage.MaterialLabel(design.material)
  }

  /** The download screen's component state, updated in place by its handlers. */
  class Generator {
    var downloadProgress: int
    var isGenerating: bool
    var generatedFiles: seq<string>
    var ticking: bool

    function State(): GenState
      reads this
    {
      GenState(downloadProgress, isGenerating, generatedFiles, ticking)
    }

    constructor ()
      ensures State() == Initial
    {
      downloadProgress, isGenerating, generatedFiles, ticking := 0, false, [], false;
    }

    method HandleGenerateFiles()
      modifies this
      ensures State() == Generate(old(State()))
      ensures isGenerating && downloadProgress == 0 && ticking && generatedFiles == old(generatedFiles)
    {
      isGenerating := true;
      downloadProgress := 0;
      ticking := true;
    }

    /** The interval callback. */
    method OnTick()
      modifies this
      ensures State() == Tick(old(State()))
      ensures old(downloadProgress) < 100 ==>
                downloadProgress == old(downloadProgress) + 10 && isGenerating == old(isGenerating) &&
                generatedFiles == old(generatedFiles) && ticking == old(ticking)
      ensures old(downloadProgress) >= 100 ==>
                downloadProgress == 100 && !isGenerating && generatedFiles == FileNames && !ticking
    {
      if downloadProgress >= 100 {
        ticking := false;
        isGenerating := false;
        generatedFiles := FileNames;
        downloadProgress := 100;
      } else {
        downloadProgress := downloadProgress + 10;
      }
    }
  }
}
