/**
 * The parameter editor's page handling: leaving a page notifies each of its
 * parameters that its editor is going away, and laying out a page walks the
 * parameters with a bounded group-nesting level driven by group-begin and
 * group-end markers. Widgets, labels and spacers are not modelled.
 */
module ParamEditor {

  /** The deepest group nesting a page is laid out with. */
  const MaxGroupLevel: nat := 16

  /** What a parameter is to the layout walk. */
  datatype ParamKind = LineSeparator | GroupBegin | GroupEnd | Plain

  /** A parameter of a page; `kind` says how the layout walk treats it. */
  class Parameter {
    const name: string
    const kind: ParamKind
    constructor (name: string, kind: ParamKind)
      ensures this.name == name && this.kind == kind
    {
      this.name := name;
      this.kind := kind;
    }
  }

  /** A page: an ordered parameter set. */
  class ParameterSet {
    var params: seq<Parameter>
    constructor (params: seq<Parameter>)
      ensures this.params == params
    {
      this.params := params;
    }
  }

  /** A layout grid: the page's own, or the one opened for the group parameter at an index. */
  datatype Grid = PageGrid | GroupGrid(param: nat)

  // ------------------------------------------------------------------ the level walk

  /**
   * The level after one parameter: a group begin opens a level unless the
   * maximum is reached, a group end closes one unless none is open, anything
   * else leaves the level alone.
   */
  function NextLevel(level: nat, kind: ParamKind): (next: nat)
    ensures level <= MaxGroupLevel ==> next <= MaxGroupLevel
    ensures kind.LineSeparator? || kind.Plain? ==> next == level
    ensures kind.GroupBegin? && level < MaxGroupLevel ==> next == level + 1
    ensures kind.GroupEnd? && level > 0 ==> next == level - 1
    ensures kind.GroupBegin? && level >= MaxGroupLevel ==> next == level
    ensures kind.GroupEnd? && level == 0 ==> next == 0
  {
    match kind
    case GroupBegin => if level < MaxGroupLevel then level + 1 else level
    case GroupEnd => if level > 0 then level - 1 else level
    case LineSeparator => level
    case Plain => level
  }

  /** The level after walking `kinds` from level 0. */
  function LevelAfter(kinds: seq<ParamKind>): (level: nat)
    ensures level <= MaxGroupLevel
    decreases |kinds|
  {
    if kinds == [] then 0
    else NextLevel(LevelAfter(kinds[..|kinds| - 1]), kinds[|kinds| - 1])
  }

  /** No group begin meets a full stack and no group end meets an empty one. */
  ghost predicate Unsaturated(kinds: seq<ParamKind>)
  {
    forall i :: 0 <= i < |kinds| ==>
      && (kinds[i].GroupBegin? ==> LevelAfter(kinds[..i]) < MaxGroupLevel)
      && (kinds[i].GroupEnd? ==> LevelAfter(kinds[..i]) > 0)
  }

  /** Without saturation the final level is the number of group begins minus the number of group ends. */
  lemma {:induction false} UnsaturatedLevelCountsMarkers(kinds: seq<ParamKind>)
    requires Unsaturated(kinds)
    ensures LevelAfter(kinds) == multiset(kinds)[GroupBegin] as int - multiset(kinds)[GroupEnd] as int
    decreases |kinds|
  {
    if kinds != [] {
      var pre := kinds[..|kinds| - 1];
      assert kinds == pre + [kinds[|kinds| - 1]];
      assert Unsaturated(pre) by {
        forall i | 0 <= i < |pre|
          ensures && (pre[i].GroupBegin? ==> LevelAfter(pre[..i]) < MaxGroupLevel)
                  && (pre[i].GroupEnd? ==> LevelAfter(pre[..i]) > 0)
        {
          assert pre[..i] == kinds[..i];
        }
      }
      UnsaturatedLevelCountsMarkers(pre);
      assert kinds[..|kinds| - 1] == pre;
    }
  }

  /** Separators and plain parameters never move the level: dropping them leaves the walk's result alone. */
  lemma {:induction false} NonMarkersDoNotMoveLevel(kinds: seq<ParamKind>, k: ParamKind)
    requires k.LineSeparator? || k.Plain?
    ensures LevelAfter(kinds + [k]) == LevelAfter(kinds)
  {
    assert (kinds + [k])[..|kinds + [k]| - 1] == kinds;
  }

  /** The slots of the per-level grid array written while walking `kinds`, in order; `LayoutPage` writes exactly these. */
  function GridSlotsWritten(kinds: seq<ParamKind>): (slots: seq<nat>)
    ensures forall i :: 0 <= i < |slots| ==> 1 <= slots[i] <= MaxGroupLevel
    ensures |slots| <= |kinds|
    decreases |kinds|
  {
    if kinds == [] then []
    else
      var pre := kinds[..|kinds| - 1];
      var level := LevelAfter(pre);
      GridSlotsWritten(pre) +
        (if kinds[|kinds| - 1].GroupBegin? && level < MaxGroupLevel then [level + 1] else [])
  }

  /** The number of slots of the per-level grid array in the source as written. */
  const AsWrittenGridSlots: nat := MaxGroupLevel

  /** `k` group begins in a row reach level `k` (up to the maximum). */
  lemma {:induction false} NestedBeginsLevel(k: nat)
    requires k <= MaxGroupLevel
    ensures LevelAfter(seq(k, _ => GroupBegin)) == k
  {
    if k > 0 {
      NestedBeginsLevel(k - 1);
      assert seq(k, _ => GroupBegin)[..k - 1] == seq(k - 1, _ => GroupBegin);
    }
  }

  /**
   * As written, the grid array has `MaxGroupLevel` slots, yet a page of
   * sixteen nested group begins writes the slot whose index is that length:
   * one past the end.
   */
  lemma SixteenNestedGroupsOverrunAsWritten()
    ensures AsWrittenGridSlots in GridSlotsWritten(seq(MaxGroupLevel, _ => GroupBegin))
  {
    var ks := seq(MaxGroupLevel, _ => GroupBegin);
    var pre := ks[..MaxGroupLevel - 1];
    assert pre == seq(MaxGroupLevel - 1, _ => GroupBegin);
    NestedBeginsLevel(MaxGroupLevel - 1);
    var w := GridSlotsWritten(ks);
    assert w == GridSlotsWritten(pre) + [MaxGroupLevel];
    assert w[|w| - 1] == MaxGroupLevel;
  }

  /** The kinds of a page's parameters, in order. */
  function Kinds(params: seq<Parameter>): (kinds: seq<ParamKind>)
    ensures |kinds| == |params|
    ensures forall i :: 0 <= i < |params| ==> kinds[i] == params[i].kind
  {
    seq(|params|, i requires 0 <= i < |params| => params[i].kind)
  }

  /**
   * The layout walk over a page, with the grid array one slot larger than in
   * the source so that the deepest level has a slot. Each group begin that
   * opens a level makes a new grid the current one and records it for that
   * level; each group end that closes a level returns to the enclosing grid.
   */
  method LayoutPage(params: seq<Parameter>) returns (level: nat, grid: Grid, grids: array<Grid>, ghost written: seq<nat>)
    ensures grids.Length == MaxGroupLevel + 1
    ensures written == GridSlotsWritten(Kinds(params))
    ensures level == LevelAfter(Kinds(params))
    ensures grids[0] == PageGrid && grid == grids[level]
    ensures forall j :: 1 <= j <= level ==>
      grids[j].GroupGrid? && grids[j].param < |params| && params[grids[j].param].kind == GroupBegin
  {
    ghost var kinds := Kinds(params);
    grids := new Grid[MaxGroupLevel + 1](_ => PageGrid);
    level := 0;
    grid := PageGrid;
    grids[0] := grid;
    written := [];
    var i := 0;
    while i < |params|
      invariant 0 <= i <= |params|
      invariant level == LevelAfter(kinds[..i])
      invariant written == GridSlotsWritten(kinds[..i])
      invariant grids.Length == MaxGroupLevel + 1
      invariant grids[0] == PageGrid && grid == grids[level]
      invariant forall j :: 1 <= j <= level ==>
        grids[j].GroupGrid? && grids[j].param < i && params[grids[j].param].kind == GroupBegin
    {
      var kind := params[i].kind;
      match kind {
        case LineSeparator =>
        case GroupBegin =>
          if level < MaxGroupLevel {
            level := level + 1;
            grid := GroupGrid(i);
            grids[level] := grid;
            written := written + [level];
          }
        case GroupEnd =>
          if level > 0 {
            level := level - 1;
            grid := grids[level];
          }
        case Plain =>
          // The parameter's editor is created and placed in `grid`.
      }
      assert kinds[..i + 1][..i] == kinds[..i];
      i := i + 1;
    }
    assert kinds[..|params|] == kinds;
    grid := grids[level];
  }

  // ------------------------------------------------------------------ the dialog

  class ParameterEditorDlg {
    /** The page shown, if any. */
    var currentPage: ParameterSet?
    /** The editor-deletion notifications sent so far, one entry per notified parameter. */
    var notified: seq<Parameter>

    constructor ()
      ensures currentPage == null && notified == []
    {
      currentPage := null;
      notified := [];
    }

    /** The parameters of the current page; none without a page. */
    function PageParams(): seq<Parameter>
      reads this, currentPage
    {
      if currentPage == null then [] else currentPage.params
    }

    /** Notifies every parameter of the current page once, in index order; nothing without a page. */
    method ParameterPageExited()
      modifies this`notified
      ensures notified == old(notified) + PageParams()
    {
      if currentPage != null {
        var i := 0;
        while i < |currentPage.params|
          invariant 0 <= i <= |currentPage.params|
          invariant notified == old(notified) + currentPage.params[..i]
        {
          notified := notified + [currentPage.params[i]];
          i := i + 1;
        }
      }
    }

    /**
     * Leaves the old page (notifying its parameters), makes `page` current and,
     * unless it is null, lays it out.
     */
    method ReloadParameterPage(page: ParameterSet?)
      modifies this`notified, this`currentPage
      ensures notified == old(notified) + old(PageParams())
      ensures currentPage == page
    {
      ParameterPageExited();
      currentPage := page;
      if currentPage == null {
        return;
      }
      var level, grid, grids, written := LayoutPage(currentPage.params);
    }
  }
}
