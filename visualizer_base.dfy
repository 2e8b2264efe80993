/**
 * The non-DOM logic of the visualizer base class (src/visualizerBase.ts): its palette, series and
 * name fallbacks, its toolbar-item creators, the `showHeader` setter, the lazily created footer
 * visualizer and the `destroy`/`updateData` lifecycle. DOM elements are opaque handles; what a
 * container holds is tracked only for the toolbar.
 */
module Visualizer {
  import opened Wrappers

  /** A DOM element, abstracted to a handle; a toolbar is an element that holds its items. */
  datatype Element = Element(id: nat) | Toolbar(items: seq<Element>)

  /** What the visualizer reads of its question. */
  datatype Question = Question(name: string, title: string, hasComment: bool, hasOther: bool)

  /** One response record. */
  type Record = map<string, string>

  /** The options the visualizer reads: whether a data provider was supplied, and the series. */
  datatype Options = Options(
    hasDataProvider: bool,
    seriesValues: Option<seq<string>>,
    seriesLabels: Option<seq<string>>)

  /** A toolbar-item creator, known by what it returns: an element, or nothing (a falsy result). */
  datatype ToolbarItemCreator = ToolbarItemCreator(result: Option<Element>)

  /** The visualizer of the question's comment and "other" answers. `serial` tells instances apart;
      `updates` lists the data forwarded to it by `updateData`, oldest first. */
  datatype Footer = Footer(serial: nat, questionName: string, title: string, updates: seq<seq<Record>>)

  // ------------------------------------------------------------------ colours

  /** The built-in palette. */
  const DefaultColors: seq<string> := [
    "#86e1fb", "#3999fb", "#ff6771", "#1eb496", "#ffc152",
    "#aba1ff", "#7d8da5", "#4ec46c", "#cf37a6", "#4e6198"]

  /** The palette `getColors` repeats: the custom colours when there are any, the built-in ten otherwise. */
  function Palette(customColors: seq<string>): (palette: seq<string>)
    ensures |palette| > 0
    ensures |customColors| > 0 ==> palette == customColors
    ensures |customColors| == 0 ==> palette == DefaultColors && |palette| == 10
  {
    if |customColors| > 0 then customColors else DefaultColors
  }

  /** `count` copies of the palette, one after the other. */
  function Repeat(palette: seq<string>, count: nat): seq<string> {
    if count == 0 then [] else Repeat(palette, count - 1) + palette
  }

  lemma {:induction false} RepeatLength(palette: seq<string>, count: nat)
    ensures |Repeat(palette, count)| == count * |palette|
  {
    if count > 0 {
      RepeatLength(palette, count - 1);
      assert count * |palette| == (count - 1) * |palette| + |palette|;
    }
  }

  /** Colour `i` of the repetition is colour `i mod n` of an `n`-colour palette. */
  lemma {:induction false} RepeatAt(palette: seq<string>, count: nat, i: nat)
    requires |palette| > 0 && i < count * |palette|
    ensures |Repeat(palette, count)| == count * |palette|
    ensures Repeat(palette, count)[i] == palette[i % |palette|]
  {
    RepeatLength(palette, count);
    var n := |palette|;
    assert count * n == (count - 1) * n + n;
    RepeatLength(palette, count - 1);
    if i < (count - 1) * n {
      RepeatAt(palette, count - 1, i);
    } else {
      var k := i - (count - 1) * n;
      assert 0 <= k < n;
      ModUnique(i, n, count - 1, k);
    }
  }

  lemma {:induction false} MulAtLeast(m: int, n: int)
    requires m >= 1 && n > 0
    ensures m * n >= n
  {
    if m > 1 {
      MulAtLeast(m - 1, n);
      assert m * n == (m - 1) * n + n;
    }
  }

  /** The remainder of Euclidean division is unique. */
  lemma ModUnique(x: int, n: int, q: int, r: int)
    requires n > 0 && 0 <= r < n && x == q * n + r
    ensures x % n == r
  {
    var q', r' := x / n, x % n;
    var m := q - q';
    assert m * n == r' - r by {
      assert q * n - q' * n == (q - q') * n;
    }
    if m >= 1 {
      MulAtLeast(m, n);
    } else if m <= -1 {
      MulAtLeast(-m, n);
    }
  }

  // ---------------------------------------------------------------- toolbar

  /** What `createToolbarItems` appends: each creator's element, in registration order, skipping
      creators that return nothing. */
  function ToolbarItems(names: seq<string>, creators: map<string, ToolbarItemCreator>): (items: seq<Element>)
    requires forall n :: n in names ==> n in creators
    ensures |items| <= |names|
  {
    if names == [] then []
    else
      var last := names[|names| - 1];
      ToolbarItems(names[..|names| - 1], creators)
      + (if creators[last].result.Some? then [creators[last].result.value] else [])
  }

  /** Every element on the toolbar is what some registered creator returns. */
  lemma {:induction false} ToolbarItemsSound(names: seq<string>, creators: map<string, ToolbarItemCreator>, e: Element)
    requires forall n :: n in names ==> n in creators
    requires e in ToolbarItems(names, creators)
    ensures exists n :: n in names && creators[n].result == Some(e)
  {
    var init, last := names[..|names| - 1], names[|names| - 1];
    if e in ToolbarItems(init, creators) {
      ToolbarItemsSound(init, creators, e);
      var n :| n in init && creators[n].result == Some(e);
      assert n in names;
    } else {
      assert creators[last].result == Some(e);
    }
  }

  /** Every registered creator that returns an element puts it on the toolbar. */
  lemma {:induction false} ToolbarItemsComplete(names: seq<string>, creators: map<string, ToolbarItemCreator>, n: string)
    requires forall m :: m in names ==> m in creators
    requires n in names && creators[n].result.Some?
    ensures creators[n].result.value in ToolbarItems(names, creators)
  {
    var init, last := names[..|names| - 1], names[|names| - 1];
    if n != last {
      assert names == init + [last];
      assert n in init;
      ToolbarItemsComplete(init, creators, n);
    }
  }

  /** How many registered creators return an element. */
  function ProducingCount(names: seq<string>, creators: map<string, ToolbarItemCreator>): nat
    requires forall n :: n in names ==> n in creators
  {
    if names == [] then 0
    else (if creators[names[0]].result.Some? then 1 else 0) + ProducingCount(names[1..], creators)
  }

  /** Items keep registration order: the items of earlier creators come first. */
  lemma {:induction false} ToolbarItemsAppend(a: seq<string>, b: seq<string>, creators: map<string, ToolbarItemCreator>)
    requires forall n :: n in a + b ==> n in creators
    ensures ToolbarItems(a + b, creators) == ToolbarItems(a, creators) + ToolbarItems(b, creators)
  {
    if b == [] {
      assert a + b == a;
    } else {
      assert (a + b)[..|a + b| - 1] == a + b[..|b| - 1];
      ToolbarItemsAppend(a, b[..|b| - 1], creators);
    }
  }

  /** Each creator that returns an element contributes exactly one item, and the others none. */
  lemma {:induction false} ToolbarItemsCount(names: seq<string>, creators: map<string, ToolbarItemCreator>)
    requires forall n :: n in names ==> n in creators
    ensures |ToolbarItems(names, creators)| == ProducingCount(names, creators)
  {
    if names != [] {
      ToolbarItemsCount(names[1..], creators);
      ToolbarItemsAppend([names[0]], names[1..], creators);
      assert [names[0]] + names[1..] == names;
      assert ToolbarItems([names[0]], creators) == ToolbarItems([], creators)
        + (if creators[names[0]].result.Some? then [creators[names[0]].result.value] else []);
    }
  }

  /** The toolbar a header shows: a toolbar with the items when `showHeader` holds, nothing otherwise. */
  function ToolbarMarkup(showHeader: bool, items: seq<Element>): seq<Element> {
    if showHeader then [Toolbar(items)] else []
  }

  // ------------------------------------------------------------- the visualizer

  class VisualizerBase {
    const question: Option<Question>
    const options: Options
    /** The name given to the constructor, if any. */
    const givenName: Option<string>
    /** The suffix the survey library gives comment question names. */
    const commentPrefix: string

    var showHeader: bool
    var footer: Option<Footer>
    /** How many footer visualizers this visualizer has created. */
    var footersCreated: nat
    /** The footer visualizers `destroy` has disposed, oldest first. */
    var disposedFooters: seq<Footer>
    /** The data of the visualizer's own data provider. */
    var ownData: seq<Record>
    var renderResult: Option<Element>
    var toolbarContainer: Option<Element>
    var contentContainer: Option<Element>
    var footerContainer: Option<Element>
    /** What the toolbar container holds. */
    var toolbarContent: seq<Element>
    /** The names of the toolbar-item creators, in the order they were first registered. */
    var toolbarItemNames: seq<string>
    var toolbarItemCreators: map<string, ToolbarItemCreator>

    ghost predicate Valid()
      reads this
    {
      && (forall i, j :: 0 <= i < j < |toolbarItemNames| ==> toolbarItemNames[i] != toolbarItemNames[j])
      && (forall n :: n in toolbarItemNames <==> n in toolbarItemCreators)
      && (renderResult.Some? <==> toolbarContainer.Some?)
      && (renderResult.Some? <==> contentContainer.Some?)
      && (renderResult.Some? <==> footerContainer.Some?)
      && (footer.Some? ==> HasFooter() && footer.value.serial < footersCreated)
    }

    constructor (question: Option<Question>, data: seq<Record>, options: Options, givenName: Option<string>, commentPrefix: string)
      ensures Valid()
      ensures this.question == question && this.options == options
      ensures this.givenName == givenName && this.commentPrefix == commentPrefix
      ensures showHeader && footer == None && footersCreated == 0 && disposedFooters == []
      ensures ownData == (if options.hasDataProvider then [] else data)
      ensures renderResult == None && toolbarContent == []
      ensures toolbarItemNames == [] && toolbarItemCreators == map[]
    {
      this.question := question;
      this.options := options;
      this.givenName := givenName;
      this.commentPrefix := commentPrefix;
      showHeader := true;
      footer := None;
      footersCreated := 0;
      disposedFooters := [];
      ownData := if options.hasDataProvider then [] else data;
      renderResult, toolbarContainer, contentContainer, footerContainer := None, None, None, None;
      toolbarContent := [];
      toolbarItemNames := [];
      toolbarItemCreators := map[];
    }

    /** `hasFooter`: the question exists and takes a comment or an "other" answer. */
    predicate HasFooter() {
      question.Some? && (question.value.hasComment || question.value.hasOther)
    }

    /** `name`: the given name, or "visualizer" when none (or the empty one) was given; never empty. */
    function Name(): (name: string)
      ensures name != ""
      ensures name == givenName.GetOr("") || (name == "visualizer" && givenName.GetOr("") == "")
    {
      if givenName.Some? && givenName.value != "" then givenName.value else "visualizer"
    }

    /** `getSeriesValues`: the configured series values, or none. */
    function GetSeriesValues(): seq<string> {
      options.seriesValues.GetOr([])
    }

    /** `getSeriesLabels`: the configured series labels, falling back to the series values. */
    function GetSeriesLabels(): seq<string> {
      if options.seriesLabels.Some? then options.seriesLabels.value else GetSeriesValues()
    }

    /** `getColors(count)`: the palette repeated `count` times (no repetition for a count below one). */
    static method GetColors(customColors: seq<string>, count: int) returns (colors: seq<string>)
      ensures var palette := Palette(customColors);
        && |colors| == (if count < 0 then 0 else count) * |palette|
        && forall i :: 0 <= i < |colors| ==> colors[i] == palette[i % |palette|]
    {
      var palette := Palette(customColors);
      colors := [];
      var index := 0;
      while index < count
        invariant 0 <= index <= (if count < 0 then 0 else count)
        invariant colors == Repeat(palette, index)
      {
        colors := colors + palette;
        index := index + 1;
      }
      var n := if count < 0 then 0 else count;
      assert index == n;
      RepeatLength(palette, n);
      forall i | 0 <= i < |colors|
        ensures colors[i] == palette[i % |palette|]
      {
        RepeatAt(palette, n, i);
      }
    }

    /** `registerToolbarItem`: a new name is added at the end; an existing name keeps its place and
        gets the new creator. */
    method RegisterToolbarItem(name: string, creator: ToolbarItemCreator)
      requires Valid()
      modifies this
      ensures Valid()
      ensures toolbarItemCreators == old(toolbarItemCreators)[name := creator]
      ensures toolbarItemNames == if name in old(toolbarItemCreators) then old(toolbarItemNames) else old(toolbarItemNames) + [name]
      ensures showHeader == old(showHeader) && toolbarContent == old(toolbarContent)
      ensures footer == old(footer) && renderResult == old(renderResult)
      ensures toolbarContainer == old(toolbarContainer) && contentContainer == old(contentContainer)
      ensures footerContainer == old(footerContainer)
      ensures footersCreated == old(footersCreated) && disposedFooters == old(disposedFooters)
      ensures ownData == old(ownData)
    {
      if name !in toolbarItemCreators {
        toolbarItemNames := toolbarItemNames + [name];
      }
      toolbarItemCreators := toolbarItemCreators[name := creator];
    }

    /** `createToolbarItems`: appends every creator's element, in order, to the toolbar's children. */
    method CreateToolbarItems(toolbar: seq<Element>) returns (filled: seq<Element>)
      requires Valid()
      ensures filled == toolbar + ToolbarItems(toolbarItemNames, toolbarItemCreators)
    {
      filled := toolbar;
      var i := 0;
      while i < |toolbarItemNames|
        invariant 0 <= i <= |toolbarItemNames|
        invariant filled == toolbar + ToolbarItems(toolbarItemNames[..i], toolbarItemCreators)
      {
        var item := toolbarItemCreators[toolbarItemNames[i]].result;
        if item.Some? {
          filled := filled + [item.value];
        }
        assert toolbarItemNames[..i + 1][..i] == toolbarItemNames[..i];
        i := i + 1;
      }
      assert toolbarItemNames[..|toolbarItemNames|] == toolbarItemNames;
    }

    /** The `footerVisualizer` getter: nothing without a footer; otherwise the cached footer
        visualizer, created on first access for the question's comment. */
    method GetFooterVisualizer() returns (f: Option<Footer>)
      requires Valid()
      modifies this
      ensures Valid()
      ensures f.Some? <==> HasFooter()
      ensures f.Some? ==> footer == f
      ensures old(footer).Some? || !HasFooter() ==> unchanged(this) && f == old(footer)
      ensures old(footer).None? && HasFooter() ==>
        && f == Some(Footer(old(footersCreated), question.value.name + commentPrefix, question.value.title, []))
        && footersCreated == old(footersCreated) + 1
      ensures showHeader == old(showHeader) && toolbarContent == old(toolbarContent)
      ensures disposedFooters == old(disposedFooters) && ownData == old(ownData)
      ensures renderResult == old(renderResult) && toolbarContainer == old(toolbarContainer)
      ensures contentContainer == old(contentContainer) && footerContainer == old(footerContainer)
      ensures toolbarItemNames == old(toolbarItemNames) && toolbarItemCreators == old(toolbarItemCreators)
    {
      if !HasFooter() {
        return None;
      }
      if footer.None? {
        footer := Some(Footer(footersCreated, question.value.name + commentPrefix, question.value.title, []));
        footersCreated := footersCreated + 1;
      }
      f := footer;
    }

    /** `updateData`: replaces the own provider's data unless a provider was supplied, and forwards
        the data to the footer visualizer (creating it if need be) when there is a footer. */
    method UpdateData(data: seq<Record>)
      requires Valid()
      modifies this
      ensures Valid()
      ensures ownData == if options.hasDataProvider then old(ownData) else data
      ensures !HasFooter() ==> footer == old(footer) && footersCreated == old(footersCreated)
      ensures HasFooter() && old(footer).None? ==>
        && footer == Some(Footer(old(footersCreated), question.value.name + commentPrefix, question.value.title, [data]))
        && footersCreated == old(footersCreated) + 1
      ensures HasFooter() && old(footer).Some? ==>
        && footer == Some(old(footer).value.(updates := old(footer).value.updates + [data]))
        && footersCreated == old(footersCreated)
      ensures showHeader == old(showHeader) && toolbarContent == old(toolbarContent)
      ensures disposedFooters == old(disposedFooters) && renderResult == old(renderResult)
      ensures toolbarContainer == old(toolbarContainer) && contentContainer == old(contentContainer)
      ensures footerContainer == old(footerContainer)
      ensures toolbarItemNames == old(toolbarItemNames) && toolbarItemCreators == old(toolbarItemCreators)
    {
      if !options.hasDataProvider {
        ownData := data;
      }
      if HasFooter() {
        var f := GetFooterVisualizer();
        assert old(footer).None? ==> f.value.updates + [data] == [data];
        footer := Some(f.value.(updates := f.value.updates + [data]));
      }
    }

    /** `render` into `target`, with the three containers it creates passed in: the toolbar is
        rendered into its container, and the footer visualizer is created when there is a footer. */
    method Render(target: Element, toolbar: Element, content: Element, footerElement: Element)
      requires Valid()
      modifies this
      ensures Valid()
      ensures renderResult == Some(target) && toolbarContainer == Some(toolbar)
      ensures contentContainer == Some(content) && footerContainer == Some(footerElement)
      ensures toolbarContent == ToolbarMarkup(showHeader, ToolbarItems(toolbarItemNames, toolbarItemCreators))
      ensures HasFooter() <==> footer.Some?
      ensures old(footer).Some? || !HasFooter() ==> footer == old(footer) && footersCreated == old(footersCreated)
      ensures old(footer).None? && HasFooter() ==>
        && footer == Some(Footer(old(footersCreated), question.value.name + commentPrefix, question.value.title, []))
        && footersCreated == old(footersCreated) + 1
      ensures showHeader == old(showHeader) && disposedFooters == old(disposedFooters)
      ensures ownData == old(ownData)
      ensures toolbarItemNames == old(toolbarItemNames) && toolbarItemCreators == old(toolbarItemCreators)
    {
      var items := CreateToolbarItems([]);
      assert items == ToolbarItems(toolbarItemNames, toolbarItemCreators);
      renderResult, toolbarContainer, contentContainer, footerContainer :=
        Some(target), Some(toolbar), Some(content), Some(footerElement);
      toolbarContent := ToolbarMarkup(showHeader, items);
      if HasFooter() {
        var _ := GetFooterVisualizer();
      }
    }

    /** The `showHeader` setter: an unchanged value does nothing; a changed one re-renders the
        toolbar when a toolbar container exists. */
    method SetShowHeader(newValue: bool)
      requires Valid()
      modifies this
      ensures Valid()
      ensures showHeader == newValue
      ensures newValue == old(showHeader) ==> unchanged(this)
      ensures newValue != old(showHeader) && toolbarContainer.Some? ==>
        toolbarContent == ToolbarMarkup(newValue, ToolbarItems(toolbarItemNames, toolbarItemCreators))
      ensures toolbarContainer.None? ==> toolbarContent == old(toolbarContent)
      ensures toolbarContainer == old(toolbarContainer) && footer == old(footer)
      ensures toolbarItemNames == old(toolbarItemNames) && toolbarItemCreators == old(toolbarItemCreators)
      ensures footersCreated == old(footersCreated) && disposedFooters == old(disposedFooters)
      ensures ownData == old(ownData) && renderResult == old(renderResult)
      ensures contentContainer == old(contentContainer) && footerContainer == old(footerContainer)
    {
      if newValue != showHeader {
        showHeader := newValue;
        if toolbarContainer.Some? {
          toolbarContent := [];
          var items := CreateToolbarItems([]);
          assert items == ToolbarItems(toolbarItemNames, toolbarItemCreators);
          toolbarContent := ToolbarMarkup(showHeader, items);
        }
      }
    }

    /** `destroy`: a rendered visualizer empties and forgets its containers and render target; any
        cached footer visualizer is disposed and forgotten. */
    method Destroy()
      requires Valid()
      modifies this
      ensures Valid()
      ensures renderResult == None && toolbarContainer == None
      ensures contentContainer == None && footerContainer == None
      ensures toolbarContent == if old(renderResult).Some? then [] else old(toolbarContent)
      ensures footer == None
      ensures disposedFooters == old(disposedFooters) + (if old(footer).Some? then [old(footer).value] else [])
      ensures showHeader == old(showHeader) && footersCreated == old(footersCreated) && ownData == old(ownData)
      ensures toolbarItemNames == old(toolbarItemNames) && toolbarItemCreators == old(toolbarItemCreators)
    {
      if renderResult.Some? {
        toolbarContent := [];
        toolbarContainer := None;
        contentContainer := None;
        footerContainer := None;
        renderResult := None;
      }
      if footer.Some? {
        disposedFooters := disposedFooters + [footer.value];
        footer := None;
      }
    }
  }

  /** The footer visualizer is created once and then reused; `destroy` disposes it, and the next
      access creates a new one. */
  method FooterScenario(data: seq<Record>) {
    var v := new VisualizerBase(Some(Question("car", "Car", true, false)), data, Options(false, None, None), None, "-Comment");
    assert v.Name() == "visualizer";
    var f1 := v.GetFooterVisualizer();
    var f2 := v.GetFooterVisualizer();
    assert f1 == f2 && f1.Some? && f1.value.questionName == "car-Comment";
    v.Destroy();
    assert v.disposedFooters == [f1.value] && v.footer == None;
    var f3 := v.GetFooterVisualizer();
    assert f3.Some? && f3.value.serial != f1.value.serial;
  }

  /** With no custom colours and a count of ten, the ten built-in colours come ten times over. */
  method ColorsScenario() {
    var colors := VisualizerBase.GetColors([], 10);
    assert |colors| == 100 && colors[10] == "#86e1fb";
  }
}
