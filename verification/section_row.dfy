/**
 * The `section-row` block (src/section-row/index.js): the outer wrapper of a
 * row. Its `edit` and `save` run the same class and style statements, then
 * render background layers, the inner blocks and an optional skip link. The
 * media handlers decide which background attributes to write.
 */
module SectionRow {
  import opened Js
  import opened Projection
  import opened Helpers

  const Name := "section-row"

  /** The block attributes, as `edit` and `save` receive them. */
  datatype Attrs = Attrs(
    width: Attr<string>,
    backgroundImage: Attr<string>,
    backgroundImageId: Attr<int>,
    backgroundPosition: Attr<string>,
    backgroundSize: Attr<string>,
    backgroundColor: Attr<string>,
    backgroundColorOpacity: Attr<int>,
    paddingTop: Attr<string>,
    paddingBottom: Attr<string>,
    marginTop: Attr<string>,
    marginBottom: Attr<string>,
    height: Attr<string>,
    justifyContent: Attr<string>,
    htmlElement: Attr<string>,
    behindPageHeader: Attr<bool>,
    skipLink: Attr<bool>,
    backgroundType: Attr<string>)

  /** A block inserted without any attribute written. */
  const Unset := Attrs(Undefined, Undefined, Undefined, Undefined, Undefined, Undefined, Undefined,
    Undefined, Undefined, Undefined, Undefined, Undefined, Undefined, Undefined, Undefined, Undefined, Undefined)

  /** The schema defaults applied to the attributes that were never written. */
  function WithDefaults(a: Attrs): Attrs {
    a.(width := OrDefault(a.width, "full"),
       backgroundPosition := OrDefault(a.backgroundPosition, "center"),
       backgroundSize := OrDefault(a.backgroundSize, "cover"),
       backgroundColorOpacity := OrDefault(a.backgroundColorOpacity, 10),
       justifyContent := OrDefault(a.justifyContent, "center"),
       htmlElement := OrDefault(a.htmlElement, "div"),
       behindPageHeader := OrDefault(a.behindPageHeader, false),
       skipLink := OrDefault(a.skipLink, false))
  }

  const Video := "video"
  const Image := "image"

  /** The pushes after `[className]`, one row per `if`, in the order the code runs them. */
  function ClassRules(a: Attrs): seq<Rule> {
    [ Rule(Truthy(a.width), "align" + Text(a.width)),
      Rule(Truthy(a.height), "height-" + Text(a.height)),
      Rule(Truthy(a.marginTop), "margin-top-" + Text(a.marginTop)),
      Rule(Truthy(a.marginBottom), "margin-bottom-" + Text(a.marginBottom)),
      Rule(Truthy(a.paddingTop), "padding-top-" + Text(a.paddingTop)),
      Rule(Truthy(a.paddingBottom), "padding-bottom-" + Text(a.paddingBottom)),
      Rule(BoolTruthy(a.behindPageHeader) && Truthy(a.height), "behind-page-header"),
      Rule(Truthy(a.justifyContent), "justify-content-" + Text(a.justifyContent)) ]
  }

  /** The assignments into `backgroundImgStyle`. */
  function ImageDecls(a: Attrs): seq<Decl> {
    [ Decl(Truthy(a.backgroundPosition), "backgroundPosition", Text(a.backgroundPosition)),
      Decl(Truthy(a.backgroundSize), "backgroundSize", Text(a.backgroundSize)),
      Decl(a.backgroundType != Set(Video) && Truthy(a.backgroundImage),
        "backgroundImage", "url(" + Text(a.backgroundImage) + ")") ]
  }

  /** The assignments into `backgroundColorStyle`; the opacity is a tenth of the control value. */
  function ColorDecls(a: Attrs): seq<Decl> {
    [ Decl(Truthy(a.backgroundColor), "backgroundColor", Text(a.backgroundColor)),
      Decl(NumTruthy(a.backgroundColorOpacity), "opacity", FixedTenths(Num(a.backgroundColorOpacity))) ]
  }

  /** The children of the block element, in render order. */
  datatype Layer =
    | VideoLayer(src: string)
    | ImageLayer(style: map<string, string>)
    | ColorLayer(style: map<string, string>)
    | Children
    | SkipLink

  /** The JSX children: `{cond && <Layer/>}` renders nothing when cond is falsy. */
  function Layers(a: Attrs, imageStyle: map<string, string>, colorStyle: map<string, string>): seq<Layer> {
    (if a.backgroundType == Set(Video) && Truthy(a.backgroundImage) then [VideoLayer(a.backgroundImage.value)] else [])
    + (if a.backgroundType != Set(Video) && Truthy(a.backgroundImage) then [ImageLayer(imageStyle)] else [])
    + (if Truthy(a.backgroundColor) then [ColorLayer(colorStyle)] else [])
    + [Children]
    + (if BoolTruthy(a.skipLink) then [SkipLink] else [])
  }

  /** The rows of the class table, one by one, so that each push can be matched with its row. */
  lemma ClassRuleRows(a: Attrs)
    ensures |ClassRules(a)| == 8
    ensures ClassRules(a)[0] == Rule(Truthy(a.width), "align" + Text(a.width))
    ensures ClassRules(a)[1] == Rule(Truthy(a.height), "height-" + Text(a.height))
    ensures ClassRules(a)[2] == Rule(Truthy(a.marginTop), "margin-top-" + Text(a.marginTop))
    ensures ClassRules(a)[3] == Rule(Truthy(a.marginBottom), "margin-bottom-" + Text(a.marginBottom))
    ensures ClassRules(a)[4] == Rule(Truthy(a.paddingTop), "padding-top-" + Text(a.paddingTop))
    ensures ClassRules(a)[5] == Rule(Truthy(a.paddingBottom), "padding-bottom-" + Text(a.paddingBottom))
    ensures ClassRules(a)[6] == Rule(BoolTruthy(a.behindPageHeader) && Truthy(a.height), "behind-page-header")
    ensures ClassRules(a)[7] == Rule(Truthy(a.justifyContent), "justify-content-" + Text(a.justifyContent))
  {
  }

  /** The class list both `edit` (lines 218-242) and `save` (lines 529-553) build. */
  method ClassList(a: Attrs, className: string) returns (classes: seq<string>)
    ensures classes == [className] + Selected(ClassRules(a))
  {
    ghost var rules := ClassRules(a);
    ClassRuleRows(a);
    classes := [className];
    if Truthy(a.width) {
      classes := classes + ["align" + a.width.value];
    }
    assert classes == Pushed([className], rules, 1);
    if Truthy(a.height) {
      classes := classes + ["height-" + a.height.value];
    }
    assert classes == Pushed([className], rules, 2);
    if Truthy(a.marginTop) {
      classes := classes + ["margin-top-" + a.marginTop.value];
    }
    assert classes == Pushed([className], rules, 3);
    if Truthy(a.marginBottom) {
      classes := classes + ["margin-bottom-" + a.marginBottom.value];
    }
    assert classes == Pushed([className], rules, 4);
    if Truthy(a.paddingTop) {
      classes := classes + ["padding-top-" + a.paddingTop.value];
    }
    assert classes == Pushed([className], rules, 5);
    if Truthy(a.paddingBottom) {
      classes := classes + ["padding-bottom-" + a.paddingBottom.value];
    }
    assert classes == Pushed([className], rules, 6);
    if BoolTruthy(a.behindPageHeader) && Truthy(a.height) {
      classes := classes + ["behind-page-header"];
    }
    assert classes == Pushed([className], rules, 7);
    if Truthy(a.justifyContent) {
      classes := classes + ["justify-content-" + a.justifyContent.value];
    }
    assert classes == Pushed([className], rules, 8);
    PushedRebase([className], rules, 8);
  }

  /** `backgroundImgStyle` as both `edit` (lines 244-253) and `save` (lines 555-564) fill it. */
  method ImageStyle(a: Attrs) returns (style: map<string, string>)
    ensures style == Style(ImageDecls(a))
  {
    ghost var decls := ImageDecls(a);
    style := map[];
    if Truthy(a.backgroundPosition) {
      style := style["backgroundPosition" := a.backgroundPosition.value];
    }
    assert style == Assigned(decls, 1);
    if Truthy(a.backgroundSize) {
      style := style["backgroundSize" := a.backgroundSize.value];
    }
    assert style == Assigned(decls, 2);
    if a.backgroundType != Set(Video) && Truthy(a.backgroundImage) {
      style := style["backgroundImage" := "url(" + a.backgroundImage.value + ")"];
    }
    assert style == Assigned(decls, 3);
  }

  /** `backgroundColorStyle` as both `edit` (lines 255-263) and `save` (lines 566-574) fill it. */
  method ColorStyle(a: Attrs) returns (style: map<string, string>)
    ensures style == Style(ColorDecls(a))
  {
    ghost var decls := ColorDecls(a);
    style := map[];
    if Truthy(a.backgroundColor) {
      style := style["backgroundColor" := a.backgroundColor.value];
    }
    assert style == Assigned(decls, 1);
    if NumTruthy(a.backgroundColorOpacity) {
      style := style["opacity" := FixedTenths(a.backgroundColorOpacity.value)];
    }
    assert style == Assigned(decls, 2);
  }

  /** The block element in the editor, always a `div`: its tag, classes and children. */
  method Edit(a: Attrs, className: string) returns (element: string, classes: seq<string>, layers: seq<Layer>)
    ensures element == "div"
    ensures classes == [className] + Selected(ClassRules(a))
    ensures layers == Layers(a, Style(ImageDecls(a)), Style(ColorDecls(a)))
  {
    element := "div";
    classes := ClassList(a, className);
    var imageStyle := ImageStyle(a);
    var colorStyle := ColorStyle(a);
    layers := Layers(a, imageStyle, colorStyle);
  }

  /** The saved markup: the element named by `htmlElement`, its classes and children. */
  method Save(a: Attrs, className: string) returns (element: Attr<string>, classes: seq<string>, layers: seq<Layer>)
    ensures element == a.htmlElement
    ensures classes == [className] + Selected(ClassRules(a))
    ensures layers == Layers(a, Style(ImageDecls(a)), Style(ColorDecls(a)))
  {
    element := a.htmlElement;
    classes := ClassList(a, className);
    var imageStyle := ImageStyle(a);
    var colorStyle := ColorStyle(a);
    layers := Layers(a, imageStyle, colorStyle);
  }

  /**
   * For equal attributes the editor and the saved markup show the same classes
   * and layers; only the element can differ, and it does unless `htmlElement` is a div.
   */
  method EditMatchesSave(a: Attrs, className: string)
    returns (editElement: string, saveElement: Attr<string>, editClasses: seq<string>, saveClasses: seq<string>,
             editLayers: seq<Layer>, saveLayers: seq<Layer>)
    ensures editClasses == saveClasses && editLayers == saveLayers
    ensures |editClasses| >= 1 && editClasses[0] == className
    ensures saveElement == Set(editElement) <==> a.htmlElement == Set("div")
    ensures WithDefaults(a).htmlElement == Set(editElement) <==> a.htmlElement.Undefined? || a.htmlElement == Set("div")
  {
    editElement, editClasses, editLayers := Edit(a, className);
    saveElement, saveClasses, saveLayers := Save(a, className);
  }

  // ---------------------------------------------------------------------------
  // What the projection means
  // ---------------------------------------------------------------------------

  lemma ClassTokensDistinct(a: Attrs)
    ensures DistinctTokens(ClassRules(a))
  {
    var r := ClassRules(a);
    assert r[0].token[0] == 'a';
    assert r[1].token[0] == 'h';
    assert r[2].token[0] == 'm' && r[2].token[7] == 't';
    assert r[3].token[0] == 'm' && r[3].token[7] == 'b';
    assert r[4].token[0] == 'p' && r[4].token[8] == 't';
    assert r[5].token[0] == 'p' && r[5].token[8] == 'b';
    assert r[6].token[0] == 'b';
    assert r[7].token[0] == 'j';
  }

  /**
   * Each of the eight tokens is in the class list exactly when its guard
   * passes: `align`+width, `height-`, the margins and paddings and
   * `justify-content-` when their attribute is a non-empty string.
   */
  lemma ClassTokenPresence(a: Attrs)
    ensures forall i :: 0 <= i < |ClassRules(a)| ==>
      (ClassRules(a)[i].token in Selected(ClassRules(a)) <==> ClassRules(a)[i].on)
    ensures ("align" + Text(a.width) in Selected(ClassRules(a))) <==> Truthy(a.width)
    ensures ("height-" + Text(a.height) in Selected(ClassRules(a))) <==> Truthy(a.height)
    ensures ("justify-content-" + Text(a.justifyContent) in Selected(ClassRules(a))) <==> Truthy(a.justifyContent)
  {
    ClassTokensDistinct(a);
    DistinctTokensSelected(ClassRules(a));
    assert ClassRules(a)[0].token == "align" + Text(a.width);
    assert ClassRules(a)[1].token == "height-" + Text(a.height);
    assert ClassRules(a)[7].token == "justify-content-" + Text(a.justifyContent);
  }

  /** The tokens follow the fixed order of the rows: the k-th token comes from the k-th enabled row. */
  lemma ClassOrder(a: Attrs, className: string)
    ensures |[className] + Selected(ClassRules(a))| == 1 + |Enabled(ClassRules(a), 8)|
    ensures forall k :: 0 <= k < |Enabled(ClassRules(a), 8)| ==>
      ([className] + Selected(ClassRules(a)))[1 + k] == ClassRules(a)[Enabled(ClassRules(a), 8)[k]].token
  {
    PushedOrder([className], ClassRules(a), 8);
    PushedRebase([className], ClassRules(a), 8);
  }

  /** The flag alone never adds `behind-page-header`: a height is needed too. */
  lemma BehindPageHeaderNeedsHeight(a: Attrs)
    ensures "behind-page-header" in Selected(ClassRules(a)) <==> BoolTruthy(a.behindPageHeader) && Truthy(a.height)
  {
    ClassTokenPresence(a);
    assert ClassRules(a)[6].token == "behind-page-header";
  }

  /**
   * The image style sets `backgroundImage` to `url(...)` exactly when an image
   * is set and the type is not video; position and size are copied when set.
   */
  lemma ImageStyleEntries(a: Attrs)
    ensures "backgroundImage" in Style(ImageDecls(a)) <==> a.backgroundType != Set(Video) && Truthy(a.backgroundImage)
    ensures "backgroundImage" in Style(ImageDecls(a)) ==>
      Style(ImageDecls(a))["backgroundImage"] == "url(" + a.backgroundImage.value + ")"
    ensures "backgroundPosition" in Style(ImageDecls(a)) <==> Truthy(a.backgroundPosition)
    ensures "backgroundSize" in Style(ImageDecls(a)) <==> Truthy(a.backgroundSize)
    ensures Style(ImageDecls(a)).Keys <= {"backgroundPosition", "backgroundSize", "backgroundImage"}
  {
    var d := ImageDecls(a);
    assert DistinctProperties(d);
    StyleEntry(d, 0);
    StyleEntry(d, 1);
    StyleEntry(d, 2);
  }

  /**
   * `opacity` is set exactly when the control value is non-zero; over the
   * control's range 1..10 it reads "0.1" .. "0.9" and "1.0", and it always
   * reads back as the control value in tenths.
   */
  lemma ColorStyleEntries(a: Attrs)
    ensures "backgroundColor" in Style(ColorDecls(a)) <==> Truthy(a.backgroundColor)
    ensures "opacity" in Style(ColorDecls(a)) <==> NumTruthy(a.backgroundColorOpacity)
    ensures var n := Num(a.backgroundColorOpacity);
      1 <= n <= 10 ==> Style(ColorDecls(a))["opacity"] == if n == 10 then "1.0" else ['0', '.', DigitChar(n)]
    ensures var n := Num(a.backgroundColorOpacity); var s := FixedTenths(n);
      n > 0 ==> ("opacity" in Style(ColorDecls(a)) && Style(ColorDecls(a))["opacity"] == s
        && IsDigits(s[..|s| - 2]) && IsDigit(s[|s| - 1]) && TenthsValue(s) == n)
  {
    var d := ColorDecls(a);
    assert DistinctProperties(d);
    StyleEntry(d, 0);
    StyleEntry(d, 1);
    var n := Num(a.backgroundColorOpacity);
    if 1 <= n <= 10 {
      FixedTenthsControlRange(n);
    }
    if n > 0 {
      FixedTenthsRoundTrip(n);
    }
  }

  predicate HasVideo(layers: seq<Layer>) {
    exists i :: 0 <= i < |layers| && layers[i].VideoLayer?
  }

  predicate HasImage(layers: seq<Layer>) {
    exists i :: 0 <= i < |layers| && layers[i].ImageLayer?
  }

  predicate HasColor(layers: seq<Layer>) {
    exists i :: 0 <= i < |layers| && layers[i].ColorLayer?
  }

  predicate HasSkipLink(layers: seq<Layer>) {
    exists i :: 0 <= i < |layers| && layers[i].SkipLink?
  }

  /**
   * At most one of the video and image backgrounds is rendered: video exactly
   * when the type is video and an image is set, image exactly when the type is
   * not video and an image is set. Colour and skip link follow their own
   * attributes, and the inner blocks are always rendered.
   */
  lemma LayerSelection(a: Attrs, imageStyle: map<string, string>, colorStyle: map<string, string>)
    ensures var ls := Layers(a, imageStyle, colorStyle);
      !(HasVideo(ls) && HasImage(ls))
      && (HasVideo(ls) <==> a.backgroundType == Set(Video) && Truthy(a.backgroundImage))
      && (HasImage(ls) <==> a.backgroundType != Set(Video) && Truthy(a.backgroundImage))
      && (HasColor(ls) <==> Truthy(a.backgroundColor))
      && (HasSkipLink(ls) <==> BoolTruthy(a.skipLink))
      && Children in ls
  {
    var ls := Layers(a, imageStyle, colorStyle);
    var v := if a.backgroundType == Set(Video) && Truthy(a.backgroundImage) then [VideoLayer(a.backgroundImage.value)] else [];
    var im := if a.backgroundType != Set(Video) && Truthy(a.backgroundImage) then [ImageLayer(imageStyle)] else [];
    var c := if Truthy(a.backgroundColor) then [ColorLayer(colorStyle)] else [];
    var s := if BoolTruthy(a.skipLink) then [SkipLink] else [];
    assert ls == v + im + c + [Children] + s;
    assert HasVideo(ls) <==> v != [] by {
      if v != [] { assert ls[0].VideoLayer?; }
    }
    assert HasImage(ls) <==> im != [] by {
      if im != [] { assert ls[|v|].ImageLayer?; }
    }
    assert HasColor(ls) <==> c != [] by {
      if c != [] { assert ls[|v| + |im|].ColorLayer?; }
    }
    assert HasSkipLink(ls) <==> s != [] by {
      if s != [] { assert ls[|ls| - 1].SkipLink?; }
    }
    assert ls[|v| + |im| + |c|] == Children;
  }

  /**
   * With every attribute at its default the row is full width and centred,
   * the image style carries the default position and size, the colour style
   * only the full opacity, and no background or skip link is rendered.
   */
  lemma DefaultProjection(className: string)
    ensures [className] + Selected(ClassRules(WithDefaults(Unset))) == [className, "alignfull", "justify-content-center"]
    ensures Style(ImageDecls(WithDefaults(Unset))) == map["backgroundPosition" := "center", "backgroundSize" := "cover"]
    ensures Style(ColorDecls(WithDefaults(Unset))) == map["opacity" := "1.0"]
    ensures Layers(WithDefaults(Unset), map[], map[]) == [Children]
  {
    DefaultClassTokens();
    DefaultStyles();
  }

  /** The class part of DefaultProjection: only the width and the justification pass. */
  lemma DefaultClassTokens()
    ensures Selected(ClassRules(WithDefaults(Unset))) == ["alignfull", "justify-content-center"]
  {
    var rules := ClassRules(WithDefaults(Unset));
    assert rules[0] == Rule(true, "alignfull");
    assert !rules[1].on && !rules[2].on && !rules[3].on && !rules[4].on && !rules[5].on && !rules[6].on;
    assert rules[7] == Rule(true, "justify-content-center");
    assert Pushed([], rules, 0) == [];
    assert Pushed([], rules, 1) == ["alignfull"];
    assert Pushed([], rules, 7) == ["alignfull"] by {
      assert Pushed([], rules, 2) == Pushed([], rules, 3) == Pushed([], rules, 4) == ["alignfull"];
      assert Pushed([], rules, 5) == Pushed([], rules, 6) == ["alignfull"];
    }
  }

  /** The style part of DefaultProjection: position, size and full opacity. */
  lemma DefaultStyles()
    ensures Style(ImageDecls(WithDefaults(Unset))) == map["backgroundPosition" := "center", "backgroundSize" := "cover"]
    ensures Style(ColorDecls(WithDefaults(Unset))) == map["opacity" := "1.0"]
  {
    var d := WithDefaults(Unset);
    var im := ImageDecls(d);
    assert Assigned(im, 3) == map["backgroundPosition" := "center", "backgroundSize" := "cover"] by {
      assert Assigned(im, 1) == map["backgroundPosition" := "center"];
    }
    var co := ColorDecls(d);
    assert FixedTenths(10) == "1.0" by {
      FixedTenthsControlRange(10);
    }
    assert Assigned(co, 2) == map["opacity" := "1.0"] by {
      assert Assigned(co, 1) == map[];
    }
  }


  // ---------------------------------------------------------------------------
  // Editor wrapper and composition
  // ---------------------------------------------------------------------------

  /** `getEditWrapperProps`: the editor's wrapper carries the width as `data-align`. */
  function EditWrapperProps(a: Attrs): map<string, Attr<string>> {
    map["data-align" := a.width]
  }

  /**
   * The wrapper's `data-align` and the `align…` class name the same width:
   * `alignX` is a class exactly when `data-align` is the non-empty X.
   */
  lemma WrapperAlignMatchesClass(a: Attrs, x: string)
    ensures "data-align" in EditWrapperProps(a)
    ensures ("align" + x in Selected(ClassRules(a))) <==> x != "" && EditWrapperProps(a)["data-align"] == Set(x)
  {
    var rules := ClassRules(a);
    SelectedMember(rules, "align" + x);
    if "align" + x in Selected(rules) {
      var i :| 0 <= i < |rules| && rules[i].on && rules[i].token == "align" + x;
      assert rules[i].token[0] == 'a';
      assert i == 0 by {
        assert rules[1].token[0] == 'h' && rules[2].token[0] == 'm' && rules[3].token[0] == 'm';
        assert rules[4].token[0] == 'p' && rules[5].token[0] == 'p' && rules[6].token[0] == 'b';
        assert rules[7].token[0] == 'j';
      }
      assert ("align" + x)[5..] == x;
      assert ("align" + Text(a.width))[5..] == Text(a.width);
    }
    if x != "" && a.width == Set(x) {
      assert rules[0].on && rules[0].token == "align" + x;
    }
  }

  const AllowedBlocks := [
    "cloudblocks/section-row-inner-one-column",
    "cloudblocks/section-row-inner-two-columns",
    "cloudblocks/section-row-inner-gallery"]

  /**
   * The default content: one inner-one-column whose second slot holds a nested
   * array naming a cell, where the editor expects an attributes object.
   */
  const Template := [
    Entry("cloudblocks/section-row-inner-one-column", ArrayArg([Leaf("cloudblocks/section-row-cell")]), [])]

  /** What `edit` hands to InnerBlocks; no lock is given. */
  const EditInnerBlocks := InnerBlocksProps(Some(AllowedBlocks), Some(Template), LockNotGiven)

  const Settings := BlockSettings(
    "Section Row",
    "Section row used as wrapper for inner-one-column, inner-two-column and inner-gallery blocks",
    "cover-image",
    None,
    Supports(false, true))

  /**
   * The default template starts with an allowed block; the cell sits in the
   * attributes slot, so the entry's inner-blocks slot is empty.
   */
  lemma TemplateShape()
    ensures |EditInnerBlocks.template.value| == 1
    ensures EditInnerBlocks.template.value[0].name in EditInnerBlocks.allowedBlocks.value
    ensures EditInnerBlocks.template.value[0].innerBlocks == []
    ensures EditInnerBlocks.template.value[0].attributes.ArrayArg?
  {
  }

  // ---------------------------------------------------------------------------
  // Media handlers
  // ---------------------------------------------------------------------------

  /**
   * What a media handler hands to `setAttributes`: nothing, the three
   * background attributes, or a TypeError raised before any write.
   */
  datatype MediaWrite =
    | NoWrite
    | Write(backgroundImage: Attr<string>, backgroundImageId: Attr<int>, backgroundType: Attr<string>)
    | Throws

  /** `setAttributes`: the written attributes change, all others keep their value. */
  function ApplyWrite(a: Attrs, w: MediaWrite): Attrs {
    if w.Write? then
      a.(backgroundImage := w.backgroundImage, backgroundImageId := w.backgroundImageId, backgroundType := w.backgroundType)
    else a
  }

  /** The background type a selection implies, or None when the selection is ignored. */
  function ChosenType(m: Media): Option<string> {
    if OptTruthy(m.mediaType) then (if m.mediaType.value == Image then Some(Image) else Some(Video))
    else if m.kind == Some(Image) || m.kind == Some(Video) then m.kind
    else None
  }

  /** `media.id` as an attribute value: an absent id writes undefined. */
  function IdAttr(id: Option<int>): Attr<int> {
    if id.Some? then Set(id.value) else Undefined
  }

  /**
   * An upload (which has `media_type`) is an image when that says so and a
   * video otherwise; a library pick (no `media_type`) keeps its `type` only
   * when that is image or video.
   */
  lemma ChosenTypeCases(m: Media)
    ensures ChosenType(m).Some? ==> ChosenType(m).value == Image || ChosenType(m).value == Video
    ensures m.mediaType == Some(Image) ==> ChosenType(m) == Some(Image)
    ensures OptTruthy(m.mediaType) && m.mediaType != Some(Image) ==> ChosenType(m) == Some(Video)
    ensures !OptTruthy(m.mediaType) ==> (ChosenType(m).None? <==> m.kind != Some(Image) && m.kind != Some(Video))
  {
  }

  /**
   * `onSelectMedia`: no media or no URL clears the three attributes to
   * undefined; an unknown kind writes nothing; otherwise the large size's URL,
   * the id and the chosen type are written together.
   */
  method OnSelectMedia(media: Option<Media>) returns (w: MediaWrite)
    ensures media.None? || !OptTruthy(media.value.url) ==> w == Write(Undefined, Undefined, Undefined)
    ensures media.Some? && OptTruthy(media.value.url) ==>
      var m := media.value;
      if ChosenType(m).None? then w == NoWrite
      else if ReadsMissingSizes(m) then w == Throws
      else w == Write(Set(Resolved(m, "large").url), IdAttr(m.id), Set(ChosenType(m).value))
    ensures w.Write? && w.backgroundType.Set? ==> w.backgroundType.value == Image || w.backgroundType.value == Video
    ensures w.Write? ==> (w.backgroundType.Set? <==> Truthy(w.backgroundImage))
  {
    if media.None? || !OptTruthy(media.value.url) {
      return Write(Undefined, Undefined, Undefined);
    }
    var m := media.value;
    var mediaType: string;
    if OptTruthy(m.mediaType) {
      if m.mediaType.value == Image {
        mediaType := Image;
      } else {
        mediaType := Video;
      }
    } else {
      if m.kind != Some(Image) && m.kind != Some(Video) {
        return NoWrite;
      }
      mediaType := m.kind.value;
    }
    var url := GetImageUrl(m, "large");
    if url.Thrown? {
      return Throws;
    }
    // `media.url` is truthy here, so the fallback always finds a URL
    assert url.Found?;
    w := Write(Set(url.url), IdAttr(m.id), Set(mediaType));
  }

  /** `onRemoveMedia`: the three background attributes become null. */
  const RemoveMedia := Write(Null, Null, Null)

  /**
   * After a removal no background layer or image is rendered, and every other
   * attribute keeps its value.
   */
  lemma RemoveMediaClearsBackground(a: Attrs)
    ensures var b := ApplyWrite(a, RemoveMedia);
      var ls := Layers(b, Style(ImageDecls(b)), Style(ColorDecls(b)));
      !HasVideo(ls) && !HasImage(ls) && "backgroundImage" !in Style(ImageDecls(b))
      && b.(backgroundImage := a.backgroundImage, backgroundImageId := a.backgroundImageId,
            backgroundType := a.backgroundType) == a
  {
    var b := ApplyWrite(a, RemoveMedia);
    LayerSelection(b, Style(ImageDecls(b)), Style(ColorDecls(b)));
    ImageStyleEntries(b);
  }

  /**
   * A selected video never styles the image layer: once the type is video,
   * the URL plays in a video layer and no `backgroundImage` style exists.
   */
  lemma VideoNeverStylesImage(a: Attrs, w: MediaWrite)
    requires w.Write? && w.backgroundType == Set(Video)
    ensures var b := ApplyWrite(a, w);
      var ls := Layers(b, Style(ImageDecls(b)), Style(ColorDecls(b)));
      "backgroundImage" !in Style(ImageDecls(b)) && !HasImage(ls)
      && (HasVideo(ls) <==> Truthy(w.backgroundImage))
  {
    var b := ApplyWrite(a, w);
    LayerSelection(b, Style(ImageDecls(b)), Style(ColorDecls(b)));
    ImageStyleEntries(b);
  }
}
