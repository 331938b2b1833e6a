/**
 * The `section-layout-wrapper` block (src/section-layout-wrapper/index.js): a
 * wrapper with spacing classes and a background style around layout columns.
 */
module SectionLayoutWrapper {
  import opened Js
  import opened Projection

  const Name := "section-layout-wrapper"

  /**
   * The attributes the schema declares, plus `backgroundPosition` and
   * `backgroundSize`, which the projection reads although the schema declares
   * `backgroundImagePosition` and `backgroundImageSize` instead.
   */
  datatype Attrs = Attrs(
    width: Attr<string>,
    backgroundImagePosition: Attr<string>,
    backgroundImageSize: Attr<string>,
    backgroundColor: Attr<string>,
    paddingTop: Attr<string>,
    paddingBottom: Attr<string>,
    marginTop: Attr<string>,
    marginBottom: Attr<string>,
    height: Attr<string>,
    backgroundPosition: Attr<string>,
    backgroundSize: Attr<string>)

  const Unset := Attrs(Undefined, Undefined, Undefined, Undefined, Undefined, Undefined,
    Undefined, Undefined, Undefined, Undefined, Undefined)

  /** Only the declared `backgroundImageSize` has a default. */
  function WithDefaults(a: Attrs): Attrs {
    a.(backgroundImageSize := OrDefault(a.backgroundImageSize, "cover"))
  }

  /** The pushes after `[className]`; the width is pushed as it is. */
  function ClassRules(a: Attrs): seq<Rule> {
    [ Rule(Truthy(a.width), Text(a.width)),
      Rule(Truthy(a.height), "height-" + Text(a.height)),
      Rule(Truthy(a.marginTop), "margin-top-" + Text(a.marginTop)),
      Rule(Truthy(a.marginBottom), "margin-bottom-" + Text(a.marginBottom)),
      Rule(Truthy(a.paddingTop), "padding-top-" + Text(a.paddingTop)),
      Rule(Truthy(a.paddingBottom), "padding-bottom-" + Text(a.paddingBottom)) ]
  }

  /** The assignments into `styles`. */
  function StyleDecls(a: Attrs): seq<Decl> {
    [ Decl(Truthy(a.backgroundColor), "backgroundColor", Text(a.backgroundColor)),
      Decl(Truthy(a.backgroundPosition), "backgroundPosition", Text(a.backgroundPosition)),
      Decl(Truthy(a.backgroundSize), "backgroundSize", Text(a.backgroundSize)) ]
  }

  /** The class list both `edit` (lines 145-163) and `save` (lines 296-314) build. */
  method ClassList(a: Attrs, className: string) returns (classes: seq<string>)
    ensures classes == [className] + Selected(ClassRules(a))
  {
    ghost var rules := ClassRules(a);
    classes := [className];
    if Truthy(a.width) {
      classes := classes + [a.width.value];
    }
    assert classes == Pushed([className], rules, 1);
    if Truthy(a.height) {
      classes := classes + ["height-" + a.height.value];
    }
    assert classes == Pushed([className], rules, 2);
    if Truthy(a.marginTop) {
      classes := classes + ["margin-top-" + a.marginTop.value];
    }
    assert classes == Pushed([className], rules, 3);
    if Truthy(a.marginBottom) {
      classes := classes + ["margin-bottom-" + a.marginBottom.value];
    }
    assert classes == Pushed([className], rules, 4);
    if Truthy(a.paddingTop) {
      classes := classes + ["padding-top-" + a.paddingTop.value];
    }
    assert classes == Pushed([className], rules, 5);
    if Truthy(a.paddingBottom) {
      classes := classes + ["padding-bottom-" + a.paddingBottom.value];
    }
    assert classes == Pushed([className], rules, 6);
    PushedRebase([className], rules, 6);
  }

  /** `styles` as both `edit` (lines 165-174) and `save` (lines 316-325) fill it. */
  method WrapperStyle(a: Attrs) returns (styles: map<string, string>)
    ensures styles == Style(StyleDecls(a))
  {
    ghost var decls := StyleDecls(a);
    styles := map[];
    if Truthy(a.backgroundColor) {
      styles := styles["backgroundColor" := a.backgroundColor.value];
    }
    assert styles == Assigned(decls, 1);
    if Truthy(a.backgroundPosition) {
      styles := styles["backgroundPosition" := a.backgroundPosition.value];
    }
    assert styles == Assigned(decls, 2);
    if Truthy(a.backgroundSize) {
      styles := styles["backgroundSize" := a.backgroundSize.value];
    }
    assert styles == Assigned(decls, 3);
  }

  method Edit(a: Attrs, className: string) returns (classes: seq<string>, styles: map<string, string>)
    ensures classes == [className] + Selected(ClassRules(a))
    ensures styles == Style(StyleDecls(a))
  {
    classes := ClassList(a, className);
    styles := WrapperStyle(a);
  }

  method Save(a: Attrs, className: string) returns (classes: seq<string>, styles: map<string, string>)
    ensures classes == [className] + Selected(ClassRules(a))
    ensures styles == Style(StyleDecls(a))
  {
    classes := ClassList(a, className);
    styles := WrapperStyle(a);
  }

  /** For equal attributes the editor and the saved markup carry the same classes and style. */
  method EditMatchesSave(a: Attrs, className: string)
    returns (editClasses: seq<string>, saveClasses: seq<string>, editStyles: map<string, string>, saveStyles: map<string, string>)
    ensures editClasses == saveClasses && editStyles == saveStyles
    ensures |editClasses| >= 1 && editClasses[0] == className
  {
    editClasses, editStyles := Edit(a, className);
    saveClasses, saveStyles := Save(a, className);
  }

  /**
   * The prefixed tokens start with distinct letters or prefixes, so each is
   * present exactly when its attribute is a non-empty string, unless the raw
   * width happens to spell the same token.
   */
  lemma HeightTokenPresence(a: Attrs)
    ensures var t := "height-" + Text(a.height);
      t in Selected(ClassRules(a)) <==> Truthy(a.height) || a.width == Set(t)
  {
    var rules := ClassRules(a);
    var t := "height-" + Text(a.height);
    SelectedMember(rules, t);
    assert t[0] == 'h';
    assert rules[2].token[0] == 'm' && rules[3].token[0] == 'm';
    assert rules[4].token[0] == 'p' && rules[5].token[0] == 'p';
    if Truthy(a.height) {
      assert rules[1].on && rules[1].token == t;
    }
    if a.width == Set(t) {
      assert rules[0].on && rules[0].token == t;
    }
  }

  /** The tokens follow the table order: width, height, margins, paddings. */
  lemma ClassOrder(a: Attrs)
    ensures |Selected(ClassRules(a))| == |Enabled(ClassRules(a), 6)|
    ensures forall k :: 0 <= k < |Enabled(ClassRules(a), 6)| ==>
      Selected(ClassRules(a))[k] == ClassRules(a)[Enabled(ClassRules(a), 6)[k]].token
  {
    PushedOrder([], ClassRules(a), 6);
  }

  /**
   * The three style keys are present exactly when their attributes are
   * non-empty strings, hold those strings, and are the only keys.
   */
  lemma StyleEntries(a: Attrs)
    ensures "backgroundColor" in Style(StyleDecls(a)) <==> Truthy(a.backgroundColor)
    ensures "backgroundPosition" in Style(StyleDecls(a)) <==> Truthy(a.backgroundPosition)
    ensures "backgroundSize" in Style(StyleDecls(a)) <==> Truthy(a.backgroundSize)
    ensures Truthy(a.backgroundColor) ==> Style(StyleDecls(a))["backgroundColor"] == a.backgroundColor.value
    ensures Truthy(a.backgroundPosition) ==> Style(StyleDecls(a))["backgroundPosition"] == a.backgroundPosition.value
    ensures Truthy(a.backgroundSize) ==> Style(StyleDecls(a))["backgroundSize"] == a.backgroundSize.value
    ensures Style(StyleDecls(a)).Keys <= {"backgroundColor", "backgroundPosition", "backgroundSize"}
  {
    var d := StyleDecls(a);
    assert DistinctProperties(d);
    StyleEntry(d, 0);
    StyleEntry(d, 1);
    StyleEntry(d, 2);
  }

  /**
   * The declared image position and size never reach the style: changing them
   * changes nothing, so the declared `cover` default is never rendered.
   */
  lemma DeclaredBackgroundIgnored(a: Attrs, position: Attr<string>, size: Attr<string>)
    ensures Style(StyleDecls(a.(backgroundImagePosition := position, backgroundImageSize := size)))
      == Style(StyleDecls(a))
    ensures "backgroundSize" !in Style(StyleDecls(WithDefaults(Unset)))
    ensures Style(StyleDecls(WithDefaults(Unset))) == map[]
  {
    var d := StyleDecls(WithDefaults(Unset));
    assert !d[0].on && !d[1].on && !d[2].on;
    assert Assigned(d, 2) == Assigned(d, 1) == map[];
  }

  const InnerOneColumn := "cloudblocks/section-layout-inner-one-column"
  const LayoutCell := "cloudblocks/section-layout-cell"

  const AllowedBlocks := [InnerOneColumn, "cloudblocks/section-layout-inner-two-columns"]

  /** One inner one-column, with an empty attributes object, holding one layout cell. */
  const Template := [Entry(InnerOneColumn, ObjectArg(map[]), [Leaf(LayoutCell)])]

  /** What `edit` hands to InnerBlocks; no lock is given. */
  const EditInnerBlocks := InnerBlocksProps(Some(AllowedBlocks), Some(Template), LockNotGiven)

  const Settings := BlockSettings(
    "Section Layout Wrapper",
    "Flexible wrapper with background and spacing options",
    "cover-image",
    None,
    Supports(false, true))

  /**
   * The template is one inner one-column with empty attributes and one nested
   * layout cell; it is an allowed block, and exactly two block types are allowed.
   */
  lemma Composition()
    ensures |Template| == 1 && Template[0].name == InnerOneColumn
    ensures Template[0].attributes == ObjectArg(map[]) && Template[0].innerBlocks == [Leaf(LayoutCell)]
    ensures TemplateWithinAllowed(EditInnerBlocks)
    ensures |AllowedBlocks| == 2 && AllowedBlocks[0] != AllowedBlocks[1]
  {
  }
}
