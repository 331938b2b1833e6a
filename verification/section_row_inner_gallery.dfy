/**
 * The `section-row-inner-gallery` block
 * (src/section-row-inner-gallery/index.js): a grid of cells whose number is
 * an attribute and whose column count becomes a class.
 */
module SectionRowInnerGallery {
  import opened Js
  import opened Projection

  const Name := "section-row-inner-gallery"

  datatype Attrs = Attrs(
    width: Attr<string>,
    columns: Attr<int>,
    galleryItems: Attr<int>,
    columnGap: Attr<string>,
    rowGap: Attr<string>,
    marginTop: Attr<string>,
    marginBottom: Attr<string>)

  const Unset := Attrs(Undefined, Undefined, Undefined, Undefined, Undefined, Undefined, Undefined)

  function WithDefaults(a: Attrs): Attrs {
    a.(columns := OrDefault(a.columns, 3),
       galleryItems := OrDefault(a.galleryItems, 3),
       columnGap := OrDefault(a.columnGap, "medium"),
       rowGap := OrDefault(a.rowGap, "medium"))
  }

  const Cell := "cloudblocks/section-row-cell"

  /**
   * `getTemplate`: one plain cell entry per loop turn. The loop runs while
   * `i < childBlocks`, so zero or a negative count gives an empty template,
   * and nothing caps a large count.
   */
  method GetTemplate(childBlocks: int) returns (galleryItemBlocks: seq<TemplateEntry>)
    ensures |galleryItemBlocks| == if childBlocks > 0 then childBlocks else 0
    ensures forall k :: 0 <= k < |galleryItemBlocks| ==> galleryItemBlocks[k] == Leaf(Cell)
  {
    galleryItemBlocks := [];
    var i := 0;
    while i < childBlocks
      invariant 0 <= i
      invariant i <= if childBlocks > 0 then childBlocks else 0
      invariant |galleryItemBlocks| == i
      invariant forall k :: 0 <= k < i ==> galleryItemBlocks[k] == Leaf(Cell)
    {
      galleryItemBlocks := galleryItemBlocks + [Leaf(Cell)];
      i := i + 1;
    }
  }

  /** The pushes after the base; the width is pushed as it is. */
  function ClassRules(a: Attrs): seq<Rule> {
    [ Rule(Truthy(a.width), Text(a.width)),
      Rule(NumTruthy(a.columns), "columns-" + IntToString(Num(a.columns))),
      Rule(Truthy(a.columnGap), "column-gap-" + Text(a.columnGap)),
      Rule(Truthy(a.rowGap), "row-gap-" + Text(a.rowGap)),
      Rule(Truthy(a.marginTop), "margin-top-" + Text(a.marginTop)),
      Rule(Truthy(a.marginBottom), "margin-bottom-" + Text(a.marginBottom)) ]
  }

  /** The pushes both `edit` (lines 98-115) and `save` (lines 211-228) run after their base. */
  method ClassList(base: seq<string>, a: Attrs) returns (classes: seq<string>)
    ensures classes == base + Selected(ClassRules(a))
  {
    ghost var rules := ClassRules(a);
    classes := base;
    if Truthy(a.width) {
      classes := classes + [a.width.value];
    }
    assert classes == Pushed(base, rules, 1);
    if NumTruthy(a.columns) {
      classes := classes + ["columns-" + IntToString(a.columns.value)];
    }
    assert classes == Pushed(base, rules, 2);
    if Truthy(a.columnGap) {
      classes := classes + ["column-gap-" + a.columnGap.value];
    }
    assert classes == Pushed(base, rules, 3);
    if Truthy(a.rowGap) {
      classes := classes + ["row-gap-" + a.rowGap.value];
    }
    assert classes == Pushed(base, rules, 4);
    if Truthy(a.marginTop) {
      classes := classes + ["margin-top-" + a.marginTop.value];
    }
    assert classes == Pushed(base, rules, 5);
    if Truthy(a.marginBottom) {
      classes := classes + ["margin-bottom-" + a.marginBottom.value];
    }
    assert classes == Pushed(base, rules, 6);
    PushedRebase(base, rules, 6);
  }

  /**
   * The editor's list starts with the class name alone; its InnerBlocks get
   * one cell per gallery item, locked. An unset or null count compares like
   * 0 in `i < childBlocks` and gives no cell.
   */
  method Edit(a: Attrs, className: string) returns (classes: seq<string>, inner: InnerBlocksProps)
    ensures classes == [className] + Selected(ClassRules(a))
    ensures inner.allowedBlocks == Some([Cell]) && inner.templateLock == LockAll
    ensures inner.template.Some?
    ensures |inner.template.value| == if Num(a.galleryItems) > 0 then Num(a.galleryItems) else 0
    ensures forall k :: 0 <= k < |inner.template.value| ==> inner.template.value[k] == Leaf(Cell)
    ensures TemplateWithinAllowed(inner)
  {
    classes := ClassList([className], a);
    var template := GetTemplate(Num(a.galleryItems));
    inner := InnerBlocksProps(Some([Cell]), Some(template), LockAll);
  }

  method Save(a: Attrs, className: string) returns (classes: seq<string>)
    ensures classes == ["save", className] + Selected(ClassRules(a))
  {
    classes := ClassList(["save", className], a);
  }

  /** The saved list is the editor's list with `save` put in front. */
  method EditMatchesSave(a: Attrs, className: string) returns (editClasses: seq<string>, saveClasses: seq<string>)
    ensures saveClasses == ["save"] + editClasses
    ensures |editClasses| >= 1 && editClasses[0] == className
  {
    var inner;
    editClasses, inner := Edit(a, className);
    saveClasses := Save(a, className);
  }

  /** The saved markup does not depend on the number of gallery items. */
  method SaveIgnoresGalleryItems(a: Attrs, items: Attr<int>, className: string)
    returns (saved: seq<string>, savedWithOtherCount: seq<string>)
    ensures saved == savedWithOtherCount
  {
    saved := Save(a, className);
    savedWithOtherCount := Save(a.(galleryItems := items), className);
  }

  /** The tokens follow the table order: width, columns, column gap, row gap, margins. */
  lemma ClassOrder(a: Attrs)
    ensures |Selected(ClassRules(a))| == |Enabled(ClassRules(a), 6)|
    ensures forall k :: 0 <= k < |Enabled(ClassRules(a), 6)| ==>
      Selected(ClassRules(a))[k] == ClassRules(a)[Enabled(ClassRules(a), 6)[k]].token
  {
    PushedOrder([], ClassRules(a), 6);
  }

  /**
   * `columns-N` is present exactly when the column count is non-zero (or the
   * raw width happens to be that token), and N names the count: no other
   * number gives the same token.
   */
  lemma ColumnsToken(a: Attrs)
    ensures var t := "columns-" + IntToString(Num(a.columns));
      t in Selected(ClassRules(a)) <==> NumTruthy(a.columns) || a.width == Set(t)
    ensures forall m :: ClassRules(a)[1].token == "columns-" + IntToString(m) ==> m == Num(a.columns)
  {
    var rules := ClassRules(a);
    var t := "columns-" + IntToString(Num(a.columns));
    SelectedMember(rules, t);
    assert t[6] == 's';
    assert rules[2].token[6] == '-' && rules[3].token[0] == 'r';
    assert rules[4].token[0] == 'm' && rules[5].token[0] == 'm';
    if NumTruthy(a.columns) {
      assert rules[1].on && rules[1].token == t;
    }
    if a.width == Set(t) {
      assert rules[0].on && rules[0].token == t;
    }
    forall m | rules[1].token == "columns-" + IntToString(m)
      ensures m == Num(a.columns)
    {
      assert rules[1].token[8..] == IntToString(Num(a.columns));
      assert ("columns-" + IntToString(m))[8..] == IntToString(m);
      IntToStringInjective(m, Num(a.columns));
    }
  }

  /** With the defaults: three columns, medium gaps, and three cells in the template. */
  lemma DefaultClasses()
    ensures Selected(ClassRules(WithDefaults(Unset))) == ["columns-3", "column-gap-medium", "row-gap-medium"]
    ensures Num(WithDefaults(Unset).galleryItems) == 3
  {
    var rules := ClassRules(WithDefaults(Unset));
    assert IntToString(3) == "3";
    assert rules[1] == Rule(true, "columns-3");
    assert rules[2] == Rule(true, "column-gap-medium");
    assert rules[3] == Rule(true, "row-gap-medium");
    assert !rules[0].on && !rules[4].on && !rules[5].on;
    assert Pushed([], rules, 1) == [];
    assert Pushed([], rules, 2) == ["columns-3"];
    assert Pushed([], rules, 3) == ["columns-3", "column-gap-medium"];
    assert Pushed([], rules, 4) == ["columns-3", "column-gap-medium", "row-gap-medium"];
    assert Pushed([], rules, 6) == Pushed([], rules, 5) == Pushed([], rules, 4);
  }

  const Settings := BlockSettings(
    "Inner Gallery Row",
    "Grid row for use inside Section Row block",
    "cover-image",
    Some(["cloudblocks/section-row"]),
    Supports(false, true))

  /** The gallery only goes inside a section row. */
  lemma Placement()
    ensures forall p :: CanNestUnder(Settings, p) <==> p == "cloudblocks/section-row"
  {
  }
}
