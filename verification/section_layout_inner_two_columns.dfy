/**
 * The `section-layout-inner-two-columns` block
 * (src/section-layout-inner-two-columns/index.js): two layout cells with a
 * width, a full-height flag, a split, a gap and an optional reversed order.
 */
module SectionLayoutInnerTwoColumns {
  import opened Js
  import opened Projection

  const Name := "section-layout-inner-two-columns"

  datatype Attrs = Attrs(
    width: Attr<string>,
    fullHeight: Attr<bool>,
    split: Attr<string>,
    columnGap: Attr<string>,
    reverse: Attr<bool>)

  const Unset := Attrs(Undefined, Undefined, Undefined, Undefined, Undefined)

  /** The `columnGap` default already carries the `column-gap-` prefix. */
  function WithDefaults(a: Attrs): Attrs {
    a.(width := OrDefault(a.width, "width-default"),
       fullHeight := OrDefault(a.fullHeight, true),
       split := OrDefault(a.split, "split-1-1"),
       columnGap := OrDefault(a.columnGap, "column-gap-medium"),
       reverse := OrDefault(a.reverse, false))
  }

  function ClassRules(a: Attrs): seq<Rule> {
    [ Rule(Truthy(a.width), Text(a.width)),
      Rule(BoolTruthy(a.fullHeight), "full-height"),
      Rule(Truthy(a.split), Text(a.split)),
      Rule(Truthy(a.columnGap), "column-gap-" + Text(a.columnGap)),
      Rule(BoolTruthy(a.reverse), "column-reverse") ]
  }

  /** The class list both `edit` (lines 65-80) and `save` (lines 184-199) build. */
  method ClassList(a: Attrs, className: string) returns (classes: seq<string>)
    ensures classes == [className] + Selected(ClassRules(a))
  {
    ghost var rules := ClassRules(a);
    classes := [className];
    if Truthy(a.width) {
      classes := classes + [a.width.value];
    }
    assert classes == Pushed([className], rules, 1);
    if BoolTruthy(a.fullHeight) {
      classes := classes + ["full-height"];
    }
    assert classes == Pushed([className], rules, 2);
    if Truthy(a.split) {
      classes := classes + [a.split.value];
    }
    assert classes == Pushed([className], rules, 3);
    if Truthy(a.columnGap) {
      classes := classes + ["column-gap-" + a.columnGap.value];
    }
    assert classes == Pushed([className], rules, 4);
    if BoolTruthy(a.reverse) {
      classes := classes + ["column-reverse"];
    }
    assert classes == Pushed([className], rules, 5);
    PushedRebase([className], rules, 5);
  }

  const LayoutCell := "cloudblocks/section-layout-cell"

  /** The editor's columns: classes, and two locked layout cells. */
  method Edit(a: Attrs, className: string) returns (classes: seq<string>, inner: InnerBlocksProps)
    ensures classes == [className] + Selected(ClassRules(a))
    ensures inner.allowedBlocks == Some([LayoutCell]) && inner.templateLock == LockAll
    ensures inner.template == Some([Leaf(LayoutCell), Leaf(LayoutCell)]) && TemplateWithinAllowed(inner)
  {
    classes := ClassList(a, className);
    inner := InnerBlocksProps(Some([LayoutCell]), Some([Leaf(LayoutCell), Leaf(LayoutCell)]), LockAll);
  }

  method Save(a: Attrs, className: string) returns (classes: seq<string>)
    ensures classes == [className] + Selected(ClassRules(a))
  {
    classes := ClassList(a, className);
  }

  method EditMatchesSave(a: Attrs, className: string) returns (editClasses: seq<string>, saveClasses: seq<string>)
    ensures editClasses == saveClasses
    ensures |editClasses| >= 1 && editClasses[0] == className
  {
    var inner;
    editClasses, inner := Edit(a, className);
    saveClasses := Save(a, className);
  }

  /** The tokens follow the table order: width, full height, split, gap, reverse. */
  lemma ClassOrder(a: Attrs)
    ensures |Selected(ClassRules(a))| == |Enabled(ClassRules(a), 5)|
    ensures forall k :: 0 <= k < |Enabled(ClassRules(a), 5)| ==>
      Selected(ClassRules(a))[k] == ClassRules(a)[Enabled(ClassRules(a), 5)[k]].token
  {
    PushedOrder([], ClassRules(a), 5);
  }

  /**
   * With the defaults the prefixed default gap is prefixed once more, giving
   * `column-gap-column-gap-medium`.
   */
  lemma DefaultClasses(className: string)
    ensures [className] + Selected(ClassRules(WithDefaults(Unset)))
      == [className, "width-default", "full-height", "split-1-1", "column-gap-column-gap-medium"]
    ensures "column-gap-medium" !in Selected(ClassRules(WithDefaults(Unset)))
  {
    var rules := ClassRules(WithDefaults(Unset));
    assert rules[0] == Rule(true, "width-default");
    assert rules[1] == Rule(true, "full-height");
    assert rules[2] == Rule(true, "split-1-1");
    assert rules[3] == Rule(true, "column-gap-column-gap-medium");
    assert !rules[4].on;
    assert Pushed([], rules, 1) == ["width-default"];
    assert Pushed([], rules, 2) == ["width-default", "full-height"];
    assert Pushed([], rules, 3) == ["width-default", "full-height", "split-1-1"];
    assert Pushed([], rules, 4) == ["width-default", "full-height", "split-1-1", "column-gap-column-gap-medium"];
  }

  const Settings := BlockSettings(
    "Section Layout Inner Two Columns",
    "One column for use inside Section Layout Wrapper",
    "cover-image",
    Some(["cloudblocks/section-layout-wrapper"]),
    Supports(false, true))

  /** The block only goes inside a section layout wrapper. */
  lemma Placement()
    ensures forall p :: CanNestUnder(Settings, p) <==> p == "cloudblocks/section-layout-wrapper"
  {
  }
}
