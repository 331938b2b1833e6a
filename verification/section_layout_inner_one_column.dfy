/**
 * The `section-layout-inner-one-column` block
 * (src/section-layout-inner-one-column/index.js): a width class and a
 * full-height flag around free content.
 */
module SectionLayoutInnerOneColumn {
  import opened Js
  import opened Projection

  const Name := "section-layout-inner-one-column"

  datatype Attrs = Attrs(width: Attr<string>, fullHeight: Attr<bool>)

  const Unset := Attrs(Undefined, Undefined)

  function WithDefaults(a: Attrs): Attrs {
    a.(width := OrDefault(a.width, "width-default"), fullHeight := OrDefault(a.fullHeight, true))
  }

  function ClassRules(a: Attrs): seq<Rule> {
    [ Rule(Truthy(a.width), Text(a.width)),
      Rule(BoolTruthy(a.fullHeight), "full-height") ]
  }

  /** The class list both `edit` (lines 49-55) and `save` (lines 102-108) build. */
  method ClassList(a: Attrs, className: string) returns (classes: seq<string>)
    ensures classes == [className] + Selected(ClassRules(a))
  {
    ghost var rules := ClassRules(a);
    classes := [className];
    if Truthy(a.width) {
      classes := classes + [a.width.value];
    }
    assert classes == Pushed([className], rules, 1);
    if BoolTruthy(a.fullHeight) {
      classes := classes + ["full-height"];
    }
    assert classes == Pushed([className], rules, 2);
    PushedRebase([className], rules, 2);
  }

  /** The editor's column: its classes, and InnerBlocks with no prop at all. */
  method Edit(a: Attrs, className: string) returns (classes: seq<string>, inner: InnerBlocksProps)
    ensures classes == [className] + Selected(ClassRules(a))
    ensures inner.allowedBlocks.None? && inner.template.None? && inner.templateLock == LockNotGiven
  {
    classes := ClassList(a, className);
    inner := InnerBlocksProps(None, None, LockNotGiven);
  }

  method Save(a: Attrs, className: string) returns (classes: seq<string>)
    ensures classes == [className] + Selected(ClassRules(a))
  {
    classes := ClassList(a, className);
  }

  method EditMatchesSave(a: Attrs, className: string) returns (editClasses: seq<string>, saveClasses: seq<string>)
    ensures editClasses == saveClasses
    ensures |editClasses| >= 1 && editClasses[0] == className
  {
    var inner;
    editClasses, inner := Edit(a, className);
    saveClasses := Save(a, className);
  }

  /** The class name, then the raw width when set, then `full-height` when the flag is on. */
  lemma ClassTokens(a: Attrs)
    ensures Selected(ClassRules(a)) ==
      (if Truthy(a.width) then [a.width.value] else []) + (if BoolTruthy(a.fullHeight) then ["full-height"] else [])
  {
    assert Pushed([], ClassRules(a), 1) == if Truthy(a.width) then [a.width.value] else [];
  }

  /** With the defaults the column is default width and full height. */
  lemma DefaultClasses(className: string)
    ensures [className] + Selected(ClassRules(WithDefaults(Unset))) == [className, "width-default", "full-height"]
  {
    ClassTokens(WithDefaults(Unset));
  }

  /** No `supports` and no `parent`: the editor's defaults apply and any parent is accepted. */
  const Settings := BlockSettings(
    "Section Layout Inner One column",
    "One column for use inside Section Layout Wrapper",
    "cover-image",
    None,
    Supports(true, true))
}
