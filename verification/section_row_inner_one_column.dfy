/**
 * The `section-row-inner-one-column` block
 * (src/section-row-inner-one-column/index.js): one full cell inside a section
 * row. `edit` and `save` push the same tokens after different first tokens.
 */
module SectionRowInnerOneColumn {
  import opened Js
  import opened Projection

  const Name := "section-row-inner-one-column"

  datatype Attrs = Attrs(width: Attr<string>, marginTop: Attr<string>, marginBottom: Attr<string>)

  /** The pushes after the first two tokens; the width is pushed as it is, with no prefix. */
  function ClassRules(a: Attrs): seq<Rule> {
    [ Rule(Truthy(a.width), Text(a.width)),
      Rule(Truthy(a.marginTop), "margin-top-" + Text(a.marginTop)),
      Rule(Truthy(a.marginBottom), "margin-bottom-" + Text(a.marginBottom)) ]
  }

  /** The pushes both `edit` (lines 68-76) and `save` (lines 131-139) run after their base. */
  method ClassList(base: seq<string>, a: Attrs) returns (classes: seq<string>)
    ensures classes == base + Selected(ClassRules(a))
  {
    ghost var rules := ClassRules(a);
    classes := base;
    if Truthy(a.width) {
      classes := classes + [a.width.value];
    }
    assert classes == Pushed(base, rules, 1);
    if Truthy(a.marginTop) {
      classes := classes + ["margin-top-" + a.marginTop.value];
    }
    assert classes == Pushed(base, rules, 2);
    if Truthy(a.marginBottom) {
      classes := classes + ["margin-bottom-" + a.marginBottom.value];
    }
    assert classes == Pushed(base, rules, 3);
    PushedRebase(base, rules, 3);
  }

  method Edit(a: Attrs, className: string) returns (classes: seq<string>)
    ensures classes == ["edit", className] + Selected(ClassRules(a))
  {
    classes := ClassList(["edit", className], a);
  }

  method Save(a: Attrs, className: string) returns (classes: seq<string>)
    ensures classes == ["save", className] + Selected(ClassRules(a))
  {
    classes := ClassList(["save", className], a);
  }

  /** The editor's list starts with `edit`, the saved one with `save`; after that they are equal. */
  method EditMatchesSave(a: Attrs, className: string) returns (editClasses: seq<string>, saveClasses: seq<string>)
    ensures |editClasses| == |saveClasses| >= 2
    ensures editClasses[0] == "edit" && saveClasses[0] == "save"
    ensures editClasses[1] == saveClasses[1] == className
    ensures editClasses[1..] == saveClasses[1..]
  {
    editClasses := Edit(a, className);
    saveClasses := Save(a, className);
  }

  /**
   * Token order and presence: the raw width, then `margin-top-X`, then
   * `margin-bottom-Y`, each exactly when its attribute is a non-empty string.
   */
  lemma ClassTokens(a: Attrs)
    ensures Selected(ClassRules(a)) ==
      (if Truthy(a.width) then [a.width.value] else [])
      + (if Truthy(a.marginTop) then ["margin-top-" + a.marginTop.value] else [])
      + (if Truthy(a.marginBottom) then ["margin-bottom-" + a.marginBottom.value] else [])
  {
    var rules := ClassRules(a);
    assert Pushed([], rules, 1) == if Truthy(a.width) then [a.width.value] else [];
    assert Pushed([], rules, 2) == Pushed([], rules, 1)
      + (if Truthy(a.marginTop) then ["margin-top-" + a.marginTop.value] else []);
  }

  /** The margins are told apart from each other by their prefix, so each is present exactly when set. */
  lemma MarginPresence(a: Attrs)
    ensures ("margin-bottom-" + Text(a.marginBottom) in Selected(ClassRules(a))) <==>
      Truthy(a.marginBottom) || (Truthy(a.width) && a.width.value == "margin-bottom-" + Text(a.marginBottom))
  {
    var rules := ClassRules(a);
    var t := "margin-bottom-" + Text(a.marginBottom);
    SelectedMember(rules, t);
    assert rules[1].token != t by {
      assert rules[1].token[7] == 't' && t[7] == 'b';
    }
    assert rules[2].token == t;
    if t in Selected(rules) && !Truthy(a.marginBottom) {
      var i :| 0 <= i < |rules| && rules[i].on && rules[i].token == t;
      assert i == 0;
    }
    if Truthy(a.width) && a.width.value == t {
      assert rules[0].on && rules[0].token == t;
    }
    if Truthy(a.marginBottom) {
      assert rules[2].on;
    }
  }

  const Cell := "cloudblocks/section-row-cell"

  /** What `edit` hands to InnerBlocks: one locked cell. */
  const EditInnerBlocks := InnerBlocksProps(Some([Cell]), Some([Leaf(Cell)]), LockAll)

  const Settings := BlockSettings(
    "Inner One Column Row",
    "One column row for use inside Section Row block",
    "cover-image",
    Some(["cloudblocks/section-row"]),
    Supports(false, true))

  /**
   * Only the cell is allowed, the template holds exactly one cell, nothing can
   * be added, moved or removed, and the block only goes inside a section row.
   */
  lemma Composition()
    ensures EditInnerBlocks.allowedBlocks == Some([Cell])
    ensures EditInnerBlocks.template == Some([Leaf(Cell)]) && TemplateWithinAllowed(EditInnerBlocks)
    ensures EditInnerBlocks.templateLock == LockAll
    ensures forall p :: CanNestUnder(Settings, p) <==> p == "cloudblocks/section-row"
  {
  }
}
