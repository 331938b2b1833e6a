/**
 * The `section-row-inner-two-columns` block
 * (src/section-row-inner-two-columns/index.js): two cells side by side, with a
 * split ratio, a gap and an optional reversed order on large screens.
 */
module SectionRowInnerTwoColumns {
  import opened Js
  import opened Projection

  const Name := "section-row-inner-two-columns"

  datatype Attrs = Attrs(
    width: Attr<string>,
    split: Attr<string>,
    columnGap: Attr<string>,
    reverse: Attr<bool>,
    marginTop: Attr<string>,
    marginBottom: Attr<string>)

  const Unset := Attrs(Undefined, Undefined, Undefined, Undefined, Undefined, Undefined)

  function WithDefaults(a: Attrs): Attrs {
    a.(split := OrDefault(a.split, "split-1-1"),
       columnGap := OrDefault(a.columnGap, "medium"),
       reverse := OrDefault(a.reverse, false))
  }

  /** The pushes after the first two tokens; width and split are pushed as they are. */
  function ClassRules(a: Attrs): seq<Rule> {
    [ Rule(Truthy(a.width), Text(a.width)),
      Rule(Truthy(a.split), Text(a.split)),
      Rule(Truthy(a.columnGap), "column-gap-" + Text(a.columnGap)),
      Rule(BoolTruthy(a.reverse), "column-reverse"),
      Rule(Truthy(a.marginTop), "margin-top-" + Text(a.marginTop)),
      Rule(Truthy(a.marginBottom), "margin-bottom-" + Text(a.marginBottom)) ]
  }

  /** The pushes both `edit` (lines 91-108) and `save` (lines 208-225) run after their base. */
  method ClassList(base: seq<string>, a: Attrs) returns (classes: seq<string>)
    ensures classes == base + Selected(ClassRules(a))
  {
    ghost var rules := ClassRules(a);
    classes := base;
    if Truthy(a.width) {
      classes := classes + [a.width.value];
    }
    assert classes == Pushed(base, rules, 1);
    if Truthy(a.split) {
      classes := classes + [a.split.value];
    }
    assert classes == Pushed(base, rules, 2);
    if Truthy(a.columnGap) {
      classes := classes + ["column-gap-" + a.columnGap.value];
    }
    assert classes == Pushed(base, rules, 3);
    if BoolTruthy(a.reverse) {
      classes := classes + ["column-reverse"];
    }
    assert classes == Pushed(base, rules, 4);
    if Truthy(a.marginTop) {
      classes := classes + ["margin-top-" + a.marginTop.value];
    }
    assert classes == Pushed(base, rules, 5);
    if Truthy(a.marginBottom) {
      classes := classes + ["margin-bottom-" + a.marginBottom.value];
    }
    assert classes == Pushed(base, rules, 6);
    PushedRebase(base, rules, 6);
  }

  method Edit(a: Attrs, className: string) returns (classes: seq<string>)
    ensures classes == ["edit", className] + Selected(ClassRules(a))
  {
    classes := ClassList(["edit", className], a);
  }

  method Save(a: Attrs, className: string) returns (classes: seq<string>)
    ensures classes == ["save", className] + Selected(ClassRules(a))
  {
    classes := ClassList(["save", className], a);
  }

  /** The editor's and the saved list differ only in their first token. */
  method EditMatchesSave(a: Attrs, className: string) returns (editClasses: seq<string>, saveClasses: seq<string>)
    ensures |editClasses| == |saveClasses| >= 2
    ensures editClasses[0] == "edit" && saveClasses[0] == "save"
    ensures editClasses[1] == saveClasses[1] == className
    ensures editClasses[1..] == saveClasses[1..]
  {
    editClasses := Edit(a, className);
    saveClasses := Save(a, className);
  }

  /**
   * The tokens follow the table order (width, split, gap, reverse, margins):
   * the k-th token after the first two comes from the k-th row whose guard passes.
   */
  lemma ClassOrder(a: Attrs, className: string)
    ensures |Selected(ClassRules(a))| == |Enabled(ClassRules(a), 6)|
    ensures forall k :: 0 <= k < |Enabled(ClassRules(a), 6)| ==>
      Selected(ClassRules(a))[k] == ClassRules(a)[Enabled(ClassRules(a), 6)[k]].token
  {
    PushedOrder([], ClassRules(a), 6);
  }

  /**
   * `column-reverse` is present exactly when `reverse` is true, or when the
   * raw width or split text happens to be that very token; the prefixed
   * tokens can never produce it.
   */
  lemma ColumnReversePresence(a: Attrs)
    ensures "column-reverse" in Selected(ClassRules(a)) <==>
      BoolTruthy(a.reverse) || a.width == Set("column-reverse") || a.split == Set("column-reverse")
    ensures BoolTruthy(a.reverse) ==> "column-reverse" in Selected(ClassRules(a))
  {
    var rules := ClassRules(a);
    SelectedMember(rules, "column-reverse");
    assert rules[2].token != "column-reverse" by {
      assert rules[2].token[7] == 'g';
    }
    assert rules[4].token[0] == 'm' && rules[5].token[0] == 'm';
    if BoolTruthy(a.reverse) {
      assert rules[3].on;
    }
    if a.width == Set("column-reverse") {
      assert rules[0].on && rules[0].token == "column-reverse";
    }
    if a.split == Set("column-reverse") {
      assert rules[1].on && rules[1].token == "column-reverse";
    }
  }

  /** With the defaults the list holds the 1:1 split and the medium gap and no reversal. */
  lemma DefaultClasses()
    ensures Selected(ClassRules(WithDefaults(Unset))) == ["split-1-1", "column-gap-medium"]
    ensures "column-reverse" !in Selected(ClassRules(WithDefaults(Unset)))
  {
    var rules := ClassRules(WithDefaults(Unset));
    assert rules[1] == Rule(true, "split-1-1");
    assert rules[2] == Rule(true, "column-gap-medium");
    assert !rules[0].on && !rules[3].on && !rules[4].on && !rules[5].on;
    assert Pushed([], rules, 1) == [];
    assert Pushed([], rules, 2) == ["split-1-1"];
    assert Pushed([], rules, 3) == ["split-1-1", "column-gap-medium"];
    assert Pushed([], rules, 5) == Pushed([], rules, 4) == Pushed([], rules, 3);
  }

  const Cell := "cloudblocks/section-row-cell"

  /** What `edit` hands to InnerBlocks: two cells that can be moved but not added or removed. */
  const EditInnerBlocks := InnerBlocksProps(Some([Cell]), Some([Leaf(Cell), Leaf(Cell)]), LockInsert)

  const Settings := BlockSettings(
    "Inner Two Columns Row",
    "Two columns row for use inside Section Row block",
    "cover-image",
    Some(["cloudblocks/section-row"]),
    Supports(false, true))

  /**
   * The template is exactly two cells, only cells are allowed, the lock is
   * `insert`, and the block only goes inside a section row.
   */
  lemma Composition()
    ensures EditInnerBlocks.template == Some([Leaf(Cell), Leaf(Cell)]) && TemplateWithinAllowed(EditInnerBlocks)
    ensures EditInnerBlocks.allowedBlocks == Some([Cell])
    ensures EditInnerBlocks.templateLock == LockInsert
    ensures forall p :: CanNestUnder(Settings, p) <==> p == "cloudblocks/section-row"
  {
  }
}
