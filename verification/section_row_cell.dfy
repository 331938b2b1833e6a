/**
 * The `section-row-cell` block (src/section-row-cell/index.js): the cell the
 * inner rows hold. Its classes are fixed; its inline style carries up to five
 * layout properties copied from the attributes.
 */
module SectionRowCell {
  import opened Js
  import opened Projection

  const Name := "section-row-cell"

  datatype Attrs = Attrs(
    maxWidth: Attr<string>,
    alignSelf: Attr<string>,
    justifySelf: Attr<string>,
    justifyContent: Attr<string>,
    alignItems: Attr<string>)

  const StyleProperties := ["maxWidth", "alignSelf", "alignItems", "justifySelf", "justifyContent"]

  /** The assignments into `styles`, in the order the code runs them. */
  function StyleDecls(a: Attrs): seq<Decl> {
    [ Decl(Truthy(a.maxWidth), "maxWidth", Text(a.maxWidth)),
      Decl(Truthy(a.alignSelf), "alignSelf", Text(a.alignSelf)),
      Decl(Truthy(a.alignItems), "alignItems", Text(a.alignItems)),
      Decl(Truthy(a.justifySelf), "justifySelf", Text(a.justifySelf)),
      Decl(Truthy(a.justifyContent), "justifyContent", Text(a.justifyContent)) ]
  }

  /** `styles` as both `edit` (lines 60-75) and `save` (lines 173-188) fill it. */
  method CellStyle(a: Attrs) returns (styles: map<string, string>)
    ensures styles == Style(StyleDecls(a))
  {
    ghost var decls := StyleDecls(a);
    styles := map[];
    if Truthy(a.maxWidth) {
      styles := styles["maxWidth" := a.maxWidth.value];
    }
    assert styles == Assigned(decls, 1);
    if Truthy(a.alignSelf) {
      styles := styles["alignSelf" := a.alignSelf.value];
    }
    assert styles == Assigned(decls, 2);
    if Truthy(a.alignItems) {
      styles := styles["alignItems" := a.alignItems.value];
    }
    assert styles == Assigned(decls, 3);
    if Truthy(a.justifySelf) {
      styles := styles["justifySelf" := a.justifySelf.value];
    }
    assert styles == Assigned(decls, 4);
    if Truthy(a.justifyContent) {
      styles := styles["justifyContent" := a.justifyContent.value];
    }
    assert styles == Assigned(decls, 5);
  }

  /** The editor's cell: fixed classes, the style, and unconstrained children. */
  method Edit(a: Attrs, className: string) returns (classes: seq<string>, styles: map<string, string>, inner: InnerBlocksProps)
    ensures classes == ["section-row-cell", className]
    ensures styles == Style(StyleDecls(a))
    ensures inner.allowedBlocks.None? && inner.template.None? && inner.templateLock == LockFalse
  {
    styles := CellStyle(a);
    classes := ["section-row-cell", className];
    inner := InnerBlocksProps(None, None, LockFalse);
  }

  method Save(a: Attrs, className: string) returns (classes: seq<string>, styles: map<string, string>)
    ensures classes == ["section-row-cell", className]
    ensures styles == Style(StyleDecls(a))
  {
    styles := CellStyle(a);
    classes := ["section-row-cell", className];
  }

  /** For equal attributes the editor and the saved markup carry the same classes and style. */
  method EditMatchesSave(a: Attrs, className: string)
    returns (editClasses: seq<string>, saveClasses: seq<string>, editStyles: map<string, string>, saveStyles: map<string, string>)
    ensures editClasses == saveClasses == ["section-row-cell", className]
    ensures editStyles == saveStyles
  {
    var inner;
    editClasses, editStyles, inner := Edit(a, className);
    saveClasses, saveStyles := Save(a, className);
  }

  /**
   * Each of the five properties is a style key exactly when its attribute is a
   * non-empty string, it holds that string unchanged, and there are no other keys.
   */
  lemma StyleEntries(a: Attrs)
    ensures "maxWidth" in Style(StyleDecls(a)) <==> Truthy(a.maxWidth)
    ensures "alignSelf" in Style(StyleDecls(a)) <==> Truthy(a.alignSelf)
    ensures "alignItems" in Style(StyleDecls(a)) <==> Truthy(a.alignItems)
    ensures "justifySelf" in Style(StyleDecls(a)) <==> Truthy(a.justifySelf)
    ensures "justifyContent" in Style(StyleDecls(a)) <==> Truthy(a.justifyContent)
    ensures Truthy(a.maxWidth) ==> Style(StyleDecls(a))["maxWidth"] == a.maxWidth.value
    ensures Truthy(a.alignSelf) ==> Style(StyleDecls(a))["alignSelf"] == a.alignSelf.value
    ensures Truthy(a.alignItems) ==> Style(StyleDecls(a))["alignItems"] == a.alignItems.value
    ensures Truthy(a.justifySelf) ==> Style(StyleDecls(a))["justifySelf"] == a.justifySelf.value
    ensures Truthy(a.justifyContent) ==> Style(StyleDecls(a))["justifyContent"] == a.justifyContent.value
  {
    var d := StyleDecls(a);
    assert DistinctProperties(d);
    StyleEntry(d, 0);
    StyleEntry(d, 1);
    StyleEntry(d, 2);
    StyleEntry(d, 3);
    StyleEntry(d, 4);
  }

  /** The style has no keys beyond the five properties. */
  lemma StyleKeys(a: Attrs)
    ensures forall p :: p in Style(StyleDecls(a)) ==> p in StyleProperties
  {
    AssignedKeys(StyleDecls(a), 5);
  }

  /** The cell accepts any child block and is hidden from the inserter. */
  const Settings := BlockSettings(
    "Cell",
    "Cell for use inside any Section Row Inner blocks",
    "cover-image",
    None,
    Supports(false, false))
}
