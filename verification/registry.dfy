/**
 * `registerBlocks` of src/index.js: puts the block category first in the
 * editor's category list, dropping any older entry with the same slug, and
 * registers the five section-row blocks under that category.
 */
module Registry {
  import opened Js
  import opened Projection
  import SectionRow
  import SectionRowInnerOneColumn
  import SectionRowInnerTwoColumns
  import SectionRowInnerGallery
  import SectionRowCell

  datatype Category = Category(slug: string, title: string)

  const CloudBlocks := Category("cloudblocks", "Cloud Blocks")

  /** `categories.filter(item => item.slug !== slug)`. */
  function Without(categories: seq<Category>, slug: string): (kept: seq<Category>)
    ensures |kept| <= |categories|
    ensures forall i :: 0 <= i < |kept| ==> kept[i].slug != slug
  {
    if categories == [] then []
    else if categories[0].slug != slug then [categories[0]] + Without(categories[1..], slug)
    else Without(categories[1..], slug)
  }

  /** The new category list: the block category, then the other categories. */
  function UpdateCategories(categories: seq<Category>): (updated: seq<Category>)
    ensures |updated| >= 1 && updated[0] == CloudBlocks
    ensures forall i :: 1 <= i < |updated| ==> updated[i].slug != CloudBlocks.slug
  {
    [CloudBlocks] + Without(categories, CloudBlocks.slug)
  }

  /** How many entries carry the slug. */
  function Count(categories: seq<Category>, slug: string): nat {
    if categories == [] then 0
    else (if categories[0].slug == slug then 1 else 0) + Count(categories[1..], slug)
  }

  /** Exactly the entries with another slug are kept. */
  lemma {:induction false} WithoutMembers(categories: seq<Category>, slug: string)
    ensures forall c :: c in Without(categories, slug) <==> c in categories && c.slug != slug
  {
    if categories != [] {
      WithoutMembers(categories[1..], slug);
      assert categories == [categories[0]] + categories[1..];
    }
  }

  /** Filtering works piece by piece, so kept entries keep their relative order. */
  lemma {:induction false} WithoutAppend(a: seq<Category>, b: seq<Category>, slug: string)
    ensures Without(a + b, slug) == Without(a, slug) + Without(b, slug)
  {
    if a != [] {
      assert (a + b)[1..] == a[1..] + b;
      WithoutAppend(a[1..], b, slug);
    } else {
      assert a + b == b;
    }
  }

  /** One entry is dropped per matching entry. */
  lemma {:induction false} WithoutLength(categories: seq<Category>, slug: string)
    ensures |Without(categories, slug)| == |categories| - Count(categories, slug)
  {
    if categories != [] {
      WithoutLength(categories[1..], slug);
    }
  }

  /** A list with no matching entry is left as it is. */
  lemma {:induction false} WithoutNoMatch(categories: seq<Category>, slug: string)
    requires forall i :: 0 <= i < |categories| ==> categories[i].slug != slug
    ensures Without(categories, slug) == categories
  {
    if categories != [] {
      WithoutNoMatch(categories[1..], slug);
    }
  }

  /**
   * The other categories are kept in their relative order, and the list grows
   * by one minus the number of older entries with the block slug.
   */
  lemma UpdateKeepsOthers(before: seq<Category>, after: seq<Category>)
    ensures var u := UpdateCategories(before + after);
      u == [CloudBlocks] + Without(before, CloudBlocks.slug) + Without(after, CloudBlocks.slug)
    ensures forall c :: c in UpdateCategories(before + after)[1..] <==> c in before + after && c.slug != CloudBlocks.slug
    ensures |UpdateCategories(before + after)| == |before + after| - Count(before + after, CloudBlocks.slug) + 1
  {
    var all, slug := before + after, CloudBlocks.slug;
    var u := UpdateCategories(all);
    assert u[1..] == Without(all, slug);
    assert u == [CloudBlocks] + Without(before, slug) + Without(after, slug) by {
      WithoutAppend(before, after, slug);
    }
    assert forall c :: c in u[1..] <==> c in all && c.slug != slug by {
      WithoutMembers(all, slug);
    }
    assert |u| == |all| - Count(all, slug) + 1 by {
      WithoutLength(all, slug);
    }
  }

  /** Running the update again changes nothing. */
  lemma UpdateIdempotent(categories: seq<Category>)
    ensures UpdateCategories(UpdateCategories(categories)) == UpdateCategories(categories)
  {
    var kept := Without(categories, CloudBlocks.slug);
    assert Without(UpdateCategories(categories), CloudBlocks.slug) == Without(kept, CloudBlocks.slug) by {
      assert UpdateCategories(categories)[1..] == kept;
    }
    WithoutNoMatch(kept, CloudBlocks.slug);
  }

  // ---------------------------------------------------------------------------
  // Block registrations
  // ---------------------------------------------------------------------------

  /** `registerBlockType(name, { category, ...settings })`; no settings object has its own category. */
  datatype Registration = Registration(name: string, category: string, settings: BlockSettings)

  function Register(blockName: string, settings: BlockSettings): Registration {
    Registration(CloudBlocks.slug + "/" + blockName, CloudBlocks.slug, settings)
  }

  /** The five registrations, in the order of the calls. */
  function Registrations(): seq<Registration> {
    [ Register(SectionRow.Name, SectionRow.Settings),
      Register(SectionRowInnerOneColumn.Name, SectionRowInnerOneColumn.Settings),
      Register(SectionRowInnerTwoColumns.Name, SectionRowInnerTwoColumns.Settings),
      Register(SectionRowInnerGallery.Name, SectionRowInnerGallery.Settings),
      Register(SectionRowCell.Name, SectionRowCell.Settings) ]
  }

  /**
   * Every registration is named `cloudblocks/<block name>` and filed under the
   * `cloudblocks` category.
   */
  lemma RegistrationNames()
    ensures |Registrations()| == 5
    ensures forall i :: 0 <= i < 5 ==> Registrations()[i].category == CloudBlocks.slug
    ensures Registrations()[0].name == "cloudblocks/section-row"
    ensures Registrations()[1].name == "cloudblocks/section-row-inner-one-column"
    ensures Registrations()[2].name == "cloudblocks/section-row-inner-two-columns"
    ensures Registrations()[3].name == "cloudblocks/section-row-inner-gallery"
    ensures Registrations()[4].name == "cloudblocks/section-row-cell"
  {
    var r := Registrations();
    assert r[0].name == "cloudblocks/" + SectionRow.Name;
    assert r[1].name == "cloudblocks/" + SectionRowInnerOneColumn.Name;
    assert r[2].name == "cloudblocks/" + SectionRowInnerTwoColumns.Name;
    assert r[3].name == "cloudblocks/" + SectionRowInnerGallery.Name;
    assert r[4].name == "cloudblocks/" + SectionRowCell.Name;
  }

  /** No two registrations share a name. */
  lemma RegistrationNamesDistinct()
    ensures forall i, j :: 0 <= i < j < |Registrations()| ==> Registrations()[i].name != Registrations()[j].name
  {
    RegistrationNames();
    var r := Registrations();
    // the five names have five different lengths
    assert |r[0].name| == 23 && |r[1].name| == 40 && |r[2].name| == 41;
    assert |r[3].name| == 37 && |r[4].name| == 28;
  }

  /**
   * The row nests consistently: the blocks the section row allows inside it
   * are the second to fourth registrations, each accepting the section row as
   * its parent, and the cell the inner rows hold is the fifth registration,
   * hidden from the inserter.
   */
  lemma SectionRowNesting()
    ensures forall i :: 0 <= i < 3 ==> Registrations()[i + 1].name == SectionRow.AllowedBlocks[i]
    ensures forall i :: 1 <= i < 4 ==> CanNestUnder(Registrations()[i].settings, "cloudblocks/section-row")
    ensures Registrations()[4].name == SectionRowInnerOneColumn.Cell == SectionRowInnerTwoColumns.Cell
    ensures !Registrations()[4].settings.supports.inserter
  {
    RegistrationNames();
    var r := Registrations();
    assert r[1].settings.parent == Some(["cloudblocks/section-row"]);
    assert r[2].settings.parent == Some(["cloudblocks/section-row"]);
    assert r[3].settings.parent == Some(["cloudblocks/section-row"]);
  }
}
