# Cloud Blocks layout blocks, modelled in Dafny

Cloud Blocks is a set of block-editor layout blocks. There is a section row with its
inner one-column, two-column and gallery rows and its cell. There is also a section
layout wrapper with its inner one-column and two-column layouts.

Every block turns its attributes into markup the same way, once in `edit` and once in `save`:

- it builds an ordered class list by pushing tokens into `[className]` (or into a
  `['edit', className]` / `['save', className]` base);
- it fills an inline style object field by field;
- it hands fixed composition data to `InnerBlocks`: the allowed child blocks, a default
  template and a template lock.

Around the blocks sit three more pieces:

- `getImageUrl`, which picks the URL of one image size from the two shapes a media
  object can have;
- the section row's media handlers, which decide which background attributes to write;
- `registerBlocks`, which puts the `cloudblocks` category first in the category list
  and registers the five section-row blocks under `cloudblocks/<name>`.

The model is organised as follows.

- **`Js`** holds the JavaScript values involved.
  - An attribute is `Undefined`, `Null` or `Set(v)`.
  - `if (x)` is modelled as a truthiness predicate per type.
  - It also holds the decimal text of whole numbers (`${n}`) and the one-decimal text
    that `(n * 0.1).toFixed(1)` gives.
- **`Projection`** states each block's pushes as a table.
  - A class table has one `Rule(on, token)` per `if`, in the order the code runs them.
  - A style table has one `Decl(on, property, value)` per guarded assignment.
  - `Pushed`, `Selected` and `Style` play a table back. The lemmas here say, once for
    every block, which tokens a played-back table holds, in which order, and which keys
    a style object has.
- **Per-block methods** do the work.
  - The class and style builders are methods that run the source's sequential `if`
    pushes and assignments. Each is proved equal to its table's playback.
  - `edit` and `save` call the same builder. The edit/save agreement, or the planned
    difference in the first token, is stated by an `EditMatchesSave` method and
    proved.
- **`Helpers.GetImageUrl`** and **`SectionRow.OnSelectMedia`** are imperative, as in
  the source.
  - The host's `setAttributes` becomes a returned `MediaWrite`.
  - `ApplyWrite` applies a `MediaWrite` to the attribute record.
- **`Registry`** models the category update as a pure function on a sequence, and the
  registrations as a list of `(name, category, settings)`.

The source's quirks are modelled as they are written:

- The section row's template puts the nested cell where an attributes object belongs.
- The layout two-column block turns its default `column-gap-medium` into
  `column-gap-column-gap-medium`.
- The layout wrapper reads `backgroundPosition` and `backgroundSize`, but declares
  `backgroundImagePosition` and `backgroundImageSize`.
- Raw tokens such as a width can coincide with a prefixed token, so "present iff truthy"
  is stated together with that exception where it can occur. For example, in the inner
  two-column row `column-reverse` is also present when the width or the split is
  literally `column-reverse`, not only when `reverse` is true.
- `getTemplate` in the gallery does not clamp its count: it returns max(n, 0) cells.
- `getImageUrl` reads `media.url` before its null test, so the media argument is taken
  as present. Its one caller tests for a missing media object first.
- A `media_details` object without `sizes` makes `getImageUrl` throw. The model returns
  `Thrown`, and `OnSelectMedia` passes that on as `Throws`.
- The section row's editor always renders a `div`, while `save` renders the element
  named by `htmlElement`; the two agree exactly when that attribute is `div`.

## Model

| member | source | states |
|---|---|---|
| Js.IntToStringInjective | src/section-row-inner-gallery/index.js:101-103 | different numbers never give the same `${n}` text, so `columns-${n}` determines n |
| Js.IntToStringRoundTrip | src/section-row-inner-gallery/index.js:101-103 | the decimal text of any integer reads back as that integer |
| Js.FixedTenthsRoundTrip | src/section-row/index.js:259-263 | the one-decimal opacity text of n >= 0 is digits, a point and a tenths digit, and reads back as n tenths |
| Js.FixedTenthsControlRange | src/section-row/index.js:259-263 | over the control range 1..10 the opacity text is "0.1".."0.9" and "1.0" |
| Projection.PushedRebase | src/section-row/index.js:218-242 | the guarded pushes only append: the result is the base followed by the pushed tokens |
| Projection.EnabledIndices | src/section-row/index.js:218-242 | the rows whose guard passes are listed once each, strictly ascending, and no other row is |
| Projection.PushedOrder | src/section-row/index.js:218-242 | after the base, the k-th class is the token of the k-th row whose guard passes: no row skipped, repeated or reordered |
| Projection.SelectedMember | src/section-row/index.js:218-242 | a token is in the class list iff some row with that token has a passing guard |
| Projection.UniqueTokenSelected | src/section-row/index.js:218-242 | a token no other row can produce is present iff its own guard passes |
| Projection.DistinctTokensSelected | src/section-row/index.js:218-242 | with pairwise distinct tokens, every row's token is present iff its guard passes |
| Projection.AssignedKeys | src/section-row/index.js:244-253 | the style object's keys are exactly the properties of the assignments whose guard passes |
| Projection.AssignedEntry | src/section-row/index.js:244-253 | with distinct properties, a property is a key iff its guard passes, and it then holds its row's value |
| Projection.StyleEntry | src/section-row/index.js:255-263 | the same for a whole style table, plus no key outside the table's properties |
| Helpers.GetImageUrl | src/helpers.js:1-23 | throws iff `media_details` lacks `sizes`; a present `media_details.sizes[slug]` overrides `sizes[slug].url` even when its `source_url` is falsy (then `media.url` is used); a lone truthy `sizes[slug].url` is returned; the result is a non-empty URL, and null exactly when every candidate is falsy |
| SectionRow.ClassList | src/section-row/index.js:218-242 | the pushes of `edit` (and of `save`, lines 529-553) give `[className]` followed by the class table's passing tokens in table order |
| SectionRow.ImageStyle | src/section-row/index.js:244-253 | `backgroundImgStyle` (also lines 555-564) is the image style table played back |
| SectionRow.ColorStyle | src/section-row/index.js:255-263 | `backgroundColorStyle` (also lines 566-574) is the colour style table played back |
| SectionRow.Edit | src/section-row/index.js:218-317 | `edit` yields a `div` element, the class list and the layers over the image and colour styles |
| SectionRow.Save | src/section-row/index.js:509-591 | `save` yields the `htmlElement` tag, the same class list and the same layers |
| SectionRow.EditMatchesSave | src/section-row/index.js:529-582 | edit and save give equal class lists and equal layers (with equal styles), both starting with `className`; their elements agree exactly when `htmlElement` is `div` |
| SectionRow.ClassTokensDistinct | src/section-row/index.js:218-242 | the eight class tokens are pairwise distinct for every attribute value |
| SectionRow.ClassTokenPresence | src/section-row/index.js:218-242 | each of the eight tokens is present iff its guard passes (`align…` iff width, `height-…` iff height, …) |
| SectionRow.ClassOrder | src/section-row/index.js:218-242 | after `className`, the tokens follow the fixed order align, height, margin-top, margin-bottom, padding-top, padding-bottom, behind-page-header, justify-content |
| SectionRow.BehindPageHeaderNeedsHeight | src/section-row/index.js:237-239 | `behind-page-header` is present iff both `behindPageHeader` and `height` are truthy |
| SectionRow.ImageStyleEntries | src/section-row/index.js:244-253 | `backgroundImage = url(…)` is set iff the type is not video and an image is set; position and size iff truthy; no other key |
| SectionRow.ColorStyleEntries | src/section-row/index.js:255-263 | `backgroundColor` iff truthy; `opacity` iff the opacity is non-zero; for 1..10 it is "0.1".."1.0", and for any n > 0 it reads back as n tenths |
| SectionRow.LayerSelection | src/section-row/index.js:313-317 | never both a video and an image layer; video iff type video and an image; image iff type not video and an image; colour iff `backgroundColor`; skip link iff `skipLink`; inner blocks always (the same JSX is at lines 578-582) |
| SectionRow.DefaultProjection | src/section-row/index.js:44-99 | with the schema defaults the classes are `[className, "alignfull", "justify-content-center"]`, the image style holds position center and size cover, the opacity is "1.0", and only the inner blocks are rendered |
| SectionRow.DefaultClassTokens | src/section-row/index.js:44-87 | with the schema defaults only `alignfull` and `justify-content-center` are pushed |
| SectionRow.DefaultStyles | src/section-row/index.js:54-68 | with the schema defaults the image style holds position center and size cover, and the colour style only the opacity "1.0" |
| SectionRow.WrapperAlignMatchesClass | src/section-row/index.js:153-156 | `getEditWrapperProps` gives exactly `data-align` = width, and `alignX` is a class iff `data-align` is the non-empty X |
| SectionRow.TemplateShape | src/section-row/index.js:126-137 | the default template is one allowed inner-one-column, whose cell sits in the attributes slot, so the entry's inner-blocks slot is empty |
| SectionRow.ChosenTypeCases | src/section-row/index.js:275-292 | `media_type` image gives image, any other truthy `media_type` gives video, and without `media_type` a `type` other than image or video is ignored |
| SectionRow.OnSelectMedia | src/section-row/index.js:265-299 | no media or a falsy url writes the three attributes as undefined; an ignored type writes nothing; otherwise it writes the large-size URL, the id and the chosen type, which is image or video and set exactly when the URL is |
| SectionRow.RemoveMediaClearsBackground | src/section-row/index.js:301-307 | removal nulls the three attributes and leaves every other attribute as it was, so no video, image layer or image style remains |
| SectionRow.VideoNeverStylesImage | src/section-row/index.js:251-253 | after a write of type video a leftover image URL never reaches the image style or an image layer; the video layer appears iff the URL is set |
| SectionRowInnerOneColumn.ClassList | src/section-row-inner-one-column/index.js:68-76 | the pushes append the class table's passing tokens, in order, to the given base |
| SectionRowInnerOneColumn.Edit | src/section-row-inner-one-column/index.js:67-76 | the edit list is `['edit', className]` followed by the pushed tokens |
| SectionRowInnerOneColumn.Save | src/section-row-inner-one-column/index.js:130-139 | the save list is `['save', className]` followed by the same tokens |
| SectionRowInnerOneColumn.EditMatchesSave | src/section-row-inner-one-column/index.js:67-139 | the two lists have the same length, start with "edit" and "save", then `className`, and are equal after the first token |
| SectionRowInnerOneColumn.ClassTokens | src/section-row-inner-one-column/index.js:68-76 | the tokens are the raw width if truthy, then `margin-top-X` if truthy, then `margin-bottom-Y` if truthy |
| SectionRowInnerOneColumn.MarginPresence | src/section-row-inner-one-column/index.js:71-76 | `margin-bottom-Y` is present iff `marginBottom` is truthy or the raw width is that very token |
| SectionRowInnerOneColumn.Composition | src/section-row-inner-one-column/index.js:32-46 | only the cell is allowed, the template is one cell, the lock is "all", and the block nests only under the section row |
| SectionRowInnerTwoColumns.ClassList | src/section-row-inner-two-columns/index.js:91-108 | the pushes append the passing tokens (width, split, column-gap, column-reverse, margins), in order, to the given base |
| SectionRowInnerTwoColumns.Edit | src/section-row-inner-two-columns/index.js:90-108 | the edit list is `['edit', className]` followed by the pushed tokens |
| SectionRowInnerTwoColumns.Save | src/section-row-inner-two-columns/index.js:207-225 | the save list is `['save', className]` followed by the same tokens |
| SectionRowInnerTwoColumns.EditMatchesSave | src/section-row-inner-two-columns/index.js:90-225 | the lists differ only in the first token, "edit" against "save" |
| SectionRowInnerTwoColumns.ClassOrder | src/section-row-inner-two-columns/index.js:91-108 | the k-th token is the token of the k-th passing row of the table |
| SectionRowInnerTwoColumns.ColumnReversePresence | src/section-row-inner-two-columns/index.js:100-102 | `column-reverse` is present iff `reverse` is true or the raw width or split is literally `column-reverse`; `reverse` always adds it |
| SectionRowInnerTwoColumns.DefaultClasses | src/section-row-inner-two-columns/index.js:25-36 | with the defaults the tokens are `split-1-1` and `column-gap-medium`, and `column-reverse` is absent |
| SectionRowInnerTwoColumns.Composition | src/section-row-inner-two-columns/index.js:45-62 | the template is exactly two cells, only the cell is allowed, the lock is "insert", and the block nests only under the section row |
| SectionRowInnerGallery.GetTemplate | src/section-row-inner-gallery/index.js:49-55 | the loop returns exactly max(n, 0) entries, each the plain cell entry |
| SectionRowInnerGallery.ClassList | src/section-row-inner-gallery/index.js:98-115 | the pushes append the passing tokens (width, columns, column-gap, row-gap, margins), in order, to the given base |
| SectionRowInnerGallery.Edit | src/section-row-inner-gallery/index.js:97-124 | the edit list starts with `className`; InnerBlocks gets the cell as the only allowed block, `galleryItems` cells (none when not positive) and the lock "all" |
| SectionRowInnerGallery.Save | src/section-row-inner-gallery/index.js:210-228 | the save list is `['save', className]` followed by the pushed tokens |
| SectionRowInnerGallery.EditMatchesSave | src/section-row-inner-gallery/index.js:97-228 | the save list is "save" followed by the edit list |
| SectionRowInnerGallery.SaveIgnoresGalleryItems | src/section-row-inner-gallery/index.js:200-229 | the saved list is the same whatever `galleryItems` is |
| SectionRowInnerGallery.ClassOrder | src/section-row-inner-gallery/index.js:98-115 | the k-th token is the token of the k-th passing row of the table |
| SectionRowInnerGallery.ColumnsToken | src/section-row-inner-gallery/index.js:101-103 | `columns-N` is present iff `columns` is non-zero or the raw width is that token, and the token names exactly one number |
| SectionRowInnerGallery.DefaultClasses | src/section-row-inner-gallery/index.js:23-38 | with the defaults the tokens are `columns-3`, `column-gap-medium` and `row-gap-medium`, and the template count is 3 |
| SectionRowInnerGallery.Placement | src/section-row-inner-gallery/index.js:68 | the block nests only under the section row |
| SectionRowCell.CellStyle | src/section-row-cell/index.js:60-75 | `styles` (also lines 173-188) is the five-row style table played back |
| SectionRowCell.Edit | src/section-row-cell/index.js:51-100 | the classes are always `['section-row-cell', className]`; InnerBlocks gets no allowed list, no template and the lock `false` |
| SectionRowCell.Save | src/section-row-cell/index.js:164-191 | the classes are always `['section-row-cell', className]`, with the same style map |
| SectionRowCell.EditMatchesSave | src/section-row-cell/index.js:60-191 | edit and save give the same fixed classes and equal style maps |
| SectionRowCell.StyleEntries | src/section-row-cell/index.js:60-75 | each of the five properties is a key iff its attribute is truthy, and its value is copied unchanged |
| SectionRowCell.StyleKeys | src/section-row-cell/index.js:60-75 | the style map has no key beyond the five properties |
| SectionLayoutWrapper.ClassList | src/section-layout-wrapper/index.js:145-163 | the pushes of `edit` (and of `save`, lines 296-314) give `[className]` followed by the passing tokens in table order |
| SectionLayoutWrapper.WrapperStyle | src/section-layout-wrapper/index.js:165-174 | `styles` (also lines 316-325) is the three-row style table played back |
| SectionLayoutWrapper.Edit | src/section-layout-wrapper/index.js:145-180 | `edit` yields the class list and the style map |
| SectionLayoutWrapper.Save | src/section-layout-wrapper/index.js:296-328 | `save` yields the same class list and style map |
| SectionLayoutWrapper.EditMatchesSave | src/section-layout-wrapper/index.js:145-325 | edit and save give equal class lists and style maps, starting with `className` |
| SectionLayoutWrapper.HeightTokenPresence | src/section-layout-wrapper/index.js:149-151 | `height-X` is present iff `height` is truthy or the raw width is that token |
| SectionLayoutWrapper.ClassOrder | src/section-layout-wrapper/index.js:145-163 | the k-th token is the token of the k-th passing row: width, height, margins, paddings |
| SectionLayoutWrapper.StyleEntries | src/section-layout-wrapper/index.js:165-174 | `backgroundColor`, `backgroundPosition` and `backgroundSize` are keys iff truthy, hold their values unchanged, and no other key exists |
| SectionLayoutWrapper.DeclaredBackgroundIgnored | src/section-layout-wrapper/index.js:36-43 | the declared `backgroundImagePosition`/`backgroundImageSize` never affect the style, so the `cover` default never reaches it and the default style is empty |
| SectionLayoutWrapper.Composition | src/section-layout-wrapper/index.js:69-80 | the template is one layout inner-one-column with `{}` attributes and one nested layout cell, within the two allowed, distinct child types |
| SectionLayoutInnerOneColumn.ClassList | src/section-layout-inner-one-column/index.js:49-55 | the pushes of `edit` (and of `save`, lines 102-108) give `[className]` followed by the passing tokens |
| SectionLayoutInnerOneColumn.Edit | src/section-layout-inner-one-column/index.js:46-61 | `edit` yields the class list, and InnerBlocks gets no allowed list, template or lock |
| SectionLayoutInnerOneColumn.Save | src/section-layout-inner-one-column/index.js:99-111 | `save` yields the same class list |
| SectionLayoutInnerOneColumn.EditMatchesSave | src/section-layout-inner-one-column/index.js:49-108 | edit and save give the same list, starting with `className` |
| SectionLayoutInnerOneColumn.ClassTokens | src/section-layout-inner-one-column/index.js:49-55 | the tokens are the raw width if truthy, then `full-height` if `fullHeight` |
| SectionLayoutInnerOneColumn.DefaultClasses | src/section-layout-inner-one-column/index.js:27-35 | with the defaults the list is `[className, 'width-default', 'full-height']` |
| SectionLayoutInnerTwoColumns.ClassList | src/section-layout-inner-two-columns/index.js:65-80 | the pushes of `edit` (and of `save`, lines 184-199) give `[className]` followed by the passing tokens |
| SectionLayoutInnerTwoColumns.Edit | src/section-layout-inner-two-columns/index.js:65-107 | `edit` yields the class list; InnerBlocks gets two layout cells, only that type allowed, and the lock "all" |
| SectionLayoutInnerTwoColumns.Save | src/section-layout-inner-two-columns/index.js:181-202 | `save` yields the same class list |
| SectionLayoutInnerTwoColumns.EditMatchesSave | src/section-layout-inner-two-columns/index.js:65-199 | edit and save give the same list, starting with `className` |
| SectionLayoutInnerTwoColumns.ClassOrder | src/section-layout-inner-two-columns/index.js:65-80 | the k-th token is the token of the k-th passing row: width, full-height, split, column-gap, column-reverse |
| SectionLayoutInnerTwoColumns.DefaultClasses | src/section-layout-inner-two-columns/index.js:27-48 | with the defaults the list is `[className, 'width-default', 'full-height', 'split-1-1', 'column-gap-column-gap-medium']`, without `column-gap-medium` |
| SectionLayoutInnerTwoColumns.Placement | src/section-layout-inner-two-columns/index.js:60 | the block nests only under the section layout wrapper |
| Registry.Without | src/index.js:22-24 | the filter keeps no entry with the slug and never lengthens the list |
| Registry.UpdateCategories | src/index.js:22-25 | the updated list starts with the cloudblocks category, and no later entry has its slug |
| Registry.WithoutMembers | src/index.js:22-24 | exactly the entries with another slug are kept |
| Registry.WithoutAppend | src/index.js:22-24 | filtering a concatenation filters each part, so kept entries keep their relative order |
| Registry.WithoutLength | src/index.js:22-24 | the filtered length is the old length minus the number of matching entries |
| Registry.WithoutNoMatch | src/index.js:22-24 | a list without the slug is left unchanged |
| Registry.UpdateKeepsOthers | src/index.js:22-25 | the update is the category followed by the other entries of both parts, in order; its length is the old length minus the matches plus one |
| Registry.UpdateIdempotent | src/index.js:22-25 | updating twice gives the same list as updating once |
| Registry.RegistrationNames | src/index.js:28-47 | there are five registrations, each filed under `cloudblocks` and named `cloudblocks/<block name>` |
| Registry.RegistrationNamesDistinct | src/index.js:28-47 | the five composite names are pairwise distinct |
| Registry.SectionRowNesting | src/index.js:28-47 | the three inner rows are registered under the names the section row allows, each may nest under the section row, and the cell is registered hidden from the inserter |

## Left out

- JSX rendering and the inspector and toolbar widgets are UI. The model keeps the values
  they bind: classes, styles, layers, InnerBlocks props and the attribute writes of the
  media handlers. Other `onChange` handlers only write one attribute each.
- `classes.join(' ')` is not modelled; the model keeps the class list as a sequence.
- The `__` translation lookups are not modelled. Titles and descriptions are kept as
  their English source strings.
- The `console.warn` of `getImageUrl` is a logging side effect and is not modelled.
- Host calls are parameters or results of the model: `setAttributes` is the returned
  `MediaWrite` applied by `ApplyWrite`. `select`/`dispatch` are modelled as a sequence in
  and out of `UpdateCategories`, and `registerBlockType` as the `Registrations` list. The
  editor's enforcement of template locks and parents is not modelled; `CanNestUnder`
  states only the parent rule.
- SectionRow.ColorStyleEntries: the opacity text is modelled for whole numbers only. The
  floating-point product `n * 0.1` is not modelled, and neither is JavaScript's exponent
  notation for numbers of 10^21 and more.
- SectionRowInnerGallery.GetTemplate: a fractional `galleryItems` (the loop would run
  ceil(n) times) is not modelled; counts are whole numbers. The same holds for `columns`
  in the `columns-N` token.
- Attribute values of a type other than the declared one are not modelled, e.g. a string
  where a number is declared. `behindPageHeader` is declared with the schema type
  `'bool'` and is modelled as a boolean.
- Whether the block names used in templates and allowed lists exist is not modelled.
  `cloudblocks/section-layout-cell` is not part of this model. The section-layout blocks
  are not registered by `registerBlocks`; their names are plain strings here.
- A null media argument to `getImageUrl` is not modelled. It would throw at
  `media.url`, and the only caller returns before calling with one.
- webpack.config.js and the stylesheets hold no logic and are not part of this model.
