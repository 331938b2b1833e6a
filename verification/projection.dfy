/**
 * What every block shares: the class list grown by guarded pushes, the inline
 * style object filled by guarded assignments, and the data a block hands to
 * `InnerBlocks` (allowed children, default template, lock mode).
 *
 * Each block states its pushes as a table of rows, one row per `if` in the
 * order the code runs them; `Pushed` and `Assigned` play the table back. The
 * lemmas here say what playing back a table produces, once for all blocks.
 */
module Projection {
  import opened Js

  /** One guarded push: the token it adds and whether its guard passes. */
  datatype Rule = Rule(on: bool, token: string)

  /** `base` after the guarded pushes of the first n rows, run in table order. */
  function Pushed(base: seq<string>, rules: seq<Rule>, n: nat): (classes: seq<string>)
    requires n <= |rules|
    ensures |base| <= |classes| <= |base| + n
    ensures classes[..|base|] == base
  {
    if n == 0 then base
    else if rules[n - 1].on then Pushed(base, rules, n - 1) + [rules[n - 1].token]
    else Pushed(base, rules, n - 1)
  }

  /** The tokens a whole table adds after its base. */
  function Selected(rules: seq<Rule>): seq<string> {
    Pushed([], rules, |rules|)
  }

  /** The positions, ascending, of the rows among the first n whose guard passes. */
  function Enabled(rules: seq<Rule>, n: nat): (e: seq<nat>)
    requires n <= |rules|
    ensures |e| <= n
    ensures forall k :: 0 <= k < |e| ==> e[k] < n
  {
    if n == 0 then []
    else if rules[n - 1].on then Enabled(rules, n - 1) + [n - 1]
    else Enabled(rules, n - 1)
  }

  /** The base only prefixes the pushed tokens: changing it changes nothing else. */
  lemma {:induction false} PushedRebase(base: seq<string>, rules: seq<Rule>, n: nat)
    requires n <= |rules|
    ensures Pushed(base, rules, n) == base + Pushed([], rules, n)
  {
    if n > 0 {
      PushedRebase(base, rules, n - 1);
    }
  }

  /** Enabled lists exactly the rows whose guard passes, in strictly increasing order. */
  lemma {:induction false} EnabledIndices(rules: seq<Rule>, n: nat)
    requires n <= |rules|
    ensures forall k, l :: 0 <= k < l < |Enabled(rules, n)| ==> Enabled(rules, n)[k] < Enabled(rules, n)[l]
    ensures forall i :: 0 <= i < n ==> (i in Enabled(rules, n) <==> rules[i].on)
  {
    if n > 0 {
      EnabledIndices(rules, n - 1);
    }
  }

  /**
   * The token order: after the base, the k-th token is the token of the k-th
   * row whose guard passes, so no row is skipped, repeated or reordered.
   */
  lemma {:induction false} PushedOrder(base: seq<string>, rules: seq<Rule>, n: nat)
    requires n <= |rules|
    ensures |Pushed(base, rules, n)| == |base| + |Enabled(rules, n)|
    ensures forall k :: 0 <= k < |Enabled(rules, n)| ==>
      Pushed(base, rules, n)[|base| + k] == rules[Enabled(rules, n)[k]].token
  {
    if n > 0 {
      PushedOrder(base, rules, n - 1);
    }
  }

  /** A token is in the list exactly when some row with that token has a passing guard. */
  lemma SelectedMember(rules: seq<Rule>, t: string)
    ensures t in Selected(rules) <==> exists i :: 0 <= i < |rules| && rules[i].on && rules[i].token == t
  {
    var e := Enabled(rules, |rules|);
    PushedOrder([], rules, |rules|);
    EnabledIndices(rules, |rules|);
    if t in Selected(rules) {
      var k :| 0 <= k < |Selected(rules)| && Selected(rules)[k] == t;
      assert rules[e[k]].on && rules[e[k]].token == t;
    }
    if exists i :: 0 <= i < |rules| && rules[i].on && rules[i].token == t {
      var i :| 0 <= i < |rules| && rules[i].on && rules[i].token == t;
      var k :| 0 <= k < |e| && e[k] == i;
      assert Selected(rules)[k] == t;
    }
  }

  /** A token that no other row can produce is present exactly when its own guard passes. */
  lemma UniqueTokenSelected(rules: seq<Rule>, i: nat)
    requires i < |rules|
    requires forall j :: 0 <= j < |rules| && j != i ==> rules[j].token != rules[i].token
    ensures rules[i].token in Selected(rules) <==> rules[i].on
  {
    SelectedMember(rules, rules[i].token);
  }

  /** No two rows of the table push the same token. */
  predicate DistinctTokens(rules: seq<Rule>) {
    forall i, j :: 0 <= i < j < |rules| ==> rules[i].token != rules[j].token
  }

  /** With distinct tokens, every row's token is present exactly when that row's guard passes. */
  lemma DistinctTokensSelected(rules: seq<Rule>)
    requires DistinctTokens(rules)
    ensures forall i :: 0 <= i < |rules| ==> (rules[i].token in Selected(rules) <==> rules[i].on)
  {
    forall i | 0 <= i < |rules|
      ensures rules[i].token in Selected(rules) <==> rules[i].on
    {
      UniqueTokenSelected(rules, i);
    }
  }

  /** One guarded assignment into the style object: property, value, and whether its guard passes. */
  datatype Decl = Decl(on: bool, property: string, value: string)

  /** The style object `{}` after the guarded assignments of the first n rows. */
  function Assigned(decls: seq<Decl>, n: nat): map<string, string>
    requires n <= |decls|
  {
    if n == 0 then map[]
    else if decls[n - 1].on then Assigned(decls, n - 1)[decls[n - 1].property := decls[n - 1].value]
    else Assigned(decls, n - 1)
  }

  /** The style object a whole table of assignments produces. */
  function Style(decls: seq<Decl>): map<string, string> {
    Assigned(decls, |decls|)
  }

  predicate DistinctProperties(decls: seq<Decl>) {
    forall i, j :: 0 <= i < j < |decls| ==> decls[i].property != decls[j].property
  }

  /** The keys of the style object are exactly the properties of the rows whose guard passes. */
  lemma {:induction false} AssignedKeys(decls: seq<Decl>, n: nat)
    requires n <= |decls|
    ensures forall p :: p in Assigned(decls, n) <==>
      exists i :: 0 <= i < n && decls[i].on && decls[i].property == p
  {
    if n > 0 {
      AssignedKeys(decls, n - 1);
    }
  }

  /**
   * With distinct properties, each row's property is a key exactly when its
   * guard passes, and then it holds that row's value unchanged.
   */
  lemma {:induction false} AssignedEntry(decls: seq<Decl>, n: nat, i: nat)
    requires n <= |decls| && i < n
    requires DistinctProperties(decls)
    ensures decls[i].property in Assigned(decls, n) <==> decls[i].on
    ensures decls[i].on ==> Assigned(decls, n)[decls[i].property] == decls[i].value
  {
    AssignedKeys(decls, n);
    if i < n - 1 {
      AssignedEntry(decls, n - 1, i);
    }
  }

  /** Style-level form of AssignedEntry and AssignedKeys. */
  lemma StyleEntry(decls: seq<Decl>, i: nat)
    requires i < |decls| && DistinctProperties(decls)
    ensures decls[i].property in Style(decls) <==> decls[i].on
    ensures decls[i].on ==> Style(decls)[decls[i].property] == decls[i].value
    ensures forall p :: p in Style(decls) ==> exists j :: 0 <= j < |decls| && decls[j].property == p
  {
    AssignedEntry(decls, |decls|, i);
    AssignedKeys(decls, |decls|);
  }

  // ---------------------------------------------------------------------------
  // Composition data handed to InnerBlocks and to the block registry
  // ---------------------------------------------------------------------------

  /** The `templateLock` prop: `false`, "insert", "all", or not given at all. */
  datatype TemplateLock = LockFalse | LockInsert | LockAll | LockNotGiven

  /**
   * One entry of a template array, `[name, attributes, innerBlocks]`; the
   * second slot is what the source literally puts there: nothing, an object,
   * or (in one block) a nested array.
   */
  datatype TemplateEntry = Entry(name: string, attributes: TemplateArg, innerBlocks: seq<TemplateEntry>)

  datatype TemplateArg = NoAttributes | ObjectArg(fields: map<string, string>) | ArrayArg(entries: seq<TemplateEntry>)

  /** The props an `edit` passes to InnerBlocks; a prop not given is None. */
  datatype InnerBlocksProps = InnerBlocksProps(
    allowedBlocks: Option<seq<string>>,
    template: Option<seq<TemplateEntry>>,
    templateLock: TemplateLock)

  /** A plain entry `['name']`: no attributes and no inner blocks. */
  function Leaf(name: string): TemplateEntry {
    Entry(name, NoAttributes, [])
  }

  /** Every entry of the default template names a block the allowed list admits. */
  predicate TemplateWithinAllowed(p: InnerBlocksProps) {
    p.allowedBlocks.Some? && p.template.Some? ==>
      forall i :: 0 <= i < |p.template.value| ==> p.template.value[i].name in p.allowedBlocks.value
  }

  /** `supports` of a block's settings; an omitted flag is the editor's default, true. */
  datatype Supports = Supports(html: bool, inserter: bool)

  /** The settings object a block module exports, without the UI callbacks. */
  datatype BlockSettings = BlockSettings(
    title: string,
    description: string,
    icon: string,
    parent: Option<seq<string>>,
    supports: Supports)

  /** The editor's parent check: a block with a `parent` list may only be placed under those blocks. */
  predicate CanNestUnder(settings: BlockSettings, parentName: string) {
    settings.parent.None? || parentName in settings.parent.value
  }
}
