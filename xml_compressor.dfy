// Compression of an Android UI hierarchy: pruning of attributes that carry
// no information for choosing an action, and removal of generic wrapper
// containers that add nothing but a level of nesting.  Parsing and
// serialisation of the XML text are outside the model: the tree is given.
module XmlCompressor {
  import opened Wrappers
  import opened Text

  /** An XML element: tag, attributes and child elements in document order. */
  datatype Element = Element(tag: string, attrs: map<string, string>, children: seq<Element>)

  const DELETE_ATTRIBUTES: set<string> := {
    "index", "package", "displayed", "drawing-order",
    "selection-start", "selection-end", "input-type", "max-text-length", "multiline",
    "a11y-important", "screen-reader-focusable", "a11y-focused", "heading", "live-region",
    "pane-title", "tooltip-text",
    "showing-hint", "text-entry-key", "context-clickable", "content-invalid",
    "actions", "window-id",
    "NAF", "adapter-type", "instance"
  }

  /** Removed when their value is the empty string. */
  const EMPTY_REMOVABLE: set<string> := {"text", "content-desc", "resource-id", "hint"}

  const OPERATION_ATTRIBUTES: set<string> := {
    "clickable", "long-clickable", "scrollable", "focusable", "checkable", "dismissable"
  }

  /** State attributes removed when "false". */
  const STATE_FALSE_REMOVABLE: set<string> := {"checked", "selected", "focused", "password"}

  const GENERIC_CONTAINER_CLASSES: set<string> := {
    "android.widget.FrameLayout", "android.widget.LinearLayout", "android.view.ViewGroup", "android.view.View"
  }

  const IMPORTANT_CONTAINER_PATTERNS: set<string> := {
    "scrollview", "recyclerview", "listview", "viewpager", "toolbar", "appbar",
    "dialog", "popup", "sheet", "bottomsheet", "alert"
  }

  const IMPORTANT_RESOURCE_ID_PATTERNS: set<string> := {
    "toolbar", "header", "footer", "dialog", "popup", "sheet", "nav", "navigation", "menu", "content", "container"
  }

  const INTERACTIVE_CLASS_PATTERNS: set<string> := {
    "button", "edittext", "textinput", "checkbox", "switch", "radiobutton", "spinner", "seekbar", "ratingbar"
  }

  /** The state attributes whose value "true" protects a node. */
  const PROTECTING_STATE_ATTRIBUTES: set<string> := {
    "clickable", "long-clickable", "scrollable", "focusable", "focused", "checkable", "checked", "selected", "dismissable"
  }

  /** `elem.get(key, default)` */
  function Get(attrs: map<string, string>, key: string, default: string): string
  {
    if key in attrs then attrs[key] else default
  }

  // ---------------------------------------------------------------------
  // Attribute pruning
  // ---------------------------------------------------------------------

  /** Whether attribute `key` with value `value` survives `_compress_element`. */
  predicate KeepAttribute(key: string, value: string)
  {
    key !in DELETE_ATTRIBUTES
    && !(key in EMPTY_REMOVABLE && value == "")
    && !(key in OPERATION_ATTRIBUTES && value == "false")
    && !(key == "enabled" && value == "true")
    && !(key in STATE_FALSE_REMOVABLE && value == "false")
  }

  /** The attribute deletions of one element; nothing is added and no value is changed. */
  function PruneAttributes(attrs: map<string, string>): (r: map<string, string>)
    ensures forall k :: k in r <==> k in attrs && KeepAttribute(k, attrs[k])
    ensures forall k :: k in r ==> r[k] == attrs[k]
  {
    map k | k in attrs && KeepAttribute(k, attrs[k]) :: attrs[k]
  }

  /** `_compress_element`: prunes the attributes of every element of the tree. */
  function CompressElement(e: Element): Element
  {
    Element(e.tag, PruneAttributes(e.attrs),
            seq(|e.children|, i requires 0 <= i < |e.children| => CompressElement(e.children[i])))
  }

  /** Two trees with the same tags and the same children at every position. */
  predicate SameShape(a: Element, b: Element)
  {
    a.tag == b.tag && |a.children| == |b.children|
    && forall i :: 0 <= i < |a.children| ==> SameShape(a.children[i], b.children[i])
  }

  /** Attribute pruning never adds, removes or moves an element. */
  lemma {:induction false} CompressKeepsShape(e: Element)
    ensures SameShape(e, CompressElement(e))
  {
    var c := CompressElement(e);
    forall i | 0 <= i < |e.children|
      ensures SameShape(e.children[i], c.children[i])
    {
      CompressKeepsShape(e.children[i]);
    }
  }

  /** Unknown attributes are kept with their value whatever it is. */
  lemma UnknownAttributesKept(attrs: map<string, string>, key: string)
    requires key in attrs
    requires key !in DELETE_ATTRIBUTES && key !in EMPTY_REMOVABLE && key !in OPERATION_ATTRIBUTES
    requires key !in STATE_FALSE_REMOVABLE && key != "enabled"
    ensures key in PruneAttributes(attrs) && PruneAttributes(attrs)[key] == attrs[key]
  {
  }

  /** The value rules: which values of the flag attributes are dropped and which are kept. */
  lemma ValueRules(attrs: map<string, string>)
    ensures forall k :: k in OPERATION_ATTRIBUTES && k in attrs && attrs[k] == "true" ==> k in PruneAttributes(attrs)
    ensures forall k :: k in OPERATION_ATTRIBUTES && k in attrs && attrs[k] == "false" ==> k !in PruneAttributes(attrs)
    ensures "enabled" in attrs && attrs["enabled"] == "false" ==> "enabled" in PruneAttributes(attrs)
    ensures "enabled" in attrs && attrs["enabled"] == "true" ==> "enabled" !in PruneAttributes(attrs)
    ensures forall k :: k in EMPTY_REMOVABLE && k in attrs && attrs[k] == "" ==> k !in PruneAttributes(attrs)
    ensures forall k :: k in STATE_FALSE_REMOVABLE && k in attrs && attrs[k] == "false" ==> k !in PruneAttributes(attrs)
    ensures forall k :: k in DELETE_ATTRIBUTES ==> k !in PruneAttributes(attrs)
  {
    OperationsNotDeleted();
    EnabledOnlyByValue();
  }

  /** No operation flag is on the delete list, and none is `enabled`. */
  lemma OperationsNotDeleted()
    ensures forall k :: k in OPERATION_ATTRIBUTES ==> k !in DELETE_ATTRIBUTES && k != "enabled"
  {
  }

  /** `enabled` is on none of the lists; only its own value rule applies to it. */
  lemma EnabledOnlyByValue()
    ensures "enabled" !in DELETE_ATTRIBUTES && "enabled" !in EMPTY_REMOVABLE
    ensures "enabled" !in OPERATION_ATTRIBUTES && "enabled" !in STATE_FALSE_REMOVABLE
  {
  }

  /** "rotation" is not on the delete list, so the special case for the root's rotation never applies. */
  lemma RotationNeverDeleted(attrs: map<string, string>)
    requires "rotation" in attrs
    ensures "rotation" in PruneAttributes(attrs) && PruneAttributes(attrs)["rotation"] == attrs["rotation"]
  {
  }

  // ---------------------------------------------------------------------
  // Container removal
  // ---------------------------------------------------------------------

  /** The number of elements of a tree. */
  function Size(e: Element): nat
  {
    1 + SizeAll(e.children)
  }

  function SizeAll(cs: seq<Element>): nat
  {
    if cs == [] then 0 else Size(cs[0]) + SizeAll(cs[1..])
  }

  /** `_is_important_container`: a container class or a landmark resource-id, matched case-insensitively. */
  predicate IsImportantContainer(node: Element)
  {
    var cls := Lower(Get(node.attrs, "class", ""));
    var rid := Lower(Get(node.attrs, "resource-id", ""));
    (exists p | p in IMPORTANT_CONTAINER_PATTERNS :: Contains(cls, p))
    || (exists p | p in IMPORTANT_RESOURCE_ID_PATTERNS :: Contains(rid, p))
  }

  /** `_is_protected_node`: nodes that must never be removed. */
  predicate IsProtectedNode(node: Element, parentTag: string)
  {
    parentTag == "hierarchy"
    || (exists a | a in PROTECTING_STATE_ATTRIBUTES :: Get(node.attrs, a, "") == "true")
    || Get(node.attrs, "text", "") != ""
    || Get(node.attrs, "content-desc", "") != ""
    || "resource-id" in node.attrs
    || (exists p | p in INTERACTIVE_CLASS_PATTERNS :: Contains(Lower(Get(node.attrs, "class", "")), p))
    || IsImportantContainer(node)
    || |node.children| >= 2
  }

  /** `_can_remove_container` */
  predicate CanRemoveContainer(node: Element, parentTag: string)
  {
    !IsProtectedNode(node, parentTag)
    && |node.children| == 1
    && Get(node.attrs, "class", "") in GENERIC_CONTAINER_CLASSES
    && Get(node.attrs, "bounds", "") == Get(node.children[0].attrs, "bounds", "")
    && Get(node.attrs, "bounds", "") != ""
    && !IsImportantContainer(node.children[0])
  }

  /**
   * `_remove_containers_pass` on the children of `e`: each child is first
   * processed itself, then replaced by its only child when it can be removed.
   * The flag says whether anything was removed anywhere below `e`.
   */
  function PassNode(e: Element): (r: (Element, bool))
    ensures r.0.tag == e.tag && r.0.attrs == e.attrs
    ensures r.1 ==> Size(r.0) < Size(e)
    ensures !r.1 ==> r.0 == e
    decreases Size(e), 1
  {
    var (cs, changed) := PassChildren(e.tag, e.children);
    (e.(children := cs), changed)
  }

  /** The children of a node with tag `parentTag` after one pass, slot by slot. */
  function PassChildren(parentTag: string, cs: seq<Element>): (r: (seq<Element>, bool))
    ensures |r.0| == |cs|
    ensures r.1 ==> SizeAll(r.0) < SizeAll(cs)
    ensures !r.1 ==> r.0 == cs
    decreases SizeAll(cs), 2
  {
    if cs == [] then ([], false)
    else
      var (c, childChanged) := PassNode(cs[0]);
      var removable := CanRemoveContainer(c, parentTag);
      var first := if removable then OnlyChild(c) else c;
      var (rest, restChanged) := PassChildren(parentTag, cs[1..]);
      assert cs == [cs[0]] + cs[1..];
      ([first] + rest, childChanged || removable || restChanged)
  }

  /** The only child of a node, which is smaller than the node. */
  function OnlyChild(c: Element): (r: Element)
    requires |c.children| == 1
    ensures r == c.children[0] && Size(r) < Size(c)
  {
    assert c.children == [c.children[0]];
    assert SizeAll(c.children) == Size(c.children[0]) + SizeAll([]);
    c.children[0]
  }

  /** Each slot of the pass result holds the processed child, or its only child when that was removed. */
  lemma {:induction false} PassChildrenSlots(parentTag: string, cs: seq<Element>, i: nat)
    requires i < |cs|
    ensures var c := PassNode(cs[i]).0;
      PassChildren(parentTag, cs).0[i] == if CanRemoveContainer(c, parentTag) then c.children[0] else c
    decreases i
  {
    if i > 0 {
      PassChildrenSlots(parentTag, cs[1..], i - 1);
    }
  }

  /** The non-empty text and content-desc values of a node. */
  function NodeLabels(e: Element): seq<string>
  {
    (if Get(e.attrs, "text", "") != "" then [e.attrs["text"]] else [])
    + (if Get(e.attrs, "content-desc", "") != "" then [e.attrs["content-desc"]] else [])
  }

  /** Every visible label of the tree in document order. */
  function Labels(e: Element): seq<string>
  {
    NodeLabels(e) + LabelsAll(e.children)
  }

  function LabelsAll(cs: seq<Element>): seq<string>
  {
    if cs == [] then [] else Labels(cs[0]) + LabelsAll(cs[1..])
  }

  /** A removable node carries no label, so removing it keeps its child's labels in place. */
  lemma RemovableHasNoLabels(c: Element, parentTag: string)
    requires CanRemoveContainer(c, parentTag)
    ensures Labels(c) == Labels(c.children[0])
  {
    assert NodeLabels(c) == [];
    assert c.children == [c.children[0]];
    assert LabelsAll(c.children) == Labels(c.children[0]) + LabelsAll([]);
  }

  /** A pass never loses, adds or reorders a text or content-desc value. */
  lemma {:induction false} PassKeepsLabels(e: Element)
    ensures Labels(PassNode(e).0) == Labels(e)
    decreases Size(e), 1
  {
    PassChildrenKeepsLabels(e.tag, e.children);
  }

  lemma {:induction false} PassChildrenKeepsLabels(parentTag: string, cs: seq<Element>)
    ensures LabelsAll(PassChildren(parentTag, cs).0) == LabelsAll(cs)
    decreases SizeAll(cs), 2
  {
    if cs != [] {
      var (c, _) := PassNode(cs[0]);
      PassKeepsLabels(cs[0]);
      if CanRemoveContainer(c, parentTag) {
        RemovableHasNoLabels(c, parentTag);
      }
      assert SizeAll(cs) == Size(cs[0]) + SizeAll(cs[1..]);
      PassChildrenKeepsLabels(parentTag, cs[1..]);
      var r := PassChildren(parentTag, cs).0;
      assert r[1..] == PassChildren(parentTag, cs[1..]).0;
    }
  }

  /**
   * `_remove_redundant_containers`: repeats passes until one removes nothing.
   * Every repeated pass shrinks the tree, so the loop ends, and the result is
   * a fixed point that keeps every label of the input.
   */
  method RemoveRedundantContainers(root: Element) returns (r: Element)
    ensures PassNode(r) == (r, false)
    ensures Size(r) <= Size(root)
    ensures Labels(r) == Labels(root)
    ensures r.tag == root.tag && r.attrs == root.attrs
  {
    r := root;
    var changed := true;
    while changed
      invariant Size(r) <= Size(root)
      invariant Labels(r) == Labels(root)
      invariant r.tag == root.tag && r.attrs == root.attrs
      invariant !changed ==> PassNode(r) == (r, false)
      decreases Size(r) + (if changed then 1 else 0)
    {
      PassKeepsLabels(r);
      var next := PassNode(r);
      r, changed := next.0, next.1;
    }
  }

  /** What `compress_xml` produces: the input text back, or the compressed tree to serialise. */
  datatype CompressResult = Unparsed(source: string) | Compressed(tree: Element)

  /**
   * `compress_xml`: `parsed` is the parser's result for `source` (None for a
   * parse error).  A parse error gives the input back unchanged.
   */
  method CompressXml(source: string, parsed: Option<Element>) returns (out: CompressResult)
    ensures parsed.None? <==> out == Unparsed(source)
    ensures parsed.Some? ==> out.Compressed?
    ensures parsed.Some? && out.Compressed? ==> PassNode(out.tree) == (out.tree, false)
    ensures parsed.Some? && out.Compressed? ==> Labels(out.tree) == Labels(CompressElement(parsed.value))
    ensures parsed.Some? && out.Compressed? ==> Size(out.tree) <= Size(parsed.value)
  {
    if parsed.None? {
      return Unparsed(source);
    }
    var pruned := CompressElement(parsed.value);
    CompressKeepsShape(parsed.value);
    SameShapeSize(parsed.value, pruned);
    var tree := RemoveRedundantContainers(pruned);
    return Compressed(tree);
  }

  lemma {:induction false} SameShapeSize(a: Element, b: Element)
    requires SameShape(a, b)
    ensures Size(a) == Size(b)
    decreases Size(a), 1
  {
    SameShapeSizeAll(a.children, b.children);
  }

  lemma {:induction false} SameShapeSizeAll(as_: seq<Element>, bs: seq<Element>)
    requires |as_| == |bs| && forall i :: 0 <= i < |as_| ==> SameShape(as_[i], bs[i])
    ensures SizeAll(as_) == SizeAll(bs)
    decreases SizeAll(as_), 2
  {
    if as_ != [] {
      SameShapeSize(as_[0], bs[0]);
      assert SizeAll(as_) == Size(as_[0]) + SizeAll(as_[1..]);
      SameShapeSizeAll(as_[1..], bs[1..]);
    }
  }
}
