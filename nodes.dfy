/** The document nodes a screenshot directive returns, reduced to what the
    theme-class pass (`_add_css_class_to_nodes`) looks at. */
module Nodes {

  /** An image, a figure (whose children may be images, a caption, a
      legend, …) or any other node, such as a reference wrapping an image
      or a system message. */
  datatype Node =
    | Image(uri: string, classes: seq<string>)
    | Figure(classes: seq<string>, children: seq<Node>)
    | Other(kind: string, children: seq<Node>)

  /** A figure's child after the pass: images get the class, the rest stay. */
  function TagChild(child: Node, cssClass: string): Node {
    if child.Image? then Image(child.uri, child.classes + [cssClass]) else child
  }

  /** One node after the pass: an image or a figure gets the class after
      its existing ones, and so does every image directly inside a figure. */
  function TagNode(node: Node, cssClass: string): Node {
    match node
    case Image(uri, classes) => Image(uri, classes + [cssClass])
    case Figure(classes, children) =>
      Figure(classes + [cssClass], seq(|children|, j requires 0 <= j < |children| => TagChild(children[j], cssClass)))
    case Other(_, _) => node
  }

  /** A whole node list after the pass. */
  function TagAll(nodeList: seq<Node>, cssClass: string): (r: seq<Node>)
    ensures |r| == |nodeList|
  {
    seq(|nodeList|, i requires 0 <= i < |nodeList| => TagNode(nodeList[i], cssClass))
  }

  /** The children of a figure, each image child tagged. */
  method TagChildren(children: seq<Node>, cssClass: string) returns (r: seq<Node>)
    ensures |r| == |children|
    ensures forall j :: 0 <= j < |r| && children[j].Image? ==>
              r[j] == Image(children[j].uri, children[j].classes + [cssClass])
    ensures forall j :: 0 <= j < |r| && !children[j].Image? ==> r[j] == children[j]
  {
    r := [];
    for j := 0 to |children|
      invariant |r| == j
      invariant forall k :: 0 <= k < j && children[k].Image? ==>
                  r[k] == Image(children[k].uri, children[k].classes + [cssClass])
      invariant forall k :: 0 <= k < j && !children[k].Image? ==> r[k] == children[k]
    {
      var child := children[j];
      if child.Image? {
        child := Image(child.uri, child.classes + [cssClass]);
      }
      r := r + [child];
    }
  }

  /** `_add_css_class_to_nodes`: the pass over the returned nodes. The list
      keeps its length and order; images and figures get the class appended,
      image children of figures too, and nothing else changes. */
  method AddCssClass(nodeList: seq<Node>, cssClass: string) returns (r: seq<Node>)
    ensures |r| == |nodeList|
    ensures forall i :: 0 <= i < |r| && nodeList[i].Image? ==>
              r[i] == Image(nodeList[i].uri, nodeList[i].classes + [cssClass])
    ensures forall i :: 0 <= i < |r| && nodeList[i].Figure? ==>
              r[i].Figure? && r[i].classes == nodeList[i].classes + [cssClass] &&
              |r[i].children| == |nodeList[i].children| &&
              forall j :: 0 <= j < |r[i].children| ==> r[i].children[j] == TagChild(nodeList[i].children[j], cssClass)
    ensures forall i :: 0 <= i < |r| && nodeList[i].Other? ==> r[i] == nodeList[i]
    ensures r == TagAll(nodeList, cssClass)
  {
    r := [];
    for i := 0 to |nodeList|
      invariant |r| == i
      invariant forall k :: 0 <= k < i ==> r[k] == TagNode(nodeList[k], cssClass)
    {
      var node := nodeList[i];
      match node {
        case Image(uri, classes) =>
          node := Image(uri, classes + [cssClass]);
        case Figure(classes, children) =>
          var tagged := TagChildren(children, cssClass);
          node := Figure(classes + [cssClass], tagged);
        case Other(_, _) =>
      }
      r := r + [node];
    }
  }

  /** The image URIs of a node list, in order, looking into figures: what
      the reader's browser loads. */
  function ImageUris(nodeList: seq<Node>): seq<string>
    decreases nodeList
  {
    if nodeList == [] then []
    else
      var head :=
        match nodeList[0]
        case Image(uri, _) => [uri]
        case Figure(_, children) => ImageUris(children)
        case Other(_, _) => [];
      head + ImageUris(nodeList[1..])
  }

  /** Tagging changes classes only: the images shown, and their order, stay. */
  lemma {:induction false} TagKeepsImages(nodeList: seq<Node>, cssClass: string)
    ensures ImageUris(TagAll(nodeList, cssClass)) == ImageUris(nodeList)
    decreases nodeList
  {
    if nodeList != [] {
      var tagged := TagAll(nodeList, cssClass);
      var rest := nodeList[1..];
      assert tagged[1..] == TagAll(rest, cssClass);
      TagKeepsImages(rest, cssClass);
      match nodeList[0]
      case Image(_, _) =>
      case Other(_, _) =>
      case Figure(_, children) =>
        TagChildrenKeepsImages(children, cssClass);
    }
  }

  /** Tagging a figure's children keeps the images they show. */
  lemma {:induction false} TagChildrenKeepsImages(children: seq<Node>, cssClass: string)
    ensures ImageUris(seq(|children|, j requires 0 <= j < |children| => TagChild(children[j], cssClass))) == ImageUris(children)
    decreases children
  {
    if children != [] {
      var tagged := seq(|children|, j requires 0 <= j < |children| => TagChild(children[j], cssClass));
      var rest := children[1..];
      assert tagged[1..] == seq(|rest|, j requires 0 <= j < |rest| => TagChild(rest[j], cssClass));
      TagChildrenKeepsImages(rest, cssClass);
    }
  }

  /** The images of two lists one after the other are those of the first
      list, then those of the second. */
  lemma {:induction false} ImageUrisAppend(xs: seq<Node>, ys: seq<Node>)
    ensures ImageUris(xs + ys) == ImageUris(xs) + ImageUris(ys)
    decreases xs
  {
    if xs != [] {
      assert (xs + ys)[0] == xs[0];
      assert (xs + ys)[1..] == xs[1..] + ys;
      ImageUrisAppend(xs[1..], ys);
    } else {
      assert xs + ys == ys;
    }
  }
}
