/**
 * The part of the three.js scene graph that the sketch relies on: a scene
 * owns an ordered list of children, `add` appends to it and `remove` takes
 * a child out, keeping the others in order.
 */
module SceneGraph {
  import opened Pattern

  class Scene {
    /** The scene's children, in the order they were added. */
    var children: seq<SceneChild>

    /** A new, empty scene. */
    constructor ()
      ensures children == []
    {
      children := [];
    }

    /** Appends a child at the end of the list. */
    method Add(child: SceneChild)
      modifies this
      ensures children == old(children) + [child]
    {
      children := children + [child];
    }

    /**
     * Removes the child at index i, keeping the order of the others; an
     * index past the end removes nothing.
     */
    method RemoveAt(i: nat)
      modifies this
      ensures i < |old(children)| ==> children == old(children)[..i] + old(children)[i + 1..]
      ensures i >= |old(children)| ==> children == old(children)
    {
      if i < |children| {
        children := children[..i] + children[i + 1..];
      }
    }
  }
}
