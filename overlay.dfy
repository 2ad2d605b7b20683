/** Pop-up overlays drawn above the current view: a stack of which only the top is drawn. */
module OverlayStack {
  import opened Common

  /** A terminal area. */
  datatype Rect = Rect(x: nat, y: nat, width: nat, height: nat)

  datatype Overlay = Message(text: string)

  /** A widget drawn by an overlay: the area cleared, then a bordered block titled "Popup". */
  datatype Drawn = Clear(area: Rect) | Block(title: string, area: Rect)

  /** The handle `push` gives back: the overlay's index in the stack. */
  datatype OverlayHandle = OverlayHandle(idx: nat)

  /** `centered_rect`: the overlay covers the whole area it is given. */
  function CenteredRect(size: Rect): (r: Rect)
    ensures r.width == size.width && r.height == size.height
    ensures r.x == size.x && r.y == size.y
  {
    size
  }

  /** `Overlay::render`: clears its area and draws an empty "Popup" block over it. */
  function RenderOverlay(o: Overlay, size: Rect): (ws: seq<Drawn>)
    ensures |ws| == 2 && ws[0].Clear? && ws[1] == Block("Popup", ws[0].area)
    ensures ws[0].area == CenteredRect(size)
  {
    match o
    case Message(_) => [Clear(CenteredRect(size)), Block("Popup", CenteredRect(size))]
  }

  /** What a stack of overlays draws: its last overlay, or nothing. */
  function RenderStack(overlays: seq<Overlay>, size: Rect): (ws: seq<Drawn>)
    ensures overlays == [] <==> ws == []
    ensures overlays != [] ==> ws == RenderOverlay(overlays[|overlays| - 1], size)
  {
    if overlays == [] then [] else RenderOverlay(overlays[|overlays| - 1], size)
  }

  /** The most recently pushed overlay is the one drawn, whatever lies below it. */
  lemma PushedIsDrawn(below: seq<Overlay>, o: Overlay, size: Rect)
    ensures RenderStack(below + [o], size) == RenderOverlay(o, size)
  {
  }

  /** The drawing does not depend on the message: its text is never shown. */
  lemma MessageNotShown(a: string, b: string, size: Rect)
    ensures RenderOverlay(Message(a), size) == RenderOverlay(Message(b), size)
  {
  }

  class Overlays {
    var overlays: seq<Overlay>

    /** `Overlays::default()`: no overlay. */
    constructor ()
      ensures overlays == []
    {
      overlays := [];
    }

    /** `render`: draws the top-most overlay, if any. */
    function Render(size: Rect): (ws: seq<Drawn>)
      reads this
      ensures overlays == [] ==> ws == []
      ensures overlays != [] ==> ws == RenderOverlay(overlays[|overlays| - 1], size)
    {
      RenderStack(overlays, size)
    }

    /** `push`: puts an overlay on top and returns its index. */
    method Push(o: Overlay) returns (h: OverlayHandle)
      modifies this
      ensures overlays == old(overlays) + [o]
      ensures h.idx == |old(overlays)| && overlays[h.idx] == o
    {
      h := OverlayHandle(|overlays|);
      overlays := overlays + [o];
    }
  }
}
