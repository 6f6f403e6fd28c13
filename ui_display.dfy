/** The OLED menu display (lib/UserInterface/UIDisplay.hpp): a list of
    frames, each with an input handle, the frame being shown, and a one-byte
    cursor shared by all frames. The display library's own state is reduced
    to the current frame and whether it is FIXED (not sliding); how a
    transition animates is the library's business and arrives as an input. */
module UserInterface {
  import opened Common

  class UIDisplay<H> {
    var cursor: Byte
    var frame: nat
    var fixed: bool
    var handles: seq<H>
    /** The handles `loop` has called, oldest first. */
    var calls: seq<H>

    /** The frame shown has a handle. */
    predicate Valid()
      reads this
    {
      frame < |handles|
    }

    /** A display with no frames yet, cursor 0, resting on frame 0. */
    constructor ()
      ensures cursor == 0 && frame == 0 && fixed && handles == [] && calls == []
    {
      cursor := 0;
      frame := 0;
      fixed := true;
      handles := [];
      calls := [];
    }

    /** setFrames: one handle per frame, in argument order. */
    method SetFrames(frames: seq<H>)
      modifies this
      ensures handles == frames
      ensures cursor == old(cursor) && frame == old(frame) && fixed == old(fixed) && calls == old(calls)
    {
      handles := frames;
    }

    /** The handle `loop` calls now: the current frame's, and only while the
        frame is FIXED. */
    function CurrentHandle(): (h: Option<H>)
      reads this
      requires Valid()
      ensures h.Some? <==> fixed
      ensures h.Some? ==> h.value == handles[frame]
    {
      if fixed then Some(handles[frame]) else None
    }

    /** The first half of `loop`: picks the handle to call and records the
        call. The caller runs the handle, then `Update`. */
    method Loop() returns (h: Option<H>)
      requires Valid()
      modifies this
      ensures cursor == old(cursor) && frame == old(frame) && fixed == old(fixed) && handles == old(handles)
      ensures h == old(CurrentHandle())
      ensures calls == old(calls) + (if fixed then [handles[frame]] else [])
    {
      h := CurrentHandle();
      if h.Some? {
        calls := calls + [h.value];
      }
    }

    /** The second half of `loop`: `ui.update()`, which leaves the frame
        FIXED or not (`fixedNow`), and the result. */
    method Update(fixedNow: bool) returns (isFixed: bool)
      modifies this
      ensures fixed == fixedNow && isFixed == fixedNow
      ensures cursor == old(cursor) && frame == old(frame) && handles == old(handles) && calls == old(calls)
    {
      fixed := fixedNow;
      return fixed;
    }

    /** transitionToFrame: go to `f`; the cursor is reset to 0. */
    method TransitionToFrame(f: Byte)
      modifies this
      ensures frame == f && cursor == 0
      ensures fixed == old(fixed) && handles == old(handles) && calls == old(calls)
    {
      frame := f;
      cursor := 0;
    }

    method SetCursor(value: Byte)
      modifies this
      ensures cursor == value
      ensures frame == old(frame) && fixed == old(fixed) && handles == old(handles) && calls == old(calls)
    {
      cursor := value;
    }

    function GetCursor(): (c: Byte)
      reads this
      ensures c == cursor
    {
      cursor
    }
  }
}
