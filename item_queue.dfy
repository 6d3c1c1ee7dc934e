/**
 * `ItemInstQueue`, the list behind the cursor: items are pushed at either end
 * and popped from the front.  The element type is a parameter, so the queue
 * does not depend on the item model.
 */
module ItemQueue {
  import opened Wrappers

  class ItemInstQueue<T> {
    /** `m_list`, front first. */
    var list: seq<T>

    constructor ()
      ensures list == []
    {
      list := [];
    }

    /** `push`: append at the back. */
    method Push(x: T)
      modifies this
      ensures list == old(list) + [x]
    {
      list := list + [x];
    }

    /** `push_front`: prepend at the front. */
    method PushFront(x: T)
      modifies this
      ensures list == [x] + old(list)
    {
      list := [x] + list;
    }

    /** `pop`: remove and return the front, or nothing from an empty queue. */
    method Pop() returns (r: Option<T>)
      modifies this
      ensures old(list) == [] ==> r == None && list == []
      ensures old(list) != [] ==> r == Some(old(list)[0]) && list == old(list)[1..]
    {
      if |list| == 0 {
        return None;
      }
      r := Some(list[0]);
      list := list[1..];
    }

    /** `peek_front`: the front, or nothing from an empty queue. */
    function PeekFront(): (r: Option<T>)
      reads this
      ensures r.Some? <==> |list| > 0
      ensures r.Some? ==> r.value == list[0]
    {
      if |list| == 0 then None else Some(list[0])
    }

    /** `size`. */
    function Size(): (n: nat)
      reads this
      ensures n == |list|
    {
      |list|
    }
  }
}
