/**
 * The event FIFO both the Win32 and the Android backends keep per window
 * (a singly linked list with head and tail pointers guarded by a lock).
 * The list is modelled by the sequence of its records, head first; the
 * lock has no observable effect in a sequential model.
 */
module Queue {
  import opened Zdl

  /**
   * The queue after `smash_key`: when the tail record is a KEYPRESS its
   * unicode field takes the given code point; otherwise nothing changes.
   */
  function SmashTail(items: seq<Event>, unicode: int): (r: seq<Event>)
    ensures |r| == |items|
    ensures forall i :: 0 <= i < |items| - 1 ==> r[i] == items[i]
    ensures |items| > 0 && items[|items| - 1].KeyPress? ==>
              r[|r| - 1].KeyPress? &&
              r[|r| - 1].key == items[|items| - 1].key.(unicode := unicode)
    ensures !(|items| > 0 && items[|items| - 1].KeyPress?) ==> r == items
  {
    if |items| > 0 && items[|items| - 1].KeyPress? then
      items[|items| - 1 := KeyPress(items[|items| - 1].key.(unicode := unicode))]
    else
      items
  }

  /** A smash keeps every record's tag: it never turns one kind of event into another. */
  lemma SmashKeepsTags(items: seq<Event>, unicode: int)
    ensures forall i :: 0 <= i < |items| ==> SmashTail(items, unicode)[i].Tag() == items[i].Tag()
  {
  }

  /** Smashing twice is smashing once with the later code point. */
  lemma SmashLastWins(items: seq<Event>, u1: int, u2: int)
    ensures SmashTail(SmashTail(items, u1), u2) == SmashTail(items, u2)
  {
  }

  /**
   * A key press queued and then smashed is the same record queued with
   * the code point already in place: WM_KEYDOWN followed by WM_CHAR yields
   * one KEYPRESS carrying the character.
   */
  lemma PushThenSmash(items: seq<Event>, key: KeyInfo, unicode: int)
    ensures SmashTail(items + [KeyPress(key)], unicode) == items + [KeyPress(key.(unicode := unicode))]
  {
  }

  class EventQueue {
    /** The queued records, head first. */
    var items: seq<Event>

    constructor ()
      ensures items == []
    {
      items := [];
    }

    /** `zdl_queue_push`: append at the tail. */
    method Push(ev: Event)
      modifies this
      ensures items == old(items) + [ev]
    {
      items := items + [ev];
    }

    /**
     * `zdl_queue_pop`: the head, removed from the queue (the C function
     * returns 0), or None on an empty queue, which stays empty (the C
     * function returns -1).
     */
    method Pop() returns (r: Option<Event>)
      modifies this
      ensures old(items) == [] ==> r == None && items == []
      ensures old(items) != [] ==> r == Some(old(items)[0]) && items == old(items)[1..]
    {
      if items == [] {
        r := None;
      } else {
        r := Some(items[0]);
        items := items[1..];
      }
    }

    /** `zdl_queue_smash_key`. */
    method SmashKey(unicode: int)
      modifies this
      ensures items == SmashTail(old(items), unicode)
    {
      items := SmashTail(items, unicode);
    }

    /** `zdl_queue_destroy`: pop until the queue reports empty. */
    method Destroy()
      modifies this
      ensures items == []
    {
      var r := Pop();
      while r.Some?
        invariant r.None? ==> items == []
        decreases |items| + (if r.Some? then 1 else 0)
      {
        r := Pop();
      }
    }
  }

  /**
   * Any records pushed onto a new queue come out in the order they went
   * in, one per pop, and the pop after the last finds the queue empty.
   */
  method FifoOrder(es: seq<Event>) returns (popped: seq<Event>, last: Option<Event>)
    ensures popped == es && last == None
  {
    var q := new EventQueue();
    for i := 0 to |es|
      invariant q.items == es[..i]
    {
      q.Push(es[i]);
      assert es[..i + 1] == es[..i] + [es[i]];
    }
    assert es[..|es|] == es;
    popped := [];
    for i := 0 to |es|
      invariant q.items == es[i..] && popped == es[..i]
    {
      var r := q.Pop();
      popped := popped + [r.value];
      assert es[..i + 1] == es[..i] + [es[i]];
    }
    last := q.Pop();
  }
}
