/**
 * The in-memory clipboard of the DRM backend (zdl_drm.c). A window keeps
 * one payload (`w->clipboard`); a handle opened on the window remembers
 * the address of the payload memory it last saw or wrote (`c->data`).
 * A write deep-copies the caller's payload into the window; a read hands
 * back the window's payload when the handle holds an address.
 *
 * The C heap is modelled as the set of live block addresses, so that
 * freeing a block that is not live (a double free) can be stated.
 */
module DrmClipboard {
  import opened Zdl

  /**
   * `struct zdl_clipboard_data`, whose definition is not in zdl.h: a
   * format tag and a payload pointer, None standing for a null pointer.
   * OtherData is a format the copy does not know.
   */
  datatype ClipboardData =
    | TextData(text: Option<string>)
    | UriData(uri: Option<string>)
    | ImageData(width: int, height: int, pixels: Option<seq<int>>)
    | OtherData(format: int)

  /** The window's copy of the payload and the address of the memory holding it. */
  datatype StoreState = StoreState(data: ClipboardData, memory: Option<nat>)

  /** Live block addresses, the next fresh address, and whether a free has hit a block that is not live. */
  datatype HeapState = HeapState(live: set<nat>, next: nat, corrupted: bool)

  // ---- the heap ----

  /** `malloc`: the next fresh address becomes live. */
  function AllocSpec(h: HeapState): (HeapState, nat)
  {
    (h.(live := h.live + {h.next}, next := h.next + 1), h.next)
  }

  /** `free`: the block stops being live; freeing a block that is not live corrupts the heap. */
  function FreeSpec(h: HeapState, block: nat): HeapState
  {
    h.(live := h.live - {block}, corrupted := h.corrupted || block !in h.live)
  }

  // ---- zdl_clipboard_copy ----

  /**
   * Copies `from` into a zeroed window payload: the result code, the new
   * window payload and heap, and the address stored through `memory`
   * (None when nothing was allocated). `allocOk` is whether `strdup` or
   * `calloc` succeeds. A null payload pointer gives -1; a failed `strdup`
   * still gives 0, with a null copy; a failed `calloc` gives -1.
   */
  function CopySpec(from: ClipboardData, h: HeapState, allocOk: bool): (r: (int, StoreState, HeapState, Option<nat>))
    ensures r.0 == -1 <==> ((from.TextData? && from.text.None?) || (from.UriData? && from.uri.None?) ||
                            (from.ImageData? && (from.pixels.None? || !allocOk)))
    ensures r.0 == 0 || r.0 == -1
    ensures r.3 == r.1.memory
    ensures r.3.Some? <==> (allocOk && r.0 == 0 && !from.OtherData? &&
                            !(from.TextData? && from.text.None?) && !(from.UriData? && from.uri.None?))
    ensures r.3.Some? ==> r.1.data == from && r.3.value == h.next && r.2 == AllocSpec(h).0
    ensures r.3.None? ==> r.2 == h
  {
    match from
    case TextData(text) =>
      if text.None? then (-1, StoreState(TextData(None), None), h, None)
      else if !allocOk then (0, StoreState(TextData(None), None), h, None)
      else
        var (h1, block) := AllocSpec(h);
        (0, StoreState(TextData(text), Some(block)), h1, Some(block))
    case UriData(uri) =>
      if uri.None? then (-1, StoreState(UriData(None), None), h, None)
      else if !allocOk then (0, StoreState(UriData(None), None), h, None)
      else
        var (h1, block) := AllocSpec(h);
        (0, StoreState(UriData(uri), Some(block)), h1, Some(block))
    case ImageData(width, height, pixels) =>
      if pixels.None? || !allocOk then (-1, StoreState(ImageData(0, 0, None), None), h, None)
      else
        var (h1, block) := AllocSpec(h);
        (0, StoreState(ImageData(width, height, pixels), Some(block)), h1, Some(block))
    case OtherData(format) =>
      (0, StoreState(OtherData(format), None), h, None)
  }

  // ---- zdl_clipboard_open / write / read ----

  /**
   * The address a new handle starts with: the window's text pointer. The
   * header does not give the union's layout, so for a payload of another
   * format the model takes that pointer to be null.
   */
  function OpenSpec(store: StoreState): (r: Option<nat>)
    ensures store.data.TextData? ==> r == store.memory
    ensures r.Some? ==> store.data.TextData? && r == store.memory
  {
    if store.data.TextData? then store.memory else None
  }

  /**
   * `zdl_clipboard_write` as written: it frees the handle's remembered
   * address, which another handle's write may already have freed, and
   * never frees the window's current copy when the handle did not write
   * it. Results: the handle's new address, the window payload, the heap
   * and the result code.
   */
  function WriteAsWritten(handle: Option<nat>, store: StoreState, h: HeapState, from: ClipboardData,
                          allocOk: bool): (r: (Option<nat>, StoreState, HeapState, int))
    ensures r.0 == r.1.memory && (r.3 == 0 || r.3 == -1)
    ensures r.2.corrupted == (h.corrupted || (handle.Some? && handle.value !in h.live))
    ensures handle == store.memory ==> r == WriteSpec(handle, store, h, from, allocOk)
  {
    var h1 := if handle.Some? then FreeSpec(h, handle.value) else h;
    var c := CopySpec(from, h1, allocOk);
    (c.3, c.1, c.2, c.0)
  }

  /**
   * The write as evidently intended: the window's current copy is what
   * gets discarded, then the payload is deep-copied and the handle
   * remembers the new address.
   */
  function WriteSpec(handle: Option<nat>, store: StoreState, h: HeapState, from: ClipboardData,
                     allocOk: bool): (r: (Option<nat>, StoreState, HeapState, int))
    ensures r.0 == r.1.memory && (r.3 == 0 || r.3 == -1)
    ensures r.0.Some? ==> r.1.data == from
    ensures r.2.corrupted == (h.corrupted || (store.memory.Some? && store.memory.value !in h.live))
  {
    var h1 := if store.memory.Some? then FreeSpec(h, store.memory.value) else h;
    var c := CopySpec(from, h1, allocOk);
    (c.3, c.1, c.2, c.0)
  }

  /** A read fails without an address and otherwise yields the window's payload. */
  function ReadSpec(handle: Option<nat>, store: StoreState): (r: (int, Option<ClipboardData>))
    ensures r.0 == -1 <==> handle.None?
    ensures r.1.Some? <==> handle.Some?
    ensures r.1.Some? ==> r.1.value == store.data && r.0 == 0
  {
    if handle.None? then (-1, None) else (0, Some(store.data))
  }

  /**
   * The heap holds exactly the window's copy: nothing leaked, nothing
   * freed twice, and the copy's address was handed out by the allocator.
   */
  predicate Owns(store: StoreState, h: HeapState)
  {
    !h.corrupted &&
    h.live == (if store.memory.Some? then {store.memory.value} else {}) &&
    (store.memory.Some? ==> store.memory.value < h.next)
  }

  /** The initial, zero-filled window payload owns the empty heap. */
  lemma EmptyStoreOwnsEmptyHeap(next: nat)
    ensures Owns(StoreState(TextData(None), None), HeapState({}, next, false))
    ensures OpenSpec(StoreState(TextData(None), None)).None?
  {
  }

  /**
   * The intended write keeps the heap owned by the window, whichever
   * handle writes: it frees only a live block and leaks nothing. A
   * successful copy holds the caller's payload and the handle remembers
   * its address; a null payload pointer fails and leaves no payload.
   */
  lemma WriteKeepsOwnership(handle: Option<nat>, store: StoreState, h: HeapState, from: ClipboardData, allocOk: bool)
    requires Owns(store, h)
    ensures var r := WriteSpec(handle, store, h, from, allocOk);
            Owns(r.1, r.2) &&
            r.0 == r.1.memory &&
            (r.0.Some? ==> r.1.data == from) &&
            (r.3 == -1 ==> r.0.None? && r.1.memory.None?)
  {
  }

  /** A handle opened after a successful text write reads that text. */
  lemma OpenAfterTextWrite(handle: Option<nat>, store: StoreState, h: HeapState, text: string)
    ensures var r := WriteSpec(handle, store, h, TextData(Some(text)), true);
            r.3 == 0 &&
            ReadSpec(OpenSpec(r.1), r.1) == (0, Some(TextData(Some(text)))) &&
            ReadSpec(r.0, r.1) == (0, Some(TextData(Some(text))))
  {
  }

  /**
   * A handle that never saw an address cannot read, even when another
   * handle has since written a payload; the handle that wrote can.
   */
  lemma ReadNeedsAddress(store: StoreState, h: HeapState, writer: Option<nat>, from: ClipboardData)
    ensures ReadSpec(None, store) == (-1, None)
    ensures var r := WriteSpec(writer, store, h, from, true);
            r.0.Some? ==> ReadSpec(r.0, r.1) == (0, Some(from))
  {
  }

  /**
   * The write as written frees a block twice: handle A writes, handle B
   * is opened and writes, then A writes again and frees the block B's
   * write already released. With the intended write the same sequence
   * leaves the heap owned by the window.
   */
  lemma WriteAsWrittenDoubleFree()
    ensures var store0 := StoreState(TextData(None), None);
            var heap0 := HeapState({}, 0, false);
            var a1 := WriteAsWritten(OpenSpec(store0), store0, heap0, TextData(Some("a")), true);
            var b := OpenSpec(a1.1);
            var b1 := WriteAsWritten(b, a1.1, a1.2, TextData(Some("b")), true);
            var a2 := WriteAsWritten(a1.0, b1.1, b1.2, TextData(Some("c")), true);
            b == Some(0) && a1.0 == Some(0) && b1.0 == Some(1) &&
            !b1.2.corrupted && a2.2.corrupted
    ensures var store0 := StoreState(TextData(None), None);
            var heap0 := HeapState({}, 0, false);
            var a1 := WriteSpec(OpenSpec(store0), store0, heap0, TextData(Some("a")), true);
            var b := OpenSpec(a1.1);
            var b1 := WriteSpec(b, a1.1, a1.2, TextData(Some("b")), true);
            var a2 := WriteSpec(a1.0, b1.1, b1.2, TextData(Some("c")), true);
            Owns(a2.1, a2.2)
  {
  }

  /**
   * The write as written also leaks: a handle opened before any write
   * holds no address, so its write leaves the earlier copy allocated.
   */
  lemma WriteAsWrittenLeaks()
    ensures var store0 := StoreState(TextData(None), None);
            var heap0 := HeapState({}, 0, false);
            var a1 := WriteAsWritten(None, store0, heap0, TextData(Some("a")), true);
            var b1 := WriteAsWritten(None, a1.1, a1.2, TextData(Some("b")), true);
            b1.2.live == {0, 1} && b1.1.memory == Some(1) && !Owns(b1.1, b1.2)
  {
  }

  // ---- the objects ----

  /** The C heap, as far as the clipboard uses it. */
  class Heap {
    var live: set<nat>
    var next: nat
    var corrupted: bool

    ghost function State(): HeapState
      reads this
    {
      HeapState(live, next, corrupted)
    }

    constructor()
      ensures State() == HeapState({}, 0, false)
    {
      live, next, corrupted := {}, 0, false;
    }

    method Alloc() returns (block: nat)
      modifies this
      ensures (State(), block) == AllocSpec(old(State()))
    {
      block := next;
      live := live + {block};
      next := next + 1;
    }

    method Free(block: nat)
      modifies this
      ensures State() == FreeSpec(old(State()), block)
    {
      corrupted := corrupted || block !in live;
      live := live - {block};
    }
  }

  /** The window's embedded `struct zdl_clipboard_data` and the address of its payload memory. */
  class ClipboardStore {
    var data: ClipboardData
    var memory: Option<nat>

    ghost function State(): StoreState
      reads this
    {
      StoreState(data, memory)
    }

    /** The window is zero-filled when it is created. */
    constructor()
      ensures State() == StoreState(TextData(None), None)
    {
      data, memory := TextData(None), None;
    }

    /** `zdl_clipboard_copy` into this payload. */
    method CopyFrom(from: ClipboardData, heap: Heap, allocOk: bool) returns (rc: int, block: Option<nat>)
      modifies this, heap
      ensures (rc, State(), heap.State(), block) == CopySpec(from, old(heap.State()), allocOk)
    {
      block := None;
      rc := 0;
      match from {
      case TextData(text) =>
        data := TextData(None);
        if text.None? {
          rc := -1;
        } else if allocOk {
          var b := heap.Alloc();
          block := Some(b);
          data := TextData(text);
        }
      case UriData(uri) =>
        data := UriData(None);
        if uri.None? {
          rc := -1;
        } else if allocOk {
          var b := heap.Alloc();
          block := Some(b);
          data := UriData(uri);
        }
      case ImageData(width, height, pixels) =>
        data := ImageData(0, 0, None);
        if pixels.None? || !allocOk {
          rc := -1;
        } else {
          var b := heap.Alloc();
          block := Some(b);
          data := ImageData(width, height, pixels);
        }
      case OtherData(format) =>
        data := OtherData(format);
      }
      memory := block;
    }
  }

  /** `struct zdl_clipboard`: the window's payload and the address this handle remembers. */
  class Clipboard {
    const store: ClipboardStore
    var data: Option<nat>

    /** The handle record `zdl_clipboard_open` fills in once its calloc succeeded. */
    constructor(store: ClipboardStore)
      ensures this.store == store
      ensures data == OpenSpec(store.State())
    {
      this.store := store;
      data := if store.data.TextData? then store.memory else None;
    }

    /** `zdl_clipboard_write`, discarding the window's current copy (see WriteAsWritten). */
    method Write(heap: Heap, from: ClipboardData, allocOk: bool) returns (rc: int)
      modifies this, store, heap
      ensures (data, store.State(), heap.State(), rc) ==
              WriteSpec(old(data), old(store.State()), old(heap.State()), from, allocOk)
    {
      if store.memory.Some? {
        heap.Free(store.memory.value);
        store.memory := None;
      }
      data := None;
      rc, data := store.CopyFrom(from, heap, allocOk);
    }

    /** `zdl_clipboard_read`. */
    method Read() returns (rc: int, payload: Option<ClipboardData>)
      ensures (rc, payload) == ReadSpec(data, store.State())
    {
      if data.None? {
        return -1, None;
      }
      return 0, Some(store.data);
    }
  }

  /**
   * `zdl_clipboard_open`: `ZDL_CLIPBOARD_INVALID` (null) when the handle
   * cannot be allocated, otherwise a new handle on the window's payload.
   */
  method Open(store: ClipboardStore, allocOk: bool) returns (c: Clipboard?)
    ensures c == null <==> !allocOk
    ensures c != null ==> fresh(c) && c.store == store && c.data == OpenSpec(store.State())
  {
    if !allocOk {
      return null;
    }
    c := new Clipboard(store);
  }
}
