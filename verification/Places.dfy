/**
 The places where a page, a slot or a segment can be.

 A page is named by its number (address / 64 KiB), a segment by the number of its first page, and
 a slot by its page and its index in that page; `SlabGeometry` relates these names to addresses.
 */
module Places {
  type Page = nat
  type Tid = nat

  datatype Option<+T> = None | Some(value: T)

  datatype Slot = Slot(page: Page, idx: nat)

  /** The one list that holds a page. `t` is a thread, `c` a size class. */
  datatype PagePlace =
    | Uncarved                      // between the carving cursor and the end of its segment
    | Dirty                         // pool free list, contents resident
    | Clean                         // pool free list, contents purged
    | Purging(t: Tid)               // stack-local buffer of a thread inside `purge_excess`
    | Cached                        // lock-free cache of free pages
    | Abandoned(c: nat)             // lock-free stack of slabs whose heap has exited
    | Bin(t: Tid, c: nat)           // the active slab of a class
    | Full(t: Tid, c: nat)          // queue of exhausted slabs
    | Partial(t: Tid, c: nat)       // queue of slabs known to have a free slot
    | Hand(t: Tid)                  // slabs a thread is adopting or giving up
    | Raw(t: Tid)                   // a free page on its way between a thread and the pool
  {
    /** Counted by `seg_outstanding`. */
    predicate Out() { !Uncarved? && !Dirty? && !Clean? }

    /** Holds an initialised slab rather than a free page. */
    predicate Slab() { Abandoned? || Bin? || Full? || Partial? || Hand? }

    /** Belongs to a thread other than `u`. */
    predicate Foreign(u: Tid) {
      match this
      case Purging(t) => t != u
      case Bin(t, _) => t != u
      case Full(t, _) => t != u
      case Partial(t, _) => t != u
      case Hand(t) => t != u
      case Raw(t) => t != u
      case _ => false
    }

    /** Belongs to thread `u`. */
    predicate Mine(u: Tid) {
      match this
      case Purging(t) => t == u
      case Bin(t, _) => t == u
      case Full(t, _) => t == u
      case Partial(t, _) => t == u
      case Hand(t) => t == u
      case Raw(t) => t == u
      case _ => false
    }
  }

  /** The one list that holds a slot. */
  datatype SlotPlace =
    | Virgin(p: Page)               // bump region of a slab
    | Local(p: Page)                // local free list
    | Remote(p: Page)               // remote free stack
    | Draining(t: Tid)              // taken off a remote stack, not yet on the local list
    | Pushing(t: Tid)               // freed by a thread still inside the remote push
    | Live(id: nat)                 // handed to the client by allocation number `id`

  /** Who answers for a segment obtained from the page allocator. */
  datatype SpanPlace =
    | Registered                    // listed in `segments`
    | Flight(t: Tid)                // just mapped, or about to be unmapped, by a thread
}
