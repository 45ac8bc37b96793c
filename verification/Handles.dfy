/**
 The handles of src/event/handle.cpp as objects that are moved, assigned and released in place, with the registries
 of the event loops that they belong to.  Raw handles (`EventLoop::createEvent`) do not own their descriptor.
 */
module Handles {
  type Callback(==, !new)
  type Fd = nat

  /** The descriptors open in the process; `strays` counts closes of a descriptor that was not open. */
  class Kernel {
    var open: set<Fd>
    var strays: nat

    constructor ()
      ensures open == {} && strays == 0
    {
      open, strays := {}, 0;
    }

    /** The system call. */
    method Close(fd: Fd)
      modifies this
      ensures open == old(open) - {fd}
      ensures strays == old(strays) + if fd in old(open) then 0 else 1
    {
      if fd in open {
        open := open - {fd};
      } else {
        strays := strays + 1;
      }
    }
  }

  class EventLoop {
    const kernel: Kernel
    var events: map<Fd, Callback>

    constructor (kernel: Kernel)
      ensures this.kernel == kernel && events == map[]
    {
      this.kernel := kernel;
      events := map[];
    }

    /** `registerEvent`: adds the descriptor, or replaces its registration. */
    method RegisterEvent(fd: Fd, cb: Callback)
      modifies this
      ensures events == old(events)[fd := cb]
    {
      events := events[fd := cb];
    }

    method UnregisterEvent(fd: Fd)
      modifies this
      ensures events == old(events) - {fd}
    {
      events := events - {fd};
    }

    /** `createTrigger`, `createTimer`, `createInterval`: the kernel provides a descriptor that is not in use. */
    method Create(fd: Fd, cb: Callback, ghost hs: set<Handle>) returns (h: Handle)
      requires Consistent(kernel, hs) && fd !in kernel.open
      modifies this, kernel
      ensures fresh(h) && h.loop == this && h.impl == Impl(fd, true)
      ensures events == old(events)[fd := cb]
      ensures kernel.open == old(kernel.open) + {fd} && kernel.strays == old(kernel.strays)
      ensures Consistent(kernel, hs + {h})
    {
      kernel.open := kernel.open + {fd};
      h := new Handle(this, fd, true);
      RegisterEvent(fd, cb);
    }

    /** `createEvent`: the descriptor is the caller's, and may be registered already. */
    method CreateRaw(fd: Fd, cb: Callback) returns (h: Handle)
      modifies this
      ensures fresh(h) && h.loop == this && h.impl == Impl(fd, false)
      ensures events == old(events)[fd := cb]
    {
      RegisterEvent(fd, cb);
      h := new Handle(this, fd, false);
    }
  }

  /** What the unique pointer of a handle leads to; `Null` after a move, `Released` when the descriptor is -1. */
  datatype State = Null | Released | Impl(fd: Fd, own: bool)

  class Handle {
    var loop: EventLoop
    var impl: State

    constructor (loop: EventLoop, fd: Fd, own: bool)
      ensures this.loop == loop && impl == Impl(fd, own)
    {
      this.loop := loop;
      impl := Impl(fd, own);
    }

    predicate Valid()
      reads this
    {
      impl.Impl?
    }

    /** `release`, which is also `cancel` and the destructor: a second one does nothing. */
    method Release()
      modifies this, loop, loop.kernel
      ensures loop == old(loop) && !Valid() && (!old(Valid()) ==> impl == old(impl))
      ensures loop.events == if old(Valid()) then old(loop.events) - {old(impl.fd)} else old(loop.events)
      ensures loop.kernel.open ==
                if old(Valid()) && old(impl.own) then old(loop.kernel.open) - {old(impl.fd)} else old(loop.kernel.open)
      ensures loop.kernel.strays ==
                old(loop.kernel.strays)
                + if old(Valid()) && old(impl.own) && old(impl.fd) !in old(loop.kernel.open) then 1 else 0
    {
      if !Valid() {
        return;
      }
      loop.UnregisterEvent(impl.fd);
      if impl.own {
        loop.kernel.Close(impl.fd);
      }
      impl := Released;
    }

    /** Move construction. */
    constructor From(other: Handle)
      modifies other
      ensures loop == old(other.loop) && impl == old(other.impl) && other.impl == Null && other.loop == old(other.loop)
    {
      loop := other.loop;
      impl := other.impl;
      new;
      other.impl := Null;
    }

    /** Move assignment, between loops too: releases what it held, unless a handle is assigned to itself. */
    method Assign(other: Handle)
      modifies this, other, loop, loop.kernel
      ensures other.loop == old(other.loop) && loop == old(other.loop)
      ensures this == other ==>
                && impl == old(impl) && old(loop).events == old(loop.events)
                && old(loop).kernel.open == old(loop.kernel.open) && old(loop).kernel.strays == old(loop.kernel.strays)
      ensures this != other ==>
                && impl == old(other.impl) && other.impl == Null
                && old(loop).events == (if old(Valid()) then old(loop.events) - {old(impl.fd)} else old(loop.events))
                && old(loop).kernel.open ==
                     (if old(Valid()) && old(impl.own) then old(loop.kernel.open) - {old(impl.fd)}
                      else old(loop.kernel.open))
                && old(loop).kernel.strays ==
                     old(loop.kernel.strays)
                     + if old(Valid()) && old(impl.own) && old(impl.fd) !in old(loop.kernel.open) then 1 else 0
    {
      if this != other {
        Release();
        impl, loop := other.impl, other.loop;
        other.impl := Null;
      }
    }
  }

  // ---- What all operations on owning handles keep ----

  /**
   Owning handles of any loops: the valid ones have distinct descriptors, open and registered; no close went astray.
   */
  ghost predicate Consistent(kernel: Kernel, hs: set<Handle>)
    reads kernel, hs, set h | h in hs :: h.loop
  {
    && kernel.strays == 0
    && (forall h :: h in hs ==>
          && h.loop.kernel == kernel
          && (h.Valid() ==> h.impl.own && h.impl.fd in kernel.open && h.impl.fd in h.loop.events))
    && (forall h, g :: h in hs && g in hs && h != g && h.Valid() && g.Valid() ==> h.impl.fd != g.impl.fd)
  }

  /** Releasing one handle leaves every other handle's descriptor and registration alone. */
  method ReleaseOne(kernel: Kernel, hs: set<Handle>, h: Handle)
    requires Consistent(kernel, hs) && h in hs
    modifies h, h.loop, kernel
    ensures Consistent(kernel, hs) && !h.Valid()
    ensures forall g :: g in hs && g != h ==> g.impl == old(g.impl) && g.loop == old(g.loop)
    ensures forall g :: g in hs && g != h && g.Valid() ==>
              g.impl.fd in old(g.loop.events) && g.loop.events[g.impl.fd] == old(g.loop.events)[g.impl.fd]
    ensures old(h.Valid()) ==> old(h.impl.fd) !in kernel.open && old(h.impl.fd) !in old(h.loop).events
  {
    h.Release();
  }

  /** So does an assignment, of a handle to itself too; the registration that was moved survives. */
  method AssignOne(kernel: Kernel, hs: set<Handle>, h: Handle, other: Handle)
    requires Consistent(kernel, hs) && h in hs && other in hs
    modifies h, other, h.loop, kernel
    ensures Consistent(kernel, hs) && h.impl == old(other.impl) && h.loop == old(other.loop)
    ensures forall g :: g in hs && g != h && g != other ==> g.impl == old(g.impl) && g.loop == old(g.loop)
    ensures h.Valid() ==>
              h.impl.fd in old(other.loop.events) && h.loop.events[h.impl.fd] == old(other.loop.events)[h.impl.fd]
    ensures forall g :: g in hs && g != h && g.Valid() ==>
              g.impl.fd in old(g.loop.events) && g.loop.events[g.impl.fd] == old(g.loop.events)[g.impl.fd]
    ensures h != other && old(h.Valid()) ==>
              old(h.impl.fd) !in kernel.open && old(h.impl.fd) !in old(h.loop).events
  {
    h.Assign(other);
  }

  /** A move construction only changes who owns the descriptor. */
  method MoveOne(kernel: Kernel, hs: set<Handle>, other: Handle) returns (h: Handle)
    requires Consistent(kernel, hs) && other in hs
    modifies other
    ensures fresh(h) && h.impl == old(other.impl) && h.loop == old(other.loop) && other.impl == Null
    ensures Consistent(kernel, hs + {h})
  {
    h := new Handle.From(other);
  }

  /**
   Registering a raw descriptor anew and assigning the handle to the variable that holds the old one: the handle
   is valid, yet its registration is there exactly when the old handle was not a valid one for the same descriptor.
   Otherwise the release of the old handle has removed the new registration.
   */
  method Reassign(h: Handle, fd: Fd, cb: Callback)
    requires h.Valid() ==> !h.impl.own
    modifies h, h.loop, h.loop.kernel
    ensures h.impl == Impl(fd, false) && h.loop == old(h.loop) && h.loop.kernel.open == old(h.loop.kernel.open)
    ensures (fd in h.loop.events && h.loop.events[fd] == cb) <==> !(old(h.Valid()) && old(h.impl.fd) == fd)
    ensures (old(h.Valid()) && old(h.impl.fd) == fd) ==> fd !in h.loop.events
  {
    var tmp := h.loop.CreateRaw(fd, cb);
    h.Assign(tmp);
  }
}
