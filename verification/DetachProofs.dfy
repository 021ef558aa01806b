/** Detach: what it takes away, and that it converges under faults and redeliveries. */
module DetachProofs {
  import opened Basics
  import opened BondNames
  import opened Cmdb
  import opened Planning
  import opened Retry
  import opened RetryProofs
  import opened StoreFacts
  import opened Attachments
  import opened AttachProofs
  import opened AttachConverges

  /** The store without the address on this host. */
  function Removed(db: Db, addr: string, uuid: string): Db {
    db.(ips := Filter(db.ips, NotAttachedTo(db, addr, uuid)))
  }

  /** The store without the address-less cards of this host. */
  function Swept(db: Db, uuid: string): Db {
    db.(endpoints := Filter(db.endpoints, KeptOnSweep(db, uuid)))
  }

  /** What a detach is for. */
  function Detached(db: Db, addr: string, uuid: string): Db { Swept(Removed(db, addr, uuid), uuid) }

  /** Afterwards the address is gone from the host and every card left there holds an address; nothing else moved. */
  lemma DetachedMeans(db: Db, addr: string, uuid: string)
    ensures
      var after := Detached(db, addr, uuid);
      && OnHost(after, addr, uuid) == []
      && (forall e :: e in after.endpoints && ServerHasUuid(after, e.serverId, uuid) ==> HasIps(after, e.id))
      && (forall ip :: ip in after.ips <==> ip in db.ips && !Attached(db, ip, addr, uuid))
      && (forall e :: e in after.endpoints <==>
            e in db.endpoints && (HasIps(after, e.id) || !ServerHasUuid(db, e.serverId, uuid)))
      && after.servers == db.servers && after.rails == db.rails
  {
    var removed, after := Removed(db, addr, uuid), Detached(db, addr, uuid);
    assert forall s :: ServerHasUuid(after, s, uuid) == ServerHasUuid(db, s, uuid) == ServerHasUuid(removed, s, uuid);
    assert forall id :: HasIps(after, id) == HasIps(removed, id);
    forall ip | ip in after.ips ensures !AttachedTo(after, addr, uuid)(ip) {
      if EndpointOnUuid(after, ip.endpointId, uuid) {
        var e :| e in after.endpoints && e.id == ip.endpointId && ServerHasUuid(after, e.serverId, uuid);
        assert e in db.endpoints && EndpointOnUuid(db, ip.endpointId, uuid);
      }
    }
    FilterNone(after.ips, AttachedTo(after, addr, uuid));
  }

  lemma RemovedAgain(db: Db, addr: string, uuid: string)
    ensures Removed(Removed(db, addr, uuid), addr, uuid) == Removed(db, addr, uuid)
  {
    CommitIdempotent(db, DeleteAttachedIps(addr, uuid), Id(0, 0));
  }

  lemma NothingLeft(db: Db, addr: string, uuid: string)
    requires OnHost(db, addr, uuid) == []
    ensures Removed(db, addr, uuid) == db
  {
    assert forall ip :: ip in OnHost(db, addr, uuid) <==> ip in db.ips && AttachedTo(db, addr, uuid)(ip);
    FilterAll(db.ips, NotAttachedTo(db, addr, uuid));
  }

  lemma SweptAgain(db: Db, uuid: string)
    ensures Swept(Swept(db, uuid), uuid) == Swept(db, uuid)
  {
    CommitIdempotent(db, SweepEndpoints(uuid), Id(0, 0));
  }

  /** A detach that is cut off anywhere leaves a store from which detaching ends in the same place. */
  lemma DetachResumes(db: Db, addr: string, uuid: string)
    ensures Detached(Removed(db, addr, uuid), addr, uuid) == Detached(db, addr, uuid)
    ensures Detached(Detached(db, addr, uuid), addr, uuid) == Detached(db, addr, uuid)
    ensures Removed(Detached(db, addr, uuid), addr, uuid) == Detached(db, addr, uuid)
  {
    RemovedAgain(db, addr, uuid);
    DetachedMeans(db, addr, uuid);
    NothingLeft(Detached(db, addr, uuid), addr, uuid);
    SweptAgain(Removed(db, addr, uuid), uuid);
  }

  /** One delivery: cut off before, between or after the two deletes; done when it returns. */
  lemma DetachDelivers(w: World, m: DetachMsg)
    requires Quiet(w)
    ensures
      var o := Detach(w, m);
      && Quiet(o.w) && o.w.minted == w.minted && o.w.errors == w.errors
      && if m.addr.None? || m.instance.None? then o.w.db == w.db && o.status.Returned?
         else
           var removed := Removed(w.db, m.addr.value, m.instance.value);
           && (o.w.db == w.db || o.w.db == removed || o.w.db == Swept(removed, m.instance.value))
           && (o.status.Returned? ==> o.w.db == Detached(w.db, m.addr.value, m.instance.value))
  {
    if m.addr.Some? && m.instance.Some? {
      var op := DeleteAttachedIps(m.addr.value, m.instance.value);
      WriteCall(w, op, RAISES_IP_DELETE);
      var gone := Call(w, op, NoSelector, RAISES_IP_DELETE);
      assert Commit(w.db, op, FreshId(w)) == Removed(w.db, m.addr.value, m.instance.value);
      hide Call, Reads, Commit, Removed, Swept;
      if gone.answer.Got? {
        WriteCall(gone.w, SweepEndpoints(m.instance.value), RAISES_ENDPOINT_DELETE);
        SweepIsSwept(gone.w.db, m.instance.value, FreshId(gone.w));
      }
    }
  }

  lemma SweepIsSwept(db: Db, uuid: string, id: Id)
    ensures Commit(db, SweepEndpoints(uuid), id) == Swept(db, uuid)
  {
  }

  function Detaches(w: World, m: DetachMsg, n: nat): (h: History)
    ensures Extends(w, h.w)
  {
    if n == 0 then History(w, false)
    else
      var h := Detaches(w, m, n - 1);
      var o := Detach(h.w, m);
      History(o.w, h.returned || o.status.Returned?)
  }

  /**
   Detach converges: after any number of deliveries under any faults the store is
   one from which detaching still ends in the same place, and once a delivery
   returned normally it is exactly that place.
   */
  lemma {:induction false} DetachConverges(w: World, m: DetachMsg, n: nat)
    requires Quiet(w) && m.addr.Some? && m.instance.Some?
    ensures
      var h := Detaches(w, m, n);
      var goal := Detached(w.db, m.addr.value, m.instance.value);
      && Quiet(h.w)
      && Detached(h.w.db, m.addr.value, m.instance.value) == goal
      && (h.returned ==> h.w.db == goal)
  {
    if n > 0 {
      DetachConverges(w, m, n - 1);
      var h := Detaches(w, m, n - 1);
      DetachDelivers(h.w, m);
      DetachResumes(h.w.db, m.addr.value, m.instance.value);
      DetachResumes(w.db, m.addr.value, m.instance.value);
      hide Detach, Removed, Swept;
    }
  }
}
