/** The in-memory interrupt store: one map of records, changed in place. */
module MapStore {
  import opened Wrappers
  import opened Interrupt
  import opened Record
  import Store

  function Find(data: map<string, Rec>, id: string): Option<Rec> {
    if id in data then Some(data[id]) else None
  }

  /** data with the record under id replaced, or removed. */
  function Put(data: map<string, Rec>, id: string, r: Option<Rec>): map<string, Rec> {
    if r.Some? then data[id := r.value] else data - {id}
  }

  /** A store whose records were legible still has only legible ones if the one under id is, or is gone. */
  lemma OneChanged(before: map<string, Rec>, after: map<string, Rec>, id: string)
    requires AllLegible(before) && after - {id} == before - {id} && Store.Legible(Find(after, id))
    ensures AllLegible(after)
  {
    forall k | k in after ensures VersionReadable(after[k].frozen.version) {
      if k != id {
        assert k in after - {id} && (after - {id})[k] == (before - {id})[k];
      }
    }
  }

  predicate AllLegible(data: map<string, Rec>) {
    forall id :: id in data ==> VersionReadable(data[id].frozen.version)
  }

  class MapStore {
    var data: map<string, Rec>

    /** Every record has a layout this version reads, so the check in Get never fails. */
    predicate Valid()
      reads this
    {
      AllLegible(data)
    }

    constructor ()
      ensures data == map[] && Valid()
    {
      data := map[];
    }

    /** id is fresh: the store mints it. */
    method Create(rec: Option<Rec>, id: string, now: int) returns (err: Option<Error>)
      requires Valid()
      modifies this
      ensures Valid()
      ensures err == None <==> rec.Some? && Creatable(rec.value)
      ensures data == if err == None then Put(old(data), id, Store.MapOp(Store.Create(rec.value, id), Find(old(data), id), now).0) else old(data)
    {
      err := ValidateNewRecord(rec);
      if err.Some? { return; }
      data := data[id := Created(rec.value, id, now)];
    }

    method Get(id: string) returns (a: Store.Answer)
      requires Valid()
      ensures a.err == None <==> ValidId(id) && id in data
      ensures a == if ValidId(id) then Store.MapOp(Store.Get, Find(data, id), 0).1 else Store.Refuse(InvalidArgument)
    {
      var bad := ValidateId(id);
      if bad.Some? { return Store.Refuse(InvalidArgument); }
      if id !in data { return Store.Refuse(NotFound); }
      if !VersionReadable(data[id].frozen.version) { return Store.Refuse(UnknownVersion); }
      a := Store.Answer(Some(data[id]), [], None);
    }

    method SubmitDecisions(id: string, ds: seq<Decision>, now: int) returns (a: Store.Answer)
      requires Valid()
      modifies this
      ensures Valid()
      ensures !ValidId(id) ==> a == Store.Refuse(InvalidArgument) && data == old(data)
      ensures ValidId(id) ==> (Find(data, id), a) == Store.MapOp(Store.Submit(ds), Find(old(data), id), now)
      ensures data - {id} == old(data) - {id}
    {
      var bad := ValidateId(id);
      if bad.Some? { return Store.Refuse(InvalidArgument); }
      if id !in data { return Store.Refuse(NotFound); }
      if data[id].status == Completed { return Store.Refuse(AlreadyCompleted); }
      var r := new Record(data[id]);
      var committed, err := r.ApplyDecisions(ds, now);
      data := data[id := r.View()];
      a := Store.Answer(Some(r.View()), committed, err);
      Store.StaysLegible(Store.Submit(ds), Find(old(data), id), now);
      OneChanged(old(data), data, id);
    }

    method AcquireLease(id: string, owner: string, ttl: int, now: int) returns (a: Store.Answer)
      requires Valid()
      modifies this
      ensures Valid()
      ensures !ValidId(id) || owner == "" ==> a == Store.Refuse(InvalidArgument) && data == old(data)
      ensures ValidId(id) && owner != "" ==> (Find(data, id), a) == Store.MapOp(Store.Acquire(owner, ttl), Find(old(data), id), now)
      ensures data - {id} == old(data) - {id}
    {
      var bad := ValidateId(id);
      if bad.Some? || owner == "" { return Store.Refuse(InvalidArgument); }
      if id !in data { return Store.Refuse(NotFound); }
      var r := new Record(data[id]);
      var err := r.AcquireLease(owner, ttl, now);
      if err.Some? { return Store.Answer(None, [], err); }
      data := data[id := r.View()];
      a := Store.Answer(Some(r.View()), [], None);
      Store.StaysLegible(Store.Acquire(owner, ttl), Find(old(data), id), now);
      OneChanged(old(data), data, id);
    }

    method ReleaseLease(id: string, owner: string, now: int) returns (a: Store.Answer)
      requires Valid()
      modifies this
      ensures Valid()
      ensures !ValidId(id) || owner == "" ==> a == Store.Refuse(InvalidArgument) && data == old(data)
      ensures ValidId(id) && owner != "" ==> (Find(data, id), a) == Store.MapOp(Store.Release(owner), Find(old(data), id), now)
      ensures data - {id} == old(data) - {id}
    {
      var bad := ValidateId(id);
      if bad.Some? || owner == "" { return Store.Refuse(InvalidArgument); }
      if id !in data { return Store.Refuse(NotFound); }
      var r := new Record(data[id]);
      var err := r.ReleaseLease(owner, now);
      if err.Some? { return Store.Answer(None, [], err); }
      data := data[id := r.View()];
      a := Store.Answer(None, [], None);
      Store.StaysLegible(Store.Release(owner), Find(old(data), id), now);
      OneChanged(old(data), data, id);
    }

    method Complete(id: string, owner: string, now: int) returns (a: Store.Answer)
      requires Valid()
      modifies this
      ensures Valid()
      ensures !ValidId(id) || owner == "" ==> a == Store.Refuse(InvalidArgument) && data == old(data)
      ensures ValidId(id) && owner != "" ==> (Find(data, id), a) == Store.MapOp(Store.Complete(owner), Find(old(data), id), now)
      ensures data - {id} == old(data) - {id}
    {
      var bad := ValidateId(id);
      if bad.Some? || owner == "" { return Store.Refuse(InvalidArgument); }
      if id !in data { return Store.Refuse(NotFound); }
      var r := new Record(data[id]);
      var err := r.Complete(owner, now);
      if err.Some? { return Store.Answer(None, [], err); }
      data := data[id := r.View()];
      a := Store.Answer(None, [], None);
      Store.StaysLegible(Store.Complete(owner), Find(old(data), id), now);
      OneChanged(old(data), data, id);
    }

    method Delete(id: string) returns (err: Option<Error>)
      requires Valid()
      modifies this
      ensures Valid()
      ensures err == None <==> ValidId(id)
      ensures data == if err == None then Put(old(data), id, None) else old(data)
    {
      err := ValidateId(id);
      if err.None? {
        data := data - {id};
      }
    }
  }
}
