/** The sighting service of the plain gRPC server: the same store as the
    workspace copy, except that Create neither validates the request nor refuses
    a nil payload, and every NotFound message spells "UUID". Each method is one
    critical section of the service's reader-writer lock; the fresh UUID and the
    current time are parameters. */
module UfoGrpc {
  import opened Wrappers
  import opened GoTypes
  import opened UfoModel
  import Collections

  /** The NotFound status of every operation. */
  function MissingUUID(uuid: string): Status {
    Status(NotFound, "sighting with UUID " + uuid + " not found")
  }

  class UfoService {
    var sightings: map<string, Sighting>

    /** Every record is stored under its own UUID. A record's payload may be nil. */
    ghost predicate Valid()
      reads this
    {
      forall id :: id in sightings ==> sightings[id].uuid == id
    }

    /** The service value built in `main`: an empty store. */
    constructor ()
      ensures Valid() && sightings == map[]
    {
      sightings := map[];
    }

    /** Checks existence, then that a patch was sent, then overwrites in place each
        payload field whose wrapper is present and refreshes `updatedAt`. Writing a
        field through a nil payload dereferences nil, so a record without a payload
        may only take a patch with no present field. */
    method Update(uuid: string, updateInfo: Option<SightingUpdateInfo>, now: Timestamp)
      returns (r: Result<(), Status>)
      requires Valid()
      requires uuid in sightings && updateInfo.Some? && sightings[uuid].info.None? ==>
                 IsEmptyPatch(updateInfo.value)
      modifies this
      ensures Valid()
      ensures sightings.Keys == old(sightings).Keys
      ensures uuid !in old(sightings) ==> r == Failure(MissingUUID(uuid)) && sightings == old(sightings)
      ensures uuid in old(sightings) && updateInfo.None? ==>
                r == Failure(UpdateInfoRequired) && sightings == old(sightings)
      ensures uuid in old(sightings) && updateInfo.Some? ==>
                r == Success(()) &&
                sightings == old(sightings)[uuid := Updated(old(sightings)[uuid], updateInfo.value, now)]
    {
      if uuid !in sightings {
        return Failure(MissingUUID(uuid));
      }
      if updateInfo.None? {
        return Failure(UpdateInfoRequired);
      }
      var p := updateInfo.value;
      var s := sightings[uuid];
      var info := s.info;
      if p.observedAt.Some? {
        info := Some(info.value.(observedAt := p.observedAt));
      }
      if p.location.Some? {
        info := Some(info.value.(location := p.location.value));
      }
      if p.description.Some? {
        info := Some(info.value.(description := p.description.value));
      }
      if p.color.Some? {
        info := Some(info.value.(color := p.color));
      }
      if p.sound.Some? {
        info := Some(info.value.(sound := p.sound));
      }
      if p.durationSeconds.Some? {
        info := Some(info.value.(durationSeconds := p.durationSeconds));
      }
      s := s.(info := info, updatedAt := Some(now));
      assert s == Updated(sightings[uuid], p, now);
      sightings := sightings[uuid := s];
      r := Success(());
    }

    /** Soft delete: marks the record with `now` and keeps it in the map; a
        repeated Delete succeeds again and moves the mark to the later time. */
    method Delete(uuid: string, now: Timestamp) returns (r: Result<(), Status>)
      requires Valid()
      modifies this
      ensures Valid()
      ensures sightings.Keys == old(sightings).Keys
      ensures uuid !in old(sightings) ==> r == Failure(MissingUUID(uuid)) && sightings == old(sightings)
      ensures uuid in old(sightings) ==>
                r == Success(()) &&
                sightings == old(sightings)[uuid := old(sightings)[uuid].(deletedAt := Some(now))]
    {
      if uuid !in sightings {
        return Failure(MissingUUID(uuid));
      }
      var s := sightings[uuid];
      s := s.(deletedAt := Some(now));
      sightings := sightings[uuid := s];
      r := Success(());
    }

    /** A snapshot of every record, soft-deleted ones included, in no particular
        order, with the count as Go's `int32(len(...))`. */
    method GetAll() returns (r: GetAllResponse)
      requires Valid()
      ensures |r.sightings| == |sightings|
      ensures forall i :: 0 <= i < |r.sightings| ==>
                r.sightings[i].uuid in sightings && sightings[r.sightings[i].uuid] == r.sightings[i]
      ensures forall i, j :: 0 <= i < j < |r.sightings| ==> r.sightings[i].uuid != r.sightings[j].uuid
      ensures forall id :: id in sightings ==> exists i :: 0 <= i < |r.sightings| && r.sightings[i].uuid == id
      ensures r.totalCount == Int32Of(|sightings|)
    {
      var all;
      ghost var keys;
      all, keys := Collections.CollectValues(sightings);
      assert forall i :: 0 <= i < |all| ==> all[i].uuid == keys[i];
      forall id | id in sightings ensures exists i :: 0 <= i < |all| && all[i].uuid == id {
        var i :| 0 <= i < |keys| && keys[i] == id;
        assert all[i].uuid == id;
      }
      r := GetAllResponse(all, Int32Of(|all|));
    }

    /** The record stored under `uuid`, soft-deleted or not. */
    method Get(uuid: string) returns (r: Result<GetResponse, Status>)
      ensures uuid in sightings ==> r == Success(GetResponse(sightings[uuid]))
      ensures uuid !in sightings ==> r == Failure(MissingUUID(uuid))
    {
      if uuid !in sightings {
        return Failure(MissingUUID(uuid));
      }
      r := Success(GetResponse(sightings[uuid]));
    }

    /** Stores a new record under `newUuid`, the identifier the UUID generator
        hands out, with whatever payload the request carries, nil included. */
    method Create(req: CreateRequest, newUuid: string, now: Timestamp) returns (r: CreateResponse)
      requires Valid()
      requires newUuid !in sightings
      modifies this
      ensures Valid()
      ensures r == CreateResponse(newUuid)
      ensures sightings.Keys == old(sightings).Keys + {newUuid}
      ensures sightings[newUuid] == Sighting(newUuid, req.info, Some(now), None, None)
      ensures forall id :: id in old(sightings) ==> sightings[id] == old(sightings)[id]
    {
      sightings := sightings[newUuid := Sighting(newUuid, req.info, Some(now), None, None)];
      r := CreateResponse(newUuid);
    }
  }

  /** A record created without a payload still accepts a patch with no present
      field, which only moves `updatedAt`. */
  method CreateNilThenEmptyUpdate(svc: UfoService, newUuid: string, t1: Timestamp, t2: Timestamp)
    returns (got: Result<GetResponse, Status>)
    requires svc.Valid() && newUuid !in svc.sightings
    modifies svc
    ensures got == Success(GetResponse(Sighting(newUuid, None, Some(t1), Some(t2), None)))
  {
    var created := svc.Create(CreateRequest(None), newUuid, t1);
    var empty := SightingUpdateInfo(None, None, None, None, None, None);
    var updated := svc.Update(newUuid, Some(empty), t2);
    got := svc.Get(newUuid);
  }

  /** Deleting twice succeeds both times and keeps the record retrievable. */
  method DeleteTwice(svc: UfoService, uuid: string, t1: Timestamp, t2: Timestamp)
    returns (first: Result<(), Status>, second: Result<(), Status>, got: Result<GetResponse, Status>)
    requires svc.Valid() && uuid in svc.sightings
    modifies svc
    ensures first == Success(()) && second == Success(())
    ensures svc.sightings.Keys == old(svc.sightings).Keys
    ensures got == Success(GetResponse(old(svc.sightings)[uuid].(deletedAt := Some(t2))))
  {
    first := svc.Delete(uuid, t1);
    second := svc.Delete(uuid, t2);
    got := svc.Get(uuid);
  }
}
