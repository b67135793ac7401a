/** The sighting service of the workspace gRPC server (with HTTP gateway):
    a map from UUID to sighting, with a validated Create, a field-granular Update
    and a soft Delete. Each method is one critical section of the service's
    reader-writer lock; the fresh UUID and the current time are parameters. */
module UfoWorkspace {
  import opened Wrappers
  import opened GoTypes
  import opened UfoModel
  import Collections

  /** The NotFound status of Delete and Update (lower-case "uuid"). */
  function MissingUuid(uuid: string): Status {
    Status(NotFound, "sighting with uuid " + uuid + " not found")
  }

  /** The NotFound status of Get (upper-case "UUID"). */
  function MissingUUID(uuid: string): Status {
    Status(NotFound, "sighting with UUID " + uuid + " not found")
  }

  /** The status Create returns when the request validator reports `err`. */
  function ValidationError(err: string): Status {
    Status(InvalidArgument, "validation error: " + err)
  }

  class UfoService {
    var sighting: map<string, Sighting>

    /** Every record is stored under its own UUID and has a payload: Create
        refuses a nil payload and Update never clears one. */
    ghost predicate Valid()
      reads this
    {
      forall id :: id in sighting ==> sighting[id].uuid == id && sighting[id].info.Some?
    }

    /** NewUfoService: an empty store. */
    constructor ()
      ensures Valid() && sighting == map[]
    {
      sighting := map[];
    }

    /** Validates the request, then stores a new record under `newUuid`, the
        identifier the UUID generator hands out. `validate` stands for the
        request's generated validator: `None` accepts, `Some(err)` rejects. */
    method Create(rq: CreateRequest, validate: CreateRequest -> Option<string>, newUuid: string, now: Timestamp)
      returns (r: Result<CreateResponse, Status>)
      requires Valid()
      requires newUuid !in sighting
      modifies this
      ensures Valid()
      ensures validate(rq).Some? ==>
                r == Failure(ValidationError(validate(rq).value)) && sighting == old(sighting)
      ensures validate(rq).None? && rq.info.None? ==>
                r == Failure(InfoRequired) && sighting == old(sighting)
      ensures validate(rq).None? && rq.info.Some? ==>
                r == Success(CreateResponse(newUuid)) &&
                sighting.Keys == old(sighting).Keys + {newUuid} &&
                sighting[newUuid] == Sighting(newUuid, rq.info, Some(now), None, None) &&
                (forall id :: id in old(sighting) ==> sighting[id] == old(sighting)[id])
    {
      var err := validate(rq);
      if err.Some? {
        return Failure(ValidationError(err.value));
      }
      if rq.info.None? {
        return Failure(InfoRequired);
      }
      sighting := sighting[newUuid := Sighting(newUuid, rq.info, Some(now), None, None)];
      r := Success(CreateResponse(newUuid));
    }

    /** Soft delete: marks the record with `now` and keeps it in the map. */
    method Delete(uuid: string, now: Timestamp) returns (r: Result<(), Status>)
      requires Valid()
      modifies this
      ensures Valid()
      ensures sighting.Keys == old(sighting).Keys
      ensures uuid !in old(sighting) ==> r == Failure(MissingUuid(uuid)) && sighting == old(sighting)
      ensures uuid in old(sighting) ==>
                r == Success(()) &&
                sighting == old(sighting)[uuid := old(sighting)[uuid].(deletedAt := Some(now))]
    {
      if uuid !in sighting {
        return Failure(MissingUuid(uuid));
      }
      var s := sighting[uuid];
      s := s.(deletedAt := Some(now));
      sighting := sighting[uuid := s];
      r := Success(());
    }

    /** A snapshot of every record, soft-deleted ones included, in no particular
        order, with the count as Go's `int32(len(...))`. */
    method GetAll() returns (r: GetAllResponse)
      requires Valid()
      ensures |r.sightings| == |sighting|
      ensures forall i :: 0 <= i < |r.sightings| ==>
                r.sightings[i].uuid in sighting && sighting[r.sightings[i].uuid] == r.sightings[i]
      ensures forall i, j :: 0 <= i < j < |r.sightings| ==> r.sightings[i].uuid != r.sightings[j].uuid
      ensures forall id :: id in sighting ==> exists i :: 0 <= i < |r.sightings| && r.sightings[i].uuid == id
      ensures r.totalCount == Int32Of(|sighting|)
    {
      var all;
      ghost var keys;
      all, keys := Collections.CollectValues(sighting);
      assert forall i :: 0 <= i < |all| ==> all[i].uuid == keys[i];
      forall id | id in sighting ensures exists i :: 0 <= i < |all| && all[i].uuid == id {
        var i :| 0 <= i < |keys| && keys[i] == id;
        assert all[i].uuid == id;
      }
      r := GetAllResponse(all, Int32Of(|all|));
    }

    /** The record stored under `uuid`, soft-deleted or not. */
    method Get(uuid: string) returns (r: Result<GetResponse, Status>)
      ensures uuid in sighting ==> r == Success(GetResponse(sighting[uuid]))
      ensures uuid !in sighting ==> r == Failure(MissingUUID(uuid))
    {
      if uuid !in sighting {
        return Failure(MissingUUID(uuid));
      }
      r := Success(GetResponse(sighting[uuid]));
    }

    /** Checks existence, then that a patch was sent, then overwrites in place each
        payload field whose wrapper is present and refreshes `updatedAt`. */
    method Update(uuid: string, updateInfo: Option<SightingUpdateInfo>, now: Timestamp)
      returns (r: Result<(), Status>)
      requires Valid()
      modifies this
      ensures Valid()
      ensures sighting.Keys == old(sighting).Keys
      ensures uuid !in old(sighting) ==> r == Failure(MissingUuid(uuid)) && sighting == old(sighting)
      ensures uuid in old(sighting) && updateInfo.None? ==>
                r == Failure(UpdateInfoRequired) && sighting == old(sighting)
      ensures uuid in old(sighting) && updateInfo.Some? ==>
                r == Success(()) &&
                sighting == old(sighting)[uuid := Updated(old(sighting)[uuid], updateInfo.value, now)]
    {
      if uuid !in sighting {
        return Failure(MissingUuid(uuid));
      }
      if updateInfo.None? {
        return Failure(UpdateInfoRequired);
      }
      var p := updateInfo.value;
      var s := sighting[uuid];
      var info := s.info.value;
      if p.observedAt.Some? {
        info := info.(observedAt := p.observedAt);
      }
      if p.location.Some? {
        info := info.(location := p.location.value);
      }
      if p.description.Some? {
        info := info.(description := p.description.value);
      }
      if p.color.Some? {
        info := info.(color := p.color);
      }
      if p.sound.Some? {
        info := info.(sound := p.sound);
      }
      if p.durationSeconds.Some? {
        info := info.(durationSeconds := p.durationSeconds);
      }
      s := s.(info := Some(info), updatedAt := Some(now));
      assert s == Updated(sighting[uuid], p, now);
      sighting := sighting[uuid := s];
      r := Success(());
    }
  }

  /** Creating a record and reading it back yields exactly the record Create
      built: the request's payload, a creation time, no update, no deletion. */
  method CreateThenGet(svc: UfoService, info: SightingInfo, validate: CreateRequest -> Option<string>,
                       newUuid: string, now: Timestamp)
    returns (got: Result<GetResponse, Status>)
    requires svc.Valid() && newUuid !in svc.sighting
    requires validate(CreateRequest(Some(info))).None?
    modifies svc
    ensures got == Success(GetResponse(Sighting(newUuid, Some(info), Some(now), None, None)))
  {
    var created := svc.Create(CreateRequest(Some(info)), validate, newUuid, now);
    assert created == Success(CreateResponse(newUuid));
    got := svc.Get(created.value.uuid);
  }

  /** A deleted record is still returned by Get, with only its deletion time set anew. */
  method DeleteThenGet(svc: UfoService, uuid: string, now: Timestamp)
    returns (got: Result<GetResponse, Status>)
    requires svc.Valid() && uuid in svc.sighting
    modifies svc
    ensures got == Success(GetResponse(old(svc.sighting)[uuid].(deletedAt := Some(now))))
  {
    var deleted := svc.Delete(uuid, now);
    got := svc.Get(uuid);
  }

  /** Sending the same patch twice leaves the payload of a single update. */
  method UpdateTwice(svc: UfoService, uuid: string, p: SightingUpdateInfo, t1: Timestamp, t2: Timestamp)
    requires svc.Valid() && uuid in svc.sighting
    modifies svc
    ensures svc.sighting == old(svc.sighting)[uuid := Updated(old(svc.sighting)[uuid], p, t2)]
    ensures svc.sighting[uuid].info == Updated(old(svc.sighting)[uuid], p, t1).info
  {
    var first := svc.Update(uuid, Some(p), t1);
    var second := svc.Update(uuid, Some(p), t2);
    UpdatedIdempotent(old(svc.sighting)[uuid], p, t1, t2);
  }
}
