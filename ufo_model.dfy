/** The UFO sighting record shared by both gRPC services: the payload
    (`SightingInfo`), the partial-update patch (`SightingUpdateInfo`, whose every
    field is a nil-able protobuf wrapper), the stored `Sighting` with its lifecycle
    timestamps, the gRPC status errors, and the field-granular merge that Update
    performs. */
module UfoModel {
  import opened Wrappers
  import opened GoTypes

  /** A protobuf `Timestamp`; the clock is a parameter of every operation that reads it. */
  type Timestamp = int

  /** `ufo_v1.SightingInfo`: location and description are plain strings, the other
      fields are nil-able (a `Timestamp` pointer and three wrapper messages). */
  datatype SightingInfo = SightingInfo(
    observedAt: Option<Timestamp>,
    location: string,
    description: string,
    color: Option<string>,
    sound: Option<bool>,
    durationSeconds: Option<int32>)

  /** `ufo_v1.SightingUpdateInfo`: every field is nil-able; `None` means "leave the
      stored field as it is", `Some(v)` means "overwrite it with v". */
  datatype SightingUpdateInfo = SightingUpdateInfo(
    observedAt: Option<Timestamp>,
    location: Option<string>,
    description: Option<string>,
    color: Option<string>,
    sound: Option<bool>,
    durationSeconds: Option<int32>)

  /** `ufo_v1.Sighting`. `info` is nil-able because the plain gRPC copy stores
      whatever the request carried. */
  datatype Sighting = Sighting(
    uuid: string,
    info: Option<SightingInfo>,
    createdAt: Option<Timestamp>,
    updatedAt: Option<Timestamp>,
    deletedAt: Option<Timestamp>)

  /** The request and response messages the services exchange. */
  datatype CreateRequest = CreateRequest(info: Option<SightingInfo>)
  datatype CreateResponse = CreateResponse(uuid: string)
  datatype GetResponse = GetResponse(sighting: Sighting)
  datatype GetAllResponse = GetAllResponse(sightings: seq<Sighting>, totalCount: int32)

  /** The gRPC status codes the services return, with their messages. */
  datatype Code = NotFound | InvalidArgument
  datatype Status = Status(code: Code, message: string)

  /** The status Create returns when the request carries no info. */
  const InfoRequired := Status(InvalidArgument, "info is required")
  /** The status Update returns when the request carries no update info. */
  const UpdateInfoRequired := Status(InvalidArgument, "update_info is required")

  // ----- Fields, one at a time -----

  /** The six payload fields, in the order Update examines them. */
  datatype Field = ObservedAt | Location | Description | Color | Sound | DurationSeconds

  /** The content of one field, whatever its Go type. */
  datatype FieldValue =
    | TimeValue(time: Option<Timestamp>)
    | TextValue(text: string)
    | OptTextValue(optText: Option<string>)
    | OptBoolValue(optBool: Option<bool>)
    | OptInt32Value(optInt: Option<int32>)

  /** The value stored in field `f`. */
  function FieldOf(info: SightingInfo, f: Field): FieldValue {
    match f
    case ObservedAt => TimeValue(info.observedAt)
    case Location => TextValue(info.location)
    case Description => TextValue(info.description)
    case Color => OptTextValue(info.color)
    case Sound => OptBoolValue(info.sound)
    case DurationSeconds => OptInt32Value(info.durationSeconds)
  }

  /** What the patch would write into field `f`: `None` when its wrapper is nil.
      Location and description are unwrapped (`.Value`); the other wrappers are
      stored as they are, so the stored field becomes non-nil. */
  function PatchOf(p: SightingUpdateInfo, f: Field): Option<FieldValue> {
    match f
    case ObservedAt => if p.observedAt.Some? then Some(TimeValue(p.observedAt)) else None
    case Location => if p.location.Some? then Some(TextValue(p.location.value)) else None
    case Description => if p.description.Some? then Some(TextValue(p.description.value)) else None
    case Color => if p.color.Some? then Some(OptTextValue(p.color)) else None
    case Sound => if p.sound.Some? then Some(OptBoolValue(p.sound)) else None
    case DurationSeconds => if p.durationSeconds.Some? then Some(OptInt32Value(p.durationSeconds)) else None
  }

  /** A non-nil patch all of whose wrappers are nil. */
  predicate IsEmptyPatch(p: SightingUpdateInfo) {
    p.observedAt.None? && p.location.None? && p.description.None? &&
    p.color.None? && p.sound.None? && p.durationSeconds.None?
  }

  lemma EmptyPatchTouchesNoField(p: SightingUpdateInfo)
    ensures IsEmptyPatch(p) <==> forall f :: PatchOf(p, f).None?
  {
    if !IsEmptyPatch(p) {
      if p.observedAt.Some? { assert PatchOf(p, ObservedAt).Some?; }
      else if p.location.Some? { assert PatchOf(p, Location).Some?; }
      else if p.description.Some? { assert PatchOf(p, Description).Some?; }
      else if p.color.Some? { assert PatchOf(p, Color).Some?; }
      else if p.sound.Some? { assert PatchOf(p, Sound).Some?; }
      else { assert PatchOf(p, DurationSeconds).Some?; }
    }
  }

  /** Two payloads that agree on every field are equal. */
  lemma FieldsDetermineInfo(a: SightingInfo, b: SightingInfo)
    requires forall f :: FieldOf(a, f) == FieldOf(b, f)
    ensures a == b
  {
    assert FieldOf(a, ObservedAt) == FieldOf(b, ObservedAt);
    assert FieldOf(a, Location) == FieldOf(b, Location);
    assert FieldOf(a, Description) == FieldOf(b, Description);
    assert FieldOf(a, Color) == FieldOf(b, Color);
    assert FieldOf(a, Sound) == FieldOf(b, Sound);
    assert FieldOf(a, DurationSeconds) == FieldOf(b, DurationSeconds);
  }

  // ----- The partial-update merge -----

  /** The payload after Update's six nil checks: each field whose patch wrapper is
      present is overwritten, every other field keeps its value. */
  function ApplyPatch(info: SightingInfo, p: SightingUpdateInfo): (r: SightingInfo)
    ensures forall f :: PatchOf(p, f).Some? ==> FieldOf(r, f) == PatchOf(p, f).value
    ensures forall f :: PatchOf(p, f).None? ==> FieldOf(r, f) == FieldOf(info, f)
  {
    SightingInfo(
      if p.observedAt.Some? then p.observedAt else info.observedAt,
      if p.location.Some? then p.location.value else info.location,
      if p.description.Some? then p.description.value else info.description,
      if p.color.Some? then p.color else info.color,
      if p.sound.Some? then p.sound else info.sound,
      if p.durationSeconds.Some? then p.durationSeconds else info.durationSeconds)
  }

  /** A patch all of whose wrappers are nil leaves the payload as it is. */
  lemma EmptyPatchIsIdentity(info: SightingInfo, p: SightingUpdateInfo)
    requires IsEmptyPatch(p)
    ensures ApplyPatch(info, p) == info
  {
    EmptyPatchTouchesNoField(p);
    FieldsDetermineInfo(ApplyPatch(info, p), info);
  }

  /** Applying the same patch twice gives the payload of applying it once. */
  lemma ApplyPatchIdempotent(info: SightingInfo, p: SightingUpdateInfo)
    ensures ApplyPatch(ApplyPatch(info, p), p) == ApplyPatch(info, p)
  {
    FieldsDetermineInfo(ApplyPatch(ApplyPatch(info, p), p), ApplyPatch(info, p));
  }

  /** Two patches that write no common field. */
  predicate Disjoint(p: SightingUpdateInfo, q: SightingUpdateInfo) {
    forall f :: PatchOf(p, f).None? || PatchOf(q, f).None?
  }

  /** Updates that write disjoint fields give the same payload in either order:
      whichever order the exclusive lock serialises them in, no field is lost. */
  lemma DisjointPatchesCommute(info: SightingInfo, p: SightingUpdateInfo, q: SightingUpdateInfo)
    requires Disjoint(p, q)
    ensures ApplyPatch(ApplyPatch(info, p), q) == ApplyPatch(ApplyPatch(info, q), p)
  {
    FieldsDetermineInfo(ApplyPatch(ApplyPatch(info, p), q), ApplyPatch(ApplyPatch(info, q), p));
  }

  /** The payload after a serialised run of accepted updates, first to last. */
  function ApplyAll(info: SightingInfo, ps: seq<SightingUpdateInfo>): SightingInfo
    decreases |ps|
  {
    if ps == [] then info else ApplyAll(ApplyPatch(info, ps[0]), ps[1..])
  }

  /** Reference definition of last-writer-wins for one field: the value written
      by the last patch in `ps` that carries `f`, or `current` if none does. */
  function LastWrite(ps: seq<SightingUpdateInfo>, f: Field, current: FieldValue): FieldValue
    decreases |ps|
  {
    if ps == [] then current
    else match PatchOf(ps[|ps| - 1], f)
      case Some(v) => v
      case None => LastWrite(ps[..|ps| - 1], f, current)
  }

  lemma {:induction false} LastWriteCons(p: SightingUpdateInfo, ps: seq<SightingUpdateInfo>, f: Field, current: FieldValue)
    ensures LastWrite([p] + ps, f, current) ==
            LastWrite(ps, f, if PatchOf(p, f).Some? then PatchOf(p, f).value else current)
    decreases |ps|
  {
    if ps != [] {
      assert ([p] + ps)[..|[p] + ps| - 1] == [p] + ps[..|ps| - 1];
      LastWriteCons(p, ps[..|ps| - 1], f, current);
    }
  }

  /** Every field of the final payload holds the value of the last update that
      wrote it, and its original value when no update did. */
  lemma {:induction false} ApplyAllIsLastWriterWins(info: SightingInfo, ps: seq<SightingUpdateInfo>, f: Field)
    ensures FieldOf(ApplyAll(info, ps), f) == LastWrite(ps, f, FieldOf(info, f))
    decreases |ps|
  {
    if ps != [] {
      ApplyAllIsLastWriterWins(ApplyPatch(info, ps[0]), ps[1..], f);
      assert ps == [ps[0]] + ps[1..];
      LastWriteCons(ps[0], ps[1..], f, FieldOf(info, f));
    }
  }

  lemma {:induction false} LastWriteOfSoleWriter(ps: seq<SightingUpdateInfo>, k: nat, f: Field, current: FieldValue)
    requires k < |ps| && PatchOf(ps[k], f).Some?
    requires forall j :: 0 <= j < |ps| && j != k ==> PatchOf(ps[j], f).None?
    ensures LastWrite(ps, f, current) == PatchOf(ps[k], f).value
    decreases |ps|
  {
    if k != |ps| - 1 {
      var front := ps[..|ps| - 1];
      assert forall j :: 0 <= j < |front| && j != k ==> front[j] == ps[j];
      LastWriteOfSoleWriter(front, k, f, current);
    }
  }

  lemma {:induction false} LastWriteOfNoWriter(ps: seq<SightingUpdateInfo>, f: Field, current: FieldValue)
    requires forall j :: 0 <= j < |ps| ==> PatchOf(ps[j], f).None?
    ensures LastWrite(ps, f, current) == current
    decreases |ps|
  {
    if ps != [] {
      var front := ps[..|ps| - 1];
      assert forall j :: 0 <= j < |front| ==> front[j] == ps[j];
      LastWriteOfNoWriter(front, f, current);
    }
  }

  /** No lost updates: when each field is written by at most one of a run of
      serialised updates, the final payload carries every written value and the
      original value of every field nobody wrote. */
  lemma DisjointUpdatesAreAllKept(info: SightingInfo, ps: seq<SightingUpdateInfo>, f: Field)
    requires forall i, j :: 0 <= i < j < |ps| ==> Disjoint(ps[i], ps[j])
    ensures forall k :: 0 <= k < |ps| && PatchOf(ps[k], f).Some? ==>
              FieldOf(ApplyAll(info, ps), f) == PatchOf(ps[k], f).value
    ensures (forall j :: 0 <= j < |ps| ==> PatchOf(ps[j], f).None?) ==>
              FieldOf(ApplyAll(info, ps), f) == FieldOf(info, f)
  {
    ApplyAllIsLastWriterWins(info, ps, f);
    forall k | 0 <= k < |ps| && PatchOf(ps[k], f).Some?
      ensures FieldOf(ApplyAll(info, ps), f) == PatchOf(ps[k], f).value
    {
      forall j | 0 <= j < |ps| && j != k ensures PatchOf(ps[j], f).None? {
        if j < k { assert Disjoint(ps[j], ps[k]); } else { assert Disjoint(ps[k], ps[j]); }
      }
      LastWriteOfSoleWriter(ps, k, f, FieldOf(info, f));
    }
    if forall j :: 0 <= j < |ps| ==> PatchOf(ps[j], f).None? {
      LastWriteOfNoWriter(ps, f, FieldOf(info, f));
    }
  }

  // ----- Whole-record transitions -----

  /** The record after an accepted Update at time `now`. A nil payload can only
      take a patch with no present field: any present field is written through
      the nil payload, which Go does not survive. */
  function Updated(s: Sighting, p: SightingUpdateInfo, now: Timestamp): (r: Sighting)
    requires s.info.Some? || IsEmptyPatch(p)
    ensures r.uuid == s.uuid && r.createdAt == s.createdAt && r.deletedAt == s.deletedAt
    ensures r.updatedAt == Some(now)
    ensures r.info.Some? <==> s.info.Some?
    ensures s.info.Some? ==>
              (forall f :: PatchOf(p, f).Some? ==> FieldOf(r.info.value, f) == PatchOf(p, f).value) &&
              (forall f :: PatchOf(p, f).None? ==> FieldOf(r.info.value, f) == FieldOf(s.info.value, f))
  {
    s.(info := if s.info.Some? then Some(ApplyPatch(s.info.value, p)) else None, updatedAt := Some(now))
  }

  /** Updating twice with the same patch leaves the record of the second update
      alone: the payload is that of one update and only `updatedAt` moves on. */
  lemma UpdatedIdempotent(s: Sighting, p: SightingUpdateInfo, t1: Timestamp, t2: Timestamp)
    requires s.info.Some? || IsEmptyPatch(p)
    ensures Updated(Updated(s, p, t1), p, t2) == Updated(s, p, t2)
  {
    if s.info.Some? { ApplyPatchIdempotent(s.info.value, p); }
  }

  /** An accepted patch with no present field only moves `updatedAt`. */
  lemma EmptyUpdateOnlyMovesUpdatedAt(s: Sighting, p: SightingUpdateInfo, now: Timestamp)
    requires IsEmptyPatch(p)
    ensures Updated(s, p, now) == s.(updatedAt := Some(now))
  {
    if s.info.Some? { EmptyPatchIsIdentity(s.info.value, p); }
  }
}
