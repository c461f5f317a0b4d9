/** The map state provider (src/contexts/MapContext.tsx): the point list, the
    selected point, the camera and the loading and error flags, with the list
    operations it applies once a remote store call has succeeded. */
module MapContext {
  import opened Types

  /** The user id the provider loads settings for. */
  const MockUserId: string := "de2e543b-0581-491c-9434-7d65c00dfea9"

  /** The camera before any settings arrive. */
  const DefaultViewState: MapViewState := MapViewState(146.8884086608887, -36.114858138524454, 8.0)

  /** The message of the Error the provider records for a thrown value: the
      value itself when it is an Error, otherwise `new Error(String(value))`. */
  function ErrorMessage(t: Thrown): (m: string)
    ensures t.ErrorInstance? ==> m == t.message
    ensures t.OtherValue? ==> m == t.shown
  {
    match t
    case ErrorInstance(m) => m
    case OtherValue(s) => s
  }

  /** The camera a settings record asks for. */
  function ViewFromSettings(s: UserSettings): (v: MapViewState)
    ensures v.longitude == s.defaultLongitude && v.latitude == s.defaultLatitude
    ensures v.zoom == s.defaultZoom
  {
    MapViewState(s.defaultLongitude, s.defaultLatitude, s.defaultZoom)
  }

  // ---------------------------------------------------------------------------
  // The list expressions applied on success

  /** `points.map(point => point.id === id ? updated : point)`. */
  function ReplaceById(points: seq<MapPoint>, id: string, updated: MapPoint): (r: seq<MapPoint>)
    ensures |r| == |points|
    ensures IdCount(r, id) == if updated.id == id then IdCount(points, id) else 0
  {
    if points == [] then []
    else [if points[0].id == id then updated else points[0]] + ReplaceById(points[1..], id, updated)
  }

  /** `points.filter(point => point.id !== id)`. */
  function RemoveById(points: seq<MapPoint>, id: string): (r: seq<MapPoint>)
    ensures |r| <= |points|
    ensures IdCount(r, id) == 0
  {
    if points == [] then []
    else if points[0].id == id then RemoveById(points[1..], id)
    else [points[0]] + RemoveById(points[1..], id)
  }

  /** Number of entries with the given id. */
  function IdCount(points: seq<MapPoint>, id: string): nat {
    if points == [] then 0 else (if points[0].id == id then 1 else 0) + IdCount(points[1..], id)
  }

  /** Replacing keeps the length, puts `updated` at every index whose entry has
      the id and leaves every other entry as it was at its index. */
  lemma {:induction false} ReplaceByIdAt(points: seq<MapPoint>, id: string, updated: MapPoint)
    ensures |ReplaceById(points, id, updated)| == |points|
    ensures forall i :: 0 <= i < |points| ==>
      ReplaceById(points, id, updated)[i] == if points[i].id == id then updated else points[i]
  {
    if points != [] {
      ReplaceByIdAt(points[1..], id, updated);
      var r := ReplaceById(points, id, updated);
      forall i | 1 <= i < |points|
        ensures r[i] == if points[i].id == id then updated else points[i]
      {
        assert r[i] == ReplaceById(points[1..], id, updated)[i - 1];
      }
    }
  }

  /** A list without the id is left as it is by a replacement. */
  lemma {:induction false} ReplaceByIdAbsent(points: seq<MapPoint>, id: string, updated: MapPoint)
    requires IdCount(points, id) == 0
    ensures ReplaceById(points, id, updated) == points
  {
    if points != [] {
      ReplaceByIdAbsent(points[1..], id, updated);
    }
  }

  /** An entry survives the removal exactly when it was in the list with another id. */
  lemma {:induction false} RemoveByIdMembers(points: seq<MapPoint>, id: string)
    ensures forall p :: p in RemoveById(points, id) <==> p in points && p.id != id
  {
    if points != [] {
      RemoveByIdMembers(points[1..], id);
      assert points == [points[0]] + points[1..];
    }
  }

  /** Removal takes out exactly the entries with the id. */
  lemma {:induction false} RemoveByIdLength(points: seq<MapPoint>, id: string)
    ensures |RemoveById(points, id)| == |points| - IdCount(points, id)
    ensures IdCount(RemoveById(points, id), id) == 0
  {
    if points != [] {
      RemoveByIdLength(points[1..], id);
      var rest := RemoveById(points[1..], id);
      var r := RemoveById(points, id);
      if points[0].id == id {
        assert r == rest;
      } else {
        assert r == [points[0]] + rest;
        assert r[0] == points[0] && r[1..] == rest;
      }
    }
  }

  /** Removal from a list with a known first entry. */
  lemma RemoveByIdCons(p: MapPoint, rest: seq<MapPoint>, id: string)
    ensures RemoveById([p] + rest, id) == (if p.id == id then [] else [p]) + RemoveById(rest, id)
  {
    assert ([p] + rest)[1..] == rest;
  }

  /** Removal distributes over concatenation, so the survivors of an earlier part
      of the list come before those of a later part. */
  lemma {:induction false} RemoveByIdConcat(a: seq<MapPoint>, b: seq<MapPoint>, id: string)
    ensures RemoveById(a + b, id) == RemoveById(a, id) + RemoveById(b, id)
  {
    if a == [] {
      assert a + b == b;
    } else {
      var head := if a[0].id == id then [] else [a[0]];
      calc {
        RemoveById(a + b, id);
        { assert a + b == [a[0]] + (a[1..] + b); }
        RemoveById([a[0]] + (a[1..] + b), id);
        { RemoveByIdCons(a[0], a[1..] + b, id); }
        head + RemoveById(a[1..] + b, id);
        { RemoveByIdConcat(a[1..], b, id); }
        head + (RemoveById(a[1..], id) + RemoveById(b, id));
        (head + RemoveById(a[1..], id)) + RemoveById(b, id);
        { assert a == [a[0]] + a[1..]; RemoveByIdCons(a[0], a[1..], id); }
        RemoveById(a, id) + RemoveById(b, id);
      }
    }
  }

  /** Two surviving entries keep their relative order. */
  lemma RemoveByIdKeepsOrder(points: seq<MapPoint>, id: string, i: nat, j: nat)
    requires i < j < |points|
    requires points[i].id != id && points[j].id != id
    ensures exists k1, k2 :: (0 <= k1 < k2 < |RemoveById(points, id)|
      && RemoveById(points, id)[k1] == points[i] && RemoveById(points, id)[k2] == points[j])
  {
    var front, back := points[..j], points[j..];
    assert points == front + back;
    RemoveByIdConcat(front, back, id);
    RemoveByIdMembers(front, id);
    assert points[i] == front[i];
    var rf := RemoveById(front, id);
    assert points[i] in rf;
    var k1 :| 0 <= k1 < |rf| && rf[k1] == points[i];
    assert back == [points[j]] + back[1..];
    var r := RemoveById(points, id);
    assert r == rf + ([points[j]] + RemoveById(back[1..], id));
    assert r[k1] == points[i] && r[|rf|] == points[j];
  }

  /** A list without the id is left as it is by a removal. */
  lemma {:induction false} RemoveByIdAbsent(points: seq<MapPoint>, id: string)
    requires IdCount(points, id) == 0
    ensures RemoveById(points, id) == points
  {
    if points != [] {
      RemoveByIdAbsent(points[1..], id);
      assert points == [points[0]] + points[1..];
    }
  }

  /** Removing an id twice is removing it once. */
  lemma RemoveByIdIdempotent(points: seq<MapPoint>, id: string)
    ensures RemoveById(RemoveById(points, id), id) == RemoveById(points, id)
  {
    RemoveByIdLength(points, id);
    RemoveByIdAbsent(RemoveById(points, id), id);
  }

  /** Adding a point whose id is new and then deleting it restores the list. */
  lemma AddThenDelete(points: seq<MapPoint>, p: MapPoint)
    requires IdCount(points, p.id) == 0
    ensures RemoveById([p] + points, p.id) == points
  {
    RemoveByIdConcat([p], points, p.id);
    RemoveByIdAbsent(points, p.id);
  }

  // ---------------------------------------------------------------------------
  // The provider

  /** The state `MapProvider` holds. `requests` records, in order, the remote
      calls the provider has issued. */
  class MapProvider {
    var mapPoints: seq<MapPoint>
    var loading: bool
    var error: Option<string>
    var selectedPoint: Option<MapPoint>
    var viewState: MapViewState
    ghost var requests: seq<Request>

    /** The provider's first render: empty list, loading, no error, no
        selection, the default camera. */
    constructor ()
      ensures mapPoints == [] && loading && error == None
      ensures selectedPoint == None && viewState == DefaultViewState
      ensures requests == []
    {
      mapPoints := [];
      loading := true;
      error := None;
      selectedPoint := None;
      viewState := DefaultViewState;
      requests := [];
    }

    /** `setViewState`: overwrites the camera. */
    method SetViewState(v: MapViewState)
      modifies this`viewState
      ensures viewState == v
    {
      viewState := v;
    }

    /** `setSelectedPoint`: overwrites the selection. */
    method SetSelectedPoint(p: Option<MapPoint>)
      modifies this`selectedPoint
      ensures selectedPoint == p
    {
      selectedPoint := p;
    }

    /** `loadInitialData`, given what the settings fetch and the points fetch
        return. A settings failure is swallowed and keeps the camera; a settings
        success moves the camera to the stored defaults. A points failure
        records the error and keeps the list; success replaces it. Loading is
        off at the end either way. */
    method LoadInitialData(settings: Outcome<UserSettings>, points: Outcome<seq<MapPoint>>)
      modifies this
      ensures !loading
      ensures viewState == if settings.Ok? then ViewFromSettings(settings.value) else old(viewState)
      ensures mapPoints == if points.Ok? then points.value else old(mapPoints)
      ensures error == if points.Err? then Some(ErrorMessage(points.thrown)) else old(error)
      ensures selectedPoint == old(selectedPoint)
      ensures requests == old(requests) + [GetSettings(MockUserId), ListPoints]
    {
      loading := true;
      requests := requests + [GetSettings(MockUserId)];
      if settings.Ok? {
        viewState := ViewFromSettings(settings.value);
      }
      requests := requests + [ListPoints];
      match points {
        case Ok(ps) => mapPoints := ps;
        case Err(t) => error := Some(ErrorMessage(t));
      }
      loading := false;
    }

    /** `refreshMapPoints`: success replaces the whole list and leaves an
        earlier error in place; failure records the error and keeps the list.
        Camera and selection are untouched; loading is off at the end. */
    method RefreshMapPoints(points: Outcome<seq<MapPoint>>)
      modifies this`loading, this`mapPoints, this`error, this`requests
      ensures !loading
      ensures mapPoints == if points.Ok? then points.value else old(mapPoints)
      ensures error == if points.Err? then Some(ErrorMessage(points.thrown)) else old(error)
      ensures requests == old(requests) + [ListPoints]
    {
      loading := true;
      requests := requests + [ListPoints];
      match points {
        case Ok(ps) => mapPoints := ps;
        case Err(t) => error := Some(ErrorMessage(t));
      }
      loading := false;
    }

    /** `addMapPoint`: the store's new point goes to the head of the list and is
        returned; a failure is passed back and the list is kept. */
    method AddMapPoint(draft: MapPointDraft, created: Outcome<MapPoint>) returns (r: Outcome<MapPoint>)
      modifies this`mapPoints, this`requests
      ensures r == created
      ensures mapPoints == if created.Ok? then [created.value] + old(mapPoints) else old(mapPoints)
      ensures requests == old(requests) + [CreatePoint(draft)]
    {
      requests := requests + [CreatePoint(draft)];
      if created.Ok? {
        mapPoints := [created.value] + mapPoints;
      }
      r := created;
    }

    /** `updateMapPoint`: every entry with the id is replaced in place by the
        store's point, and a selection with that id is refreshed to it; a
        failure is passed back and nothing changes. */
    method UpdateMapPoint(id: string, patch: PointPatch, updated: Outcome<MapPoint>) returns (r: Outcome<MapPoint>)
      modifies this`mapPoints, this`selectedPoint, this`requests
      ensures r == updated
      ensures |mapPoints| == |old(mapPoints)|
      ensures forall i :: 0 <= i < |mapPoints| ==>
        mapPoints[i] == if updated.Ok? && old(mapPoints)[i].id == id then updated.value else old(mapPoints)[i]
      ensures selectedPoint ==
        if updated.Ok? && old(selectedPoint).Some? && old(selectedPoint).value.id == id
        then Some(updated.value) else old(selectedPoint)
      ensures requests == old(requests) + [UpdatePoint(id, patch)]
    {
      requests := requests + [UpdatePoint(id, patch)];
      if updated.Ok? {
        ReplaceByIdAt(mapPoints, id, updated.value);
        mapPoints := ReplaceById(mapPoints, id, updated.value);
        if selectedPoint.Some? && selectedPoint.value.id == id {
          selectedPoint := Some(updated.value);
        }
      }
      r := updated;
    }

    /** `deleteMapPoint`: every entry with the id is removed, the rest keep
        their order, and a selection with that id is cleared; a failure is
        passed back and nothing changes. */
    method DeleteMapPoint(id: string, deleted: Outcome<()>) returns (r: Outcome<()>)
      modifies this`mapPoints, this`selectedPoint, this`requests
      ensures r == deleted
      ensures mapPoints == if deleted.Ok? then RemoveById(old(mapPoints), id) else old(mapPoints)
      ensures deleted.Ok? ==> IdCount(mapPoints, id) == 0
      ensures deleted.Ok? ==> forall p :: p in mapPoints <==> p in old(mapPoints) && p.id != id
      ensures selectedPoint ==
        if deleted.Ok? && old(selectedPoint).Some? && old(selectedPoint).value.id == id
        then None else old(selectedPoint)
      ensures requests == old(requests) + [DeletePoint(id)]
    {
      requests := requests + [DeletePoint(id)];
      if deleted.Ok? {
        RemoveByIdLength(mapPoints, id);
        RemoveByIdMembers(mapPoints, id);
        mapPoints := RemoveById(mapPoints, id);
        if selectedPoint.Some? && selectedPoint.value.id == id {
          selectedPoint := None;
        }
      }
      r := deleted;
    }
  }

  /** Mounting the provider: its first state followed by `loadInitialData`.
      Without settings the camera is the default one; without points the error
      is set and the list is empty. */
  method Mount(settings: Outcome<UserSettings>, points: Outcome<seq<MapPoint>>) returns (p: MapProvider)
    ensures fresh(p)
    ensures !p.loading && p.selectedPoint == None
    ensures p.viewState == if settings.Ok? then ViewFromSettings(settings.value) else DefaultViewState
    ensures settings.Err? ==> p.viewState == MapViewState(146.8884086608887, -36.114858138524454, 8.0)
    ensures p.mapPoints == if points.Ok? then points.value else []
    ensures p.error == if points.Err? then Some(ErrorMessage(points.thrown)) else None
    ensures p.requests == [GetSettings(MockUserId), ListPoints]
  {
    p := new MapProvider();
    p.LoadInitialData(settings, points);
  }
}
