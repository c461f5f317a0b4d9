/** The map surface (src/components/MapView.tsx): marker colour and scale,
    rating stars, map styles, and the component state driven by the selection,
    map clicks, marker clicks, popup closing and camera moves. */
module MapSurface {
  import opened Types
  import MapContext
  import PointForm

  // ---------------------------------------------------------------------------
  // Markers

  const CampsiteColor: string := "#FF5733"
  const HikingTrailColor: string := "#33FF57"
  const DefaultColor: string := "#3357FF"

  /** The scale of the selected marker and of every other one. */
  const SelectedScale: real := 1.2
  const PlainScale: real := 0.8

  /** The marker colour for a point type: exact, case-sensitive comparison with
      `Campsite` and `Hiking Trail`, the default colour for anything else. */
  function MarkerColor(pointType: string): (c: string)
    ensures c == CampsiteColor <==> pointType == "Campsite"
    ensures c == HikingTrailColor <==> pointType == "Hiking Trail"
    ensures c == CampsiteColor || c == HikingTrailColor || c == DefaultColor
  {
    if pointType == "Campsite" then CampsiteColor
    else if pointType == "Hiking Trail" then HikingTrailColor
    else DefaultColor
  }

  /** Every type the add-point form offers is drawn in the default colour. */
  lemma FormTypesGetDefaultColor()
    ensures forall i :: 0 <= i < |PointForm.TypeOptions| ==> MarkerColor(PointForm.TypeOptions[i]) == DefaultColor
  {
    forall i | 0 <= i < |PointForm.TypeOptions|
      ensures MarkerColor(PointForm.TypeOptions[i]) == DefaultColor
    {
      var t := PointForm.TypeOptions[i];
      assert t != "Campsite" && t != "Hiking Trail" by {
        assert t[0] != 'C' && t[0] != 'H';
      }
    }
  }

  /** One rendered marker. */
  datatype Marker = Marker(id: string, longitude: real, latitude: real, color: string, scale: real)

  /** The markers for the point list: one per point, in list order, at the
      point's coordinates, coloured by its type, enlarged exactly when its id is
      the selected point's id; with no selection every marker is plain. */
  function Markers(points: seq<MapPoint>, selected: Option<MapPoint>): (ms: seq<Marker>)
    ensures |ms| == |points|
    ensures forall i :: 0 <= i < |points| ==>
      && ms[i].id == points[i].id
      && ms[i].longitude == points[i].longitude && ms[i].latitude == points[i].latitude
      && ms[i].color == MarkerColor(points[i].pointType)
    ensures forall i :: 0 <= i < |points| ==>
      (ms[i].scale == SelectedScale <==> selected.Some? && selected.value.id == points[i].id)
    ensures forall i :: 0 <= i < |points| ==> ms[i].scale == SelectedScale || ms[i].scale == PlainScale
    ensures selected.None? ==> forall i :: 0 <= i < |points| ==> ms[i].scale == PlainScale
  {
    seq(|points|, i requires 0 <= i < |points| =>
      var p := points[i];
      Marker(p.id, p.longitude, p.latitude, MarkerColor(p.pointType),
             if selected.Some? && selected.value.id == p.id then SelectedScale else PlainScale))
  }

  // ---------------------------------------------------------------------------
  // Rating stars

  /** The five stars for a rating: star i is filled when i is below the rating,
      so a rating at or below 0 fills none and one above 4 fills all five. */
  function StarRow(rating: real): (row: seq<bool>)
    ensures |row| == 5
    ensures forall i :: 0 <= i < 5 ==> (row[i] <==> (i as real) < rating)
    ensures rating <= 0.0 ==> forall i :: 0 <= i < 5 ==> !row[i]
    ensures rating > 4.0 ==> forall i :: 0 <= i < 5 ==> row[i]
  {
    seq(5, i requires 0 <= i < 5 => (i as real) < rating)
  }

  /** The popup's rating block: drawn only for a present, non-zero rating, and
      then five stars, star i filled exactly when i is below the rating. */
  function PopupStars(rating: Option<real>): (stars: Option<seq<bool>>)
    ensures stars.Some? <==> rating.Some? && rating.value != 0.0
    ensures stars.Some? ==> |stars.value| == 5
    ensures stars.Some? ==> forall i :: 0 <= i < 5 ==> (stars.value[i] <==> (i as real) < rating.value)
  {
    if rating.Some? && rating.value != 0.0 then Some(StarRow(rating.value)) else None
  }

  /** Number of filled entries. */
  function CountFilled(row: seq<bool>): nat {
    if row == [] then 0 else (if row[0] then 1 else 0) + CountFilled(row[1..])
  }

  /** The number of filled stars for a rating. */
  function FilledStars(rating: real): nat {
    CountFilled(StarRow(rating))
  }

  /** The filled stars come first: a filled star has only filled stars before it. */
  lemma StarRowPrefix(rating: real, i: int, j: int)
    requires 0 <= i <= j < 5 && StarRow(rating)[j]
    ensures StarRow(rating)[i]
  {
  }

  /** A row never counts more filled entries than it has entries. */
  lemma {:induction false} CountFilledBound(row: seq<bool>)
    ensures CountFilled(row) <= |row|
  {
    if row != [] {
      CountFilledBound(row[1..]);
    }
  }

  /** Filling more entries never lowers the count. */
  lemma {:induction false} CountFilledMonotone(a: seq<bool>, b: seq<bool>)
    requires |a| == |b|
    requires forall i :: 0 <= i < |a| ==> a[i] ==> b[i]
    ensures CountFilled(a) <= CountFilled(b)
  {
    if a != [] {
      CountFilledMonotone(a[1..], b[1..]);
    }
  }

  /** A row filled exactly below index k counts k. */
  lemma {:induction false} CountFilledPrefix(row: seq<bool>, k: int)
    requires 0 <= k <= |row|
    requires forall i :: 0 <= i < |row| ==> (row[i] <==> i < k)
    ensures CountFilled(row) == k
  {
    if row != [] {
      CountFilledPrefix(row[1..], if k > 0 then k - 1 else 0);
    }
  }

  /** Between none and all five stars are filled. */
  lemma FilledStarsBounds(rating: real)
    ensures 0 <= FilledStars(rating) <= 5
  {
    CountFilledBound(StarRow(rating));
  }

  /** A higher rating fills at least as many stars. */
  lemma FilledStarsMonotone(r1: real, r2: real)
    requires r1 <= r2
    ensures FilledStars(r1) <= FilledStars(r2)
  {
    CountFilledMonotone(StarRow(r1), StarRow(r2));
  }

  /** The filled count is the rating rounded up and clamped to 0..5: k stars for
      a rating in (k - 1, k], none for a rating at or below 0, five above 4. */
  lemma FilledStarsExact(rating: real, k: int)
    requires 0 <= k <= 5
    requires k > 0 ==> (k - 1) as real < rating
    requires k < 5 ==> rating <= k as real
    ensures FilledStars(rating) == k
  {
    CountFilledPrefix(StarRow(rating), k);
  }

  // ---------------------------------------------------------------------------
  // Map styles

  datatype StyleName = Outdoors | Satellite | Streets | Light | Dark

  /** The `MAP_STYLES` table. */
  function StyleUrl(n: StyleName): (u: string)
    ensures u in StyleUrls
    ensures "mapbox://styles/mapbox/" <= u
  {
    match n
    case Outdoors => "mapbox://styles/mapbox/outdoors-v12"
    case Satellite => "mapbox://styles/mapbox/satellite-streets-v12"
    case Streets => "mapbox://styles/mapbox/streets-v12"
    case Light => "mapbox://styles/mapbox/light-v11"
    case Dark => "mapbox://styles/mapbox/dark-v11"
  }

  /** The five style URLs. */
  const StyleUrls: set<string> := {
    "mapbox://styles/mapbox/outdoors-v12", "mapbox://styles/mapbox/satellite-streets-v12",
    "mapbox://styles/mapbox/streets-v12", "mapbox://styles/mapbox/light-v11",
    "mapbox://styles/mapbox/dark-v11"}

  const DefaultStyle: string := StyleUrl(Outdoors)

  /** The style table is one-to-one onto the five URLs. */
  lemma StyleUrlsExact()
    ensures forall u :: u in StyleUrls <==> exists n :: StyleUrl(n) == u
    ensures forall n, m :: n != m ==> StyleUrl(n) != StyleUrl(m)
  {
    assert StyleUrl(Outdoors) in StyleUrls;
    assert StyleUrl(Satellite) in StyleUrls;
    assert StyleUrl(Streets) in StyleUrls;
    assert StyleUrl(Light) in StyleUrls;
    assert StyleUrl(Dark) in StyleUrls;
  }

  // ---------------------------------------------------------------------------
  // The component

  /** The zoom the camera takes when a point is selected. */
  const FocusZoom: real := 12.0

  /** The camera centred on a point at the focus zoom. */
  function FocusOn(p: MapPoint): (v: MapViewState)
    ensures v.longitude == p.longitude && v.latitude == p.latitude
    ensures v.zoom == FocusZoom
  {
    MapViewState(p.longitude, p.latitude, FocusZoom)
  }

  /** A clicked map location. */
  datatype LatLng = LatLng(latitude: real, longitude: real)

  /** A map click: the modifier keys held and the geographic position. */
  datatype ClickEvent = ClickEvent(metaKey: bool, ctrlKey: bool, lng: real, lat: real)

  /** The `MapView` component's own state, bound to the provider it reads. */
  class MapView {
    const store: MapContext.MapProvider
    var popupInfo: Option<MapPoint>
    var clickedLocation: Option<LatLng>
    var currentMapStyle: string

    /** The current style is always one of the five. */
    ghost predicate Valid()
      reads this`currentMapStyle
    {
      currentMapStyle in StyleUrls
    }

    /** First render: no popup, no clicked location, the outdoors style. */
    constructor (store: MapContext.MapProvider)
      ensures this.store == store
      ensures popupInfo == None && clickedLocation == None
      ensures currentMapStyle == "mapbox://styles/mapbox/outdoors-v12"
      ensures Valid()
    {
      this.store := store;
      popupInfo := None;
      clickedLocation := None;
      currentMapStyle := DefaultStyle;
    }

    /** The selection effect: when a point is selected, the camera centres on it
        at the focus zoom and the popup shows it; with no selection neither
        changes. */
    method SelectionEffect()
      modifies this`popupInfo, store`viewState
      requires Valid()
      ensures Valid()
      ensures store.selectedPoint.Some? ==>
        store.viewState == MapViewState(store.selectedPoint.value.longitude, store.selectedPoint.value.latitude, 12.0)
        && popupInfo == store.selectedPoint
      ensures store.selectedPoint.None? ==>
        store.viewState == old(store.viewState) && popupInfo == old(popupInfo)
    {
      if store.selectedPoint.Some? {
        var p := store.selectedPoint.value;
        store.SetViewState(FocusOn(p));
        popupInfo := Some(p);
      }
    }

    /** Setting the provider's selection, after which the effect runs when the
        selection changed. */
    method Select(p: Option<MapPoint>)
      modifies store`selectedPoint, store`viewState, this`popupInfo
      requires Valid()
      ensures Valid()
      ensures store.selectedPoint == p
      ensures p.Some? && p != old(store.selectedPoint) ==>
        store.viewState == FocusOn(p.value) && popupInfo == p
      ensures !(p.Some? && p != old(store.selectedPoint)) ==>
        store.viewState == old(store.viewState) && popupInfo == old(popupInfo)
    {
      var before := store.selectedPoint;
      store.SetSelectedPoint(p);
      if p != before {
        SelectionEffect();
      }
    }

    /** `handleMapClick`: with Cmd or Ctrl held the clicked position is kept;
        otherwise nothing changes. */
    method HandleMapClick(ev: ClickEvent)
      modifies this`clickedLocation
      requires Valid()
      ensures Valid()
      ensures clickedLocation ==
        if ev.metaKey || ev.ctrlKey then Some(LatLng(ev.lat, ev.lng)) else old(clickedLocation)
    {
      if ev.metaKey || ev.ctrlKey {
        clickedLocation := Some(LatLng(ev.lat, ev.lng));
      }
    }

    /** A marker click opens the popup on that marker's point. */
    method MarkerClick(p: MapPoint)
      modifies this`popupInfo
      requires Valid()
      ensures Valid()
      ensures popupInfo == Some(p)
    {
      popupInfo := Some(p);
    }

    /** Closing the popup. */
    method ClosePopup()
      modifies this`popupInfo
      requires Valid()
      ensures Valid()
      ensures popupInfo == None
    {
      popupInfo := None;
    }

    /** `onMove`: the camera the map reports replaces the provider's. */
    method OnMove(v: MapViewState)
      modifies store`viewState
      requires Valid()
      ensures Valid()
      ensures store.viewState == v
    {
      store.SetViewState(v);
    }

    /** `changeMapStyle`, and the style selector, whose options are the same
        five URLs: the current style becomes the chosen entry of the table. */
    method ChangeMapStyle(n: StyleName)
      modifies this`currentMapStyle
      ensures currentMapStyle == StyleUrl(n)
      ensures Valid()
    {
      currentMapStyle := StyleUrl(n);
    }
  }
}
