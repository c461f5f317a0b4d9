/** The records of the map application (src/types/index.ts) and the shapes in which
    the remote point and settings stores answer. */
module Types {

  datatype Option<T> = None | Some(value: T)

  /** What a failed remote call throws: an `Error` instance, known by its message,
      or any other value (a plain error object from the store, say), known by its
      `String(...)` form. */
  datatype Thrown = ErrorInstance(message: string) | OtherValue(shown: string)

  /** The outcome of one remote round trip: the store's answer or what it threw. */
  datatype Outcome<T> = Ok(value: T) | Err(thrown: Thrown)

  /** A located point of interest. Optional members of the record are `Option`s. */
  datatype MapPoint = MapPoint(
    id: string,
    name: string,
    description: Option<string>,
    latitude: real,
    longitude: real,
    pointType: string,
    amenities: Option<seq<string>>,
    rating: Option<real>,
    createdAt: string,
    updatedAt: Option<string>)

  /** A user's stored map preferences. */
  datatype UserSettings = UserSettings(
    id: string,
    userId: string,
    defaultLatitude: real,
    defaultLongitude: real,
    defaultZoom: real,
    mapStyle: string,
    createdAt: string,
    updatedAt: Option<string>)

  /** The map camera: centre and zoom. */
  datatype MapViewState = MapViewState(longitude: real, latitude: real, zoom: real)

  /** A value held by the add-point form: a number, or the raw text an input
      delivered (the form stores latitude and longitude edits unconverted). */
  datatype FieldValue = Num(n: real) | Text(s: string)

  /** A point as submitted for creation: a MapPoint without `id` and `created_at`,
      with its coordinates as the form holds them. */
  datatype MapPointDraft = MapPointDraft(
    name: string,
    description: string,
    pointType: string,
    amenities: seq<string>,
    rating: real,
    latitude: FieldValue,
    longitude: FieldValue)

  /** A partial update of a point: each present member replaces the stored one. */
  datatype PointPatch = PointPatch(
    name: Option<string>,
    description: Option<string>,
    latitude: Option<real>,
    longitude: Option<real>,
    pointType: Option<string>,
    amenities: Option<seq<string>>,
    rating: Option<real>)

  /** A request sent to a remote store, in the order the application issues them. */
  datatype Request =
    | GetSettings(userId: string)
    | ListPoints
    | CreatePoint(draft: MapPointDraft)
    | UpdatePoint(id: string, patch: PointPatch)
    | DeletePoint(id: string)
}
