/** The add-point form (src/components/AddMapPointForm.tsx): the form record,
    per-field edits, the amenities parser, the draft sent on submit and the
    submit flow's success and failure handling. */
module PointForm {
  import opened Types
  import opened JsStrings
  import MapContext

  /** The values the type selector offers. */
  const TypeOptions: seq<string> := ["campsite", "rv_park", "cabin", "glamping", "hiking_trail", "viewpoint"]

  /** The message shown when the thrown value is not an Error. */
  const FallbackError: string := "Failed to add map point"

  /** The form's state record. */
  datatype FormData = FormData(
    name: string,
    description: string,
    pointType: string,
    amenities: string,
    rating: real,
    latitude: FieldValue,
    longitude: FieldValue)

  /** The `name` attributes of the form's inputs. */
  datatype FieldName = NameField | DescriptionField | TypeField | AmenitiesField
                     | RatingField | LatitudeField | LongitudeField

  /** The value a field currently holds. */
  function FieldOf(f: FormData, g: FieldName): FieldValue {
    match g
    case NameField => Text(f.name)
    case DescriptionField => Text(f.description)
    case TypeField => Text(f.pointType)
    case AmenitiesField => Text(f.amenities)
    case RatingField => Num(f.rating)
    case LatitudeField => f.latitude
    case LongitudeField => f.longitude
  }

  /** Two form records holding the same value in every field are equal, so
      `FieldOf` describes a record completely. */
  lemma FormDataExtensional(a: FormData, b: FormData)
    requires forall g :: FieldOf(a, g) == FieldOf(b, g)
    ensures a == b
  {
    assert FieldOf(a, NameField) == FieldOf(b, NameField);
    assert FieldOf(a, DescriptionField) == FieldOf(b, DescriptionField);
    assert FieldOf(a, TypeField) == FieldOf(b, TypeField);
    assert FieldOf(a, AmenitiesField) == FieldOf(b, AmenitiesField);
    assert FieldOf(a, RatingField) == FieldOf(b, RatingField);
    assert FieldOf(a, LatitudeField) == FieldOf(b, LatitudeField);
    assert FieldOf(a, LongitudeField) == FieldOf(b, LongitudeField);
  }

  /** The form record when the form mounts: empty texts, type `campsite`,
      rating 0 and the camera's centre as coordinates. */
  function InitialForm(v: MapViewState): (f: FormData)
    ensures f.name == "" && f.description == "" && f.amenities == ""
    ensures f.pointType == "campsite" && f.pointType == TypeOptions[0]
    ensures f.rating == 0.0
    ensures f.latitude == Num(v.latitude) && f.longitude == Num(v.longitude)
  {
    FormData("", "", "campsite", "", 0.0, Num(v.latitude), Num(v.longitude))
  }

  /** The record after an input named `field` reports `value`: that field alone
      changes; `rating` receives the numeric conversion of the text and every
      other field, latitude and longitude included, the raw text. */
  function UpdateField(f: FormData, field: FieldName, value: string, toNumber: string -> real): (r: FormData)
    ensures FieldOf(r, field) == if field == RatingField then Num(toNumber(value)) else Text(value)
    ensures forall g :: g != field ==> FieldOf(r, g) == FieldOf(f, g)
  {
    match field
    case NameField => f.(name := value)
    case DescriptionField => f.(description := value)
    case TypeField => f.(pointType := value)
    case AmenitiesField => f.(amenities := value)
    case RatingField => f.(rating := toNumber(value))
    case LatitudeField => f.(latitude := Text(value))
    case LongitudeField => f.(longitude := Text(value))
  }

  /** Reporting the value a field already holds as text leaves the record as it is. */
  lemma UpdateFieldSameText(f: FormData, field: FieldName, value: string, toNumber: string -> real)
    requires field != RatingField && FieldOf(f, field) == Text(value)
    ensures UpdateField(f, field, value, toNumber) == f
  {
    FormDataExtensional(UpdateField(f, field, value, toNumber), f);
  }

  /** The amenities text as a list: empty text gives no amenities, otherwise the
      comma-separated pieces, each trimmed. */
  function ParseAmenities(s: string): (r: seq<string>)
    ensures r == [] <==> s == ""
    ensures s != "" ==> |r| == Occurrences(s, ',') + 1
  {
    if s == "" then []
    else
      var pieces := Split(s, ',');
      SplitCount(s, ',');
      seq(|pieces|, i requires 0 <= i < |pieces| => JsTrim(pieces[i]))
  }

  /** Empty text gives the empty list. Otherwise there is one entry per
      comma-separated segment (commas plus one), in the segments' order (the
      segments reassemble the text), each the trim of its segment, an empty
      segment giving an empty entry, and no entry holds a comma. */
  lemma ParseAmenitiesSpec(s: string)
    ensures s == "" ==> ParseAmenities(s) == []
    ensures s != "" ==> var r, segments := ParseAmenities(s), Split(s, ',');
      && |r| == |segments| == Occurrences(s, ',') + 1
      && Join(segments, ',') == s
      && (forall i :: 0 <= i < |r| ==> r[i] == JsTrim(segments[i]))
      && (forall i :: 0 <= i < |r| ==> ',' !in r[i])
  {
    if s != "" {
      var r, segments := ParseAmenities(s), Split(s, ',');
      SplitCount(s, ',');
      SplitJoin(s, ',');
      SplitPiecesFree(s, ',');
      forall i | 0 <= i < |r| ensures ',' !in r[i] {
        TrimKeepsAbsent(segments[i], IsJsWhitespace, ',');
      }
    }
  }

  /** The point submitted for the current record: name, description, type,
      rating and coordinates copied as they are, amenities parsed. */
  function Draft(f: FormData): (d: MapPointDraft)
    ensures d.name == f.name && d.description == f.description && d.pointType == f.pointType
    ensures d.rating == f.rating && d.latitude == f.latitude && d.longitude == f.longitude
    ensures d.amenities == ParseAmenities(f.amenities)
  {
    MapPointDraft(f.name, f.description, f.pointType, ParseAmenities(f.amenities),
                  f.rating, f.latitude, f.longitude)
  }

  /** The message the form shows for a failed submit: an Error's own message,
      or the fixed fallback for anything else. */
  function SubmitErrorText(t: Thrown): (m: string)
    ensures t.OtherValue? ==> m == FallbackError
    ensures t.ErrorInstance? ==> m == t.message
  {
    match t
    case ErrorInstance(msg) => msg
    case OtherValue(_) => FallbackError
  }

  /** The form component's state, bound to the provider it submits to. */
  class AddMapPointForm {
    const store: MapContext.MapProvider
    var formData: FormData
    var isSubmitting: bool
    var error: Option<string>

    /** Mounting the form: the initial record taken from the provider's camera,
        not submitting, no error. */
    constructor (store: MapContext.MapProvider)
      ensures this.store == store
      ensures formData == InitialForm(store.viewState)
      ensures !isSubmitting && error == None
    {
      this.store := store;
      formData := InitialForm(store.viewState);
      isSubmitting := false;
      error := None;
    }

    /** `handleChange`: the input named `field` reported `value`. */
    method HandleChange(field: FieldName, value: string, toNumber: string -> real)
      modifies this`formData
      ensures formData == UpdateField(old(formData), field, value, toNumber)
    {
      formData := UpdateField(formData, field, value, toNumber);
    }

    /** `handleSubmit`, given what the store answers to the create request.
        The draft of the current record is sent through the provider; `closed`
        tells whether `onClose` was called, which happens exactly on success.
        A failure leaves the provider's list as it was and shows the error
        text; the error is clear after a success; submitting is off at the end. */
    method HandleSubmit(created: Outcome<MapPoint>) returns (closed: bool)
      modifies this`isSubmitting, this`error, store`mapPoints, store`requests
      ensures closed <==> created.Ok?
      ensures !isSubmitting
      ensures error == if created.Ok? then None else Some(SubmitErrorText(created.thrown))
      ensures formData == old(formData)
      ensures store.requests == old(store.requests) + [CreatePoint(Draft(formData))]
      ensures store.mapPoints == if created.Ok? then [created.value] + old(store.mapPoints) else old(store.mapPoints)
    {
      isSubmitting := true;
      error := None;
      var r := store.AddMapPoint(Draft(formData), created);
      closed := false;
      match r {
        case Ok(_) => closed := true;
        case Err(t) => error := Some(SubmitErrorText(t));
      }
      isSubmitting := false;
    }
  }
}
