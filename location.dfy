/**
 * `LocationCoordinates`: a latitude and a longitude, their revival from
 * JSON, their URL form and their JSON form. Numbers are reals, so NaN and
 * infinities are not modelled.
 */
module Locations {
  import opened Json

  datatype LocationCoordinates = LocationCoordinates(latitude: real, longitude: real)

  /** `coordinateOf(raw, key)`: the property must be a number; there is no
      default. */
  function CoordinateOf(raw: Json, key: string): (r: Revived<real>)
    requires raw.JObject?
    ensures r.Valid? <==> Get(raw, key).JNumber?
    ensures r.Valid? ==> r.value == Get(raw, key).n
    ensures r.Invalid? ==> r.error == NotANumber(key, Get(raw, key))
  {
    var rawComponent := Get(raw, key);
    if !rawComponent.JNumber? then Invalid(NotANumber(key, rawComponent))
    else Valid(rawComponent.n)
  }

  /** `LocationCoordinates.revive(raw)`: `latitude` is read first, then
      `longitude`. */
  function Revive(raw: Json): (r: Revived<LocationCoordinates>)
    ensures !raw.JObject? ==> r == Invalid(NotAnObject(raw))
    ensures r.Valid? <==> (raw.JObject? && Get(raw, "latitude").JNumber? && Get(raw, "longitude").JNumber?)
    ensures r.Valid? ==> r.value == LocationCoordinates(Get(raw, "latitude").n, Get(raw, "longitude").n)
  {
    if !raw.JObject? then Invalid(NotAnObject(raw))
    else
      var latitude := CoordinateOf(raw, "latitude");
      if latitude.Invalid? then Invalid(latitude.error) else
      var longitude := CoordinateOf(raw, "longitude");
      if longitude.Invalid? then Invalid(longitude.error) else
      Valid(LocationCoordinates(latitude.value, longitude.value))
  }

  /** A rejected object names `latitude` whenever that is not a number, even
      if `longitude` is not one either, and `longitude` otherwise. A missing
      field is rejected like any other non-number. */
  lemma ReviveReportsLatitudeFirst(raw: Json)
    requires raw.JObject? && Revive(raw).Invalid?
    ensures var lat := Get(raw, "latitude");
      Revive(raw).error ==
        if !lat.JNumber? then NotANumber("latitude", lat)
        else NotANumber("longitude", Get(raw, "longitude"))
  {
  }

  /** `urlPair`: the latitude, a comma, the longitude. */
  function UrlPair(l: LocationCoordinates): (text: seq<Piece>)
    ensures Numbers(text) == [l.latitude, l.longitude]
  {
    NumbersOfJoin([l.latitude, l.longitude], ",");
    Join([l.latitude, l.longitude], ",")
  }

  /** Written out with any number-to-string conversion, `urlPair` is the
      latitude text, a comma, then the longitude text. */
  lemma UrlPairRendering(l: LocationCoordinates, format: real -> string)
    ensures Render(UrlPair(l), format) == format(l.latitude) + "," + format(l.longitude)
  {
    RenderJoinTwo(l.latitude, l.longitude, ",", format);
  }

  /** `toJSON()`: an object with exactly the keys `latitude` and `longitude`. */
  function ToJson(l: LocationCoordinates): (raw: Json)
    ensures raw.JObject? && raw.fields.Keys == {"latitude", "longitude"}
    ensures Get(raw, "latitude") == JNumber(l.latitude) && Get(raw, "longitude") == JNumber(l.longitude)
  {
    JObject(map["latitude" := JNumber(l.latitude), "longitude" := JNumber(l.longitude)])
  }

  /** Reviving the JSON form gives the coordinates back. */
  lemma ReviveToJson(l: LocationCoordinates)
    ensures Revive(ToJson(l)) == Valid(l)
  {
  }

  /** What `revive` accepts, `toJSON` writes back on the two keys it read. */
  lemma ToJsonOfRevived(raw: Json)
    requires Revive(raw).Valid?
    ensures var back := ToJson(Revive(raw).value);
      Get(back, "latitude") == Get(raw, "latitude") && Get(back, "longitude") == Get(raw, "longitude")
  {
  }
}
