/** The pure part of `cogify` in place/imagery/place/imagery/cogify.py: the
    signed-degree conversion of EXIF GPS coordinates (named
    `degrees_to_radians` although it returns degrees), the corrected
    altitude, the Sony ILCE-6000 footprint WITHOUT a portrait/landscape swap,
    the 0-based ground control points, and the GOOD_EXIF tag filter.
    The corner values come from a sibling `rotation` module that is not part
    of this model, so the GCP builder takes them as inputs. */
module ImageryCogify {
  import opened Common
  import opened GroundSample
  import Rotation

  /** Sony ILCE-6000 sensor and lens, in cm. */
  const SensorWidthCm: real := 23.5 * 0.1
  const SensorHeightCm: real := 15.6 * 0.1
  const FocalLengthCm: real := 16.0 * 0.1

  /** Metres per degree of latitude used by this call site. */
  const MetresPerDegreeLat: real := 111.3171 * 1000.0

  /** Subtracted from the EXIF GPS altitude. */
  const AltitudeCorrection: real := 0.12

  /** The only tags written to the output raster. */
  const GoodExif: set<string> := {"DateTime", "Model", "Software"}

  /** `degrees_to_radians`: degrees + (minutes + seconds/60)/60, signed by
      the hemisphere letter. */
  function DegreesToRadians(nesw: string, degrees: real, minutes: real, seconds: real): (r: Result<real>)
    ensures r.Ok? <==> nesw in {"N", "E", "S", "W"}
    ensures r.Err? ==> r.error == ValueError
    ensures nesw == "N" || nesw == "E" ==> r == Ok(degrees + minutes / 60.0 + seconds / 3600.0)
    ensures nesw == "S" || nesw == "W" ==> r == Ok(-(degrees + minutes / 60.0 + seconds / 3600.0))
  {
    var value := degrees + (minutes + seconds / 60.0) / 60.0;
    if nesw in ["N", "E"] then Ok(value)
    else if nesw in ["S", "W"] then Ok(-value)
    else Err(ValueError)
  }

  /** Opposite hemispheres give values of equal magnitude and opposite sign. */
  lemma HemispheresMirror(degrees: real, minutes: real, seconds: real)
    ensures DegreesToRadians("S", degrees, minutes, seconds).value == -DegreesToRadians("N", degrees, minutes, seconds).value
    ensures DegreesToRadians("W", degrees, minutes, seconds).value == -DegreesToRadians("E", degrees, minutes, seconds).value
    ensures DegreesToRadians("N", degrees, minutes, seconds) == DegreesToRadians("E", degrees, minutes, seconds)
  {
  }

  /** The entries of the EXIF `GPSInfo` block the code reads: keys 1-4
      (reference letters and degree/minute/second triples) and key 6
      (altitude). */
  datatype GpsInfo = GpsInfo(
    latitudeRef: string, latitude: (real, real, real),
    longitudeRef: string, longitude: (real, real, real),
    altitude: real)

  datatype Position = Position(latitude: real, longitude: real, altitude: real)

  /** Latitude, longitude and corrected altitude from the GPS block; a bad
      hemisphere letter is a ValueError, latitude checked first. */
  function CameraPosition(gps: GpsInfo): (r: Result<Position>)
    ensures r.Ok? <==> (DegreesToRadians(gps.latitudeRef, gps.latitude.0, gps.latitude.1, gps.latitude.2).Ok?
                        && DegreesToRadians(gps.longitudeRef, gps.longitude.0, gps.longitude.1, gps.longitude.2).Ok?)
    ensures r.Err? ==> r.error == ValueError
    ensures r.Ok? ==>
      Ok(r.value.latitude) == DegreesToRadians(gps.latitudeRef, gps.latitude.0, gps.latitude.1, gps.latitude.2)
      && Ok(r.value.longitude) == DegreesToRadians(gps.longitudeRef, gps.longitude.0, gps.longitude.1, gps.longitude.2)
    ensures r.Ok? ==> r.value.altitude + AltitudeCorrection == gps.altitude
  {
    var latitude :- DegreesToRadians(gps.latitudeRef, gps.latitude.0, gps.latitude.1, gps.latitude.2);
    var longitude :- DegreesToRadians(gps.longitudeRef, gps.longitude.0, gps.longitude.1, gps.longitude.2);
    Ok(Position(latitude, longitude, gps.altitude - AltitudeCorrection))
  }

  /** Metres per degree of longitude. This call site takes the cosine of the
      LATITUDE. */
  function MetresPerDegreeLngAt(cos: real -> real, latitude: real): real {
    MetresPerDegreeLng(cos(Radians(latitude)))
  }

  /** The footprint: sensor width always on x and height always on y. */
  function ComputeFootprint(cos: real -> real, latitude: real, altitude: real, width: nat, height: nat): (r: Result<Footprint>)
    ensures r.Err? <==> width == 0 || height == 0 || MetresPerDegreeLngAt(cos, latitude) == 0.0
    ensures r.Err? ==> r.error == ZeroDivisionError
    ensures r.Ok? ==>
      r.value.xRes == Resolution(altitude * 100.0, SensorWidthCm, FocalLengthCm, width)
      && r.value.yRes == Resolution(altitude * 100.0, SensorHeightCm, FocalLengthCm, height)
    ensures r.Ok? ==>
      r.value.latOffset * MetresPerDegreeLat == r.value.mY
      && r.value.lngOffset * MetresPerDegreeLngAt(cos, latitude) == r.value.mX
  {
    var msPerLng := MetresPerDegreeLngAt(cos, latitude);
    var altitudeCm := altitude * 100.0;
    if width == 0 || height == 0 then Err(ZeroDivisionError)
    else
      var xRes := Resolution(altitudeCm, SensorWidthCm, FocalLengthCm, width);
      var yRes := Resolution(altitudeCm, SensorHeightCm, FocalLengthCm, height);
      var mY := HalfExtentMetres(height, yRes);
      var mX := HalfExtentMetres(width, xRes);
      if msPerLng == 0.0 then Err(ZeroDivisionError)
      else Ok(Footprint(xRes, yRes, mX, mY, mY / MetresPerDegreeLat, mX / msPerLng))
  }

  /** Exchanging width and height does not exchange the resolutions: a
      portrait image keeps the sensor width on its x axis. */
  lemma NoOrientationSwap(cos: real -> real, latitude: real, altitude: real, width: nat, height: nat)
    requires ComputeFootprint(cos, latitude, altitude, width, height).Ok?
    ensures var a := ComputeFootprint(cos, latitude, altitude, width, height).value;
      var b := ComputeFootprint(cos, latitude, altitude, height, width).value;
      a.mX == b.mX && a.mY == b.mY
      && a.mX == altitude * SensorWidthCm / (2.0 * FocalLengthCm)
      && a.mY == altitude * SensorHeightCm / (2.0 * FocalLengthCm)
  {
    HalfExtentIndependentOfPixels(altitude, SensorWidthCm, FocalLengthCm, width);
    HalfExtentIndependentOfPixels(altitude, SensorHeightCm, FocalLengthCm, height);
    HalfExtentIndependentOfPixels(altitude, SensorWidthCm, FocalLengthCm, height);
    HalfExtentIndependentOfPixels(altitude, SensorHeightCm, FocalLengthCm, width);
  }

  /** Positive altitude and metres per degree give strictly positive degree
      offsets. */
  lemma OffsetsPositive(cos: real -> real, latitude: real, altitude: real, width: nat, height: nat)
    requires altitude > 0.0 && width > 0 && height > 0 && MetresPerDegreeLngAt(cos, latitude) > 0.0
    ensures var r := ComputeFootprint(cos, latitude, altitude, width, height);
      r.Ok? && r.value.latOffset > 0.0 && r.value.lngOffset > 0.0
  {
    var f := ComputeFootprint(cos, latitude, altitude, width, height).value;
    ResolutionPositive(altitude * 100.0, SensorWidthCm, FocalLengthCm, width);
    ResolutionPositive(altitude * 100.0, SensorHeightCm, FocalLengthCm, height);
    HalfExtentPositive(width, f.xRes);
    HalfExtentPositive(height, f.yRes);
  }

  /** What `cogify` hands to the rotation step: the camera centre and the
      degree offsets of the footprint. */
  datatype Placement = Placement(position: Position, footprint: Footprint)

  function Place(gps: GpsInfo, cos: real -> real, width: nat, height: nat): (r: Result<Placement>)
    ensures CameraPosition(gps).Err? ==> r == Err(ValueError)
    ensures CameraPosition(gps).Ok? ==>
      var p := CameraPosition(gps).value;
      (r.Ok? <==> ComputeFootprint(cos, p.latitude, p.altitude, width, height).Ok?)
      && (r.Err? ==> r == Err(ZeroDivisionError))
    ensures r.Ok? ==> (r.value.position == CameraPosition(gps).value
      && r.value.position.altitude == gps.altitude - AltitudeCorrection
      && Ok(r.value.footprint) == ComputeFootprint(cos, r.value.position.latitude, r.value.position.altitude, width, height))
  {
    var position :- CameraPosition(gps);
    var footprint :- ComputeFootprint(cos, position.latitude, position.altitude, width, height);
    Ok(Placement(position, footprint))
  }

  /** The GCPs passed to `from_gcps`, in the order tl, bl, tr, br, with
      0-based pixel corners. Each corner value is indexed [0] latitude,
      [1] longitude, [2] elevation. */
  function CornerGcps(tl: Rotation.Vec3, bl: Rotation.Vec3, tr: Rotation.Vec3, br: Rotation.Vec3, width: nat, height: nat): (g: seq<Gcp>)
    ensures |g| == 4
    ensures g[0].row == 0.0 && g[0].col == 0.0
    ensures g[1].row == height as real && g[1].col == 0.0
    ensures g[2].row == 0.0 && g[2].col == width as real
    ensures g[3].row == height as real && g[3].col == width as real
    ensures forall i :: 0 <= i < 4 ==> g[i].z.Some?
    ensures g[0].x == tl.y && g[0].y == tl.x && g[0].z == Some(tl.z)
    ensures g[1].x == bl.y && g[1].y == bl.x && g[1].z == Some(bl.z)
    ensures g[2].x == tr.y && g[2].y == tr.x && g[2].z == Some(tr.z)
    ensures g[3].x == br.y && g[3].y == br.x && g[3].z == Some(br.z)
  {
    [ Gcp(0.0, 0.0, tl.y, tl.x, Some(tl.z)),
      Gcp(height as real, 0.0, bl.y, bl.x, Some(bl.z)),
      Gcp(0.0, width as real, tr.y, tr.x, Some(tr.z)),
      Gcp(height as real, width as real, br.y, br.x, Some(br.z)) ]
  }

  /** Only DateTime, Model and Software are written, with their values. */
  function OutputTags<V>(tags: map<string, V>): (r: map<string, V>)
    ensures r.Keys == tags.Keys * GoodExif
    ensures forall k :: k in r ==> r[k] == tags[k]
  {
    map k | k in tags && k in GoodExif :: tags[k]
  }
}
