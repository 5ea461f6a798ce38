/** The pure part of `cogify` in place/place-image/cogify.py: which EXIF tags
    are copied, the footprint of a Sony ILCE-7M2 image with the
    portrait/landscape swap, and the 1-based ground control points built from
    the rotated NW/SW/SE/NE corners. Decoding the raw image and writing the
    COG are left to the caller. */
module PlaceImageCogify {
  import opened Common
  import opened GroundSample
  import opened Rotation

  /** Sony ILCE-7M2 sensor and lens, in cm. */
  const SensorWidthCm: real := 35.8 * 0.1
  const SensorHeightCm: real := 23.9 * 0.1
  const FocalLengthCm: real := 24.0 * 0.1

  /** Metres per degree of latitude used by this call site. */
  const MetresPerDegreeLat: real := 111.0 * 1000.0

  /** EXIF tags never copied into the output raster. */
  const ExcludedTags: set<string> := {"JPEGThumbnail", "TIFFThumbnail", "Filename", "EXIF MakerNote"}

  /** The tags copied into the output: every EXIF tag except the excluded
      ones, with its value unchanged. */
  function CopiedTags<V>(tags: map<string, V>): (r: map<string, V>)
    ensures r.Keys == tags.Keys - ExcludedTags
    ensures forall k :: k in r ==> r[k] == tags[k]
  {
    map k | k in tags && k !in ExcludedTags :: tags[k]
  }

  /** Metres per degree of longitude, scaled by the cosine of `angle`.
      place-image/cogify.py passes the LONGITUDE here, although the length
      of a degree of longitude depends on the latitude. */
  function MetresPerDegreeLngAt(cos: real -> real, angle: real): real {
    MetresPerDegreeLng(cos(Radians(angle)))
  }

  /** The footprint of a `width` x `height` image taken at `altitude`
      metres, with the longitude scale taken at `scaleAngle`. A zero width,
      height or metres-per-degree-longitude is a float division by zero. */
  function ComputeFootprint(cos: real -> real, scaleAngle: real, altitude: real, width: nat, height: nat): (r: Result<Footprint>)
    ensures r.Err? <==> width == 0 || height == 0 || MetresPerDegreeLngAt(cos, scaleAngle) == 0.0
    ensures r.Err? ==> r.error == ZeroDivisionError
    ensures r.Ok? && width > height ==>
      r.value.xRes == Resolution(altitude * 100.0, SensorWidthCm, FocalLengthCm, width)
      && r.value.yRes == Resolution(altitude * 100.0, SensorHeightCm, FocalLengthCm, height)
    ensures r.Ok? && width <= height ==>
      r.value.xRes == Resolution(altitude * 100.0, SensorHeightCm, FocalLengthCm, width)
      && r.value.yRes == Resolution(altitude * 100.0, SensorWidthCm, FocalLengthCm, height)
    ensures r.Ok? ==>
      r.value.latOffset * MetresPerDegreeLat == r.value.mY
      && r.value.lngOffset * MetresPerDegreeLngAt(cos, scaleAngle) == r.value.mX
  {
    var msPerLng := MetresPerDegreeLngAt(cos, scaleAngle);
    var altitudeCm := altitude * 100.0;
    if width == 0 || height == 0 then Err(ZeroDivisionError)
    else
      var xRes := if width > height then Resolution(altitudeCm, SensorWidthCm, FocalLengthCm, width)
                  else Resolution(altitudeCm, SensorHeightCm, FocalLengthCm, width);
      var yRes := if width > height then Resolution(altitudeCm, SensorHeightCm, FocalLengthCm, height)
                  else Resolution(altitudeCm, SensorWidthCm, FocalLengthCm, height);
      var mY := HalfExtentMetres(height, yRes);
      var mX := HalfExtentMetres(width, xRes);
      if msPerLng == 0.0 then Err(ZeroDivisionError)
      else Ok(Footprint(xRes, yRes, mX, mY, mY / MetresPerDegreeLat, mX / msPerLng))
  }

  /** A w x h landscape image and an h x w portrait image give the same
      resolutions with x and y exchanged. */
  lemma OrientationSwap(cos: real -> real, scaleAngle: real, altitude: real, width: nat, height: nat)
    requires width != height
    ensures var a := ComputeFootprint(cos, scaleAngle, altitude, width, height);
      var b := ComputeFootprint(cos, scaleAngle, altitude, height, width);
      a.Ok? == b.Ok? && (a.Ok? ==> a.value.xRes == b.value.yRes && a.value.yRes == b.value.xRes)
  {
  }

  /** The metre half-extents depend only on altitude, the sensor dimension
      assigned to the axis, and the focal length. */
  lemma HalfExtents(cos: real -> real, scaleAngle: real, altitude: real, width: nat, height: nat)
    requires ComputeFootprint(cos, scaleAngle, altitude, width, height).Ok?
    ensures var f := ComputeFootprint(cos, scaleAngle, altitude, width, height).value;
      && f.mX == altitude * (if width > height then SensorWidthCm else SensorHeightCm) / (2.0 * FocalLengthCm)
      && f.mY == altitude * (if width > height then SensorHeightCm else SensorWidthCm) / (2.0 * FocalLengthCm)
  {
    var f := ComputeFootprint(cos, scaleAngle, altitude, width, height).value;
    if width > height {
      HalfExtentIndependentOfPixels(altitude, SensorWidthCm, FocalLengthCm, width);
      HalfExtentIndependentOfPixels(altitude, SensorHeightCm, FocalLengthCm, height);
    } else {
      HalfExtentIndependentOfPixels(altitude, SensorHeightCm, FocalLengthCm, width);
      HalfExtentIndependentOfPixels(altitude, SensorWidthCm, FocalLengthCm, height);
    }
  }

  /** Positive altitude and metres per degree give strictly positive degree
      offsets. */
  lemma OffsetsPositive(cos: real -> real, scaleAngle: real, altitude: real, width: nat, height: nat)
    requires altitude > 0.0 && width > 0 && height > 0 && MetresPerDegreeLngAt(cos, scaleAngle) > 0.0
    ensures var r := ComputeFootprint(cos, scaleAngle, altitude, width, height);
      r.Ok? && r.value.latOffset > 0.0 && r.value.lngOffset > 0.0
  {
    var f := ComputeFootprint(cos, scaleAngle, altitude, width, height).value;
    var altitudeCm := altitude * 100.0;
    ResolutionPositive(altitudeCm, SensorWidthCm, FocalLengthCm, width);
    ResolutionPositive(altitudeCm, SensorHeightCm, FocalLengthCm, width);
    ResolutionPositive(altitudeCm, SensorWidthCm, FocalLengthCm, height);
    ResolutionPositive(altitudeCm, SensorHeightCm, FocalLengthCm, height);
    HalfExtentPositive(width, f.xRes);
    HalfExtentPositive(height, f.yRes);
  }

  /** The four GCPs passed to `from_gcps`, in the order tl, bl, br, tr, with
      1-based pixel corners; x is the longitude and y the latitude of the
      rotated corner. */
  function CornerGcps(rotated: Rotated, width: nat, height: nat): (g: seq<Gcp>)
    requires WellFormed(rotated)
    ensures |g| == 4
    ensures g[0] == Gcp(1.0, 1.0, rotated.nw[1], rotated.nw[0], None)
    ensures g[1] == Gcp(height as real, 1.0, rotated.sw[1], rotated.sw[0], None)
    ensures g[2] == Gcp(height as real, width as real, rotated.se[1], rotated.se[0], None)
    ensures g[3] == Gcp(1.0, width as real, rotated.ne[1], rotated.ne[0], None)
  {
    var tl := Gcp(1.0, 1.0, rotated.nw[1], rotated.nw[0], None);
    var bl := Gcp(height as real, 1.0, rotated.sw[1], rotated.sw[0], None);
    var br := Gcp(height as real, width as real, rotated.se[1], rotated.se[0], None);
    var tr := Gcp(1.0, width as real, rotated.ne[1], rotated.ne[0], None);
    [tl, bl, br, tr]
  }

  /** Footprint with the longitude scale taken at `scaleAngle`, rotation
      about the image centre, and the GCP list. */
  function GeoreferenceAt(cos: real -> real, scaleAngle: real, latitude: real, longitude: real, altitude: real,
                          m: Mat3, width: nat, height: nat): (r: Result<seq<Gcp>>)
    ensures r.Err? <==> ComputeFootprint(cos, scaleAngle, altitude, width, height).Err?
    ensures r.Err? ==> r == Err(ZeroDivisionError)
    ensures r.Ok? ==> |r.value| == 4
  {
    var f :- ComputeFootprint(cos, scaleAngle, altitude, width, height);
    var rotated := Rotate(latitude, longitude, f.latOffset, f.lngOffset, m, false);
    Ok(CornerGcps(rotated, width, height))
  }

  /** The georeference as place-image/cogify.py writes it: the longitude
      scale is the cosine of the longitude. */
  function GeoreferenceAsWritten(cos: real -> real, latitude: real, longitude: real, altitude: real,
                                 m: Mat3, width: nat, height: nat): (r: Result<seq<Gcp>>)
    ensures r.Err? <==> ComputeFootprint(cos, longitude, altitude, width, height).Err?
    ensures r.Ok? ==> |r.value| == 4
  {
    GeoreferenceAt(cos, longitude, latitude, longitude, altitude, m, width, height)
  }

  /** The georeference with the longitude scale taken at the latitude, the
      length of a degree of longitude there. */
  function Georeference(cos: real -> real, latitude: real, longitude: real, altitude: real,
                        m: Mat3, width: nat, height: nat): (r: Result<seq<Gcp>>)
    ensures r.Err? <==> ComputeFootprint(cos, latitude, altitude, width, height).Err?
    ensures r.Ok? ==> |r.value| == 4
  {
    GeoreferenceAt(cos, latitude, latitude, longitude, altitude, m, width, height)
  }

  /** For every matrix: each GCP sits at its 1-based pixel corner, its
      (y, x) is the camera's (latitude, longitude) plus the first two rows of
      `m` applied to that corner's (+-lat_offset, +-lng_offset, 0), and the
      GCPs tl/br and bl/tr are point-symmetric about the camera. */
  lemma GeoreferenceCorners(cos: real -> real, scaleAngle: real, latitude: real, longitude: real, altitude: real,
                            m: Mat3, width: nat, height: nat, f: Footprint)
    requires ComputeFootprint(cos, scaleAngle, altitude, width, height) == Ok(f)
    ensures var r := GeoreferenceAt(cos, scaleAngle, latitude, longitude, altitude, m, width, height);
      var a := f.latOffset;
      var b := f.lngOffset;
      && r.Ok? && |r.value| == 4
      && r.value[0].row == 1.0 && r.value[0].col == 1.0
      && r.value[1].row == height as real && r.value[1].col == 1.0
      && r.value[2].row == height as real && r.value[2].col == width as real
      && r.value[3].row == 1.0 && r.value[3].col == width as real
      && r.value[0].y == latitude + m.r0.x * a - m.r0.y * b && r.value[0].x == longitude + m.r1.x * a - m.r1.y * b
      && r.value[1].y == latitude - m.r0.x * a - m.r0.y * b && r.value[1].x == longitude - m.r1.x * a - m.r1.y * b
      && r.value[2].y == latitude - m.r0.x * a + m.r0.y * b && r.value[2].x == longitude - m.r1.x * a + m.r1.y * b
      && r.value[3].y == latitude + m.r0.x * a + m.r0.y * b && r.value[3].x == longitude + m.r1.x * a + m.r1.y * b
      && r.value[0].y + r.value[2].y == 2.0 * latitude && r.value[0].x + r.value[2].x == 2.0 * longitude
      && r.value[1].y + r.value[3].y == 2.0 * latitude && r.value[1].x + r.value[3].x == 2.0 * longitude
  {
    RotatedGcps(latitude, longitude, f.latOffset, f.lngOffset, m, width, height);
  }

  /** The GCPs of a rotated footprint with offsets `a` and `b`. */
  lemma RotatedGcps(latitude: real, longitude: real, a: real, b: real, m: Mat3, width: nat, height: nat)
    ensures var g := CornerGcps(Rotate(latitude, longitude, a, b, m, false), width, height);
      && g[0].row == 1.0 && g[0].col == 1.0
      && g[1].row == height as real && g[1].col == 1.0
      && g[2].row == height as real && g[2].col == width as real
      && g[3].row == 1.0 && g[3].col == width as real
      && g[0].y == latitude + m.r0.x * a - m.r0.y * b && g[0].x == longitude + m.r1.x * a - m.r1.y * b
      && g[1].y == latitude - m.r0.x * a - m.r0.y * b && g[1].x == longitude - m.r1.x * a - m.r1.y * b
      && g[2].y == latitude - m.r0.x * a + m.r0.y * b && g[2].x == longitude - m.r1.x * a + m.r1.y * b
      && g[3].y == latitude + m.r0.x * a + m.r0.y * b && g[3].x == longitude + m.r1.x * a + m.r1.y * b
      && g[0].y + g[2].y == 2.0 * latitude && g[0].x + g[2].x == 2.0 * longitude
      && g[1].y + g[3].y == 2.0 * latitude && g[1].x + g[3].x == 2.0 * longitude
  {
    RotateCorners(latitude, longitude, a, b, m, false);
    RotateSymmetric(latitude, longitude, a, b, m, false);
  }

  /** Without rotation and with a valid camera, the GCPs frame the image the
      right way up: the top row lies north of the bottom row, the left
      column west of the right column, and opposite corners are symmetric
      about the camera position. */
  lemma IdentityGeoreference(cos: real -> real, latitude: real, longitude: real, altitude: real, width: nat, height: nat)
    requires altitude > 0.0 && width > 0 && height > 0 && MetresPerDegreeLngAt(cos, latitude) > 0.0
    ensures var r := Georeference(cos, latitude, longitude, altitude, Identity, width, height);
      && r.Ok?
      && r.value[0].y > r.value[1].y && r.value[3].y > r.value[2].y
      && r.value[0].x < r.value[3].x && r.value[1].x < r.value[2].x
      && r.value[0].x + r.value[2].x == 2.0 * longitude && r.value[0].y + r.value[2].y == 2.0 * latitude
      && r.value[1].x + r.value[3].x == 2.0 * longitude && r.value[1].y + r.value[3].y == 2.0 * latitude
  {
    OffsetsPositive(cos, latitude, altitude, width, height);
    var f := ComputeFootprint(cos, latitude, altitude, width, height).value;
    RotateIdentity(latitude, longitude, f.latOffset, f.lngOffset, false);
  }

  /** The corrected georeference commutes with moving the camera east or
      west: shifting the longitude shifts every GCP's x by the same amount
      and changes nothing else. */
  lemma GeoreferenceShiftsWithLongitude(cos: real -> real, latitude: real, longitude: real, shift: real,
                                        altitude: real, m: Mat3, width: nat, height: nat)
    requires Georeference(cos, latitude, longitude, altitude, m, width, height).Ok?
    ensures var g := Georeference(cos, latitude, longitude, altitude, m, width, height);
      var h := Georeference(cos, latitude, longitude + shift, altitude, m, width, height);
      && h.Ok?
      && (forall i :: 0 <= i < 4 ==>
            h.value[i].x == g.value[i].x + shift && h.value[i].y == g.value[i].y
            && h.value[i].row == g.value[i].row && h.value[i].col == g.value[i].col)
  {
    var f := ComputeFootprint(cos, latitude, altitude, width, height).value;
    GeoreferenceCorners(cos, latitude, latitude, longitude, altitude, m, width, height, f);
    GeoreferenceCorners(cos, latitude, latitude, longitude + shift, altitude, m, width, height, f);
  }

  /** As written, the same photo on the equator is georeferenced twice as
      wide in longitude at 60 degrees east as at 0 degrees, although the
      ground it covers is the same: the scale follows the longitude. */
  lemma AsWrittenScaleFollowsLongitude(cos: real -> real, altitude: real, width: nat, height: nat)
    requires cos(Radians(0.0)) == 1.0 && cos(Radians(60.0)) == 0.5
    requires width > 0 && height > 0
    ensures var a := ComputeFootprint(cos, 0.0, altitude, width, height);
      var b := ComputeFootprint(cos, 60.0, altitude, width, height);
      a.Ok? && b.Ok? && b.value.lngOffset == 2.0 * a.value.lngOffset && b.value.mX == a.value.mX
  {
    var a := ComputeFootprint(cos, 0.0, altitude, width, height).value;
    var b := ComputeFootprint(cos, 60.0, altitude, width, height).value;
    assert MetresPerDegreeLngAt(cos, 60.0) == 0.5 * MetresPerDegreeLngAt(cos, 0.0);
    assert b.lngOffset * (0.5 * MetresPerDegreeLngAt(cos, 0.0)) == a.lngOffset * MetresPerDegreeLngAt(cos, 0.0);
  }
}
