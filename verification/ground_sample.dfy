/** Ground-sampling-distance arithmetic shared by the two `cogify` bodies
    (place/place-image/cogify.py and place/imagery/place/imagery/cogify.py):
    per-axis resolution, half-image extent in metres, metres per degree of
    longitude, and the records the footprint and the ground control points
    are returned in. */
module GroundSample {
  import opened Common

  /** Earth radius in kilometres, as both call sites approximate it. */
  const EarthRadiusKm: real := 6378.0

  /** The per-axis outcome of the footprint computation. */
  datatype Footprint = Footprint(
    xRes: real, yRes: real,          // cm per pixel
    mX: real, mY: real,              // half-image extent in metres
    latOffset: real, lngOffset: real // half-image extent in degrees
  )

  /** A rasterio `GroundControlPoint(row, col, x, y, z)`. */
  datatype Gcp = Gcp(row: real, col: real, x: real, y: real, z: Option<real>)

  /** GSD in cm per pixel: (altitude x sensor dimension) / (focal length x
      pixel count). */
  function Resolution(altitudeCm: real, sensorCm: real, focalCm: real, pixels: nat): real
    requires focalCm != 0.0 && pixels > 0
  {
    (altitudeCm * sensorCm) / (focalCm * pixels as real)
  }

  /** Half the image extent along one axis, converted from cm to metres. */
  function HalfExtentMetres(pixels: nat, resolution: real): real {
    ((pixels as real / 2.0) * resolution) / 100.0
  }

  /** `((pi/180) * earth_radius * cos(angle)) * 1000`, given the cosine. */
  function MetresPerDegreeLng(cosine: real): real {
    ((PI / 180.0) * EarthRadiusKm * cosine) * 1000.0
  }

  /** The metre half-extent does not depend on the pixel count: it is
      altitude x sensor dimension / (2 x focal length). */
  lemma HalfExtentIndependentOfPixels(altitude: real, sensorCm: real, focalCm: real, pixels: nat)
    requires focalCm != 0.0 && pixels > 0
    ensures HalfExtentMetres(pixels, Resolution(altitude * 100.0, sensorCm, focalCm, pixels))
         == altitude * sensorCm / (2.0 * focalCm)
  {
    var n := pixels as real;
    var q := Resolution(altitude * 100.0, sensorCm, focalCm, pixels);
    assert q * (focalCm * n) == altitude * 100.0 * sensorCm;
    assert (n * q) * focalCm == altitude * 100.0 * sensorCm;
    assert n * q == altitude * 100.0 * sensorCm / focalCm;
    assert ((n / 2.0) * q) / 100.0 == (n * q) / 200.0;
  }

  /** Positive altitude, sensor and focal length give a positive resolution. */
  lemma ResolutionPositive(altitudeCm: real, sensorCm: real, focalCm: real, pixels: nat)
    requires altitudeCm > 0.0 && sensorCm > 0.0 && focalCm > 0.0 && pixels > 0
    ensures Resolution(altitudeCm, sensorCm, focalCm, pixels) > 0.0
  {
    assert altitudeCm * sensorCm > 0.0;
    assert focalCm * pixels as real > 0.0;
  }

  /** A positive resolution gives a positive half-extent. */
  lemma HalfExtentPositive(pixels: nat, resolution: real)
    requires pixels > 0 && resolution > 0.0
    ensures HalfExtentMetres(pixels, resolution) > 0.0
  {
    assert (pixels as real / 2.0) * resolution > 0.0;
  }
}
