/** What scripts/build_stac.py does beyond the shared catalogue helpers:
    the per-photo metadata record, in which the altitude is optional, and the
    STAC item built from it, which reads the altitude unconditionally. */
module BuildStac {
  import opened Common
  import opened Catalog

  /** The EXIF block pyexiv2 returns: tag name to text. */
  type Exif = map<string, string>

  /** The processed metadata of one photo. */
  datatype Metadata = Metadata(
    path: string, lat: real, lng: real,
    make: string, model: string, focalLength: string, exposureTime: string,
    altitude: Option<real>)

  /** `d[key]`, a KeyError when the key is missing. */
  function Get(exif: Exif, key: string): (r: Result<string>)
    ensures r.Ok? <==> key in exif
    ensures r.Ok? ==> r.value == exif[key]
    ensures r.Err? ==> r.error == KeyError
  {
    if key in exif then Ok(exif[key]) else Err(KeyError)
  }

  /** The tags the record reads unconditionally, in the order they are read. */
  const RequiredTags: seq<string> := [
    "Exif.GPSInfo.GPSLatitude", "Exif.GPSInfo.GPSLatitudeRef",
    "Exif.GPSInfo.GPSLongitude", "Exif.GPSInfo.GPSLongitudeRef",
    "Exif.Image.DateTime", "Exif.Image.Make", "Exif.Image.Model",
    "Exif.Photo.FocalLengthIn35mmFilm", "Exif.Photo.ExposureTime"]

  const AltitudeTag: string := "Exif.GPSInfo.GPSAltitude"

  /** The two coordinates, each read as a degree/minute/second string and
      its hemisphere reference, latitude first. */
  function ReadPosition(exif: Exif, parse: FloatParser): (r: Result<(real, real)>)
    ensures r.Ok? <==> ((forall i :: 0 <= i < 4 ==> RequiredTags[i] in exif)
      && DmsStringToDecimal(exif[RequiredTags[0]], exif[RequiredTags[1]], parse).Ok?
      && DmsStringToDecimal(exif[RequiredTags[2]], exif[RequiredTags[3]], parse).Ok?)
    // the failures in the order the source meets them
    ensures RequiredTags[0] !in exif || RequiredTags[1] !in exif ==> r == Err(KeyError)
    ensures (RequiredTags[0] in exif && RequiredTags[1] in exif
      && DmsStringToDecimal(exif[RequiredTags[0]], exif[RequiredTags[1]], parse).Err?) ==>
      r == Err(DmsStringToDecimal(exif[RequiredTags[0]], exif[RequiredTags[1]], parse).error)
    ensures (RequiredTags[0] in exif && RequiredTags[1] in exif
      && DmsStringToDecimal(exif[RequiredTags[0]], exif[RequiredTags[1]], parse).Ok?
      && (RequiredTags[2] !in exif || RequiredTags[3] !in exif)) ==> r == Err(KeyError)
    ensures (r.Err? && (forall i :: 0 <= i < 4 ==> RequiredTags[i] in exif)
      && DmsStringToDecimal(exif[RequiredTags[0]], exif[RequiredTags[1]], parse).Ok?) ==>
      r == Err(DmsStringToDecimal(exif[RequiredTags[2]], exif[RequiredTags[3]], parse).error)
    ensures r.Ok? ==> (Ok(r.value.0) == DmsStringToDecimal(exif[RequiredTags[0]], exif[RequiredTags[1]], parse)
      && Ok(r.value.1) == DmsStringToDecimal(exif[RequiredTags[2]], exif[RequiredTags[3]], parse))
  {
    var latText :- Get(exif, RequiredTags[0]);
    var latRef :- Get(exif, RequiredTags[1]);
    var lat :- DmsStringToDecimal(latText, latRef, parse);
    var lngText :- Get(exif, RequiredTags[2]);
    var lngRef :- Get(exif, RequiredTags[3]);
    var lng :- DmsStringToDecimal(lngText, lngRef, parse);
    Ok((lat, lng))
  }

  /** The date (presence only) and the four camera fields, copied as text. */
  function ReadCamera(exif: Exif): (r: Result<(string, string, string, string)>)
    ensures r.Ok? <==> (forall i :: 4 <= i < 9 ==> RequiredTags[i] in exif)
    ensures r.Err? ==> r.error == KeyError
    ensures r.Ok? ==> r.value == (exif[RequiredTags[5]], exif[RequiredTags[6]], exif[RequiredTags[7]], exif[RequiredTags[8]])
  {
    var _ :- Get(exif, RequiredTags[4]);
    var make :- Get(exif, RequiredTags[5]);
    var model :- Get(exif, RequiredTags[6]);
    var focalLength :- Get(exif, RequiredTags[7]);
    var exposureTime :- Get(exif, RequiredTags[8]);
    Ok((make, model, focalLength, exposureTime))
  }

  /** One photo's record: the coordinates converted from degrees, minutes
      and seconds, the camera fields copied, and "altitude" added only when
      the GPSAltitude tag is present. The date text is checked for presence;
      its parsing is not modelled. */
  function ReadMetadata(path: string, exif: Exif, parse: FloatParser): (r: Result<Metadata>)
    ensures r.Ok? <==> ((forall i :: 0 <= i < |RequiredTags| ==> RequiredTags[i] in exif)
      && DmsStringToDecimal(exif[RequiredTags[0]], exif[RequiredTags[1]], parse).Ok?
      && DmsStringToDecimal(exif[RequiredTags[2]], exif[RequiredTags[3]], parse).Ok?
      && (AltitudeTag in exif ==> ParseFraction(exif[AltitudeTag], parse).Ok?))
    // the position is read first, then the camera tags, then the altitude
    ensures ReadPosition(exif, parse).Err? ==> r == Err(ReadPosition(exif, parse).error)
    ensures ReadPosition(exif, parse).Ok? && ReadCamera(exif).Err? ==> r == Err(KeyError)
    ensures (ReadPosition(exif, parse).Ok? && ReadCamera(exif).Ok? && AltitudeTag in exif
      && ParseFraction(exif[AltitudeTag], parse).Err?) ==> r == Err(ParseFraction(exif[AltitudeTag], parse).error)
    ensures r.Ok? ==> (r.value.altitude.Some? <==> AltitudeTag in exif)
    ensures r.Ok? && AltitudeTag in exif ==> Ok(r.value.altitude.value) == ParseFraction(exif[AltitudeTag], parse)
    ensures r.Ok? ==> (r.value.path == path && ReadPosition(exif, parse) == Ok((r.value.lat, r.value.lng)))
    ensures r.Ok? ==> (r.value.make == exif[RequiredTags[5]] && r.value.model == exif[RequiredTags[6]]
      && r.value.focalLength == exif[RequiredTags[7]] && r.value.exposureTime == exif[RequiredTags[8]])
  {
    var position :- ReadPosition(exif, parse);
    var camera :- ReadCamera(exif);
    if AltitudeTag in exif then
      var altitude :- ParseFraction(exif[AltitudeTag], parse);
      Ok(Metadata(path, position.0, position.1, camera.0, camera.1, camera.2, camera.3, Some(altitude)))
    else
      Ok(Metadata(path, position.0, position.1, camera.0, camera.1, camera.2, camera.3, None))
  }

  /** `build_stac_item`: ID from the path, point and bbox centred on
      (lat, lng), and the properties, which read "altitude" even when the
      record has none. */
  function BuildItem(md: Metadata, collectionId: string, cos: real -> real): (r: Result<Item>)
    ensures r.Ok? ==> md.altitude.Some? && r.value.altitude == md.altitude.value
    ensures r.Ok? ==> (r.value.geometry == CreateGeoJsonPoint(md.lat, md.lng)
      && Ok(r.value.bbox) == BoundingBox(cos, md.lat, md.lng)
      && Ok(r.value.id) == S3KeyToId(md.path)
      && r.value.collection == collectionId && r.value.assetHref == md.path)
    ensures r.Ok? ==> (r.value.make == md.make && r.value.model == md.model
      && r.value.focalLength == md.focalLength && r.value.exposureTime == md.exposureTime)
  {
    var id :- S3KeyToId(md.path);
    var point := CreateGeoJsonPoint(md.lat, md.lng);
    var bbox :- BoundingBox(cos, md.lat, md.lng);
    if md.altitude.None? then Err(KeyError)
    else Ok(Item(id, collectionId, point, bbox, md.make, md.model, md.focalLength, md.exposureTime,
                 md.altitude.value, md.path))
  }

  /** The item's box keeps `get_bounding_box`'s [min_lat, min_lon, max_lat,
      max_lon] order. Read as a STAC [west, south, east, north] box, as
      `merge_bboxes` reads it, its west-east range lies within 0.001 degree
      of the latitude, so a photo whose coordinates differ by more than that
      has its longitude outside the box. */
  lemma LatFirstBoxMissesPhoto(md: Metadata, collectionId: string, cos: real -> real)
    requires BuildItem(md, collectionId, cos).Ok?
    requires md.lat - md.lng > 0.001 || md.lng - md.lat > 0.001
    ensures var b := BuildItem(md, collectionId, cos).value.bbox;
      !(b[0] <= md.lng <= b[2])
  {
    HalfLatitudeSpanSmall(cos, md.lat, md.lng);
  }

  /** A concrete photo at latitude 51.5, longitude -0.1, whose box read in
      STAC order misses its longitude. */
  lemma LatFirstCounterexample(bucket: string, key: string, cos: real -> real)
    requires cos(Radians(51.5)) != 0.0
    ensures var md := Metadata("s3://" + bucket + "/" + key, 51.5, -0.1, "", "", "", "", Some(10.0));
      var r := BuildItem(md, "c", cos);
      r.Ok? && !(r.value.bbox[0] <= -0.1 <= r.value.bbox[2])
  {
    var md := Metadata("s3://" + bucket + "/" + key, 51.5, -0.1, "", "", "", "", Some(10.0));
    S3PathIdNeverFails(bucket, key);
    LatFirstBoxMissesPhoto(md, "c", cos);
  }

  /** For a photo at an S3 path whose latitude has a nonzero cosine, a
      missing altitude is exactly what makes building the item fail, and it
      fails with a KeyError. */
  lemma MissingAltitudeIsKeyError(md: Metadata, bucket: string, key: string, collectionId: string, cos: real -> real)
    requires md.path == "s3://" + bucket + "/" + key
    requires cos(Radians(md.lat)) != 0.0
    ensures BuildItem(md, collectionId, cos).Err? <==> md.altitude.None?
    ensures md.altitude.None? ==> BuildItem(md, collectionId, cos) == Err(KeyError)
  {
    S3PathIdNeverFails(bucket, key);
  }
}
