/** Helpers the three STAC ingestion scripts define, each in its own copy
    (scripts/build_stac.py, scripts/build_jpg_stac.py, scripts/build_items.py):
    degree/minute/second conversion, GeoJSON points, the 100 m bounding box
    around a photo, item IDs derived from S3 keys, bounding-box merging, and
    the JPEG key filter. Where the copies agree they are modelled once here;
    the per-script modules hold what differs. */
module Catalog {
  import opened Common

  /** Earth radius in metres used for the bounding box. */
  const EarthRadiusM: real := 6378137.0

  /** Metres in one degree of latitude, `pi * R / 180`. */
  const DegreeLatLength: real := PI * EarthRadiusM / 180.0

  /** d + m/60 + s/3600, negated when the reference is "W" or "S"; every
      other reference, known or not, leaves it positive. */
  function SignedDegrees(d: real, m: real, s: real, direction: string): (r: real)
    ensures direction in {"W", "S"} ==> r == -(d + m / 60.0 + s / 3600.0)
    ensures direction !in {"W", "S"} ==> r == d + m / 60.0 + s / 3600.0
  {
    var decimalDegrees := d + m / 60.0 + s / 3600.0;
    if direction in ["W", "S"] then -decimalDegrees else decimalDegrees
  }

  /** `float(f.split('/')[0]) / float(f.split('/')[1])`, raising in Python's
      evaluation order. */
  function ParseFraction(fraction: string, parse: FloatParser): (r: Result<real>)
    ensures r.Ok? <==> (var p := Split(fraction, '/');
      |p| >= 2 && parse(p[0]).Some? && parse(p[1]).Some? && parse(p[1]).value != 0.0)
    ensures r.Ok? ==> (var p := Split(fraction, '/'); r.value * parse(p[1]).value == parse(p[0]).value)
    ensures r.Err? ==> (var p := Split(fraction, '/');
      r.error == (if parse(p[0]).None? then ValueError
                  else if |p| < 2 then IndexError
                  else if parse(p[1]).None? then ValueError
                  else ZeroDivisionError))
  {
    var pieces := Split(fraction, '/');
    var numerator := parse(pieces[0]);
    if numerator.None? then Err(ValueError)
    else if |pieces| < 2 then Err(IndexError)
    else
      var denominator := parse(pieces[1]);
      if denominator.None? then Err(ValueError)
      else if denominator.value == 0.0 then Err(ZeroDivisionError)
      else Ok(numerator.value / denominator.value)
  }

  /** Parse every fraction, stopping at the first that raises. */
  function ParseFractions(fractions: seq<string>, parse: FloatParser): (r: Result<seq<real>>)
    ensures r.Ok? <==> forall i :: 0 <= i < |fractions| ==> ParseFraction(fractions[i], parse).Ok?
    ensures r.Ok? ==> (|r.value| == |fractions|
      && forall i :: 0 <= i < |fractions| ==> r.value[i] == ParseFraction(fractions[i], parse).value)
  {
    if |fractions| == 0 then Ok([])
    else
      var first :- ParseFraction(fractions[0], parse);
      var rest :- ParseFractions(fractions[1..], parse);
      Ok([first] + rest)
  }

  /** `dms_to_decimal` of build_stac.py and build_items.py: three
      space-separated "n/d" fractions; any other count is a ValueError from
      the tuple unpacking, raised after every fraction has parsed. */
  function DmsStringToDecimal(dms: string, direction: string, parse: FloatParser): (r: Result<real>)
    ensures ParseFractions(Split(dms, ' '), parse).Err? ==> r == ParseFractions(Split(dms, ' '), parse).PropagateFailure()
    ensures ParseFractions(Split(dms, ' '), parse).Ok? && Count(dms, ' ') != 2 ==> r == Err(ValueError)
    ensures r.Ok? ==> (var v := ParseFractions(Split(dms, ' '), parse).value;
      |v| == 3 && r.value == SignedDegrees(v[0], v[1], v[2], direction))
  {
    var values :- ParseFractions(Split(dms, ' '), parse);
    if |values| != 3 then Err(ValueError)
    else Ok(SignedDegrees(values[0], values[1], values[2], direction))
  }

  /** Three well-formed fractions joined by single spaces convert to
      d + m/60 + s/3600 with the reference's sign. */
  lemma DmsStringOfFractions(d: string, m: string, s: string, direction: string, parse: FloatParser)
    requires ' ' !in d && ' ' !in m && ' ' !in s
    requires ParseFraction(d, parse).Ok? && ParseFraction(m, parse).Ok? && ParseFraction(s, parse).Ok?
    ensures DmsStringToDecimal(d + " " + m + " " + s, direction, parse)
         == Ok(SignedDegrees(ParseFraction(d, parse).value, ParseFraction(m, parse).value, ParseFraction(s, parse).value, direction))
  {
    SplitThree(d, m, s);
    ParseThree(d, m, s, parse);
  }

  lemma SplitThree(d: string, m: string, s: string)
    requires ' ' !in d && ' ' !in m && ' ' !in s
    ensures Split(d + " " + m + " " + s, ' ') == [d, m, s]
  {
    JoinThree(d, m, s);
    assert " " == [' '];
    SplitJoin([d, m, s], ' ');
  }

  lemma JoinThree(d: string, m: string, s: string)
    ensures Join([d, m, s], " ") == d + " " + m + " " + s
  {
    var parts := [d, m, s];
    assert parts[1..] == [m, s] && parts[1..][1..] == [s];
    assert Join([m, s], " ") == m + " " + s;
  }

  lemma ParseThree(d: string, m: string, s: string, parse: FloatParser)
    requires ParseFraction(d, parse).Ok? && ParseFraction(m, parse).Ok? && ParseFraction(s, parse).Ok?
    ensures ParseFractions([d, m, s], parse)
         == Ok([ParseFraction(d, parse).value, ParseFraction(m, parse).value, ParseFraction(s, parse).value])
  {
    var parts := [d, m, s];
    var v := ParseFractions(parts, parse);
    assert parts[0] == d && parts[1] == m && parts[2] == s;
    assert v.Ok?;
    assert v.value[0] == ParseFraction(d, parse).value;
    assert v.value[1] == ParseFraction(m, parse).value;
    assert v.value[2] == ParseFraction(s, parse).value;
    assert |v.value| == 3;
    assert v.value == [ParseFraction(d, parse).value, ParseFraction(m, parse).value, ParseFraction(s, parse).value];
  }

  /** `dms_to_decimal` of build_jpg_stac.py: a numeric [d, m, s] list,
      unpacked (any other length is a ValueError). */
  function DmsListToDecimal(dms: seq<real>, direction: string): (r: Result<real>)
    ensures r.Ok? <==> |dms| == 3
    ensures r.Err? ==> r.error == ValueError
    ensures r.Ok? ==> r.value == SignedDegrees(dms[0], dms[1], dms[2], direction)
  {
    if |dms| != 3 then Err(ValueError) else Ok(SignedDegrees(dms[0], dms[1], dms[2], direction))
  }

  /** The string and list forms agree once the fractions are parsed. */
  lemma DmsFormsAgree(d: string, m: string, s: string, direction: string, parse: FloatParser)
    requires ' ' !in d && ' ' !in m && ' ' !in s
    requires ParseFraction(d, parse).Ok? && ParseFraction(m, parse).Ok? && ParseFraction(s, parse).Ok?
    ensures DmsStringToDecimal(d + " " + m + " " + s, direction, parse)
         == DmsListToDecimal([ParseFraction(d, parse).value, ParseFraction(m, parse).value, ParseFraction(s, parse).value], direction)
  {
    DmsStringOfFractions(d, m, s, direction, parse);
  }

  /** A GeoJSON Point: `{"type": "Point", "coordinates": [...]}`. */
  datatype GeoJsonPoint = GeoJsonPoint(kind: string, coordinates: seq<real>)

  /** `create_geojson_point(lat, lon)`: longitude first, then latitude, the
      position order of section 3.1.1 of RFC 7946. */
  function CreateGeoJsonPoint(lat: real, lon: real): (p: GeoJsonPoint)
    ensures p.kind == "Point" && |p.coordinates| == 2
    ensures p.coordinates[0] == lon && p.coordinates[1] == lat
  {
    GeoJsonPoint("Point", [lon, lat])
  }

  /** `get_bounding_box(lat, lon)`: a box 100 m of latitude tall and 100 m
      of longitude wide centred on (lat, lon), ordered
      [min_lat, min_lon, max_lat, max_lon]. A zero cosine of the latitude is
      a float division by zero. */
  function BoundingBox(cos: real -> real, lat: real, lon: real): (r: Result<seq<real>>)
    ensures r.Err? <==> cos(Radians(lat)) == 0.0
    ensures r.Err? ==> r.error == ZeroDivisionError
    ensures r.Ok? ==> (|r.value| == 4
      && r.value[0] + r.value[2] == 2.0 * lat && r.value[1] + r.value[3] == 2.0 * lon
      && (r.value[2] - r.value[0]) * DegreeLatLength == 100.0
      && r.value[0] < r.value[2]
      && (r.value[3] - r.value[1]) * (PI * EarthRadiusM * cos(Radians(lat)) / 180.0) == 100.0
      && (r.value[1] < r.value[3] <==> cos(Radians(lat)) > 0.0))
  {
    var latLength := PI * EarthRadiusM / 180.0;
    var lonLength := PI * EarthRadiusM * cos(Radians(lat)) / 180.0;
    var latDiff := 100.0 / latLength;
    if lonLength == 0.0 then Err(ZeroDivisionError)
    else
      var lonDiff := 100.0 / lonLength;
      assert lonDiff > 0.0 <==> cos(Radians(lat)) > 0.0;
      Ok([lat - latDiff / 2.0, lon - lonDiff / 2.0, lat + latDiff / 2.0, lon + lonDiff / 2.0])
  }

  /** Where the cosine is positive the box contains its centre. */
  lemma BoundingBoxContainsCentre(cos: real -> real, lat: real, lon: real)
    requires cos(Radians(lat)) > 0.0
    ensures var r := BoundingBox(cos, lat, lon);
      r.Ok? && r.value[0] < lat < r.value[2] && r.value[1] < lon < r.value[3]
  {
  }

  /** Half the latitude span of any box is below 0.001 degree. */
  lemma HalfLatitudeSpanSmall(cos: real -> real, lat: real, lon: real)
    requires BoundingBox(cos, lat, lon).Ok?
    ensures var b := BoundingBox(cos, lat, lon).value;
      b[2] - b[0] < 0.002
  {
    var b := BoundingBox(cos, lat, lon).value;
    assert DegreeLatLength > 100000.0;
    assert (b[2] - b[0]) * DegreeLatLength == 100.0;
  }

  /** The same box in the [west, south, east, north] order that a STAC
      `bbox` and `merge_bboxes` use: 100 m of latitude tall and 100 m of
      longitude wide, centred on (lat, lon). */
  function StacBoundingBox(cos: real -> real, lat: real, lon: real): (r: Result<seq<real>>)
    ensures r.Err? <==> cos(Radians(lat)) == 0.0
    ensures r.Err? ==> r.error == ZeroDivisionError
    ensures r.Ok? ==> (|r.value| == 4
      && r.value[0] + r.value[2] == 2.0 * lon && r.value[1] + r.value[3] == 2.0 * lat
      && (r.value[3] - r.value[1]) * DegreeLatLength == 100.0
      && (r.value[2] - r.value[0]) * (PI * EarthRadiusM * cos(Radians(lat)) / 180.0) == 100.0)
  {
    var b :- BoundingBox(cos, lat, lon);
    Ok([b[1], b[0], b[3], b[2]])
  }

  /** Where the cosine is positive the STAC box contains its centre,
      longitude between west and east and latitude between south and
      north. */
  lemma StacBoundingBoxContainsCentre(cos: real -> real, lat: real, lon: real)
    requires cos(Radians(lat)) > 0.0
    ensures var r := StacBoundingBox(cos, lat, lon);
      r.Ok? && r.value[0] < lon < r.value[2] && r.value[1] < lat < r.value[3]
  {
    BoundingBoxContainsCentre(cos, lat, lon);
  }

  /** `s3uri_to_id`: the third-from-last '/' segment is the location, the
      last segment up to its first '.' the file name; "grandturk" items use
      the bare file name. Fewer than three segments is an IndexError. */
  function S3KeyToId(key: string): (r: Result<string>)
    ensures r.Err? <==> Count(key, '/') < 2
    ensures r.Err? ==> r.error == IndexError
    ensures r.Ok? ==> (var segments := Split(key, '/');
      var stem := Split(Last(segments), '.')[0];
      && '.' !in stem && EndsWith(r.value, stem)
      && (r.value == stem <==> segments[|segments| - 3] == "grandturk")
      && (segments[|segments| - 3] != "grandturk" ==> r.value == segments[|segments| - 3] + "_" + stem))
  {
    var split := Split(key, '/');
    if |split| < 3 then Err(IndexError)
    else
      var location := split[|split| - 3];
      var filename := Split(split[|split| - 1], '.')[0];
      if location == "grandturk" then Ok(filename) else Ok(location + "_" + filename)
  }

  /** An independent statement of the ID rule for a key laid out as
      `<prefix>/<location>/<dir>/<stem>.<ext>`. */
  lemma S3KeyToIdOfLayout(prefix: string, location: string, dir: string, stem: string, ext: string)
    requires '/' !in location && '/' !in dir && '/' !in stem && '/' !in ext && '.' !in stem
    ensures S3KeyToId(prefix + "/" + location + "/" + dir + "/" + stem + "." + ext)
         == Ok(if location == "grandturk" then stem else location + "_" + stem)
  {
    var name := stem + "." + ext;
    var key := prefix + "/" + location + "/" + dir + "/" + stem + "." + ext;
    assert key == prefix + ['/'] + (location + ['/'] + (dir + ['/'] + name));
    assert '/' !in name by {
      NotInConcat('/', stem, "." + ext);
    }
    SplitOfLayout(prefix, location, dir, name);
    LastThree(Split(prefix, '/'), location, dir, name);
    StemOfName(stem, ext);
  }

  lemma LastThree(p: seq<string>, a: string, b: string, c: string)
    ensures var q := p + [a, b, c];
      |q| >= 3 && q[|q| - 3] == a && q[|q| - 1] == c
  {
  }

  /** The text before the first '.' of `<stem>.<ext>` is the stem. */
  lemma StemOfName(stem: string, ext: string)
    requires '.' !in stem
    ensures Split(stem + "." + ext, '.')[0] == stem
  {
    assert stem + "." + ext == stem + ['.'] + ext;
    SplitAppend(stem, ext, '.');
  }

  lemma SplitOfLayout(prefix: string, location: string, dir: string, name: string)
    requires '/' !in location && '/' !in dir && '/' !in name
    ensures Split(prefix + ['/'] + (location + ['/'] + (dir + ['/'] + name)), '/')
         == Split(prefix, '/') + [location, dir, name]
  {
    SplitAppend(dir, name, '/');
    SplitAppend(location, dir + ['/'] + name, '/');
    SplitAppend(prefix, location + ['/'] + (dir + ['/'] + name), '/');
  }

  /** Item paths are `s3://<bucket>/<key>`, which always has enough '/'
      segments, so deriving the ID from a path never fails. */
  lemma S3PathIdNeverFails(bucket: string, key: string)
    ensures S3KeyToId("s3://" + bucket + "/" + key).Ok?
  {
    var path := "s3://" + bucket + "/" + key;
    assert path == "s3:" + ("//" + (bucket + ("/" + key)));
    CountAppend("s3:", "//" + (bucket + ("/" + key)), '/');
    CountAppend("//", bucket + ("/" + key), '/');
    CountAppend(bucket, "/" + key, '/');
    CountAppend("/", key, '/');
    assert Count("//", '/') == 2;
  }

  /** `outer` encloses `box` in the [min, min, max, max] layout. */
  predicate Encloses(outer: seq<real>, box: seq<real>)
    requires |outer| == 4 && |box| >= 4
  {
    outer[0] <= box[0] && outer[1] <= box[1] && box[2] <= outer[2] && box[3] <= outer[3]
  }

  /** `merge_bboxes`: component-wise min of indices 0 and 1, max of 2 and 3.
      No boxes is the ValueError of `min` on an empty sequence; a box with
      fewer than four entries is an IndexError. */
  method MergeBboxes(boxes: seq<seq<real>>) returns (r: Result<seq<real>>)
    ensures r == Err(ValueError) <==> |boxes| == 0
    ensures r == Err(IndexError) <==> |boxes| > 0 && exists k :: 0 <= k < |boxes| && |boxes[k]| < 4
    ensures r.Ok? <==> |boxes| > 0 && forall k :: 0 <= k < |boxes| ==> |boxes[k]| >= 4
    ensures r.Ok? ==> |r.value| == 4 && forall k :: 0 <= k < |boxes| ==> |boxes[k]| >= 4 && Encloses(r.value, boxes[k])
    ensures r.Ok? ==>
      && (exists k :: 0 <= k < |boxes| && boxes[k][0] == r.value[0])
      && (exists k :: 0 <= k < |boxes| && boxes[k][1] == r.value[1])
      && (exists k :: 0 <= k < |boxes| && boxes[k][2] == r.value[2])
      && (exists k :: 0 <= k < |boxes| && boxes[k][3] == r.value[3])
  {
    if |boxes| == 0 {
      return Err(ValueError);
    }
    var i := 0;
    while i < |boxes|
      invariant 0 <= i <= |boxes|
      invariant forall k :: 0 <= k < i ==> |boxes[k]| >= 4
    {
      if |boxes[i]| < 4 {
        return Err(IndexError);
      }
      i := i + 1;
    }
    var minLon, minLat, maxLon, maxLat := boxes[0][0], boxes[0][1], boxes[0][2], boxes[0][3];
    ghost var w0, w1, w2, w3 := 0, 0, 0, 0;
    var j := 1;
    while j < |boxes|
      invariant 1 <= j <= |boxes|
      invariant 0 <= w0 < j && boxes[w0][0] == minLon
      invariant 0 <= w1 < j && boxes[w1][1] == minLat
      invariant 0 <= w2 < j && boxes[w2][2] == maxLon
      invariant 0 <= w3 < j && boxes[w3][3] == maxLat
      invariant forall k :: 0 <= k < j ==>
        minLon <= boxes[k][0] && minLat <= boxes[k][1] && boxes[k][2] <= maxLon && boxes[k][3] <= maxLat
    {
      if boxes[j][0] < minLon { minLon, w0 := boxes[j][0], j; }
      if boxes[j][1] < minLat { minLat, w1 := boxes[j][1], j; }
      if boxes[j][2] > maxLon { maxLon, w2 := boxes[j][2], j; }
      if boxes[j][3] > maxLat { maxLat, w3 := boxes[j][3], j; }
      j := j + 1;
    }
    r := Ok([minLon, minLat, maxLon, maxLat]);
  }

  /** The key filter of build_stac.py and build_jpg_stac.py: the lower-cased
      key ends in ".jpg" or ".jpeg". */
  predicate IsJpegKey(key: string) {
    EndsWith(Lower(key), ".jpg") || EndsWith(Lower(key), ".jpeg")
  }

  function SelectJpegKeys(keys: seq<string>): (r: seq<string>)
    ensures forall i :: 0 <= i < |r| ==> r[i] in keys && IsJpegKey(r[i])
    ensures forall i :: 0 <= i < |keys| && IsJpegKey(keys[i]) ==> keys[i] in r
  {
    Filter(keys, IsJpegKey)
  }

  /** The filter ignores case: a key and its lower-cased form are kept or
      dropped together. */
  lemma IsJpegKeyIgnoresCase(key: string)
    ensures IsJpegKey(key) == IsJpegKey(Lower(key))
  {
    assert Lower(Lower(key)) == Lower(key);
  }

  /** Upper-case extensions and ".jpeg" are kept whatever the key's stem. */
  lemma JpegExtensionsKept(stem: string)
    ensures IsJpegKey(stem + ".JPG") && IsJpegKey(stem + ".jpeg") && IsJpegKey(stem + ".JPEG")
  {
    assert IsJpegKey(stem + ".JPG") by {
      LowerSuffix(stem, ".JPG", ".jpg");
    }
    assert IsJpegKey(stem + ".jpeg") by {
      LowerSuffix(stem, ".jpeg", ".jpeg");
    }
    assert IsJpegKey(stem + ".JPEG") by {
      LowerSuffix(stem, ".JPEG", ".jpeg");
    }
  }

  lemma LowerSuffix(stem: string, ext: string, lowered: string)
    requires |ext| == |lowered| && forall i :: 0 <= i < |ext| ==> LowerChar(ext[i]) == lowered[i]
    ensures EndsWith(Lower(stem + ext), lowered)
  {
    var l := Lower(stem + ext);
    assert l[|l| - |lowered|..] == lowered by {
      forall i | 0 <= i < |lowered|
        ensures l[|l| - |lowered| + i] == lowered[i]
      {
        assert (stem + ext)[|stem| + i] == ext[i];
      }
    }
  }

  /** The STAC item the scripts build, keeping the fields this model
      follows: ID, collection, point geometry, bbox, the camera properties
      and the single raw-image asset. */
  datatype Item = Item(
    id: string, collection: string, geometry: GeoJsonPoint, bbox: seq<real>,
    make: string, model: string, focalLength: string, exposureTime: string,
    altitude: real, assetHref: string)
}
