/** What scripts/build_jpg_stac.py does differently from build_stac.py when
    it builds an item: the bounding box is requested with the longitude in
    the latitude position and vice versa, which puts the box in STAC order
    but exchanges its spans. Both the call as written and a box in STAC
    order with the right spans are modelled. */
module BuildJpgStac {
  import opened Common
  import opened Catalog
  import BuildStac

  /** `build_stac_item` as written: the point is (lat, lng) but the box is
      `get_bounding_box(lng, lat)`. */
  function BuildItemAsWritten(md: BuildStac.Metadata, collectionId: string, cos: real -> real): (r: Result<Item>)
    ensures r.Ok? ==> md.altitude.Some? && r.value.altitude == md.altitude.value
    ensures r.Ok? ==> (r.value.geometry == CreateGeoJsonPoint(md.lat, md.lng)
      && Ok(r.value.bbox) == BoundingBox(cos, md.lng, md.lat)
      && Ok(r.value.id) == S3KeyToId(md.path))
  {
    var id :- S3KeyToId(md.path);
    var point := CreateGeoJsonPoint(md.lat, md.lng);
    var bbox :- BoundingBox(cos, md.lng, md.lat);
    if md.altitude.None? then Err(KeyError)
    else Ok(Item(id, collectionId, point, bbox, md.make, md.model, md.focalLength, md.exposureTime,
                 md.altitude.value, md.path))
  }

  /** The box as written is build_stac.py's box of the photo with its two
      coordinates exchanged. */
  lemma AsWrittenIsSwappedPhoto(md: BuildStac.Metadata, collectionId: string, cos: real -> real)
    requires BuildItemAsWritten(md, collectionId, cos).Ok?
    ensures var swapped := md.(lat := md.lng, lng := md.lat);
      BuildStac.BuildItem(swapped, collectionId, cos).Ok?
      && BuildStac.BuildItem(swapped, collectionId, cos).value.bbox == BuildItemAsWritten(md, collectionId, cos).value.bbox
  {
  }

  /** Read in STAC order the box as written is centred on the photo, but
      its spans are exchanged: the west-east span is 100 m of latitude, and
      the south-north span is scaled by the cosine of the longitude. */
  lemma AsWrittenSpansExchanged(md: BuildStac.Metadata, collectionId: string, cos: real -> real)
    requires BuildItemAsWritten(md, collectionId, cos).Ok?
    ensures var b := BuildItemAsWritten(md, collectionId, cos).value.bbox;
      && b[0] + b[2] == 2.0 * md.lng && b[1] + b[3] == 2.0 * md.lat
      && (b[2] - b[0]) * DegreeLatLength == 100.0
      && (b[3] - b[1]) * (PI * EarthRadiusM * cos(Radians(md.lng)) / 180.0) == 100.0
  {
  }

  /** At latitude 60 a degree of longitude is half a degree of latitude
      long, so the box `get_bounding_box(0, 60)` is half as wide as the STAC
      box of a photo at latitude 60, longitude 0. */
  lemma SpanAtSixty(cos: real -> real)
    requires cos(Radians(0.0)) == 1.0 && cos(Radians(60.0)) == 0.5
    ensures BoundingBox(cos, 0.0, 60.0).Ok? && StacBoundingBox(cos, 60.0, 0.0).Ok?
    ensures var w := BoundingBox(cos, 0.0, 60.0).value;
      var c := StacBoundingBox(cos, 60.0, 0.0).value;
      c[2] - c[0] == 2.0 * (w[2] - w[0])
  {
    var w := BoundingBox(cos, 0.0, 60.0).value;
    var c := StacBoundingBox(cos, 60.0, 0.0).value;
    var x, y := w[2] - w[0], c[2] - c[0];
    assert x * DegreeLatLength == 100.0;
    assert y * (DegreeLatLength * 0.5) == 100.0 by {
      assert PI * EarthRadiusM * cos(Radians(60.0)) / 180.0 == DegreeLatLength * 0.5;
    }
    assert (y - 2.0 * x) * DegreeLatLength == 0.0;
  }

  /** A concrete photo at latitude 60, longitude 0: the box as written is
      half as wide as 100 m of longitude needs there. */
  lemma AsWrittenSpanCounterexample(bucket: string, key: string, cos: real -> real)
    requires cos(Radians(0.0)) == 1.0 && cos(Radians(60.0)) == 0.5
    ensures var md := BuildStac.Metadata("s3://" + bucket + "/" + key, 60.0, 0.0, "", "", "", "", Some(10.0));
      var w := BuildItemAsWritten(md, "c", cos);
      var c := BuildItem(md, "c", cos);
      w.Ok? && c.Ok? && c.value.bbox[2] - c.value.bbox[0] == 2.0 * (w.value.bbox[2] - w.value.bbox[0])
  {
    var md := BuildStac.Metadata("s3://" + bucket + "/" + key, 60.0, 0.0, "", "", "", "", Some(10.0));
    S3PathIdNeverFails(bucket, key);
    SpanAtSixty(cos);
  }

  /** `build_stac_item` with the box in STAC order centred on (lat, lng):
      build_stac.py's item with its box reordered. */
  function BuildItem(md: BuildStac.Metadata, collectionId: string, cos: real -> real): (r: Result<Item>)
    ensures r.Ok? <==> BuildStac.BuildItem(md, collectionId, cos).Ok?
    ensures r.Err? ==> r == BuildStac.BuildItem(md, collectionId, cos)
    ensures r.Ok? ==> (r.value == BuildStac.BuildItem(md, collectionId, cos).value.(bbox := r.value.bbox)
      && Ok(r.value.bbox) == StacBoundingBox(cos, md.lat, md.lng))
    ensures r.Ok? && cos(Radians(md.lat)) > 0.0 ==>
      r.value.bbox[0] < r.value.geometry.coordinates[0] < r.value.bbox[2]
      && r.value.bbox[1] < r.value.geometry.coordinates[1] < r.value.bbox[3]
  {
    var item :- BuildStac.BuildItem(md, collectionId, cos);
    var b := item.bbox;
    Ok(item.(bbox := [b[1], b[0], b[3], b[2]]))
  }

  /** Any box enclosing corrected item boxes, as `merge_bboxes` computes
      it, contains every photo: longitude between west and east, latitude
      between south and north. */
  lemma MergedBoxContainsPhoto(outer: seq<real>, md: BuildStac.Metadata, collectionId: string, cos: real -> real)
    requires BuildItem(md, collectionId, cos).Ok? && cos(Radians(md.lat)) > 0.0
    requires |outer| == 4 && Encloses(outer, BuildItem(md, collectionId, cos).value.bbox)
    ensures outer[0] < md.lng < outer[2] && outer[1] < md.lat < outer[3]
  {
    assert BuildItem(md, collectionId, cos).value.geometry == CreateGeoJsonPoint(md.lat, md.lng);
  }
}
