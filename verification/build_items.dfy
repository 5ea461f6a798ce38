/** What scripts/build_items.py does differently from build_stac.py: only
    keys ending in exactly ".jpg" are kept, and the GPSAltitude tag is
    required, read before anything else. */
module BuildItems {
  import opened Common
  import opened Catalog
  import BuildStac

  /** The case-sensitive key filter. */
  predicate IsJpgKey(key: string) {
    EndsWith(key, ".jpg")
  }

  function SelectJpgKeys(keys: seq<string>): (r: seq<string>)
    ensures forall i :: 0 <= i < |r| ==> r[i] in keys && IsJpgKey(r[i])
    ensures forall i :: 0 <= i < |keys| && IsJpgKey(keys[i]) ==> keys[i] in r
  {
    Filter(keys, IsJpgKey)
  }

  /** The filter is stricter than build_stac.py's: everything it keeps the
      case-insensitive filter keeps too, but upper-case and ".jpeg" keys are
      dropped. */
  lemma StricterThanJpegFilter(key: string, stem: string)
    ensures IsJpgKey(key) ==> IsJpegKey(key)
    ensures IsJpegKey(stem + ".JPG") && !IsJpgKey(stem + ".JPG")
    ensures IsJpegKey(stem + ".jpeg") && !IsJpgKey(stem + ".jpeg")
  {
    JpgKeptByJpegFilter(key);
    JpegExtensionsKept(stem);
    UpperAndLongDropped(stem);
  }

  lemma JpgKeptByJpegFilter(key: string)
    ensures IsJpgKey(key) ==> IsJpegKey(key)
  {
    if IsJpgKey(key) {
      LowerSuffix(key[..|key| - 4], ".jpg", ".jpg");
      assert key[..|key| - 4] + ".jpg" == key;
    }
  }

  /** Proof step of StricterThanJpegFilter: neither variant ends in ".jpg". */
  lemma UpperAndLongDropped(stem: string)
    ensures !IsJpgKey(stem + ".JPG") && !IsJpgKey(stem + ".jpeg")
  {
    assert !IsJpgKey(stem + ".JPG") by {
      assert (stem + ".JPG")[|stem| + 1] == 'J';
      SuffixMismatch(stem + ".JPG", ".jpg", 1);
    }
    assert !IsJpgKey(stem + ".jpeg") by {
      assert (stem + ".jpeg")[|stem| + 1] == 'j';
      SuffixMismatch(stem + ".jpeg", ".jpg", 0);
    }
  }

  /** One differing character in the last |suffix| places rules the suffix
      out. */
  lemma SuffixMismatch(s: string, suffix: string, i: nat)
    requires |suffix| <= |s| && i < |suffix| && s[|s| - |suffix| + i] != suffix[i]
    ensures !EndsWith(s, suffix)
  {
    assert s[|s| - |suffix|..][i] == s[|s| - |suffix| + i];
  }

  /** One photo's record: the altitude fraction first (a missing tag is a
      KeyError before anything else is read), then the coordinates and the
      camera fields in the order build_stac.py reads them. */
  function ReadMetadata(path: string, exif: BuildStac.Exif, parse: FloatParser): (r: Result<BuildStac.Metadata>)
    ensures BuildStac.AltitudeTag !in exif ==> r == Err(KeyError)
    ensures BuildStac.AltitudeTag in exif && ParseFraction(exif[BuildStac.AltitudeTag], parse).Err? ==>
      r == ParseFraction(exif[BuildStac.AltitudeTag], parse).PropagateFailure()
    ensures r.Ok? <==> (BuildStac.AltitudeTag in exif && ParseFraction(exif[BuildStac.AltitudeTag], parse).Ok?
      && BuildStac.ReadPosition(exif, parse).Ok? && BuildStac.ReadCamera(exif).Ok?)
    ensures r.Ok? ==> (r.value.altitude.Some? && r.value.path == path
      && Ok(r.value.altitude.value) == ParseFraction(exif[BuildStac.AltitudeTag], parse)
      && BuildStac.ReadPosition(exif, parse) == Ok((r.value.lat, r.value.lng))
      && BuildStac.ReadCamera(exif) == Ok((r.value.make, r.value.model, r.value.focalLength, r.value.exposureTime)))
  {
    var rawAltitude :- BuildStac.Get(exif, BuildStac.AltitudeTag);
    var altitude :- ParseFraction(rawAltitude, parse);
    var position :- BuildStac.ReadPosition(exif, parse);
    var camera :- BuildStac.ReadCamera(exif);
    Ok(BuildStac.Metadata(path, position.0, position.1, camera.0, camera.1, camera.2, camera.3, Some(altitude)))
  }

  /** On success the record is the one build_stac.py reads from the same
      tags, and it succeeds exactly when build_stac.py's reader succeeds with
      the altitude present. */
  lemma AgreesWithBuildStac(path: string, exif: BuildStac.Exif, parse: FloatParser)
    ensures ReadMetadata(path, exif, parse).Ok?
        <==> BuildStac.ReadMetadata(path, exif, parse).Ok? && BuildStac.AltitudeTag in exif
    ensures ReadMetadata(path, exif, parse).Ok? ==>
      ReadMetadata(path, exif, parse) == BuildStac.ReadMetadata(path, exif, parse)
  {
  }

  /** A record this reader produces always has the altitude that building
      the item reads, so for an S3 path with a nonzero cosine the item is
      always built. */
  lemma RecordBuildsItem(bucket: string, key: string, exif: BuildStac.Exif, parse: FloatParser,
                          md: BuildStac.Metadata, collectionId: string, cos: real -> real)
    requires ReadMetadata("s3://" + bucket + "/" + key, exif, parse) == Ok(md)
    requires cos(Radians(md.lat)) != 0.0
    ensures BuildStac.BuildItem(md, collectionId, cos).Ok?
  {
    BuildStac.MissingAltitudeIsKeyError(md, bucket, key, collectionId, cos);
  }
}
