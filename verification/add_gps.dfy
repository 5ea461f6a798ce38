/** The label builders of scripts/add_gps.py: one CSV or tab-separated row
    becomes the file to tag and its GPS position. Finding and reading the
    files and writing the tags are left out. Python's `float()` on a cell is
    the parameter `parse`: None where it raises ValueError. */
module AddGps {
  import opened Common

  predicate Even(n: int) {
    n % 2 == 0
  }

  /** Python's `round(x)` with no digits: the nearest integer, ties to the
      even one. */
  function RoundHalfEven(x: real): (n: int)
    ensures -0.5 <= x - n as real <= 0.5
    ensures (x - n as real == 0.5 || n as real - x == 0.5) ==> Even(n)
  {
    var f := x.Floor;
    var d := x - f as real;
    if d < 0.5 then f
    else if d > 0.5 then f + 1
    else if Even(f) then f
    else f + 1
  }

  /** The rounding is determined by its contract: an integer nearer than
      one half is the result, and at a tie the even neighbour is. */
  lemma RoundHalfEvenUnique(x: real, m: int)
    requires -0.5 <= x - m as real <= 0.5
    requires (x - m as real == 0.5 || m as real - x == 0.5) ==> Even(m)
    ensures RoundHalfEven(x) == m
  {
    var n := RoundHalfEven(x);
    assert -1 <= n - m <= 1;
    assert n - m == 1 || n - m == -1 ==> Even(n) != Even(m);
  }

  /** Whole numbers round to themselves; halves go to the even side. */
  lemma RoundHalfEvenExamples(k: int)
    ensures RoundHalfEven(k as real) == k
    ensures RoundHalfEven(2.5) == 2 && RoundHalfEven(3.5) == 4 && RoundHalfEven(-0.5) == 0
  {
    RoundHalfEvenUnique(k as real, k);
    RoundHalfEvenUnique(2.5, 2);
    RoundHalfEvenUnique(3.5, 4);
    RoundHalfEvenUnique(-0.5, 0);
  }

  /** The label dict: file path, latitude, longitude, integer altitude. */
  datatype Label = Label(inputFile: string, latitude: real, longitude: real, altitude: int)

  /** `item[i]`, an IndexError past the end. */
  function Cell(item: seq<string>, i: nat): (r: Result<string>)
    ensures r.Ok? <==> i < |item|
    ensures r.Ok? ==> r.value == item[i]
    ensures r.Err? ==> r.error == IndexError
  {
    if i < |item| then Ok(item[i]) else Err(IndexError)
  }

  /** `float(item[i])`: the index is checked first, then the text. */
  function FloatCell(item: seq<string>, i: nat, parse: FloatParser): (r: Result<real>)
    ensures r.Ok? <==> i < |item| && parse(item[i]).Some?
    ensures r.Ok? ==> r.value == parse(item[i]).value
    ensures r.Err? ==> r.error == (if i < |item| then ValueError else IndexError)
  {
    var text :- Cell(item, i);
    if parse(text).Some? then Ok(parse(text).value) else Err(ValueError)
  }

  /** A label read from the given columns, evaluated in dict order: file,
      latitude, longitude, altitude. */
  function LabelFromColumns(prefix: string, item: seq<string>, fileCol: nat, latCol: nat, lonCol: nat, altCol: nat,
                            parse: FloatParser): (r: Result<Label>)
    ensures r.Ok? <==> (fileCol < |item| && FloatCell(item, latCol, parse).Ok?
      && FloatCell(item, lonCol, parse).Ok? && FloatCell(item, altCol, parse).Ok?)
    // the failures in evaluation order: file, latitude, longitude, altitude
    ensures fileCol >= |item| ==> r == Err(IndexError)
    ensures (fileCol < |item| && FloatCell(item, latCol, parse).Err?) ==> r == FloatCell(item, latCol, parse).PropagateFailure()
    ensures (fileCol < |item| && FloatCell(item, latCol, parse).Ok? && FloatCell(item, lonCol, parse).Err?)
      ==> r == FloatCell(item, lonCol, parse).PropagateFailure()
    ensures (fileCol < |item| && FloatCell(item, latCol, parse).Ok? && FloatCell(item, lonCol, parse).Ok?
      && FloatCell(item, altCol, parse).Err?) ==> r == FloatCell(item, altCol, parse).PropagateFailure()
    ensures r.Err? ==> r.error == IndexError || r.error == ValueError
    ensures r.Ok? ==> (r.value.inputFile == prefix + "/" + item[fileCol]
      && Some(r.value.latitude) == parse(item[latCol])
      && Some(r.value.longitude) == parse(item[lonCol])
      && r.value.altitude == RoundHalfEven(parse(item[altCol]).value))
  {
    var file :- Cell(item, fileCol);
    var latitude :- FloatCell(item, latCol, parse);
    var longitude :- FloatCell(item, lonCol, parse);
    var altitude :- FloatCell(item, altCol, parse);
    Ok(Label(prefix + "/" + file, latitude, longitude, RoundHalfEven(altitude)))
  }

  /** `make_label_geotags`: file, latitude, longitude, altitude in columns
      0 to 3. */
  function MakeLabelGeotags(prefix: string, item: seq<string>, parse: FloatParser): (r: Result<Label>)
    ensures r.Ok? <==> |item| >= 4 && parse(item[1]).Some? && parse(item[2]).Some? && parse(item[3]).Some?
    ensures r.Ok? ==> r.value == Label(prefix + "/" + item[0], parse(item[1]).value, parse(item[2]).value,
                                       RoundHalfEven(parse(item[3]).value))
  {
    LabelFromColumns(prefix, item, 0, 1, 2, 3, parse)
  }

  /** `make_label_nonstandard`: columns 1 to 4 first; only a ValueError
      switches to the layout with latitude, longitude, altitude in columns
      0 to 2 and the file in column 3. */
  function MakeLabelNonstandard(prefix: string, item: seq<string>, parse: FloatParser): (r: Result<Label>)
    ensures LabelFromColumns(prefix, item, 1, 2, 3, 4, parse) != Err(ValueError)
      ==> r == LabelFromColumns(prefix, item, 1, 2, 3, 4, parse)
    ensures LabelFromColumns(prefix, item, 1, 2, 3, 4, parse) == Err(ValueError)
      ==> r == LabelFromColumns(prefix, item, 3, 0, 1, 2, parse)
  {
    var first := LabelFromColumns(prefix, item, 1, 2, 3, 4, parse);
    if first == Err(ValueError) then LabelFromColumns(prefix, item, 3, 0, 1, 2, parse) else first
  }

  /** A row too short to reach column 1 fails with the IndexError of the
      first layout; the fallback is not tried. */
  lemma ShortRowPropagates(prefix: string, item: seq<string>, parse: FloatParser)
    requires |item| < 2
    ensures MakeLabelNonstandard(prefix, item, parse) == Err(IndexError)
  {
  }

  /** A five-column row with numbers in columns 2 to 4 is read in the first
      layout. */
  lemma FirstLayoutRow(prefix: string, key: string, file: string, lat: string, lon: string, alt: string, parse: FloatParser)
    requires parse(lat).Some? && parse(lon).Some? && parse(alt).Some?
    ensures MakeLabelNonstandard(prefix, [key, file, lat, lon, alt], parse)
         == Ok(Label(prefix + "/" + file, parse(lat).value, parse(lon).value, RoundHalfEven(parse(alt).value)))
  {
  }

  /** A four-column row latitude, longitude, altitude, file with a
      non-numeric file name falls back to the second layout: the first one
      fails parsing the file name as a longitude before it would index the
      missing column 4. */
  lemma SecondLayoutRow(prefix: string, lat: string, lon: string, alt: string, file: string, parse: FloatParser)
    requires parse(lat).Some? && parse(lon).Some? && parse(alt).Some? && parse(file).None?
    ensures MakeLabelNonstandard(prefix, [lat, lon, alt, file], parse)
         == Ok(Label(prefix + "/" + file, parse(lat).value, parse(lon).value, RoundHalfEven(parse(alt).value)))
  {
  }
}
