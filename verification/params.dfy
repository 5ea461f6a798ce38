/** The query-string builders of place/common/place/common/util.py. A
    parameter dict is its sequence of (key, value) pairs in insertion order;
    values are taken as already passed through `str`, so a value is either
    one text or a list of texts. `urllib.parse.quote_plus` is the parameter
    `quote`. */
module Params {
  import opened Common

  datatype Value = Scalar(text: string) | List(items: seq<string>)

  type ParamDict = seq<(string, Value)>

  /** The number of "k=v" parts a value produces. */
  function Width(v: Value): nat {
    match v
    case Scalar(_) => 1
    case List(items) => |items|
  }

  function Texts(v: Value): seq<string> {
    match v
    case Scalar(t) => [t]
    case List(items) => items
  }

  function TotalWidth(params: ParamDict): nat {
    if |params| == 0 then 0 else Width(params[0].1) + TotalWidth(params[1..])
  }

  /** `k=quote(v)` for each text of one value, in list order. */
  function ValueParts(key: string, texts: seq<string>, quote: string -> string): (r: seq<string>)
    ensures |r| == |texts|
    ensures forall i :: 0 <= i < |r| ==> r[i] == key + "=" + quote(texts[i])
  {
    if |texts| == 0 then [] else [key + "=" + quote(texts[0])] + ValueParts(key, texts[1..], quote)
  }

  /** The parts list `get_param_str` builds: key order, then list order. */
  function Parts(params: ParamDict, quote: string -> string): (r: seq<string>)
    ensures |r| == TotalWidth(params)
  {
    if |params| == 0 then []
    else ValueParts(params[0].0, Texts(params[0].1), quote) + Parts(params[1..], quote)
  }

  /** `get_param_str`: the parts joined with "&", values quoted, keys not. */
  function ParamStr(params: ParamDict, quote: string -> string): (r: string)
    ensures TotalWidth(params) == 0 ==> r == ""
  {
    Join(Parts(params, quote), "&")
  }

  /** The parts list `get_param_str_raw` builds: "k=v" with `str(v)` as is. */
  function RawParts(params: ParamDict): (r: seq<string>)
    ensures |r| == TotalWidth(params)
  {
    if |params| == 0 then []
    else
      var key := params[0].0;
      var here := match params[0].1
        case Scalar(t) => [key + "=" + t]
        case List(items) => seq(|items|, i requires 0 <= i < |items| => key + "=" + items[i]);
      here + RawParts(params[1..])
  }

  /** `get_param_str_raw`. */
  function ParamStrRaw(params: ParamDict): (r: string)
    ensures TotalWidth(params) == 0 ==> r == ""
  {
    Join(RawParts(params), "&")
  }

  function Identity(s: string): string { s }

  /** The raw builder is the quoted one with an identity quoting. */
  lemma {:induction false} RawIsUnquoted(params: ParamDict)
    ensures RawParts(params) == Parts(params, Identity)
    ensures ParamStrRaw(params) == ParamStr(params, Identity)
  {
    if |params| > 0 {
      RawIsUnquoted(params[1..]);
    }
  }

  /** The parts of a concatenation of dicts are the concatenated parts. */
  lemma {:induction false} PartsAppend(a: ParamDict, b: ParamDict, quote: string -> string)
    ensures Parts(a + b, quote) == Parts(a, quote) + Parts(b, quote)
  {
    if |a| == 0 {
      assert a + b == b;
    } else {
      assert (a + b)[1..] == a[1..] + b;
      PartsAppend(a[1..], b, quote);
    }
  }

  /** A key whose value is an empty list contributes nothing. */
  lemma EmptyListContributesNothing(a: ParamDict, key: string, b: ParamDict, quote: string -> string)
    ensures ParamStr(a + [(key, List([]))] + b, quote) == ParamStr(a + b, quote)
  {
    var e: ParamDict := [(key, List([]))];
    assert e[1..] == [];
    assert Parts(e, quote) == [];
    PartsAppend(a + e, b, quote);
    PartsAppend(a, e, quote);
    PartsAppend(a, b, quote);
    assert Parts(a + e, quote) == Parts(a, quote);
  }

  /** The part for the j-th text of the i-th entry: the key is never
      quoted, the value always is. */
  lemma {:induction false} PartOfEntry(params: ParamDict, i: nat, j: nat, quote: string -> string)
    requires i < |params| && j < |Texts(params[i].1)|
    ensures params[i].0 + "=" + quote(Texts(params[i].1)[j]) in Parts(params, quote)
  {
    var here := ValueParts(params[0].0, Texts(params[0].1), quote);
    var rest := Parts(params[1..], quote);
    var part := params[i].0 + "=" + quote(Texts(params[i].1)[j]);
    assert Parts(params, quote) == here + rest;
    if i == 0 {
      assert part in here by {
        assert here[j] == part;
      }
    } else {
      assert part in rest by {
        assert params[1..][i - 1] == params[i];
        PartOfEntry(params[1..], i - 1, j, quote);
      }
    }
  }

  /** Every part is "k=" followed by a quoted text of that key's value. */
  lemma {:induction false} PartsShape(params: ParamDict, quote: string -> string, n: nat)
    requires n < |Parts(params, quote)|
    ensures exists i, j :: (0 <= i < |params| && 0 <= j < |Texts(params[i].1)|
      && Parts(params, quote)[n] == params[i].0 + "=" + quote(Texts(params[i].1)[j]))
  {
    var here := ValueParts(params[0].0, Texts(params[0].1), quote);
    if n < |here| {
      assert Parts(params, quote)[n] == here[n];
      assert Parts(params, quote)[n] == params[0].0 + "=" + quote(Texts(params[0].1)[n]);
    } else {
      PartsShape(params[1..], quote, n - |here|);
      var i, j :| 0 <= i < |params[1..]| && 0 <= j < |Texts(params[1..][i].1)|
        && Parts(params[1..], quote)[n - |here|] == params[1..][i].0 + "=" + quote(Texts(params[1..][i].1)[j]);
      assert Parts(params, quote)[n] == params[i + 1].0 + "=" + quote(Texts(params[i + 1].1)[j]);
    }
  }

  /** When neither keys nor quoted texts contain '&', splitting the query
      string at '&' gives the parts back. */
  lemma SplitRecoversParts(params: ParamDict, quote: string -> string)
    requires TotalWidth(params) > 0
    requires forall n :: 0 <= n < |Parts(params, quote)| ==> '&' !in Parts(params, quote)[n]
    ensures Split(ParamStr(params, quote), '&') == Parts(params, quote)
  {
    SplitJoin(Parts(params, quote), '&');
  }
}
