/** `RenderConfig` of place/common/place/common/render.py: the per-collection
    rendering defaults and the query strings built from them, plus the
    collection-ID lookup of the two configurations the module defines. */
module Render {
  import opened Common
  import opened Params

  datatype RenderConfig = RenderConfig(
    renderParams: ParamDict,
    minzoom: int,
    assets: Option<seq<string>>,
    maxzoom: Option<int>,
    mosaicPreviewZoom: Option<int>,
    mosaicPreviewCoords: Option<seq<real>>,
    publicUrlRoot: string,
    privateUrlRoot: string)

  /** A configuration with only `render_params` given; every other field
      takes its declared default. */
  function WithDefaults(renderParams: ParamDict): (c: RenderConfig)
    ensures c.renderParams == renderParams && c.minzoom == 14
    ensures c.assets == Some(["cog"]) && c.maxzoom == Some(30)
    ensures c.mosaicPreviewZoom.None? && c.mosaicPreviewCoords.None?
    ensures c.publicUrlRoot == "https://stac.thisisplace.org/tiles/" && c.privateUrlRoot == "file:///data/"
  {
    RenderConfig(renderParams, 14, Some(["cog"]), Some(30), None, None,
                 "https://stac.thisisplace.org/tiles/", "file:///data/")
  }

  /** "&assets=<name>" for each name, concatenated. */
  function AssetsQuery(names: seq<string>): (r: string)
    ensures |names| > 0 ==> StartsWith(r, "&assets=")
    ensures |names| == 0 ==> r == ""
  {
    if |names| == 0 then "" else "&" + ("assets=" + names[0]) + AssetsQuery(names[1..])
  }

  /** `get_assets_params`: `self.assets or []`, so None and [] both give "". */
  function AssetsParams(c: RenderConfig): (r: string)
    ensures c.assets.None? ==> r == ""
  {
    AssetsQuery(if c.assets.Some? then c.assets.value else [])
  }

  /** The "assets=<name>" fields, one per name. */
  function AssetFields(names: seq<string>): (r: seq<string>)
    ensures |r| == |names|
    ensures forall i :: 0 <= i < |r| ==> r[i] == "assets=" + names[i]
  {
    if |names| == 0 then [] else ["assets=" + names[0]] + AssetFields(names[1..])
  }

  /** Splitting the assets part at '&' gives an empty lead piece and one
      "assets=<name>" field per name, so the names are recoverable. */
  lemma {:induction false} AssetsQuerySplit(names: seq<string>)
    requires forall i :: 0 <= i < |names| ==> '&' !in names[i]
    ensures Split(AssetsQuery(names), '&') == [""] + AssetFields(names)
  {
    if |names| > 0 {
      var rest := AssetsQuery(names[1..]);
      var field := "assets=" + names[0];
      assert Split(rest, '&') == [""] + AssetFields(names[1..]) by {
        AssetsQuerySplit(names[1..]);
      }
      assert '&' !in field by {
        assert '&' !in names[0];
        NotInConcat('&', "assets=", names[0]);
      }
      AssetsStep(names);
      FieldsStep(names);
      LeadingField(field, rest);
    }
  }

  /** One name's contribution to the query. */
  lemma AssetsStep(names: seq<string>)
    requires |names| > 0
    ensures AssetsQuery(names) == ['&'] + (("assets=" + names[0]) + AssetsQuery(names[1..]))
  {
  }

  lemma FieldsStep(names: seq<string>)
    requires |names| > 0
    ensures AssetFields(names) == ["assets=" + names[0]] + AssetFields(names[1..])
  {
  }

  /** An '&', a separator-free field, then a string whose split starts with
      an empty piece. */
  lemma LeadingField(field: string, rest: string)
    requires '&' !in field
    requires Split(rest, '&')[0] == ""
    ensures Split(['&'] + (field + rest), '&') == [""] + ([field] + Split(rest, '&')[1..])
  {
    SplitCons('&', field + rest, '&');
    SplitPrefix(field, rest, '&');
    assert field + Split(rest, '&')[0] == field;
  }

  /** `get_render_params`: "&" followed by the quoted parameter string,
      even when there are no parameters. */
  function RenderParams(c: RenderConfig, quote: string -> string): (r: string)
    ensures StartsWith(r, "&") && r[1..] == ParamStr(c.renderParams, quote)
  {
    "&" + ParamStr(c.renderParams, quote)
  }

  /** `get_render_params_raw`. */
  function RenderParamsRaw(c: RenderConfig): (r: string)
    ensures StartsWith(r, "&") && r[1..] == ParamStrRaw(c.renderParams)
  {
    "&" + ParamStrRaw(c.renderParams)
  }

  /** `get_full_render_qs`: the assets part, then the render part. */
  function FullRenderQs(c: RenderConfig, quote: string -> string): (r: string)
    ensures |r| == |AssetsParams(c)| + |RenderParams(c, quote)|
    ensures r[..|AssetsParams(c)|] == AssetsParams(c)
    ensures r[|AssetsParams(c)|..] == RenderParams(c, quote)
  {
    AssetsParams(c) + RenderParams(c, quote)
  }

  /** `get_full_render_qs_raw`. */
  function FullRenderQsRaw(c: RenderConfig): (r: string)
    ensures |r| == |AssetsParams(c)| + |RenderParamsRaw(c)|
    ensures r[..|AssetsParams(c)|] == AssetsParams(c)
    ensures r[|AssetsParams(c)|..] == RenderParamsRaw(c)
  {
    AssetsParams(c) + RenderParamsRaw(c)
  }

  /** The raw query string is the quoted one with an identity quoting. */
  lemma RawIsUnquotedQs(c: RenderConfig)
    ensures FullRenderQsRaw(c) == FullRenderQs(c, Identity)
  {
    RawIsUnquoted(c.renderParams);
  }

  /** Splitting the full query string at '&' gives an empty lead piece, the
      asset fields, then the "k=v" parts, provided no name or part holds an
      '&' and there is at least one part. */
  lemma FullRenderQsSplit(c: RenderConfig, quote: string -> string)
    requires c.assets.Some? ==> forall i :: 0 <= i < |c.assets.value| ==> '&' !in c.assets.value[i]
    requires TotalWidth(c.renderParams) > 0
    requires forall n :: 0 <= n < |Parts(c.renderParams, quote)| ==> '&' !in Parts(c.renderParams, quote)[n]
    ensures Split(FullRenderQs(c, quote), '&')
         == [""] + AssetFields(if c.assets.Some? then c.assets.value else []) + Parts(c.renderParams, quote)
  {
    var names := if c.assets.Some? then c.assets.value else [];
    AssetsQuerySplit(names);
    SplitRecoversParts(c.renderParams, quote);
    FullRenderQsShape(c, quote);
    SplitAppend(AssetsQuery(names), ParamStr(c.renderParams, quote), '&');
  }

  /** The full query string is the assets part and the parameter string
      joined by one '&'. */
  lemma FullRenderQsShape(c: RenderConfig, quote: string -> string)
    ensures FullRenderQs(c, quote)
         == AssetsQuery(if c.assets.Some? then c.assets.value else []) + ['&'] + ParamStr(c.renderParams, quote)
  {
  }

  const DefaultConfig: RenderConfig := WithDefaults([("asset_bidx", Scalar("cog|1"))])
  const IvoryCoastConfig: RenderConfig := WithDefaults([("asset_bidx", Scalar("cog|1,2,3"))])
  const IvoryCoastCollection: string := "IvoryCoast-Abidjian-Adjame"

  /** `get_render_config`: the Ivory Coast configuration for its collection,
      the default one for every other ID. */
  function GetRenderConfig(collectionId: string): (c: RenderConfig)
    ensures c.assets == Some(["cog"]) && c.minzoom == 14 && c.maxzoom == Some(30)
    ensures c.mosaicPreviewZoom.None? && c.mosaicPreviewCoords.None?
    ensures c.publicUrlRoot == "https://stac.thisisplace.org/tiles/" && c.privateUrlRoot == "file:///data/"
    ensures c.renderParams == [("asset_bidx", Scalar(if collectionId == IvoryCoastCollection then "cog|1,2,3" else "cog|1"))]
  {
    if collectionId == IvoryCoastCollection then IvoryCoastConfig else DefaultConfig
  }

  /** The default configuration's raw query string. */
  lemma DefaultRawQs()
    ensures FullRenderQsRaw(DefaultConfig) == "&assets=cog&asset_bidx=cog|1"
  {
    var a := AssetsParams(DefaultConfig);
    var b := RenderParamsRaw(DefaultConfig);
    assert a == "&assets=cog" by {
      assert DefaultConfig.assets == Some(["cog"]);
      DefaultAssets();
    }
    assert b == "&asset_bidx=cog|1" by {
      DefaultRawParams();
    }
    assert FullRenderQsRaw(DefaultConfig) == a + b;
    LiteralJoin();
  }

  lemma LiteralJoin()
    ensures "&assets=cog" + "&asset_bidx=cog|1" == "&assets=cog&asset_bidx=cog|1"
  {
  }

  lemma DefaultAssets()
    ensures AssetsQuery(["cog"]) == "&assets=cog"
  {
    assert ["cog"][1..] == [];
  }

  lemma DefaultRawParams()
    ensures ParamStrRaw(DefaultConfig.renderParams) == "asset_bidx=cog|1"
  {
    var p := DefaultConfig.renderParams;
    assert p[1..] == [];
    assert p[0].0 == "asset_bidx" && p[0].1 == Scalar("cog|1");
    assert RawParts(p[1..]) == [];
    assert RawParts(p) == [p[0].0 + "=" + "cog|1"];
    assert p[0].0 + "=" + "cog|1" == "asset_bidx=cog|1";
  }
}
