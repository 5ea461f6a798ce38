/** `LinkInjector` of place/stac/place/stac/links.py: the rendering links
    and assets added to STAC collections and items. `urllib.parse.urljoin`
    is the parameter `join`, `quote_plus` the parameter `quote`; the base URL
    of the request is an input. A STAC document is reduced to the entries
    the injector reads and writes, each optional as in the source dicts. */
module Links {
  import opened Common
  import opened Params
  import opened Render

  type UrlJoin = (string, string) -> string

  /** The pystac constants used: `MediaType.JSON`, `MediaType.PNG` and
      `RelType.PREVIEW`. */
  const MediaTypeJson: string := "application/json"
  const MediaTypePng: string := "image/png"
  const RelPreview: string := "preview"

  datatype Link = Link(rel: string, href: string, title: string, mediaType: string)

  datatype Asset = Asset(title: string, href: string, mediaType: string, roles: seq<string>, rel: Option<string>)

  datatype Collection = Collection(links: Option<seq<Link>>, assets: Option<map<string, Asset>>)

  datatype Item = Item(id: Option<string>, links: Option<seq<Link>>, assets: Option<map<string, Asset>>)

  datatype LinkInjector = LinkInjector(collectionId: string, renderConfig: RenderConfig, tilerHref: string)

  /** The constructor: the tiler root is "data/" resolved against the
      request's base URL. */
  function NewLinkInjector(collectionId: string, renderConfig: RenderConfig, baseUrl: string, join: UrlJoin): (inj: LinkInjector)
    ensures inj.collectionId == collectionId && inj.renderConfig == renderConfig
    ensures inj.tilerHref == join(baseUrl, "data/")
  {
    LinkInjector(collectionId, renderConfig, join(baseUrl, "data/"))
  }

  /** The path, relative to the tiler root, under which an item's renderings
      live. */
  function ItemPath(inj: LinkInjector, itemId: string): string {
    "collections/" + inj.collectionId + "/items/" + itemId + "/"
  }

  function CollectionTilejsonAsset(inj: LinkInjector, quote: string -> string, join: UrlJoin): (a: Asset)
    ensures a.mediaType == MediaTypeJson && a.roles == ["tiles"] && a.rel.None?
    ensures a.href == join(inj.tilerHref, "collection/tilejson.json?" + FullRenderQs(inj.renderConfig, quote))
  {
    Asset("Mosaic TileJSON with default rendering",
          join(inj.tilerHref, "collection/tilejson.json?" + FullRenderQs(inj.renderConfig, quote)),
          MediaTypeJson, ["tiles"], None)
  }

  function CollectionMapLink(inj: LinkInjector, join: UrlJoin): (l: Link)
    ensures l.rel == RelPreview && l.mediaType == "text/html" && l.title == "Map of collection mosaic"
    ensures l.href == join(inj.tilerHref, "collection/map?collection=" + inj.collectionId)
  {
    Link(RelPreview, join(inj.tilerHref, "collection/map?collection=" + inj.collectionId),
         "Map of collection mosaic", "text/html")
  }

  function ItemPreviewAsset(inj: LinkInjector, itemId: string, quote: string -> string, join: UrlJoin): (a: Asset)
    ensures a.mediaType == MediaTypePng && a.roles == ["overview"] && a.rel == Some("preview")
    ensures a.href == join(inj.tilerHref, ItemPath(inj, itemId) + "preview.png?" + FullRenderQs(inj.renderConfig, quote))
  {
    Asset("Rendered preview",
          join(inj.tilerHref, ItemPath(inj, itemId) + "preview.png?" + FullRenderQs(inj.renderConfig, quote)),
          MediaTypePng, ["overview"], Some("preview"))
  }

  function ItemTilejsonAsset(inj: LinkInjector, itemId: string, quote: string -> string, join: UrlJoin): (a: Asset)
    ensures a.mediaType == MediaTypeJson && a.roles == ["tiles"] && a.rel.None?
    ensures a.href == join(inj.tilerHref, ItemPath(inj, itemId) + "tilejson.json?" + FullRenderQs(inj.renderConfig, quote))
  {
    Asset("TileJSON with default rendering",
          join(inj.tilerHref, ItemPath(inj, itemId) + "tilejson.json?" + FullRenderQs(inj.renderConfig, quote)),
          MediaTypeJson, ["tiles"], None)
  }

  function ItemMapLink(inj: LinkInjector, itemId: string, join: UrlJoin): (l: Link)
    ensures l.rel == RelPreview && l.mediaType == "text/html" && l.title == "Map of item"
    ensures l.href == join(inj.tilerHref, ItemPath(inj, itemId) + "map?" + FullRenderQsRaw(inj.renderConfig))
  {
    Link(RelPreview, join(inj.tilerHref, ItemPath(inj, itemId) + "map?" + FullRenderQsRaw(inj.renderConfig)),
         "Map of item", "text/html")
  }

  function ItemWmtsLink(inj: LinkInjector, itemId: string, join: UrlJoin): (l: Link)
    ensures l.rel == "WMTS" && l.mediaType == "text/xml" && l.title == "WMTS capabilities for item"
    ensures l.href == join(inj.tilerHref, ItemPath(inj, itemId) + "WebMercatorQuad/WMTSCapabilities.xml?" + FullRenderQsRaw(inj.renderConfig))
  {
    Link("WMTS",
         join(inj.tilerHref, ItemPath(inj, itemId) + "WebMercatorQuad/WMTSCapabilities.xml?" + FullRenderQsRaw(inj.renderConfig)),
         "WMTS capabilities for item", "text/xml")
  }

  /** `inject_collection`. The map link is appended to the collection's own
      links list when it has one; without one it goes onto a fresh list
      that is dropped. The TileJSON asset is always stored, creating the
      assets mapping if needed, and no other asset changes. */
  function InjectCollection(inj: LinkInjector, c: Collection, quote: string -> string, join: UrlJoin): (r: Collection)
    ensures c.links.None? ==> r.links.None?
    ensures c.links.Some? ==> r.links == Some(c.links.value + [CollectionMapLink(inj, join)])
    ensures r.assets.Some? && "tilejson" in r.assets.value
    ensures r.assets.value["tilejson"] == CollectionTilejsonAsset(inj, quote, join)
    ensures c.assets.Some? ==> r.assets.value.Keys == c.assets.value.Keys + {"tilejson"}
    ensures c.assets.None? ==> r.assets.value.Keys == {"tilejson"}
    ensures c.assets.Some? ==> forall k :: k in c.assets.value && k != "tilejson" ==> r.assets.value[k] == c.assets.value[k]
  {
    var links := if c.links.Some? then Some(c.links.value + [CollectionMapLink(inj, join)]) else None;
    var assets := if c.assets.Some? then c.assets.value else map[];
    Collection(links, Some(assets["tilejson" := CollectionTilejsonAsset(inj, quote, join)]))
  }

  /** `inject_item`. The links list is created if absent and gets the map
      link then the WMTS link after the existing ones. The two assets are
      written only into an existing assets mapping; without one they go into
      a fresh dict that is dropped. A missing ID renders as "". */
  function InjectItem(inj: LinkInjector, item: Item, quote: string -> string, join: UrlJoin): (r: Item)
    ensures var prior := if item.links.Some? then item.links.value else [];
      var itemId := if item.id.Some? then item.id.value else "";
      && r.links.Some? && |r.links.value| == |prior| + 2
      && r.links.value[..|prior|] == prior
      && r.links.value[|prior|] == ItemMapLink(inj, itemId, join)
      && r.links.value[|prior| + 1] == ItemWmtsLink(inj, itemId, join)
    ensures r.id == item.id
    ensures item.assets.None? ==> r.assets.None?
    ensures item.assets.Some? ==> (r.assets.Some?
      && r.assets.value.Keys == item.assets.value.Keys + {"tilejson", "rendered_preview"}
      && (forall k :: k in item.assets.value && k != "tilejson" && k != "rendered_preview" ==> r.assets.value[k] == item.assets.value[k]))
  {
    var itemId := if item.id.Some? then item.id.value else "";
    var links := (if item.links.Some? then item.links.value else [])
      + [ItemMapLink(inj, itemId, join), ItemWmtsLink(inj, itemId, join)];
    var assets := if item.assets.Some?
      then Some(item.assets.value["tilejson" := ItemTilejsonAsset(inj, itemId, quote, join)]
                                 ["rendered_preview" := ItemPreviewAsset(inj, itemId, quote, join)])
      else None;
    Item(item.id, Some(links), assets)
  }

  /** The assets written into an existing mapping are the item's TileJSON
      and preview assets for its ID. */
  lemma InjectedItemAssets(inj: LinkInjector, item: Item, quote: string -> string, join: UrlJoin)
    requires item.assets.Some?
    ensures var r := InjectItem(inj, item, quote, join);
      var itemId := if item.id.Some? then item.id.value else "";
      r.assets.value["tilejson"] == ItemTilejsonAsset(inj, itemId, quote, join)
      && r.assets.value["rendered_preview"] == ItemPreviewAsset(inj, itemId, quote, join)
  {
  }

  /** Injecting into an item twice leaves two copies of each link: the
      operation is not idempotent. */
  lemma InjectItemTwice(inj: LinkInjector, item: Item, quote: string -> string, join: UrlJoin)
    ensures var once := InjectItem(inj, item, quote, join);
      var twice := InjectItem(inj, once, quote, join);
      var n := if item.links.Some? then |item.links.value| else 0;
      && |twice.links.value| == n + 4
      && twice.links.value[n] == twice.links.value[n + 2]
      && twice.links.value[n + 1] == twice.links.value[n + 3]
  {
  }

  /** A collection without a links list comes out without one, whatever the
      injector: the collection map link is lost. */
  lemma CollectionMapLinkLost(inj: LinkInjector, c: Collection, quote: string -> string, join: UrlJoin)
    requires c.links.None?
    ensures InjectCollection(inj, c, quote, join).links == c.links
  {
  }

  /** The links carry the raw query string and the assets the quoted one:
      they differ only through the quoting of the render parameters. */
  lemma LinksUseRawQs(inj: LinkInjector, itemId: string, join: UrlJoin)
    ensures ItemMapLink(inj, itemId, join).href
         == join(inj.tilerHref, ItemPath(inj, itemId) + "map?" + FullRenderQs(inj.renderConfig, Identity))
  {
    RawIsUnquotedQs(inj.renderConfig);
  }
}
