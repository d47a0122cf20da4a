/**
 * The rewrite of the Tableau Mapsource template in `generateTMS`: the
 * connection attributes are set from the first style, and the `layer`,
 * `map-style` and `style-rule` lists are replaced by one entry per style.
 */
module Tms {
  import opened Results
  import opened Strings
  import opened StyleUrl

  /**
   * An attribute value. Parsed attributes are strings; the rewrite also
   * stores a boolean (`show-ui`), a number (`washout`) and, where a style has
   * no display name, JavaScript's `undefined`.
   */
  datatype Value = Str(text: string) | Flag(flag: bool) | Number(number: int) | Undefined

  /**
   * An element as xml2js holds it: its attributes (the `$` object) and its
   * child elements grouped by tag, each group in document order.
   */
  datatype Element = Element(attrs: map<string, Value>, children: map<string, seq<Element>>)

  /** The attribute `key` of `e`, `Undefined` when absent. */
  function Attr(e: Element, key: string): Value
  {
    if key in e.attrs then e.attrs[key] else Undefined
  }

  /** The children of `e` tagged `tag`, none when absent. */
  function Children(e: Element, tag: string): seq<Element>
  {
    if tag in e.children then e.children[tag] else []
  }

  /** The attribute `key` of every element of `es`, in order. */
  function Column(es: seq<Element>, key: string): (r: seq<Value>)
    ensures |r| == |es|
    ensures forall i :: 0 <= i < |es| ==> r[i] == Attr(es[i], key)
  {
    seq(|es|, i requires 0 <= i < |es| => Attr(es[i], key))
  }

  /** `styleName[index]`: the display name of style `i`, `undefined` past the end of the names. */
  function DisplayName(names: seq<string>, i: nat): (v: Value)
    ensures v.Undefined? <==> i >= |names|
    ensures i < |names| ==> v == Str(names[i])
  {
    if i < |names| then Str(names[i]) else Undefined
  }

  /** The Mapbox style URL naming one style: `mapbox://styles/{username}/{style}`. */
  function MapboxUrl(d: StyleInfo): string
  {
    "mapbox://styles/" + d.username + "/" + d.style
  }

  /** The connection keys the rewrite sets. */
  const ConnectionKeys: set<string> := {"api-key", "server", "url", "port", "username", "url-format"}

  /** The tile request template; `{L}`, `{Z}`, `{X}`, `{Y}` and `{D}` stay literal for Tableau to fill in. */
  function UrlFormat(url: string, username: string, token: string): (r: string)
    ensures |r| == |url| + |username| + |token| + 41
    ensures r[..|url| + 2] == "/" + url + "/"
    ensures r[|r| - |token|..] == token
  {
    "/" + url + "/" + username + "/{L}/tiles/{Z}/{X}/{Y}{D}?access_token=" + token
  }

  /**
   * The connection attributes describe one tile endpoint: all six keys hold
   * text and the request template is built from the `url`, `username` and
   * `api-key` attributes beside it.
   */
  predicate ConnectionCoherent(attrs: map<string, Value>)
  {
    && ConnectionKeys <= attrs.Keys
    && (forall k :: k in ConnectionKeys ==> attrs[k].Str?)
    && attrs["url-format"] == Str(UrlFormat(attrs["url"].text, attrs["username"].text, attrs["api-key"].text))
  }

  /**
   * Step 2 of the rewrite: the connection attributes after setting them from
   * descriptor `d`. The six connection keys are set, every other attribute
   * is kept, and the result is coherent.
   */
  function Connect(attrs: map<string, Value>, d: StyleInfo): (r: map<string, Value>)
    ensures r.Keys == attrs.Keys + ConnectionKeys
    ensures forall k :: k in attrs && k !in ConnectionKeys ==> r[k] == attrs[k]
    ensures ConnectionCoherent(r)
    ensures r["api-key"] == Str(d.token) && r["url"] == Str(d.url) && r["username"] == Str(d.username)
    ensures r["server"] == Str(d.scheme + "//" + d.server) && r["port"] == Str(d.port)
  {
    attrs["api-key" := Str(d.token)]
         ["server" := Str(d.scheme + "//" + d.server)]
         ["url" := Str(d.url)]
         ["port" := Str(d.port)]
         ["username" := Str(d.username)]
         ["url-format" := Str(UrlFormat(d.url, d.username, d.token))]
  }

  /**
   * Whatever the template held, setting the connection from `d2` leaves the
   * same attributes as setting it from `d1` first; in particular setting it
   * twice from the same descriptor changes nothing more.
   */
  lemma ConnectOverwrites(attrs: map<string, Value>, d1: StyleInfo, d2: StyleInfo)
    ensures Connect(Connect(attrs, d1), d2) == Connect(attrs, d2)
  {
  }

  /** A `layer` entry: a UI-selectable layer for one style. */
  function LayerEntry(d: StyleInfo, displayName: Value): Element
  {
    Element(map["display-name" := displayName, "name" := Str(d.style),
                "show-ui" := Flag(true), "type" := Str("features")], map[])
  }

  /** A `map-style` entry with its single `map-layer-style` child. */
  function MapStyleEntry(d: StyleInfo, displayName: Value): Element
  {
    var layerStyle := Element(map["name" := displayName, "request-string" := Str(d.style)], map[]);
    Element(map["display-name" := displayName, "name" := Str(MapboxUrl(d)),
                "wait-tile-color" := Str("#dddddd")],
            map["map-layer-style" := [layerStyle]])
  }

  /** A `style-rule` entry for the map element: the style to show and no washout. */
  function StyleRuleEntry(d: StyleInfo): Element
  {
    var mapStyle := Element(map["attr" := Str("map-style"), "value" := Str(MapboxUrl(d))], map[]);
    var washout := Element(map["attr" := Str("washout"), "value" := Number(0)], map[]);
    Element(map["element" := Str("map")], map["format" := [mapStyle, washout]])
  }

  /** Step 3: the new `layer` list, one entry per style in input order. */
  function LayerEntries(styles: seq<StyleInfo>, names: seq<string>): (r: seq<Element>)
    ensures |r| == |styles|
    ensures forall i :: 0 <= i < |styles| ==>
      && Attr(r[i], "display-name") == DisplayName(names, i)
      && Attr(r[i], "name") == Str(styles[i].style)
      && Attr(r[i], "show-ui") == Flag(true)
      && Attr(r[i], "type") == Str("features")
    ensures forall i :: 0 <= i < |styles| ==>
      r[i].attrs.Keys == {"display-name", "name", "show-ui", "type"} && r[i].children == map[]
  {
    seq(|styles|, i requires 0 <= i < |styles| => LayerEntry(styles[i], DisplayName(names, i)))
  }

  /** Step 4: the new `map-style` list, one entry per style in input order. */
  function MapStyleEntries(styles: seq<StyleInfo>, names: seq<string>): (r: seq<Element>)
    ensures |r| == |styles|
    ensures forall i :: 0 <= i < |styles| ==>
      && Attr(r[i], "display-name") == DisplayName(names, i)
      && Attr(r[i], "name") == Str(MapboxUrl(styles[i]))
      && Attr(r[i], "wait-tile-color") == Str("#dddddd")
      && |Children(r[i], "map-layer-style")| == 1
      && Attr(Children(r[i], "map-layer-style")[0], "name") == DisplayName(names, i)
      && Attr(Children(r[i], "map-layer-style")[0], "request-string") == Str(styles[i].style)
    ensures forall i :: 0 <= i < |styles| ==>
      && r[i].attrs.Keys == {"display-name", "name", "wait-tile-color"}
      && r[i].children.Keys == {"map-layer-style"}
      && |r[i].children["map-layer-style"]| == 1
      && r[i].children["map-layer-style"][0].attrs.Keys == {"name", "request-string"}
      && r[i].children["map-layer-style"][0].children == map[]
  {
    seq(|styles|, i requires 0 <= i < |styles| => MapStyleEntry(styles[i], DisplayName(names, i)))
  }

  /** Step 5: the new `style-rule` list, one entry per style in input order. */
  function StyleRuleEntries(styles: seq<StyleInfo>): (r: seq<Element>)
    ensures |r| == |styles|
    ensures forall i :: 0 <= i < |styles| ==>
      var formats := Children(r[i], "format");
      && Attr(r[i], "element") == Str("map")
      && |formats| == 2
      && Attr(formats[0], "attr") == Str("map-style") && Attr(formats[0], "value") == Str(MapboxUrl(styles[i]))
      && Attr(formats[1], "attr") == Str("washout") && Attr(formats[1], "value") == Number(0)
    ensures forall i :: 0 <= i < |styles| ==>
      && r[i].attrs.Keys == {"element"}
      && r[i].children.Keys == {"format"}
      && |r[i].children["format"]| == 2
      && (forall f :: f in r[i].children["format"] ==> f.attrs.Keys == {"attr", "value"} && f.children == map[])
  {
    seq(|styles|, i requires 0 <= i < |styles| => StyleRuleEntry(styles[i]))
  }

  /**
   * The three lists describe the same styles, entry by entry: equal lengths;
   * the map-style repeats the layer's display name and requests the layer's
   * style; the default rule shows the map-style of the same index.
   */
  predicate Aligned(layers: seq<Element>, mapStyles: seq<Element>, styleRules: seq<Element>)
  {
    && |layers| == |mapStyles| == |styleRules|
    && forall i :: 0 <= i < |layers| ==>
      var layerStyles := Children(mapStyles[i], "map-layer-style");
      var formats := Children(styleRules[i], "format");
      && Attr(mapStyles[i], "display-name") == Attr(layers[i], "display-name")
      && |layerStyles| == 1
      && Attr(layerStyles[0], "name") == Attr(layers[i], "display-name")
      && Attr(layerStyles[0], "request-string") == Attr(layers[i], "name")
      && |formats| >= 1
      && Attr(formats[0], "value") == Attr(mapStyles[i], "name")
  }

  /** The three generated lists are aligned, whatever the styles and names. */
  lemma EntriesAligned(styles: seq<StyleInfo>, names: seq<string>)
    ensures Aligned(LayerEntries(styles, names), MapStyleEntries(styles, names), StyleRuleEntries(styles))
  {
  }

  /**
   * Reading the generated lists back: with one name per style, the
   * display-name column of the layers is the names and their name column
   * the style ids, in input order.
   */
  lemma EntriesReadBack(styles: seq<StyleInfo>, names: seq<string>)
    requires |names| == |styles|
    ensures Column(LayerEntries(styles, names), "display-name") == seq(|names|, i requires 0 <= i < |names| => Str(names[i]))
    ensures Column(MapStyleEntries(styles, names), "display-name") == seq(|names|, i requires 0 <= i < |names| => Str(names[i]))
    ensures Column(LayerEntries(styles, names), "name") == seq(|styles|, i requires 0 <= i < |styles| => Str(styles[i].style))
  {
  }

  /**
   * The Mapbox style URL names its user and style recoverably: split on
   * `/`, it gives back both, so two styles share a URL only when they share
   * user name and style id.
   */
  lemma MapboxUrlParts(d: StyleInfo)
    requires '/' !in d.username && '/' !in d.style
    ensures Split(MapboxUrl(d), '/') == ["mapbox:", "", "styles", d.username, d.style]
  {
    var parts := ["mapbox:", "", "styles", d.username, d.style];
    assert parts[1..][1..][1..][1..] == [d.style];
    assert Join(parts[1..][1..][1..], '/') == d.username + "/" + d.style;
    assert Join(parts[1..], '/') == "/styles/" + d.username + "/" + d.style;
    assert MapboxUrl(d) == Join(parts, '/');
    SplitJoin(parts, '/');
  }

  /** Why the rewrite stopped before changing the template. */
  datatype GenerateError =
    | InvalidUrl(failure: UrlFailure)  // a URL could not be decomposed
    | NoStyles                         // there is no first style to take the connection from

  /**
   * The parts of the parsed template that the rewrite touches: the
   * attributes of `mapsource.connection[0]`, and the lists
   * `mapsource.layers[0].layer`, `mapsource["map-styles"][0]["map-style"]`
   * and `mapsource["mapsource-defaults"][0].style[0]["style-rule"]`.
   */
  class Mapsource {
    var connection: map<string, Value>
    var layers: seq<Element>
    var mapStyles: seq<Element>
    var styleRules: seq<Element>

    constructor (connection: map<string, Value>, layers: seq<Element>,
                 mapStyles: seq<Element>, styleRules: seq<Element>)
      ensures this.connection == connection && this.layers == layers
      ensures this.mapStyles == mapStyles && this.styleRules == styleRules
    {
      this.connection := connection;
      this.layers := layers;
      this.mapStyles := mapStyles;
      this.styleRules := styleRules;
    }

    /** The rewritten document holds one coherent connection and aligned lists. */
    ghost predicate Coherent()
      reads this
    {
      ConnectionCoherent(connection) && Aligned(layers, mapStyles, styleRules)
    }

    /** Step 2: set the connection attributes from `d`. */
    method EditConnection(d: StyleInfo)
      modifies this
      ensures connection == Connect(old(connection), d)
      ensures layers == old(layers) && mapStyles == old(mapStyles) && styleRules == old(styleRules)
    {
      var attrs := connection;
      attrs := attrs["api-key" := Str(d.token)];
      attrs := attrs["server" := Str(d.scheme + "//" + d.server)];
      attrs := attrs["url" := Str(d.url)];
      attrs := attrs["port" := Str(d.port)];
      attrs := attrs["username" := Str(d.username)];
      attrs := attrs["url-format" := Str(UrlFormat(d.url, d.username, d.token))];
      connection := attrs;
    }

    /** Step 3: drop the template's layers and list one per style. */
    method EditLayers(styles: seq<StyleInfo>, names: seq<string>)
      modifies this
      ensures layers == LayerEntries(styles, names)
      ensures connection == old(connection) && mapStyles == old(mapStyles) && styleRules == old(styleRules)
    {
      layers := [];  // delete
      layers := LayerEntries(styles, names);
    }

    /** Step 4: drop the template's map styles and list one per style. */
    method EditMapStyles(styles: seq<StyleInfo>, names: seq<string>)
      modifies this
      ensures mapStyles == MapStyleEntries(styles, names)
      ensures connection == old(connection) && layers == old(layers) && styleRules == old(styleRules)
    {
      mapStyles := [];  // delete
      mapStyles := MapStyleEntries(styles, names);
    }

    /** Step 5: drop the template's default rules and list one per style. */
    method EditDefaults(styles: seq<StyleInfo>)
      modifies this
      ensures styleRules == StyleRuleEntries(styles)
      ensures connection == old(connection) && layers == old(layers) && mapStyles == old(mapStyles)
    {
      styleRules := [];  // delete
      styleRules := StyleRuleEntries(styles);
    }

    /**
     * Steps 1 to 5 of `generateTMS`. Every URL is decomposed first; a URL
     * that cannot be, or an empty URL list, stops the rewrite before anything
     * changes. Otherwise the connection is taken from the first style, the
     * three lists are replaced by one entry per URL in input order, and the
     * document is coherent.
     */
    method Generate(urls: seq<string>, names: seq<string>) returns (outcome: Outcome<GenerateError>)
      modifies this
      ensures DecomposeAll(urls).Failure? ==>
        outcome == Fail(InvalidUrl(DecomposeAll(urls).error)) && unchanged(this)
      ensures DecomposeAll(urls).Success? && urls == [] ==>
        outcome == Fail(NoStyles) && unchanged(this)
      ensures outcome.Pass? <==> DecomposeAll(urls).Success? && urls != []
      ensures outcome.Pass? ==>
        var styles := DecomposeAll(urls).value;
        && connection == Connect(old(connection), styles[0])
        && layers == LayerEntries(styles, names)
        && mapStyles == MapStyleEntries(styles, names)
        && styleRules == StyleRuleEntries(styles)
      ensures outcome.Pass? ==>
        Coherent() && |layers| == |mapStyles| == |styleRules| == |urls|
    {
      var decomposed := DecomposeAll(urls);
      if decomposed.Failure? {
        return Fail(InvalidUrl(decomposed.error));
      }
      var styles := decomposed.value;
      if |styles| == 0 {
        return Fail(NoStyles);
      }
      EditConnection(styles[0]);
      EditLayers(styles, names);
      EditMapStyles(styles, names);
      EditDefaults(styles);
      EntriesAligned(styles, names);
      outcome := Pass;
    }
  }
}
