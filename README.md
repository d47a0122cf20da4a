# tabAtlas: Mapbox Atlas style URLs to a Tableau Mapsource, in Dafny

tabAtlas turns one or more Mapbox Atlas style URLs into a Tableau Mapsource
(`Atlas.tms`). It asks for a URL and a display name per style, decomposes
each URL into scheme, server, port, API path, user name, style id and access
token, and rewrites four places of a fixed TMS template: the connection
attributes (from the first style only), the `layer` list, the `map-style`
list and the default `style-rule` list (one entry per style, in input
order).

This project models that core in Dafny:

- `strings.dfy` (module `Strings`): JavaScript's `split` with a
  one-character separator, its inverse `join`, `includes`, and the decimal
  rendering of a number in a template literal, with the lemmas that tie
  them together (split and join are inverse; the first piece is the longest
  separator-free prefix; `includes` means "occurs at some position").
- `style_url.dfy` (module `StyleUrl`): the positional decomposer of one URL
  (`Decompose`) and of the whole list (`DecomposeAll`), failing exactly
  where the source would read a missing index; a composer of Atlas URLs
  from their parts and the round trip between the two.
- `tms.dfy` (module `Tms`): the parsed template as a class `Mapsource`
  whose four fields the rewrite reassigns, the pure builders of the new
  connection attributes and entry lists, and the invariants of the result
  (coherent connection, the three lists aligned entry by entry).
- `prompts.dfy` (module `Prompts`): `generateList`, `generatePrompt`, and
  the proof that the answers to the generated questions are read back as
  exactly the URLs and exactly the names, in order.
- `results.dfy` (module `Results`): `Result`, `Option`, `Outcome`.

Points where the code decides something its own comments leave open, and
which the model follows:

- The token is the third `=`-piece of the last path piece
  (`tokenSplit[2]`), cut at its first `#`; it is not looked up by the
  parameter name `access_token`. A URL ending in
  `style.json?access_token=pk.X`, with a single `=`, is therefore rejected
  (`StyleUrl.SingleParameterRejected`); a URL such as
  `.../style.json?fresh=true&access_token=pk.X#frag` gives `pk.X`.
- For a non-https scheme the port is the second `:`-piece of the host
  piece (the text between its first and second colon), "80" when there is
  no colon.
- The request template is built as
  `/{url}/{username}/{L}/tiles/{Z}/{X}/{Y}{D}?access_token={token}`, as the
  code at src/index.js:116 does, not with the `#{url}` and `{Y}/{D}` its
  comment at line 106 shows.
- A URL that cannot be decomposed is not validated against a named shape:
  decomposition fails exactly when the source would read `internalSplit[6]`
  or `tokenSplit[2]` past the end (fewer than six `/`, or fewer than two `=`
  in the seventh piece). It aborts the whole rewrite before anything
  changes, as the exception thrown inside the source's `map` does.
- An empty URL list makes the source fail at `styleSplit[0].token`, before
  the connection is touched; the model reports `NoStyles` and leaves the
  template unchanged.
- There is no check that there are as many names as URLs. A style with no
  name gets JavaScript's `undefined` as its display name
  (`Tms.DisplayName`), as `styleName[index]` does. The prompt flow always
  supplies one name per URL (`Prompts.AnswersSelect`).

## Model

| member | source | states |
|---|---|---|
| `Strings.Split` | src/index.js:78 | `split` with a one-character separator gives one piece more than there are separators, no piece holds the separator, and every character of a piece comes from the string |
| `Strings.JoinSplit` | src/index.js:78 | joining the pieces of a split with the separator gives back the string |
| `Strings.SplitJoin` | src/index.js:78 | splitting a join of separator-free pieces gives back the pieces |
| `Strings.FirstPiece` | src/index.js:83 | the first piece of a split (`split(c)[0]`) is the longest prefix free of the separator: all of the string when it has none |
| `Strings.Includes` | src/index.js:19 | `includes` can only hold when the keyword is no longer than the key |
| `Strings.IncludesAt` | src/index.js:19 | `includes(keyword)` holds exactly when the keyword occurs at some position of the key |
| `Strings.MissingCharExcludes` | src/index.js:19 | a keyword holding a character the key lacks is not included in it |
| `Strings.Decimal` | src/index.js:201 | the rendering of a number in a template literal is a non-empty run of decimal digits |
| `Strings.DecimalInjective` | src/index.js:201 | different numbers render as different strings (reading the digits back gives the number) |
| `StyleUrl.Decompose` | src/index.js:77-97 | decomposition succeeds exactly when the URL has at least six `/` and its seventh piece at least two `=`; the scheme, user name, server, style and token hold no `/`; the server holds no `:`, the style no `.`, the token neither `#` nor `=`; the port is "443" for the scheme "https:" and otherwise a colon-free piece |
| `StyleUrl.DecomposePositions` | src/index.js:83-94 | the server is the longest colon-free prefix of the host piece; a non-https port is "80" without a colon and otherwise the colon-free text right after the first colon; the style is the longest dot-free prefix of the last path piece |
| `StyleUrl.DecomposeSources` | src/index.js:82-95 | for every URL that decomposes: the token is the longest `#`-free prefix of the third `=`-piece of the seventh `/`-piece; the scheme is the first `/`-piece, the API path the fourth and fifth joined by `/`, the user name the sixth |
| `StyleUrl.DecomposeAll` | src/index.js:77-97 | the descriptor list has one entry per URL and entry i is the decomposition of URL i; otherwise the result names the first URL that fails and why |
| `StyleUrl.DecomposeCompose` | src/index.js:77-97 | round trip: the URL composed from well-formed parts `scheme//host[:port]/api/version/user/style.query=value=token[#fragment]` decomposes into exactly those scheme, host, API path, user, style and token, with port "443" for https, the explicit port otherwise and "80" without one; the fragment may hold no `/` (a fragment such as `#zoom/lat/lng` adds `/`-pieces, and only `DecomposePositions` and `DecomposeSources` cover such URLs) |
| `StyleUrl.SingleParameterRejected` | src/index.js:80-95 | a last path piece with a single `name=value` parameter, such as `style.json?access_token=TOKEN`, is rejected for lack of a third `=`-piece |
| `Tms.UrlFormat` | src/index.js:114-116 | the request template starts with `/` + API path + `/`, ends with the token, and is 41 characters longer than API path, user name and token together (the literal placeholders) |
| `Tms.DisplayName` | src/index.js:127 | `styleName[index]`: the name at the index when there is one, `undefined` exactly when the index is past the end of the names |
| `Tms.Connect` | src/index.js:108-116 | the six connection keys are set from the descriptor (`server` is scheme + `//` + server), every other attribute is kept, and the request template is `/url/username/{L}/tiles/{Z}/{X}/{Y}{D}?access_token=` + the `api-key` beside it |
| `Tms.ConnectOverwrites` | src/index.js:108-116 | what the template held under the six keys does not matter: setting from d1 then d2 equals setting from d2 alone, so a second rewrite with the same first style changes nothing |
| `Tms.LayerEntries` | src/index.js:123-135 | the new layer list has one entry per style in input order; entry i has display name `names[i]`, name the style id, `show-ui` true and type "features", and no other attribute and no children |
| `Tms.MapStyleEntries` | src/index.js:142-161 | the new map-style list has one entry per style in input order; entry i has display name `names[i]`, name `mapbox://styles/{user}/{style}`, wait-tile colour "#dddddd" and exactly one map-layer-style child named `names[i]` requesting the style id; the entry has no other attribute or child tag, the child no other attribute and no children |
| `Tms.StyleRuleEntries` | src/index.js:168-189 | the new style-rule list has one entry per style in input order; entry i has element "map" and exactly two format children: map-style = the same Mapbox URL, washout = 0; the rule has no other attribute or child tag, each format child only `attr` and `value` and no children |
| `Tms.EntriesAligned` | src/index.js:123-189 | the three generated lists have equal length and agree entry by entry: same display name, the map-layer-style requests the layer's style, the default rule shows the map-style of the same index |
| `Tms.EntriesReadBack` | src/index.js:123-161 | with one name per style, the display-name columns of the layers and map-styles are the names and the layers' name column the style ids, in input order |
| `Tms.MapboxUrlParts` | src/index.js:147 | the Mapbox style URL splits on `/` back into its user name and style id, so it identifies both |
| `Tms.Mapsource.constructor` | src/index.js:61-65 | the template parts the rewrite touches, as parsed |
| `Tms.Mapsource.EditConnection` | src/index.js:108-116 | the connection becomes `Connect(old connection, d)`; the three lists are unchanged |
| `Tms.Mapsource.EditLayers` | src/index.js:123-135 | the old layers are dropped and the list becomes `LayerEntries`; everything else is unchanged |
| `Tms.Mapsource.EditMapStyles` | src/index.js:142-161 | the old map styles are dropped and the list becomes `MapStyleEntries`; everything else is unchanged |
| `Tms.Mapsource.EditDefaults` | src/index.js:168-189 | the old default rules are dropped and the list becomes `StyleRuleEntries`; everything else is unchanged |
| `Tms.Mapsource.Generate` | src/index.js:77-189 | a URL that cannot be decomposed, or an empty list, fails with nothing changed; otherwise the connection comes from the first style, the three lists hold one entry per URL in input order, and the document is coherent |
| `Prompts.GenerateList` | src/index.js:17-24 | the result has at most one value per entry; a value is in it exactly when it belongs to an entry whose key includes the keyword |
| `Prompts.GenerateListAppend` | src/index.js:17-24 | selection distributes over concatenation, so values keep their key order |
| `Prompts.GeneratePrompt` | src/index.js:198-210 | two input questions with the source's messages, keyed `"style"` + n and `"name"` + n in decimal; the first key includes "style" and not "name", the second "name" and not "style" |
| `Prompts.KeyKeywords` | src/index.js:198-210 | "style" followed by digits never includes "name", nor "name" followed by digits "style" |
| `Prompts.PromptNamesDistinct` | src/index.js:198-210 | the questions for different style numbers have different keys |
| `Prompts.AnswersSelect` | src/index.js:42-43 | from the answers to the repository question and the questions for styles 1..N, selecting by "style" gives exactly the URLs and by "name" exactly the names, in order |

## Left out

- The command-line shell (the `generate` command, its `--number` option, the loop that assembles the prompt list and the prompting itself, src/index.js:212-243): user interface. `Prompts.Answers` stands for the answers object it produces.
- The reachability checks (`urlPromises`, `testStatus` and the `Promise.all` in `preTest`): network calls, and their result is not awaited before generation.
- Reading `Template.tms` and writing `Mapsources/Atlas.tms`: file I/O.
- Parsing and serialising XML with xml2js: a foreign library. The model starts from the parsed tree and ends with the rewritten tree; no XML round trip is modelled.
- The asynchronous structure of `generateTMS`: modelled as one synchronous method.
- A template lacking one of the expected nodes (the source throws when reading `mapsource.connection[0]` and the like): `Tms.Mapsource` always holds the four parts, so this failure is not represented.
- The parts of the template the rewrite does not touch are not represented in `Tms.Mapsource`; the rewrite reads and writes only the four parts it holds.
- `Object.keys` lists integer-like keys first; `Prompts.GenerateList` takes the entries already in key order, and the keys the tool uses are not integer-like.
