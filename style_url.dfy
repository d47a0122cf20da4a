/**
 * The style-URL decomposer of `generateTMS`: every Mapbox Atlas style URL
 * is cut into fixed positions after splitting on `/`, then the host piece on
 * `:`, and the last path piece on `.`, `=` and `#`.
 */
module StyleUrl {
  import opened Results
  import opened Strings

  /** What the tool keeps of one style URL (the `styleInfo` record). */
  datatype StyleInfo = StyleInfo(
    scheme: string,    // first `/`-piece, verbatim, colon included
    server: string,    // host name without port
    port: string,
    url: string,       // the two API path pieces joined by `/`
    username: string,
    style: string,     // style id: last path piece up to its first `.`
    token: string)     // access token, fragment removed

  /** Why a URL cannot be decomposed: an index the source reads is missing. */
  datatype UrlError =
    | MissingStyleSegment(segments: nat)  // fewer than 7 `/`-pieces
    | MissingToken(pieces: nat)           // the 7th piece has fewer than 3 `=`-pieces

  /** The failing URL of a list and why it failed. */
  datatype UrlFailure = UrlFailure(index: nat, reason: UrlError)

  /**
   * Decomposes one style URL. Succeeds exactly when the URL has at least six
   * `/` and its seventh `/`-piece at least two `=`; the port is "443" for the
   * scheme "https:", whatever port the host piece names.
   */
  function Decompose(u: string): (r: Result<StyleInfo, UrlError>)
    ensures r.Failure? <==> Count(u, '/') < 6 || Count(Split(u, '/')[6], '=') < 2
    ensures r.Success? ==> var d := r.value;
      && '/' !in d.scheme && '/' !in d.username
      && ':' !in d.server && '/' !in d.server
      && '.' !in d.style && '/' !in d.style
      && '#' !in d.token && '=' !in d.token && '/' !in d.token
      && (d.scheme == "https:" ==> d.port == "443")
      && (d.scheme != "https:" ==> ':' !in d.port && '/' !in d.port)
  {
    var segments := Split(u, '/');
    if |segments| < 7 then Failure(MissingStyleSegment(|segments|))
    else
      var paramSplit := Split(segments[6], '.');
      var tokenSplit := Split(segments[6], '=');
      if |tokenSplit| < 3 then Failure(MissingToken(|tokenSplit|))
      else
        var host := Split(segments[2], ':');
        var port :=
          if segments[0] == "https:" then "443"
          else if |host| < 2 then "80"
          else host[1];
        Success(StyleInfo(
          segments[0],
          host[0],
          port,
          segments[3] + "/" + segments[4],
          segments[5],
          paramSplit[0],
          Split(tokenSplit[2], '#')[0]))
  }

  /**
   * Where server, port and style sit in the URL: the server is the longest
   * colon-free prefix of the host piece; a non-https port is "80" when the
   * host piece has no colon and otherwise the colon-free text right after
   * its first colon; the style is the longest dot-free prefix of the last
   * path piece.
   */
  lemma DecomposePositions(u: string)
    requires Decompose(u).Success?
    ensures var d := Decompose(u).value;
      var host := Split(u, '/')[2];
      var file := Split(u, '/')[6];
      && d.server <= host
      && (|d.server| < |host| ==> host[|d.server|] == ':')
      && (':' !in host ==> d.server == host)
      && (d.scheme != "https:" && ':' !in host ==> d.port == "80")
      && (d.scheme != "https:" && ':' in host ==>
            d.server + ":" + d.port <= host
            && (|d.server| + 1 + |d.port| < |host| ==> host[|d.server| + 1 + |d.port|] == ':'))
      && d.style <= file
      && (|d.style| < |file| ==> file[|d.style|] == '.')
  {
    var d := Decompose(u).value;
    var host := Split(u, '/')[2];
    var file := Split(u, '/')[6];
    FirstPiece(host, ':');
    FirstPiece(file, '.');
    if ':' in host {
      var server := Split(host, ':')[0];
      assert |server| < |host| by {
        if |server| == |host| {
          assert server == host;
        }
      }
      var tail := host[|server| + 1..];
      assert host == server + [':'] + tail;
      SplitAt(server, tail, ':');
      FirstPiece(tail, ':');
      if d.scheme != "https:" {
        assert d.port == Split(tail, ':')[0];
        assert d.server + ":" + d.port == host[..|server| + 1 + |d.port|];
      }
    } else {
      SplitWithout(host, ':');
    }
  }

  /**
   * Where the other fields come from: the token is the longest `#`-free
   * prefix of the third `=`-piece of the last path piece; the scheme is the
   * first `/`-piece, the API path the fourth and fifth joined by `/`, the
   * user name the sixth.
   */
  lemma DecomposeSources(u: string)
    requires Decompose(u).Success?
    ensures var d := Decompose(u).value;
      var segments := Split(u, '/');
      var t := Split(segments[6], '=')[2];
      && d.token <= t
      && (|d.token| < |t| ==> t[|d.token|] == '#')
      && ('#' !in t ==> d.token == t)
      && d.scheme == segments[0]
      && d.url == segments[3] + "/" + segments[4]
      && d.username == segments[5]
  {
    FirstPiece(Split(Split(u, '/')[6], '=')[2], '#');
  }

  /** Decomposes every URL in order; the first URL that cannot be decomposed aborts the whole list. */
  function DecomposeAll(urls: seq<string>): (r: Result<seq<StyleInfo>, UrlFailure>)
    ensures r.Success? <==> forall i :: 0 <= i < |urls| ==> Decompose(urls[i]).Success?
    ensures r.Success? ==>
      && |r.value| == |urls|
      && forall i :: 0 <= i < |urls| ==> Decompose(urls[i]) == Success(r.value[i])
    ensures r.Failure? ==>
      && r.error.index < |urls|
      && Decompose(urls[r.error.index]) == Failure(r.error.reason)
      && forall j :: 0 <= j < r.error.index ==> Decompose(urls[j]).Success?
  {
    if urls == [] then Success([])
    else
      match Decompose(urls[0])
      case Failure(e) => Failure(UrlFailure(0, e))
      case Success(d) =>
        match DecomposeAll(urls[1..])
        case Failure(f) => Failure(UrlFailure(f.index + 1, f.reason))
        case Success(ds) => Success([d] + ds)
  }

  /**
   * The parts of an Atlas style URL of the shape
   * `scheme//host[:port]/api/version/username/style.query=value=token[#fragment]`.
   */
  datatype AtlasUrl = AtlasUrl(
    scheme: string,
    host: string,
    port: Option<string>,
    api: string,
    version: string,
    username: string,
    style: string,
    query: string,
    value: string,
    token: string,
    fragment: Option<string>)

  /** The parts can be told apart again: no part holds a separator it would be cut on. */
  predicate WellFormed(a: AtlasUrl)
  {
    && '/' !in a.scheme && '/' !in a.host && '/' !in a.api && '/' !in a.version
    && '/' !in a.username && '/' !in a.style && '/' !in a.query && '/' !in a.value
    && '/' !in a.token
    && (a.port.Some? ==> '/' !in a.port.value && ':' !in a.port.value)
    && (a.fragment.Some? ==> '/' !in a.fragment.value)
    && ':' !in a.host
    && '.' !in a.style
    && '=' !in a.style && '=' !in a.query && '=' !in a.value && '=' !in a.token
    && '#' !in a.token
  }

  function HostPiece(a: AtlasUrl): string
  {
    if a.port.Some? then a.host + ":" + a.port.value else a.host
  }

  function FilePiece(a: AtlasUrl): string
  {
    a.style + "." + a.query + "=" + a.value + "=" + a.token
      + (if a.fragment.Some? then "#" + a.fragment.value else "")
  }

  /** The text of the URL the parts describe. */
  function Compose(a: AtlasUrl): string
  {
    Join([a.scheme, "", HostPiece(a), a.api, a.version, a.username, FilePiece(a)], '/')
  }

  lemma SplitFirstAppend(x: string, y: string, c: char)
    requires c !in x
    ensures Split(x + y, c)[0] == x + Split(y, c)[0]
  {
    var ps := Split(y, c);
    JoinSplit(y, c);
    if |ps| == 1 {
      SplitWithout(x + y, c);
    } else {
      assert y == ps[0] + [c] + Join(ps[1..], c);
      assert x + y == (x + ps[0]) + [c] + Join(ps[1..], c);
      SplitAt(x + ps[0], Join(ps[1..], c), c);
    }
  }

  lemma HostPieceSplit(a: AtlasUrl)
    requires WellFormed(a)
    ensures Split(HostPiece(a), ':') == if a.port.Some? then [a.host, a.port.value] else [a.host]
  {
    if a.port.Some? {
      SplitAt(a.host, a.port.value, ':');
      SplitWithout(a.port.value, ':');
      assert HostPiece(a) == a.host + [':'] + a.port.value;
    } else {
      SplitWithout(a.host, ':');
    }
  }

  lemma FilePieceStyle(a: AtlasUrl)
    requires WellFormed(a)
    ensures Split(FilePiece(a), '.')[0] == a.style
  {
    var afterDot := a.query + "=" + a.value + "=" + a.token
      + (if a.fragment.Some? then "#" + a.fragment.value else "");
    assert FilePiece(a) == a.style + ['.'] + afterDot;
    SplitAt(a.style, afterDot, '.');
  }

  /** The token piece `token#fragment` (or `token` alone) cuts back to the token at its first `=` and `#`. */
  lemma TokenPieceSplit(token: string, tail: string)
    requires '=' !in token && '#' !in token
    requires tail == [] || tail[0] == '#'
    ensures Split(Split(token + tail, '=')[0], '#')[0] == token
  {
    SplitFirstAppend(token, tail, '=');
    var rest := Split(tail, '=')[0];
    FirstPiece(tail, '=');
    SplitFirstAppend(token, rest, '#');
    if rest != [] {
      assert rest == [] + ['#'] + rest[1..];
      SplitAt([], rest[1..], '#');
    }
  }

  lemma FilePieceToken(a: AtlasUrl)
    requires WellFormed(a)
    ensures |Split(FilePiece(a), '=')| >= 3
    ensures Split(Split(FilePiece(a), '=')[2], '#')[0] == a.token
  {
    var tail := if a.fragment.Some? then "#" + a.fragment.value else "";
    var tokenPiece := a.token + tail;
    var head := a.style + "." + a.query;
    assert '=' !in head;
    assert FilePiece(a) == head + ['='] + (a.value + ['='] + tokenPiece);
    SplitAt(head, a.value + ['='] + tokenPiece, '=');
    SplitAt(a.value, tokenPiece, '=');
    assert Split(FilePiece(a), '=') == [head, a.value] + Split(tokenPiece, '=');
    TokenPieceSplit(a.token, tail);
  }

  /**
   * Round trip: decomposing the URL composed from well-formed parts gives
   * back its scheme, host, API path, user name, style and token, whatever
   * the fragment; the port is "443" for https, the explicit port otherwise,
   * and "80" when there is none.
   */
  lemma DecomposeCompose(a: AtlasUrl)
    requires WellFormed(a)
    ensures Decompose(Compose(a)) == Success(StyleInfo(
      a.scheme,
      a.host,
      if a.scheme == "https:" then "443" else if a.port.Some? then a.port.value else "80",
      a.api + "/" + a.version,
      a.username,
      a.style,
      a.token))
  {
    var file := FilePiece(a);
    var host := HostPiece(a);
    var segments := [a.scheme, "", host, a.api, a.version, a.username, file];
    assert '/' !in host;
    assert '/' !in file;
    SplitJoin(segments, '/');
    HostPieceSplit(a);
    FilePieceStyle(a);
    FilePieceToken(a);
  }

  /**
   * A URL whose last path piece carries a single `name=value` parameter,
   * `.../username/style.json?access_token=TOKEN`, has no third `=`-piece: it
   * is rejected although it names an access token.
   */
  lemma SingleParameterRejected(scheme: string, host: string, api: string, version: string,
                                username: string, head: string, token: string)
    requires '/' !in scheme && '/' !in host && '/' !in api && '/' !in version
    requires '/' !in username && '/' !in head && '/' !in token
    requires '=' !in head && '=' !in token
    ensures Decompose(Join([scheme, "", host, api, version, username, head + "=" + token], '/'))
      == Failure(MissingToken(2))
  {
    var file := head + "=" + token;
    SplitJoin([scheme, "", host, api, version, username, file], '/');
    SplitAt(head, token, '=');
    SplitWithout(token, '=');
  }
}
