/** The `X-RapidAPI-Host` header derivation of `PriceScout.fetch_prices`
    (main.py:41): `base_url.split('//')[1].split('/')[0]`. It runs before the
    request's `try` block, so the `IndexError` raised for a URL without `//`
    escapes the fetch. */
module Host {
  import opened Wrappers
  import opened Strings
  import opened Records

  /** The host header value exactly as main.py computes it. Indexing `[1]`
      raises when splitting on `//` gives a single piece. */
  function HostHeader(baseUrl: string): (r: Result<string, Uncaught>)
    ensures r.Failure? <==> Find(baseUrl, "//").None?
    ensures r.Success? ==> IsHostAt(baseUrl, Find(baseUrl, "//").value + 2, r.value)
  {
    var parts := Split(baseUrl, "//");
    if |parts| < 2 then Failure(IndexError)
    else
      SecondPieceIsHost(baseUrl);
      Success(Split(parts[1], "/")[0])
  }

  /** `h` is the text of `url` starting at index `i`, up to the next `/` or to the
      end of `url`; it contains no `/`. */
  predicate IsHostAt(url: string, i: nat, h: string) {
    && i + |h| <= |url|
    && url[i..i + |h|] == h
    && '/' !in h
    && (i + |h| == |url| || url[i + |h|] == '/')
  }

  /** The piece after the first `//` is the head of splitting what follows it. */
  lemma SplitSecondPiece(s: string, i: nat)
    requires Find(s, "//") == Some(i)
    ensures |Split(s, "//")| >= 2
    ensures Split(s, "//")[1] == Split(s[i + 2..], "//")[0]
  {
  }

  /** Cutting at the first `//` and then at the first `/` is cutting at the first
      `/`: the result is the longest prefix of `rest` free of `/`. */
  lemma {:induction false} SlashFreePrefix(rest: string)
    ensures IsHostAt(rest, 0, Split(Split(rest, "//")[0], "/")[0])
  {
    var seg := Split(rest, "//")[0];
    SplitHead(rest, "//");
    SplitHead(seg, "/");
    var h := Split(seg, "/")[0];
    NoCharOccurrence(h, '/');
    if |h| < |seg| {
      OccursAtChar(seg, '/', |h|);
      assert rest[|h|] == seg[|h|];
    } else if |seg| < |rest| {
      assert OccursAt(rest, "//", |seg|);
      assert rest[|seg|..|seg| + 2][0] == rest[|seg|];
    }
    assert rest[0..|h|] == h;
  }

  /** Moving the start index into the string itself. */
  lemma IsHostAtShift(url: string, i: nat, h: string)
    requires i <= |url| && IsHostAt(url[i..], 0, h)
    ensures IsHostAt(url, i, h)
  {
    assert url[i..][0..|h|] == url[i..i + |h|];
    if i + |h| < |url| {
      assert url[i..][|h|] == url[i + |h|];
    }
  }

  /** After the first `//`, cutting the second piece of the split at its first
      `/` leaves the text up to the next `/` or the end of the URL. */
  lemma {:induction false} SecondPieceIsHost(baseUrl: string)
    requires Find(baseUrl, "//").Some?
    ensures |Split(baseUrl, "//")| >= 2
    ensures IsHostAt(baseUrl, Find(baseUrl, "//").value + 2, Split(Split(baseUrl, "//")[1], "/")[0])
  {
    var i := Find(baseUrl, "//").value;
    var rest := baseUrl[i + 2..];
    SplitSecondPiece(baseUrl, i);
    SlashFreePrefix(rest);
    IsHostAtShift(baseUrl, i + 2, Split(Split(rest, "//")[0], "/")[0]);
  }

  /** The slash-free prefix that ends at a `/` or at the end is unique. */
  lemma SlashFreePrefixUnique(t: string, a: nat, b: nat)
    requires a <= |t| && b <= |t|
    requires '/' !in t[..a] && (a == |t| || t[a] == '/')
    requires '/' !in t[..b] && (b == |t| || t[b] == '/')
    ensures a == b
  {
  }

  /** Only one text stands at a given index in that way. */
  lemma HostAtUnique(url: string, i: nat, h1: string, h2: string)
    requires IsHostAt(url, i, h1) && IsHostAt(url, i, h2)
    ensures h1 == h2
  {
    var t := url[i..];
    assert t[..|h1|] == h1 && t[..|h2|] == h2;
    SlashFreePrefixUnique(t, |h1|, |h2|);
  }

  /** When the scheme holds no `/`, the first `//` is the one right after it. */
  lemma FirstDoubleSlashAfterScheme(scheme: string, rest: string)
    requires '/' !in scheme
    ensures Find(scheme + "//" + rest, "//") == Some(|scheme|)
  {
    var u := scheme + "//" + rest;
    var s := |scheme|;
    assert u[s..s + 2] == "//";
    forall j: nat | j < s
      ensures !OccursAt(u, "//", j)
    {
      assert u[j] == scheme[j];
    }
    assert OccursAt(u, "//", s);
  }

  /** For a URL of the shape `scheme//host/path` whose scheme and host hold no `/`,
      the host header is `host`. */
  lemma {:induction false} HostHeaderOfUrl(scheme: string, host: string, path: string)
    requires '/' !in scheme && '/' !in host
    requires path == [] || path[0] == '/'
    ensures HostHeader(scheme + "//" + host + path) == Success(host)
  {
    var u := scheme + "//" + host + path;
    var s := |scheme|;
    assert u == scheme + "//" + (host + path);
    FirstDoubleSlashAfterScheme(scheme, host + path);
    assert IsHostAt(u, s + 2, host) by {
      assert u[s + 2..s + 2 + |host|] == host;
      if path != [] {
        assert u[s + 2 + |host|] == path[0];
      }
    }
    HostAtUnique(u, s + 2, HostHeader(u).value, host);
  }

  /** With the shipped configuration the host derivation does not raise, and the
      host header is the API's host name. */
  lemma DefaultHostHeader()
    ensures HostHeader(DefaultBaseUrl) == Success(DefaultApiHost)
  {
    assert DefaultApiPath[0] == '/';
    HostHeaderOfUrl("https:", DefaultApiHost, DefaultApiPath);
  }
}
