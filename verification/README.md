# Bang search redirector: a Dafny model

This project models the core of a "bang" search redirector written in Rust.
A query such as `!ddg rust programming` names a search engine with a leading
bang token (`!ddg`). The server looks that token up in a map from token to URL
template and redirects to the template with `{searchTerms}` replaced by the
percent-encoded rest of the query. A query with no bang, or with a bang the
map does not know, goes to a hard-coded Google search for the whole query.

The model covers three pieces:

- `Bangs` (src/bangs.rs): `extract_bang`, which splits a query into an
  optional bang and a search term. The split is at the first U+0020 space.
- `Routes` (src/routes.rs): what `/search` and `/live` decide once the HTTP
  framework is taken away. Each handler is a pure function of the optional
  `q` parameter and the read-only token-to-template map. It also models the
  `{searchTerms}` replace-all substitution.
- `Configuration` (src/config.rs): the `BangDetails` and `Config` records and
  the built-in registry that `default_config` builds with six inserts.

`UrlEncoding` is a concrete percent-encoder. It stands in for the
`urlencoding::encode` crate function, which the handlers otherwise take as a
parameter. It writes each character as UTF-8 and keeps the unreserved
characters of section 2.3 of RFC 3986. Every other byte becomes `%XX` with
upper-case hex (section 2.1 of RFC 3986).

`Scenarios` restates the cases from tests/bangs_tests.rs and
tests/routes_tests.rs and derives them from the general lemmas. Test queries
are written as concatenations of their words, e.g. `"!ddg" + " " + "rust"`.

Where the tests and the code disagree, the model follows the code:

- `extract_bang` does not trim whitespace and does not recognise a bang at
  the end of the query. tests/bangs_tests.rs:68-80 and :87 expect both.
  `Scenarios.NoSuffixNoTrim` states what the code really returns.
- The routes take a single map from token to template. There is no public or
  private tier, no credential and no `host_url` field, although
  tests/private_bangs_tests.rs expects them.
- The routes are modelled over the projection of each `BangDetails` to its
  `url` (`Configuration.UrlTemplates`). As written, src/main.rs:23 passes a
  whole `Config` to a router typed on `HashMap<String, String>`.

## Model

| member | source | states |
|---|---|---|
| `Bangs.FirstIndex` | src/bangs.rs:4 | The position of the first separator. It is absent exactly when the separator does not occur, and no earlier character is the separator. |
| `Bangs.SplitOnce` | src/bangs.rs:4 | `splitn(2, ' ')` gives one part, the whole string, exactly when there is no space. Otherwise it gives a space-free head and a tail, and head + space + tail is the input. |
| `Bangs.ExtractBang` | src/bangs.rs:2-21 | There is a bang exactly when the query starts with `!`. Without a bang the term is the untouched query. A returned bang is non-empty, starts with `!` and has no space. With a space the query is bang + space + term; without one the bang is the whole query and the term is empty. |
| `Bangs.FallbackUnreachable` | src/bangs.rs:13-15 | The inner `(None, query)` branch is dead. A `!` query that contains a space always splits into two parts, and the first part starts with `!`. |
| `Bangs.FirstSpaceSplits` | src/bangs.rs:4-8 | For a `!` query, the bang is exactly the text before the first space. The term is everything after it, verbatim. |
| `Bangs.JoinThenExtract` | src/bangs.rs:4-8 | Round trip: a bang token joined to any term by one space extracts back to that bang and that term. |
| `Bangs.BangAloneExtracts` | src/bangs.rs:9-12 | A bang token on its own is the bang, with the empty term. |
| `Bangs.NoBangUnchanged` | src/bangs.rs:17-19 | A query not led by `!` gives no bang and the query unchanged. |
| `Bangs.ExtractThenReassemble` | src/bangs.rs:4-19 | Reassembling the result gives back the query in every form. The three forms are bang + space + term, the bang alone, or the term alone. |
| `UrlEncoding.PercentEncode` | src/routes.rs:56 | The encoding is never shorter than the input. Every output character is unreserved or `%`. |
| `UrlEncoding.EncodeAppend` | src/routes.rs:65 | Encoding distributes over concatenation. |
| `UrlEncoding.EncodeUnreserved` | src/routes.rs:65 | Text made only of unreserved characters is unchanged. |
| `UrlEncoding.EncodeSpaceJoin` | src/routes.rs:56 | A space between two pieces becomes `%20`. |
| `UrlEncoding.EncodeAfterBang` | src/routes.rs:65 | A leading `!` becomes `%21`. |
| `Routes.FillTemplate` | src/routes.rs:56-65 | Replace-all of `{searchTerms}`: a template shorter than the marker comes back unchanged. Its value on every template is given by `FillWithoutMarker` (no marker: unchanged) and `FillFirst` (first marker replaced, the rest filled in turn). |
| `Routes.FillWithoutMarker` | src/routes.rs:56 | Substitution leaves a template without `{searchTerms}` unchanged. |
| `Routes.FillPrefix` | src/routes.rs:56 | A template prefix with no `{` is copied through unchanged ahead of the substituted rest. |
| `Routes.FillFirst` | src/routes.rs:56 | The first `{searchTerms}` is replaced by the value, whatever text precedes it, and the replacement continues on the rest of the template. |
| `Routes.FillTwoMarkers` | src/routes.rs:56 | A template with two markers has both replaced by the value. |
| `Routes.FillAtMarker` | src/routes.rs:56 | A marker at the start of the template is replaced by the value. |
| `Routes.FillSingle` | src/routes.rs:56 | A template made of a `{`-free prefix, one marker and a marker-free suffix becomes prefix + value + suffix. |
| `Routes.MarkerFound` | tests/config_tests.rs:16 | A template built around the marker contains it. |
| `Routes.MarkerAtEnd` | tests/config_tests.rs:16 | A template that ends with the marker contains it. |
| `Routes.ShortHasNoMarker` | tests/bangs_tests.rs:56 | Text shorter than the marker does not contain it. |
| `Routes.FillAtEnd` | src/routes.rs:56 | A template made of a `{`-free prefix followed by the marker fills to that prefix + the value. |
| `Routes.DefaultTemplateFill` | src/routes.rs:43 | The hard-coded default template filled with any value gives `https://www.google.com/search?q=` followed by that value. |
| `Routes.SearchHandler` | src/routes.rs:33-68 | There is a fallback to `https://www.google.com` exactly when `q` is absent. With no bang, or a bang the map lacks, the redirect is `https://www.google.com/search?q=` + encode(full raw query). |
| `Routes.KnownBangRedirect` | src/routes.rs:52-58 | For a known bang, the redirect is the map's template with every marker replaced by encode(term). |
| `Routes.KnownBangAlone` | src/routes.rs:52-58 | A known bang with no term fills its template with the encoding of the empty term. |
| `Routes.UnknownBangFallsThrough` | src/routes.rs:59-67 | An unknown bang is search text. The whole query, bang included, goes to the default engine. |
| `Routes.DefaultNeedsNoEntry` | src/routes.rs:64-67 | The default engine is hard-coded. With an empty map, every query still goes to Google. |
| `Routes.LiveHandler` | src/routes.rs:71-99 | An absent `q` gives query `""` and no bang. `query` is always the extracted term. `bang` is present exactly when the extracted bang is a key of the map, and it is then that extracted bang, a bang token. |
| `Routes.LiveAgreesWithSearch` | src/routes.rs:81-90 | When `/live` names a bang, `/search` fills that bang's template with `/live`'s term. Otherwise `/search` goes to Google with the whole query. |
| `Routes.LiveTermIsExtracted` | src/routes.rs:93-96 | For bang + space + term, `/live` returns that term whether or not the bang is known. It reports the bang only when the bang is known. |
| `Configuration.UrlTemplates` | src/config.rs:9-15 | The routes' map has the same keys as the registry. |
| `Configuration.BuildDefaultConfig` | src/config.rs:48-94 | The six inserts build exactly the default registry. |
| `Configuration.DefaultKeys` | src/config.rs:53-87 | The public map has exactly the six keys `!g`, `!ddg`, `!yt`, `!gh`, `!w` and `!maps`. |
| `Configuration.DefaultHasNoPrivateTier` | src/config.rs:89-93 | `private_bangs` is empty and `auth_token` is `""`. |
| `Configuration.DefaultTemplatesHaveMarker` | src/config.rs:54-84 | Every default template contains `{searchTerms}`. |
| `Configuration.DefaultKeysAreBangs` | src/config.rs:53-87 | Every default key is a bang token, and `extract_bang` returns it whole as the bang. |
| `Configuration.DefaultEntriesNamed` | src/config.rs:55-86 | Every default entry has a non-empty name and icon. |
| `Configuration.DefaultGoogleAndDuckDuckGo` | src/config.rs:53-63 | The routes see `!g` as the Google search template and `!ddg` as the DuckDuckGo template. |
| `Scenarios.PrefixExamples` | tests/bangs_tests.rs:7-29 | The prefix form. For example, `!ddg  multiple  spaces` gives `!ddg` and ` multiple  spaces`. |
| `Scenarios.FirstSpaceOnly` | src/bangs.rs:4 | `!a b !c` gives `!a` and `b !c`. |
| `Scenarios.BangOnlyExamples` | tests/bangs_tests.rs:17-24 | `!g`, `!w` and `!ddgsearchterm` are bangs with empty terms. So is `!g<TAB>x`, because a tab does not separate. |
| `Scenarios.NoBangExamples` | tests/bangs_tests.rs:85-94 | `just a search`, the empty query, `g!` and `search with ! in middle` come back unchanged with no bang. |
| `Scenarios.NoSuffixNoTrim` | src/bangs.rs:17-19 | A trailing bang and surrounding blanks are kept as plain search text. |
| `Scenarios.SearchWithoutQuery` | tests/routes_tests.rs:27-34 | A request with no `q` redirects to `https://www.google.com`. |
| `Scenarios.SearchDuckDuckGo` | tests/routes_tests.rs:47-54 | `!ddg a b` redirects to `https://duckduckgo.com/?q=a%20b` for unreserved words `a` and `b`. |
| `Scenarios.SearchGoogle` | tests/routes_tests.rs:37-44 | `!g a b` redirects to `https://www.google.com/search?q=a%20b` for unreserved words `a` and `b`. |
| `Scenarios.SearchUnknownBang` | tests/routes_tests.rs:57-64 | `!name a b`, for unreserved words `name`, `a` and `b` where `!name` is no default bang, redirects to Google with `%21name%20a%20b`. |
| `Scenarios.SearchWithoutBang` | tests/routes_tests.rs:68-75 | `a b` with no bang redirects to Google with `a%20b` for unreserved words `a` and `b`. |
| `Scenarios.GoogleRustProgramming` | tests/routes_tests.rs:37-44 | `!g rust programming` goes to `https://www.google.com/search?q=rust%20programming`. |
| `Scenarios.DuckDuckGoRustProgramming` | tests/routes_tests.rs:47-54 | `!ddg rust programming` goes to `https://duckduckgo.com/?q=rust%20programming`. |
| `Scenarios.UnknownRustProgramming` | tests/routes_tests.rs:57-64 | `!unknown rust programming` goes to `https://www.google.com/search?q=%21unknown%20rust%20programming`. |
| `Scenarios.PlainRustProgramming` | tests/routes_tests.rs:68-75 | `rust programming` goes to `https://www.google.com/search?q=rust%20programming`. |
| `Scenarios.LiveExamples` | src/routes.rs:75-96 | `/live` without `q` gives `("", none)`. `!ddg rust programming` gives `("rust programming", !ddg)`. `!unknown rust` gives `("rust", none)`. |

## Left out

- `load_config` (src/config.rs:28-45) is not modelled. It checks the filesystem, reads the file asynchronously and parses YAML with `serde_yaml`, which is I/O and a foreign parser. Its one decision is that a missing file yields `default_config`.
- src/main.rs is not modelled: process start-up, the `CONFIG_PATH` variable, socket binding, the tokio runtime and logging.
- The axum machinery is not modelled: `create_router`, `health_check`, the `Query` and `State` extractors, the `303 See Other` status, JSON serialisation and the `println!` debugging. `Routes.Decision` records only the redirect target. `FallbackHome` is also a redirect in the source.
- `urlencoding::encode` is a crate function. The handlers take the encoder as a parameter, and `UrlEncoding.PercentEncode` is a stand-in written from RFC 3986, not the crate's own code.
- src/models.rs is only an `Option<String>`, modelled as the `Option<string>` argument `q`.
- `Routes.FillTemplate` models `str::replace` only for the non-empty `{searchTerms}` pattern, the only pattern the source passes. The empty-pattern behaviour of `str::replace` is not modelled.
- Rust strings are UTF-8 byte sequences; the model works on sequences of Unicode scalar values. Splitting on `' '` gives the same parts either way.
- The `name` and `icon` fields of `BangDetails` are data only; the routes never read them.
