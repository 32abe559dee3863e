/**
 * The configuration shapes and the built-in registry (src/config.rs).
 * Loading a YAML file is not part of this model; a missing file yields
 * the default configuration built here.
 */
module Configuration {
  import opened Wrappers
  import opened Bangs
  import opened Routes

  /** One configured search destination. */
  datatype BangDetails = BangDetails(url: string, name: string, icon: string)

  /** The loaded configuration: public bangs, private bangs and the shared token. */
  datatype Config = Config(bangs: map<string, BangDetails>, privateBangs: map<string, BangDetails>, authToken: string)

  const Google := BangDetails("https://www.google.com/search?q=" + Marker, "Google", "google")
  const DuckDuckGo := BangDetails("https://duckduckgo.com/?q=" + Marker, "DuckDuckGo", "duck")
  const YouTube := BangDetails("https://www.youtube.com/results?search_query=" + Marker, "YouTube", "youtube")
  const GitHub := BangDetails("https://github.com/search?q=" + Marker, "GitHub", "github")
  const Wikipedia := BangDetails("https://en.wikipedia.org/wiki/Special:Search?search=" + Marker, "Wikipedia", "wikipedia")
  const GoogleMaps := BangDetails("https://www.google.com/maps?q=" + Marker + "&source=web", "Google Maps", "map")

  /** The registry `default_config` returns, as a value. */
  function DefaultConfig(): Config {
    Config(
      map["!g" := Google, "!ddg" := DuckDuckGo, "!yt" := YouTube,
          "!gh" := GitHub, "!w" := Wikipedia, "!maps" := GoogleMaps],
      map[], "")
  }

  /** `default_config`: six successive inserts into an empty map, an empty private tier, an empty token. */
  method BuildDefaultConfig() returns (c: Config)
    ensures c == DefaultConfig()
  {
    var bangs: map<string, BangDetails> := map[];
    var privateBangs: map<string, BangDetails> := map[];
    bangs := bangs["!g" := Google];
    bangs := bangs["!ddg" := DuckDuckGo];
    bangs := bangs["!yt" := YouTube];
    bangs := bangs["!gh" := GitHub];
    bangs := bangs["!w" := Wikipedia];
    bangs := bangs["!maps" := GoogleMaps];
    c := Config(bangs, privateBangs, "");
  }

  /** The token-to-template map the routes consult: each bang's `url`. */
  function UrlTemplates(bangs: map<string, BangDetails>): (m: map<string, string>)
    ensures m.Keys == bangs.Keys
  {
    map k | k in bangs :: bangs[k].url
  }

  /** The default public tier holds exactly the six built-in bangs. */
  lemma DefaultKeys()
    ensures DefaultConfig().bangs.Keys == {"!g", "!ddg", "!yt", "!gh", "!w", "!maps"}
    ensures |DefaultConfig().bangs| == 6
  {
  }

  /** The default private tier is empty and the token is empty. */
  lemma DefaultHasNoPrivateTier()
    ensures DefaultConfig().privateBangs == map[]
    ensures DefaultConfig().authToken == ""
  {
  }

  /** Every default template carries the `{searchTerms}` marker. */
  lemma DefaultTemplatesHaveMarker()
    ensures forall k :: k in DefaultConfig().bangs ==> HasMarker(DefaultConfig().bangs[k].url)
  {
    var entries := {Google, DuckDuckGo, YouTube, GitHub, Wikipedia, GoogleMaps};
    assert forall k :: k in DefaultConfig().bangs ==> DefaultConfig().bangs[k] in entries;
    forall d | d in entries
      ensures HasMarker(d.url)
    {
      if d == Google {
        MarkerAtEnd("https://www.google.com/search?q=");
      } else if d == DuckDuckGo {
        MarkerAtEnd("https://duckduckgo.com/?q=");
      } else if d == YouTube {
        MarkerAtEnd("https://www.youtube.com/results?search_query=");
      } else if d == GitHub {
        MarkerAtEnd("https://github.com/search?q=");
      } else if d == Wikipedia {
        MarkerAtEnd("https://en.wikipedia.org/wiki/Special:Search?search=");
      } else {
        MarkerFound("https://www.google.com/maps?q=", "&source=web");
      }
    }
  }

  /** Every default key is a bang token, and `extract_bang` returns it whole as a bang. */
  lemma DefaultKeysAreBangs()
    ensures forall k :: k in DefaultConfig().bangs ==>
      IsBangToken(k) && ExtractBang(k) == Extraction(Some(k), "")
  {
  }

  /** Every default entry has a non-empty name and icon. */
  lemma DefaultEntriesNamed()
    ensures forall k :: k in DefaultConfig().bangs ==>
      DefaultConfig().bangs[k].name != "" && DefaultConfig().bangs[k].icon != ""
  {
  }

  /** The two templates the tests pin down, as the routes see them. */
  lemma DefaultGoogleAndDuckDuckGo()
    ensures UrlTemplates(DefaultConfig().bangs)["!g"] == "https://www.google.com/search?q={searchTerms}"
    ensures UrlTemplates(DefaultConfig().bangs)["!ddg"] == "https://duckduckgo.com/?q={searchTerms}"
  {
  }
}
