/**
 * The concrete cases of tests/bangs_tests.rs and tests/routes_tests.rs,
 * derived from the general lemmas, and the cases where the tests expect
 * more than src/bangs.rs does.
 */
module Scenarios {
  import opened Wrappers
  import opened Bangs
  import opened UrlEncoding
  import opened Routes
  import opened Configuration

  /** The prefix form keeps the term verbatim, spaces included (queries written as bang, space, term). */
  lemma PrefixExamples()
    ensures ExtractBang("!ddg" + " " + "search term") == Extraction(Some("!ddg"), "search term")
    ensures ExtractBang("!g" + " " + "search term") == Extraction(Some("!g"), "search term")
    ensures ExtractBang("!ddg" + " " + " multiple  spaces") == Extraction(Some("!ddg"), " multiple  spaces")
  {
    JoinThenExtract("!ddg", "search term");
    JoinThenExtract("!g", "search term");
    JoinThenExtract("!ddg", " multiple  spaces");
  }

  /** Only the first space splits: in `!a b !c` the later `!c` stays in the term. */
  lemma FirstSpaceOnly()
    ensures ExtractBang("!a" + " " + "b !c") == Extraction(Some("!a"), "b !c")
  {
    JoinThenExtract("!a", "b !c");
  }

  /** The bang-only form, and a tab that is not a separator. */
  lemma BangOnlyExamples()
    ensures ExtractBang("!g") == Extraction(Some("!g"), "")
    ensures ExtractBang("!w") == Extraction(Some("!w"), "")
    ensures ExtractBang("!ddgsearchterm") == Extraction(Some("!ddgsearchterm"), "")
    ensures ExtractBang("!g\tx") == Extraction(Some("!g\tx"), "")
  {
    BangAloneExtracts("!g");
    BangAloneExtracts("!w");
    BangAloneExtracts("!ddgsearchterm");
    BangAloneExtracts("!g\tx");
  }

  /** Queries not led by `!` come back untouched, untrimmed, with no bang. */
  lemma NoBangExamples()
    ensures ExtractBang("just a search") == Extraction(None, "just a search")
    ensures ExtractBang("") == Extraction(None, "")
    ensures ExtractBang("g!") == Extraction(None, "g!")
    ensures ExtractBang("search with ! in middle") == Extraction(None, "search with ! in middle")
  {
    NoBangUnchanged("just a search");
    NoBangUnchanged("");
    NoBangUnchanged("g!");
    NoBangUnchanged("search with ! in middle");
  }

  /**
   * What the code does where tests/bangs_tests.rs expects suffix bangs and
   * trimming: a trailing bang is not recognised and whitespace is kept.
   */
  lemma NoSuffixNoTrim()
    ensures ExtractBang("search term !g") == Extraction(None, "search term !g")
    ensures ExtractBang("  !g search term  ") == Extraction(None, "  !g search term  ")
    ensures ExtractBang("   ") == Extraction(None, "   ")
  {
    NoBangUnchanged("search term !g");
    NoBangUnchanged("  !g search term  ");
    NoBangUnchanged("   ");
  }

  /** The route map the tests build from the default configuration. */
  function DefaultRoutes(): map<string, string> {
    UrlTemplates(DefaultConfig().bangs)
  }

  /** No `q`: redirect to the Google home page. */
  lemma SearchWithoutQuery()
    ensures SearchHandler(None, DefaultRoutes(), PercentEncode).Location() == "https://www.google.com"
  {
  }

  /** `!ddg a b` goes to DuckDuckGo with `a%20b`, for any two unreserved words. */
  lemma SearchDuckDuckGo(a: string, b: string)
    requires AllUnreserved(a) && AllUnreserved(b)
    ensures SearchHandler(Some("!ddg" + " " + (a + " " + b)), DefaultRoutes(), PercentEncode)
      == Redirect("https://duckduckgo.com/?q=" + (a + "%20" + b))
  {
    FillAtEnd("https://duckduckgo.com/?q=", a + "%20" + b);
    assert DefaultRoutes()["!ddg"] == DuckDuckGo.url;
    KnownBangRedirect("!ddg", a + " " + b, DefaultRoutes(), PercentEncode);
    EncodeWords(a, b);
  }

  /** `!g a b` goes to Google with `a%20b`. */
  lemma SearchGoogle(a: string, b: string)
    requires AllUnreserved(a) && AllUnreserved(b)
    ensures SearchHandler(Some("!g" + " " + (a + " " + b)), DefaultRoutes(), PercentEncode)
      == Redirect(DefaultSearchPrefix + (a + "%20" + b))
  {
    assert DefaultRoutes()["!g"] == DefaultTemplate by {
      assert DefaultRoutes()["!g"] == Google.url;
    }
    KnownBangRedirect("!g", a + " " + b, DefaultRoutes(), PercentEncode);
    EncodeWords(a, b);
    DefaultTemplateFill(a + "%20" + b);
  }

  /**
   * `!name a b`, for a word `name` that is no default bang, falls through
   * with the whole query, bang included: Google with `%21name%20a%20b`.
   */
  lemma SearchUnknownBang(name: string, a: string, b: string)
    requires AllUnreserved(name) && AllUnreserved(a) && AllUnreserved(b)
    requires "!" + name !in DefaultRoutes()
    ensures SearchHandler(Some(("!" + name) + " " + (a + " " + b)), DefaultRoutes(), PercentEncode)
      == Redirect(DefaultSearchPrefix + ("%21" + name + "%20" + (a + "%20" + b)))
  {
    assert ' ' !in "!" + name by {
      assert forall i :: 0 < i < |"!" + name| ==> ("!" + name)[i] == name[i - 1];
    }
    UnknownBangFallsThrough("!" + name, a + " " + b, DefaultRoutes(), PercentEncode);
    EncodeSpaceJoin("!" + name, a + " " + b);
    EncodeAfterBang(name);
    EncodeUnreserved(name);
    EncodeWords(a, b);
  }

  /** `a b` without a bang goes to Google as it is. */
  lemma SearchWithoutBang(a: string, b: string)
    requires AllUnreserved(a) && AllUnreserved(b)
    ensures SearchHandler(Some(a + " " + b), DefaultRoutes(), PercentEncode)
      == Redirect(DefaultSearchPrefix + (a + "%20" + b))
  {
    NoBangUnchanged(a + " " + b);
    EncodeWords(a, b);
  }

  /** tests/routes_tests.rs, `!g rust programming`. */
  lemma GoogleRustProgramming()
    ensures SearchHandler(Some("!g" + " " + ("rust" + " " + "programming")), DefaultRoutes(), PercentEncode)
      == Redirect("https://www.google.com/search?q=" + ("rust" + "%20" + "programming"))
  {
    SearchGoogle("rust", "programming");
  }

  /** tests/routes_tests.rs, `!ddg rust programming`. */
  lemma DuckDuckGoRustProgramming()
    ensures SearchHandler(Some("!ddg" + " " + ("rust" + " " + "programming")), DefaultRoutes(), PercentEncode)
      == Redirect("https://duckduckgo.com/?q=" + ("rust" + "%20" + "programming"))
  {
    SearchDuckDuckGo("rust", "programming");
  }

  lemma UnknownIsNoDefaultBang()
    ensures "!" + "unknown" !in DefaultRoutes()
  {
    DefaultKeys();
    assert DefaultRoutes().Keys == DefaultConfig().bangs.Keys;
    assert |"!" + "unknown"| == 8;
  }

  /** tests/routes_tests.rs, `!unknown rust programming`. */
  lemma UnknownRustProgramming()
    ensures SearchHandler(Some(("!" + "unknown") + " " + ("rust" + " " + "programming")), DefaultRoutes(), PercentEncode)
      == Redirect("https://www.google.com/search?q=" + ("%21" + "unknown" + "%20" + ("rust" + "%20" + "programming")))
  {
    UnknownIsNoDefaultBang();
    SearchUnknownBang("unknown", "rust", "programming");
  }

  /** tests/routes_tests.rs, `rust programming`. */
  lemma PlainRustProgramming()
    ensures SearchHandler(Some("rust" + " " + "programming"), DefaultRoutes(), PercentEncode)
      == Redirect("https://www.google.com/search?q=" + ("rust" + "%20" + "programming"))
  {
    SearchWithoutBang("rust", "programming");
  }

  /** `/live` reports a known bang with its term, and drops an unknown one but keeps its term. */
  lemma LiveExamples()
    ensures LiveHandler(None, DefaultRoutes()) == BangInfo("", None)
    ensures LiveHandler(Some("!ddg" + " " + "rust programming"), DefaultRoutes()) == BangInfo("rust programming", Some("!ddg"))
    ensures LiveHandler(Some("!unknown" + " " + "rust"), DefaultRoutes()) == BangInfo("rust", None)
  {
    LiveTermIsExtracted("!ddg", "rust programming", DefaultRoutes());
    assert "!unknown" !in DefaultRoutes();
    LiveTermIsExtracted("!unknown", "rust", DefaultRoutes());
  }
}
