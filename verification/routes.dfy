/**
 * The decisions taken by the `/search` and `/live` handlers (src/routes.rs),
 * with the HTTP framework removed: each handler is a function of the
 * optional `q` parameter and the read-only map from bang token to URL
 * template. The percent-encoder is a parameter (`urlencoding::encode` in
 * the source).
 */
module Routes {
  import opened Wrappers
  import opened Bangs

  /** The placeholder a URL template carries for the search terms. */
  const Marker: string := "{searchTerms}"

  /** Where a request without `q` is sent. */
  const HomeUrl: string := "https://www.google.com"

  /** The hard-coded default template, used whatever the map holds. */
  const DefaultTemplate: string := "https://www.google.com/search?q={searchTerms}"

  /** What the default template becomes in front of the encoded query. */
  const DefaultSearchPrefix: string := "https://www.google.com/search?q="

  /** The redirect `search_handler` answers with. */
  datatype Decision = FallbackHome | Redirect(url: string) {
    /** The `Location` the redirect carries. */
    function Location(): string {
      match this
      case FallbackHome => HomeUrl
      case Redirect(url) => url
    }
  }

  /** The JSON body of `/live`: the search term and the bang, if the map knows it. */
  datatype BangInfo = BangInfo(query: string, bang: Option<string>)

  /** `t.contains("{searchTerms}")`. */
  predicate HasMarker(t: string) {
    exists i :: 0 <= i <= |t| && Marker <= t[i..]
  }

  /**
   * `template.replace("{searchTerms}", value)`: every occurrence of the
   * marker, scanning left to right without overlap, is replaced by `value`.
   */
  function FillTemplate(template: string, value: string): (r: string)
    ensures |template| < |Marker| ==> r == template
  {
    if Marker <= template then value + FillTemplate(template[|Marker|..], value)
    else if template == [] then []
    else [template[0]] + FillTemplate(template[1..], value)
  }

  /** A template without the marker is left unchanged. */
  lemma {:induction false} FillWithoutMarker(template: string, value: string)
    requires !HasMarker(template)
    ensures FillTemplate(template, value) == template
  {
    assert !(Marker <= template[0..]);
    assert template[0..] == template;
    if template != [] {
      assert !HasMarker(template[1..]) by {
        forall i | 0 <= i <= |template[1..]|
          ensures !(Marker <= template[1..][i..])
        {
          assert template[1..][i..] == template[i + 1..];
        }
      }
      FillWithoutMarker(template[1..], value);
    }
  }

  /** A template prefix with no `{` is copied through untouched. */
  lemma {:induction false} FillPrefix(p: string, t: string, value: string)
    requires '{' !in p
    ensures FillTemplate(p + t, value) == p + FillTemplate(t, value)
  {
    if p == [] {
      assert p + t == t;
    } else {
      var pt := p + t;
      assert pt[0] == p[0] != '{' == Marker[0];
      assert pt[1..] == p[1..] + t;
      assert '{' !in p[1..] by {
        assert forall i :: 0 <= i < |p[1..]| ==> p[1..][i] == p[i + 1];
      }
      FillPrefix(p[1..], t, value);
      assert FillTemplate(pt, value) == [pt[0]] + FillTemplate(pt[1..], value);
    }
  }

  /** Text shorter than the marker cannot contain it. */
  lemma ShortHasNoMarker(t: string)
    requires |t| < |Marker|
    ensures !HasMarker(t)
  {
  }

  /** A template built around the marker contains it. */
  lemma MarkerFound(p: string, s: string)
    ensures HasMarker(p + Marker + s)
  {
    assert (p + Marker + s)[|p|..] == Marker + s;
  }

  /** A template that ends with the marker contains it. */
  lemma MarkerAtEnd(p: string)
    ensures HasMarker(p + Marker)
  {
    assert (p + Marker)[|p|..] == Marker;
  }

  /** A template that starts with the marker: the value replaces it. */
  lemma FillAtMarker(s: string, value: string)
    ensures FillTemplate(Marker + s, value) == value + FillTemplate(s, value)
  {
  }

  /**
   * The first occurrence of the marker is replaced by the value, whatever
   * precedes it, and the scan resumes after it: with `FillWithoutMarker`
   * this gives every occurrence replaced, left to right.
   */
  lemma {:induction false} FillFirst(p: string, s: string, value: string)
    requires forall i :: 0 <= i < |p| ==> !(Marker <= (p + Marker + s)[i..])
    ensures FillTemplate(p + Marker + s, value) == p + value + FillTemplate(s, value)
  {
    if p == [] {
      FillAtMarker(s, value);
    } else {
      var t := p + Marker + s;
      assert !(Marker <= t[0..]);
      assert t[0..] == t;
      assert t[1..] == p[1..] + Marker + s;
      forall i | 0 <= i < |p[1..]|
        ensures !(Marker <= (p[1..] + Marker + s)[i..])
      {
        assert (p[1..] + Marker + s)[i..] == t[i + 1..];
      }
      FillFirst(p[1..], s, value);
    }
  }

  /** Two markers in one template are both replaced (the replace-all of src/routes.rs). */
  lemma FillTwoMarkers(p: string, m: string, s: string, value: string)
    requires forall i :: 0 <= i < |p| ==> !(Marker <= (p + Marker + (m + Marker + s))[i..])
    requires forall i :: 0 <= i < |m| ==> !(Marker <= (m + Marker + s)[i..])
    requires !HasMarker(s)
    ensures FillTemplate(p + Marker + (m + Marker + s), value) == p + value + (m + value + s)
  {
    FillFirst(p, m + Marker + s, value);
    FillFirst(m, s, value);
    FillWithoutMarker(s, value);
  }

  /** A template with a single marker after a `{`-free prefix: the value takes the marker's place. */
  lemma FillSingle(p: string, s: string, value: string)
    requires '{' !in p && !HasMarker(s)
    ensures FillTemplate(p + Marker + s, value) == p + value + s
  {
    assert p + Marker + s == p + (Marker + s);
    FillPrefix(p, Marker + s, value);
    FillAtMarker(s, value);
    FillWithoutMarker(s, value);
  }

  /** A template ending in its only marker: the value is appended to the prefix. */
  lemma FillAtEnd(p: string, value: string)
    requires '{' !in p
    ensures FillTemplate(p + Marker, value) == p + value
  {
    assert p + Marker == p + Marker + "";
    ShortHasNoMarker("");
    FillSingle(p, "", value);
    assert p + value + "" == p + value;
  }

  lemma DefaultPrefixPlain()
    ensures '{' !in DefaultSearchPrefix
  {
  }

  /** The default template yields the Google search URL for whatever value is filled in. */
  lemma DefaultTemplateFill(value: string)
    ensures FillTemplate(DefaultTemplate, value) == DefaultSearchPrefix + value
  {
    assert FillTemplate(DefaultTemplate, value) == FillTemplate(DefaultSearchPrefix + Marker, value) by {
      assert DefaultTemplate == DefaultSearchPrefix + Marker;
    }
    DefaultPrefixPlain();
    FillAtEnd(DefaultSearchPrefix, value);
  }

  /** `search_handler`. */
  function SearchHandler(q: Option<string>, bangs: map<string, string>, encode: string -> string): (d: Decision)
    ensures d.FallbackHome? <==> q.None?
    ensures d.Location() == HomeUrl <== q.None?
    ensures q.Some? && (ExtractBang(q.value).bang.None? || ExtractBang(q.value).bang.value !in bangs)
      ==> d == Redirect(DefaultSearchPrefix + encode(q.value))
  {
    match q
    case None => FallbackHome
    case Some(query) =>
      var r := ExtractBang(query);
      if r.bang.Some? && r.bang.value in bangs then
        Redirect(FillTemplate(bangs[r.bang.value], encode(r.term)))
      else
        DefaultTemplateFill(encode(query));
        Redirect(FillTemplate(DefaultTemplate, encode(query)))
  }

  /** A known bang sends the encoded term into that bang's template. */
  lemma KnownBangRedirect(bang: string, term: string, bangs: map<string, string>, encode: string -> string)
    requires IsBangToken(bang) && bang in bangs
    ensures SearchHandler(Some(bang + " " + term), bangs, encode)
      == Redirect(FillTemplate(bangs[bang], encode(term)))
  {
    JoinThenExtract(bang, term);
  }

  /** A known bang on its own fills the template with the encoding of the empty term. */
  lemma KnownBangAlone(bang: string, bangs: map<string, string>, encode: string -> string)
    requires IsBangToken(bang) && bang in bangs
    ensures SearchHandler(Some(bang), bangs, encode) == Redirect(FillTemplate(bangs[bang], encode("")))
  {
    BangAloneExtracts(bang);
  }

  /**
   * An unknown bang is ordinary search text: the whole query, bang
   * included, goes to the default engine.
   */
  lemma UnknownBangFallsThrough(bang: string, term: string, bangs: map<string, string>, encode: string -> string)
    requires IsBangToken(bang) && bang !in bangs
    ensures SearchHandler(Some(bang + " " + term), bangs, encode)
      == Redirect(DefaultSearchPrefix + encode(bang + " " + term))
  {
    JoinThenExtract(bang, term);
  }

  /** The default engine does not depend on the map: with no bangs configured every query goes to it. */
  lemma DefaultNeedsNoEntry(query: string, encode: string -> string)
    ensures SearchHandler(Some(query), map[], encode) == Redirect(DefaultSearchPrefix + encode(query))
  {
  }

  /** `live_handler`. */
  function LiveHandler(q: Option<string>, bangs: map<string, string>): (info: BangInfo)
    ensures q.None? ==> info == BangInfo("", None)
    ensures info.bang.Some? ==> info.bang.value in bangs && IsBangToken(info.bang.value)
    ensures q.Some? && !StartsWith(q.value, '!') ==> info == BangInfo(q.value, None)
    ensures q.Some? ==> info.query == ExtractBang(q.value).term
    ensures q.Some? ==> (info.bang.Some? <==>
      ExtractBang(q.value).bang.Some? && ExtractBang(q.value).bang.value in bangs)
    ensures info.bang.Some? ==> q.Some? && info.bang == ExtractBang(q.value).bang
  {
    var query := match q case Some(s) => s case None => "";
    var r := ExtractBang(query);
    var valid := if r.bang.Some? && r.bang.value in bangs then Some(r.bang.value) else None;
    BangInfo(r.term, valid)
  }

  /**
   * `/live` names a bang exactly when `/search` would use its template,
   * and its `query` is then the text `/search` encodes; otherwise `/search`
   * falls back to the default engine with the whole query.
   */
  lemma LiveAgreesWithSearch(query: string, bangs: map<string, string>, encode: string -> string)
    ensures var info := LiveHandler(Some(query), bangs);
      match info.bang
      case Some(b) => SearchHandler(Some(query), bangs, encode) == Redirect(FillTemplate(bangs[b], encode(info.query)))
      case None => SearchHandler(Some(query), bangs, encode) == Redirect(DefaultSearchPrefix + encode(query))
  {
  }

  /** The `query` field of `/live` is always the extracted term, known bang or not. */
  lemma {:induction false} LiveTermIsExtracted(bang: string, term: string, bangs: map<string, string>)
    requires IsBangToken(bang)
    ensures LiveHandler(Some(bang + " " + term), bangs)
      == BangInfo(term, if bang in bangs then Some(bang) else None)
  {
    JoinThenExtract(bang, term);
  }
}
