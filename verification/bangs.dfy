/**
 * Bang extraction (src/bangs.rs).
 *
 * A query that starts with `!` carries a bang: the text up to the first
 * U+0020 space, the rest being the search term, kept verbatim. Any other
 * query carries no bang and is handed back untouched: nothing is trimmed,
 * no suffix bang is recognised and no other whitespace separates.
 */
module Bangs {
  import opened Wrappers

  /** The result pair of `extract_bang`: the bang (if any) and the search term. */
  datatype Extraction = Extraction(bang: Option<string>, term: string)

  /** `str::starts_with(c)`: false on the empty string. */
  predicate StartsWith(s: string, c: char) {
    |s| > 0 && s[0] == c
  }

  /** A token `extract_bang` can hand back as a bang: non-empty, led by `!`, free of spaces. */
  predicate IsBangToken(s: string) {
    StartsWith(s, '!') && ' ' !in s
  }

  /** Index of the first occurrence of `c` in `s`, if there is one. */
  function FirstIndex(s: string, c: char): (r: Option<nat>)
    ensures r.None? <==> c !in s
    ensures r.Some? ==> r.value < |s| && s[r.value] == c && c !in s[..r.value]
  {
    if s == [] then None
    else if s[0] == c then Some(0)
    else
      match FirstIndex(s[1..], c)
      case None => None
      case Some(i) =>
        assert s[..i + 1] == [s[0]] + s[1..][..i];
        Some(i + 1)
  }

  /**
   * `s.splitn(2, sep).collect()`: one part (the whole string) when `sep`
   * does not occur, otherwise the text before the first `sep` and the
   * text after it.
   */
  function SplitOnce(s: string, sep: char): (parts: seq<string>)
    ensures |parts| == 1 <==> sep !in s
    ensures |parts| == 1 ==> parts[0] == s
    ensures |parts| != 1 ==> |parts| == 2 && sep !in parts[0] && s == parts[0] + [sep] + parts[1]
  {
    match FirstIndex(s, sep)
    case None => [s]
    case Some(i) =>
      assert s == s[..i] + [sep] + s[i + 1..];
      [s[..i], s[i + 1..]]
  }

  /** `extract_bang`, branch for branch, including the fallback the split makes unreachable. */
  function ExtractBang(query: string): (r: Extraction)
    ensures r.bang.Some? <==> StartsWith(query, '!')
    ensures r.bang.None? ==> r.term == query
    ensures r.bang.Some? ==> IsBangToken(r.bang.value)
    ensures r.bang.Some? && ' ' in query ==> query == r.bang.value + " " + r.term
    ensures r.bang.Some? && ' ' !in query ==> r.bang.value == query && r.term == ""
  {
    var parts := SplitOnce(query, ' ');
    if |parts| == 2 && StartsWith(parts[0], '!') then
      Extraction(Some(parts[0]), parts[1])
    else if StartsWith(query, '!') then
      if ' ' !in query then Extraction(Some(query), "")
      else Extraction(None, query)
    else
      Extraction(None, query)
  }

  /**
   * The inner `(None, query)` fallback of `extract_bang` is dead: a query
   * that starts with `!` and holds a space always splits into two parts
   * whose first starts with `!`.
   */
  lemma FallbackUnreachable(query: string)
    requires StartsWith(query, '!') && ' ' in query
    ensures var parts := SplitOnce(query, ' ');
      |parts| == 2 && StartsWith(parts[0], '!')
  {
  }

  /** The bang is exactly the text before the first space; the term is all that follows it. */
  lemma FirstSpaceSplits(query: string, i: nat)
    requires StartsWith(query, '!')
    requires i < |query| && query[i] == ' ' && ' ' !in query[..i]
    ensures ExtractBang(query) == Extraction(Some(query[..i]), query[i + 1..])
  {
  }

  /** Round trip: joining a bang token and any term with one space extracts back to the pair. */
  lemma {:induction false} JoinThenExtract(bang: string, term: string)
    requires IsBangToken(bang)
    ensures ExtractBang(bang + " " + term) == Extraction(Some(bang), term)
  {
    var query := bang + " " + term;
    assert query[..|bang|] == bang;
    assert (bang + " " + term)[|bang| + 1..] == term;
    FirstSpaceSplits(query, |bang|);
  }

  /** Round trip for the bang-only form: a bang token alone is the bang, with an empty term. */
  lemma BangAloneExtracts(bang: string)
    requires IsBangToken(bang)
    ensures ExtractBang(bang) == Extraction(Some(bang), "")
  {
  }

  /** A query that does not start with `!` comes back unchanged, with no bang. */
  lemma NoBangUnchanged(query: string)
    requires !StartsWith(query, '!')
    ensures ExtractBang(query) == Extraction(None, query)
  {
  }

  /** Reassembling the extraction yields the query back, in each of the three forms. */
  function Reassemble(r: Extraction, hadSpace: bool): string {
    match r.bang
    case None => r.term
    case Some(b) => if hadSpace then b + " " + r.term else b
  }

  lemma ExtractThenReassemble(query: string)
    ensures Reassemble(ExtractBang(query), ' ' in query) == query
  {
  }
}
