/** The term search shared by the document store, the PDF reader and the
    webpage reader: each term is looked up case-insensitively in the content,
    and a found term is reported with its first position and the stripped
    slice of the original content within `radius` characters of the match. */
module TermSearch {
  import opened Wrappers
  import opened Text

  /** One entry of `search_results`. */
  datatype TermResult = TermResult(found: bool, context: Option<string>, position: int)

  /** `max(0, start - radius)`. */
  function WindowStart(start: nat, radius: nat): nat {
    if start >= radius then start - radius else 0
  }

  /** `min(len(content), start + len(term) + radius)`. */
  function WindowEnd(contentLength: nat, start: nat, termLength: nat, radius: nat): nat {
    if start + termLength + radius < contentLength then start + termLength + radius else contentLength
  }

  /** `t` occurs at `i` and nowhere before it. */
  predicate FirstOccurrence(s: string, t: string, i: int) {
    OccursAt(s, t, i) && forall j :: 0 <= j < i ==> !OccursAt(s, t, j)
  }

  /** The result recorded for one term. */
  function SearchTerm(content: string, term: string, radius: nat): (r: TermResult)
    ensures r.found <==> Contains(Lower(content), Lower(term))
    ensures r.found ==> FirstOccurrence(Lower(content), Lower(term), r.position) && r.context.Some?
    ensures !r.found ==> r.position == -1 && r.context == None
  {
    var i := Find(Lower(content), Lower(term));
    if i == -1 then TermResult(false, None, -1)
    else
      TermResult(true, Some(Strip(content[WindowStart(i, radius)..WindowEnd(|content|, i, |term|, radius)])), i)
  }

  /** The context of a found term is the stripped slice of the original
      content that starts at most `radius` characters before the match, ends
      at most `radius` characters after it, and covers the whole match. */
  lemma ContextCoversMatch(content: string, term: string, radius: nat)
    requires SearchTerm(content, term, radius).found
    ensures var r := SearchTerm(content, term, radius);
            var lo := WindowStart(r.position, radius);
            var hi := WindowEnd(|content|, r.position, |term|, radius);
            && lo <= r.position && r.position + |term| <= hi <= |content|
            && r.position - lo <= radius && hi - (r.position + |term|) <= radius
            && (lo == 0 || r.position - lo == radius)
            && (hi == |content| || hi - (r.position + |term|) == radius)
            && r.context == Some(Strip(content[lo..hi]))
  {
  }

  /** `sum(1 for r in results.values() if r["found"])`. */
  function FoundCount(results: map<string, TermResult>): nat {
    |set t | t in results && results[t].found|
  }

  /** A sequence has at most as many distinct elements as entries. */
  lemma {:induction false} DistinctElementsBound(s: seq<string>)
    ensures |set t | t in s| <= |s|
  {
    if s != [] {
      DistinctElementsBound(s[1..]);
      assert (set t | t in s) == (set t | t in s[1..]) + {s[0]};
    }
  }

  lemma {:induction false} SubsetCardinality(a: set<string>, b: set<string>)
    requires a <= b
    ensures |a| <= |b|
    decreases |a|
  {
    if a != {} {
      var x :| x in a;
      SubsetCardinality(a - {x}, b - {x});
    }
  }

  /** `terms_found` never exceeds `total_terms_searched`. */
  lemma FoundCountBound(results: map<string, TermResult>, terms: seq<string>)
    requires results.Keys == set t | t in terms
    ensures FoundCount(results) <= |terms|
  {
    var found := set t | t in results && results[t].found;
    SubsetCardinality(found, results.Keys);
    DistinctElementsBound(terms);
  }

  /** The search loop: `search_results[term] = ...` for every term in order. */
  method SearchTerms(content: string, terms: seq<string>, radius: nat)
    returns (results: map<string, TermResult>, termsFound: nat)
    ensures results.Keys == set t | t in terms
    ensures forall t :: t in results ==> results[t] == SearchTerm(content, t, radius)
    ensures termsFound == FoundCount(results) <= |terms|
  {
    results := map[];
    var i := 0;
    while i < |terms|
      invariant 0 <= i <= |terms|
      invariant results.Keys == set t | t in terms[..i]
      invariant forall t :: t in results ==> results[t] == SearchTerm(content, t, radius)
    {
      var term := terms[i];
      results := results[term := SearchTerm(content, term, radius)];
      assert terms[..i + 1] == terms[..i] + [term];
      i := i + 1;
    }
    assert terms[..i] == terms;
    termsFound := FoundCount(results);
    FoundCountBound(results, terms);
  }
}
