/**
 The mock logo search: a case-insensitive substring match over a fixed
 catalogue, returning the first three matches in catalogue order. Two
 handlers front it; one trims the query and one does not.
 */
module LogoSearch {
  import opened Text

  datatype Logo = Logo(name: string, logoUrl: string)

  const Placeholder := "/placeholder.svg"

  /** The fixed catalogue, in its order. */
  const Catalogue: seq<Logo> := [
    Logo("Netflix", Placeholder),
    Logo("Spotify", Placeholder),
    Logo("Amazon Prime", Placeholder),
    Logo("Hulu", Placeholder),
    Logo("Disney+", Placeholder),
    Logo("Google Drive", Placeholder),
    Logo("Microsoft 365", Placeholder)
  ]

  const MaxResults := 3

  /** `a` is `b` with some elements left out and the rest in their order. */
  predicate Subsequence(a: seq<Logo>, b: seq<Logo>)
    decreases |b|
  {
    |a| == 0 || (|b| > 0 && ((a[0] == b[0] && Subsequence(a[1..], b[1..])) || Subsequence(a, b[1..])))
  }

  lemma {:induction false} SubsequencePrefix(a: seq<Logo>, b: seq<Logo>, n: nat)
    requires Subsequence(a, b) && n <= |a|
    ensures Subsequence(a[..n], b)
    decreases |b|
  {
    if n > 0 {
      if a[0] == b[0] && Subsequence(a[1..], b[1..]) {
        SubsequencePrefix(a[1..], b[1..], n - 1);
        assert a[..n][1..] == a[1..][..n - 1];
      } else {
        SubsequencePrefix(a, b[1..], n);
      }
    }
  }

  /** The `filter`: the logos whose lowercased name includes `q`, in order. */
  function Matches(logos: seq<Logo>, q: string): (r: seq<Logo>)
    ensures forall x :: x in r <==> x in logos && Contains(Lower(x.name), q)
    ensures Subsequence(r, logos)
  {
    if |logos| == 0 then []
    else
      var rest := Matches(logos[1..], q);
      assert forall x :: x in logos <==> x == logos[0] || x in logos[1..];
      if Contains(Lower(logos[0].name), q) then [logos[0]] + rest
      else
        assert Subsequence(rest, logos) by {
          if |rest| > 0 {
            assert Subsequence(rest, logos[1..]);
          }
        }
        rest
  }

  /**
   `searchLogos`: nothing for an empty query; otherwise the first three
   catalogue entries whose lowercased name includes the lowercased query.
   */
  function Search(query: string): (r: seq<Logo>)
    ensures query == "" ==> r == []
    ensures |r| <= MaxResults
    ensures forall x :: x in r ==> x in Catalogue && Contains(Lower(x.name), Lower(query))
    ensures Subsequence(r, Catalogue)
    ensures query != "" ==> r <= Matches(Catalogue, Lower(query))
    ensures query != "" ==>
      |r| == if |Matches(Catalogue, Lower(query))| <= MaxResults then |Matches(Catalogue, Lower(query))| else MaxResults
    ensures query != "" && |Matches(Catalogue, Lower(query))| <= MaxResults ==>
      r == Matches(Catalogue, Lower(query))
  {
    if query == "" then []
    else
      var all := Matches(Catalogue, Lower(query));
      var n := if |all| <= MaxResults then |all| else MaxResults;
      SubsequencePrefix(all, Catalogue, n);
      assert forall x :: x in all[..n] ==> x in all;
      all[..n]
  }

  /** What a handler answers: an error, or the results. */
  datatype SearchReply = SearchFailed(status: int, error: string) | SearchResults(results: seq<Logo>)

  /** The handler that trims the query: a blank query is rejected. */
  function HandleTrimmed(httpMethod: string, query: string): (reply: SearchReply)
    ensures httpMethod != "POST" ==> reply == SearchFailed(405, "Method Not Allowed")
    ensures httpMethod == "POST" && Trim(query) == "" ==> reply == SearchFailed(400, "Missing field: query")
    ensures httpMethod == "POST" && Trim(query) != "" ==> reply == SearchResults(Search(Trim(query)))
  {
    if httpMethod != "POST" then SearchFailed(405, "Method Not Allowed")
    else
      var q := Trim(query);
      if q == "" then SearchFailed(400, "Missing field: query") else SearchResults(Search(q))
  }

  /**
   The handler that does not trim: only an empty query is rejected; without
   a request body the destructuring throws and the answer is 500.
   */
  function HandleUntrimmed(httpMethod: string, hasBody: bool, query: string): (reply: SearchReply)
    ensures httpMethod != "POST" ==> reply == SearchFailed(405, "Method Not Allowed")
    ensures httpMethod == "POST" && !hasBody ==> reply == SearchFailed(500, "Internal Server Error")
    ensures httpMethod == "POST" && hasBody && query == "" ==> reply == SearchFailed(400, "Missing required field: query")
    ensures httpMethod == "POST" && hasBody && query != "" ==> reply == SearchResults(Search(query))
  {
    if httpMethod != "POST" then SearchFailed(405, "Method Not Allowed")
    else if !hasBody then SearchFailed(500, "Internal Server Error")
    else if query == "" then SearchFailed(400, "Missing required field: query")
    else SearchResults(Search(query))
  }

  /**
   The two handlers part on a query of white space only: the trimming one
   rejects it, the other searches for it as it is.
   */
  lemma BlankQueryDiffers(query: string)
    requires query != "" && forall i :: 0 <= i < |query| ==> IsJsSpace(query[i])
    ensures HandleTrimmed("POST", query) == SearchFailed(400, "Missing field: query")
    ensures HandleUntrimmed("POST", true, query) == SearchResults(Search(query))
  {
    TrimBlank(query);
  }

  /** A query that is already trimmed gets the same results from both handlers. */
  lemma TrimmedQueryAgrees(query: string)
    requires query != "" && !IsJsSpace(query[0]) && !IsJsSpace(query[|query| - 1])
    ensures HandleTrimmed("POST", query) == HandleUntrimmed("POST", true, query)
  {
    TrimKeepsVisible(query);
  }
}
