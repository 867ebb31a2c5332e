/** The header search box: a text input holding the keyword typed so far, and a submit
    handler that routes to the search results for the trimmed keyword, or home when there
    is nothing but whitespace. */
module ProductSearchBox {
  import opened Wrappers
  import opened JsString
  import opened Effects

  /** Where a submit with keyword `keyword` navigates. */
  function SearchTarget(keyword: string): (path: string)
    ensures Trim(keyword) != "" ==> path == "/search/" + Trim(keyword)
    ensures Trim(keyword) == "" ==> path == "/"
  {
    if Trim(keyword) != "" then "/search/" + Trim(keyword) else "/"
  }

  /** Submitting goes home exactly when the keyword is empty or only whitespace. */
  lemma HomeIffBlank(keyword: string)
    ensures SearchTarget(keyword) == "/" <==> AllWhitespace(keyword)
  {
    TrimEmptyIffAllWhitespace(keyword);
  }

  /** A search path carries a non-empty keyword with no whitespace at either end, taken as
      one contiguous piece of what was typed. */
  lemma SearchKeywordTrimmed(keyword: string)
    requires !AllWhitespace(keyword)
    ensures |SearchTarget(keyword)| > |"/search/"|
    ensures SearchTarget(keyword)[..|"/search/"|] == "/search/"
    ensures var k := SearchTarget(keyword)[|"/search/"|..];
      && k != "" && NoEdgeWhitespace(k)
      && TrimOffset(keyword) + |k| <= |keyword| && keyword[TrimOffset(keyword)..TrimOffset(keyword) + |k|] == k
  {
    TrimEmptyIffAllWhitespace(keyword);
    var t := Trim(keyword);
    assert SearchTarget(keyword)[|"/search/"|..] == t;
  }

  /** Submitting again with the keyword now in the path lands on the same page: the path's
      keyword is already trimmed. */
  lemma SearchTargetStable(keyword: string)
    ensures SearchTarget(Trim(keyword)) == SearchTarget(keyword)
  {
    TrimIdempotent(keyword);
  }

  /** The component's state: the text in the search input. */
  class ProductSearchBox {
    var searchKeyword: string

    /** The input starts as the keyword from the URL, or empty when there is none. */
    constructor (urlKeyword: Option<string>)
      ensures urlKeyword.Some? ==> searchKeyword == urlKeyword.value
      ensures urlKeyword.None? ==> searchKeyword == ""
    {
      if urlKeyword.Some? && urlKeyword.value != "" {
        searchKeyword := urlKeyword.value;
      } else {
        searchKeyword := "";
      }
    }

    /** Typing replaces the input's text. */
    method OnChange(value: string)
      modifies this
      ensures searchKeyword == value
    {
      searchKeyword := value;
    }

    /** `submitHandler`: with a keyword that is not blank, navigate to its search results and
      clear the input; otherwise navigate home and leave the input as it is. */
    method SubmitHandler(rt: Runtime)
      modifies this, rt
      ensures rt.log == old(rt.log) + [Navigate(SearchTarget(old(searchKeyword)))]
      ensures AllWhitespace(old(searchKeyword)) ==> searchKeyword == old(searchKeyword)
      ensures !AllWhitespace(old(searchKeyword)) ==> searchKeyword == ""
    {
      TrimEmptyIffAllWhitespace(searchKeyword);
      if Trim(searchKeyword) != "" {
        rt.Emit(Navigate("/search/" + Trim(searchKeyword)));
        searchKeyword := "";
      } else {
        rt.Emit(Navigate("/"));
      }
    }
  }
}
