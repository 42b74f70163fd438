/** The `list` query strings of the two Airtable proxies side by side (a module
    with no single source file of its own): the Netlify handler
    builds `filterByFormula` and the sort parameters, the Vercel handler the sort
    parameters only. */
module ListQueries {
  import opened Js
  import opened AirtableProxy
  import Netlify = NetlifyAirtableProxy
  import Vercel = VercelAirtableProxy

  /** The `list` query: the filter parameter comes before the sort parameters,
      `?` is added only when there is at least one parameter, and the sort
      direction defaults to `desc`. */
  lemma ListUrlShape(baseUrl: string, filter: JsValue, sort: JsValue)
    ensures !Truthy(filter) && !Truthy(sort) ==> Netlify.ListUrl(baseUrl, filter, sort) == baseUrl
    ensures Truthy(filter) && !Truthy(sort) ==> Netlify.ListUrl(baseUrl, filter, sort) == baseUrl + "?" + FilterParam(filter)
    ensures !Truthy(filter) && Truthy(sort) ==> Netlify.ListUrl(baseUrl, filter, sort) == baseUrl + "?" + SortParam(sort)
    ensures Truthy(filter) && Truthy(sort) ==>
      Netlify.ListUrl(baseUrl, filter, sort) == baseUrl + "?" + (FilterParam(filter) + ("&" + SortParam(sort)))
  {
    if Truthy(filter) && Truthy(sort) {
      FilterThenSort(baseUrl, filter, sort);
    } else if Truthy(filter) {
      assert Netlify.ListParams(filter, sort) == [FilterParam(filter)];
    } else if Truthy(sort) {
      assert Netlify.ListParams(filter, sort) == [SortParam(sort)];
    } else {
      assert Netlify.ListParams(filter, sort) == [];
    }
  }

  /** Both parameters: the filter, `&`, then the sort. */
  lemma FilterThenSort(baseUrl: string, filter: JsValue, sort: JsValue)
    requires Truthy(filter) && Truthy(sort)
    ensures Netlify.ListUrl(baseUrl, filter, sort) == baseUrl + "?" + (FilterParam(filter) + ("&" + SortParam(sort)))
  {
    BothParams(filter, sort);
    JoinTwo(FilterParam(filter), SortParam(sort), "&");
  }

  lemma BothParams(filter: JsValue, sort: JsValue)
    requires Truthy(filter) && Truthy(sort)
    ensures Netlify.ListParams(filter, sort) == [FilterParam(filter), SortParam(sort)]
  {
  }

  /** A truthy `filter` is honoured by the Netlify proxy only: its `list` URL
      puts the filter parameter right after `?`, and is longer than the
      Vercel one's. */
  lemma FilterChangesListUrl(baseUrl: string, filter: JsValue, sort: JsValue)
    requires Truthy(filter)
    ensures Truthy(sort) ==>
      Netlify.ListUrl(baseUrl, filter, sort) == baseUrl + "?" + (FilterParam(filter) + ("&" + SortParam(sort)))
    ensures !Truthy(sort) ==>
      Netlify.ListUrl(baseUrl, filter, sort) == baseUrl + "?" + FilterParam(filter)
    ensures |Netlify.ListUrl(baseUrl, filter, sort)| > |Vercel.ListUrl(baseUrl, sort)|
  {
    ListUrlShape(baseUrl, filter, sort);
  }
}
