/**
 * The part of a URL the player reads: the query items that
 * `NSURLComponents(URL:resolvingAgainstBaseURL:)` yields. Parsing the URL text
 * is Foundation's job; a `Url` carries the components it parses to, or None
 * when Foundation cannot parse it.
 */
module Urls {
  import opened Wrappers

  datatype QueryItem = QueryItem(name: string, value: Option<string>)

  /** `queryItems` is itself optional: None when the URL has no query. */
  datatype UrlComponents = UrlComponents(queryItems: Option<seq<QueryItem>>)

  datatype Url = Url(components: Option<UrlComponents>)

  /** `items.filter { $0.name == name }`, keeping the order of the items. */
  function Named(items: seq<QueryItem>, name: string): (r: seq<QueryItem>)
    ensures |r| <= |items|
    ensures forall k :: 0 <= k < |r| ==> r[k].name == name && r[k] in items
    ensures forall it :: it in items && it.name == name ==> it in r
  {
    if items == [] then []
    else if items[0].name == name then [items[0]] + Named(items[1..], name)
    else Named(items[1..], name)
  }

  /** `queryItems?.filter({ $0.name == name }).first?.value` */
  function QueryValue(c: UrlComponents, name: string): Option<string>
  {
    if c.queryItems.None? then None
    else
      var matches := Named(c.queryItems.value, name);
      if matches == [] then None else matches[0].value
  }

  /** The filtered list starts with the first item of that name, if any. */
  lemma {:induction false} NamedStartsWithFirst(items: seq<QueryItem>, name: string, i: nat)
    requires i < |items| && items[i].name == name
    requires forall j :: 0 <= j < i ==> items[j].name != name
    ensures Named(items, name) != [] && Named(items, name)[0] == items[i]
  {
    if i > 0 {
      NamedStartsWithFirst(items[1..], name, i - 1);
    }
  }

  /** Filtering yields nothing exactly when no item has that name. */
  lemma {:induction false} NamedEmpty(items: seq<QueryItem>, name: string)
    ensures Named(items, name) == [] <==> forall j :: 0 <= j < |items| ==> items[j].name != name
  {
    if items != [] {
      NamedEmpty(items[1..], name);
      if items[0].name != name {
        assert forall j :: 1 <= j < |items| ==> items[j] == items[1..][j - 1];
      }
    }
  }

  /** Item i is the first one carrying the name. */
  predicate IsFirstNamed(items: seq<QueryItem>, name: string, i: int)
  {
    0 <= i < |items| && items[i].name == name && forall j :: 0 <= j < i ==> items[j].name != name
  }

  /**
   * The looked-up value is the value of the FIRST item carrying the name:
   * present only when that item has one, even if a later item of the same
   * name has a value; absent when no item has the name. (Without a query at
   * all, QueryValue is None by definition.)
   */
  lemma QueryValueIsFirstMatch(items: seq<QueryItem>, name: string)
    ensures (forall j :: 0 <= j < |items| ==> items[j].name != name) ==>
              QueryValue(UrlComponents(Some(items)), name).None?
    ensures forall i :: IsFirstNamed(items, name, i) ==>
              QueryValue(UrlComponents(Some(items)), name) == items[i].value
  {
    NamedEmpty(items, name);
    forall i | IsFirstNamed(items, name, i)
      ensures QueryValue(UrlComponents(Some(items)), name) == items[i].value
    {
      NamedStartsWithFirst(items, name, i);
    }
  }
}
