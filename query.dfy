/** Query shaping in `master_query`: the facet-field list, the sort, the filter
    queries, the fixed select and highlighting parameters, and the status test
    applied to the response. */
module QueryShaping {
  import opened Php

  /** The plugin options `master_query` reads. */
  datatype Settings = Settings(
    facetOnCategories: bool,               // s4wp_facet_on_categories
    facetOnTags: bool,                     // s4wp_facet_on_tags
    facetOnAuthor: bool,                   // s4wp_facet_on_author
    facetOnType: bool,                     // s4wp_facet_on_type
    facetOnTaxonomy: nat,                  // count() of s4wp_facet_on_taxonomy
    facetOnCustomFields: Option<seq<string>>, // s4wp_facet_on_custom_fields; None when not an array
    maxDisplayTags: int,                   // s4wp_max_display_tags
    defaultOperator: Option<string>        // s4wp_default_operator, None when unset
  )

  datatype Sort = Sort(field: string, order: string)
  datatype FacetSet = FacetSet(fields: seq<string>, minCount: int, limit: Option<int>)
  /** A filter query: its key and its query text. */
  datatype FilterQuery = FilterQuery(key: string, query: string)
  datatype Highlighting = Highlighting(fields: string, prefix: string, postfix: string, multiTerm: bool)

  /** The select query handed to the client. */
  datatype SelectQuery = SelectQuery(
    query: string,
    fields: string,
    start: int,
    rows: int,
    omitHeader: bool,
    sort: Sort,
    facets: FacetSet,
    filters: seq<FilterQuery>,
    highlighting: Highlighting,
    defaultOperator: Option<string>
  )

  /** What the client's response carries that the plugin reads. */
  datatype Response = Response(statusCode: int, numFound: nat)

  /** The outcome of `$solr->select()`: an exception or a response. */
  datatype SelectOutcome = Threw | Responded(response: Response)

  const TaxonomySuffix := "_taxonomy"
  const CustomFieldSuffix := "_str"
  const PostContentHighlighting := Highlighting("post_content", "<b>", "</b>", true)

  predicate Distinct(s: seq<string>) {
    forall i, j :: 0 <= i < j < |s| ==> s[i] != s[j]
  }

  predicate EndsWith(s: string, suffix: string) {
    |suffix| <= |s| && s[|s| - |suffix|..] == suffix
  }

  // ---------------------------------------------------------------- facets

  /** The flag-controlled facets, in their fixed order. */
  function FixedFacets(settings: Settings): seq<string> {
    (if settings.facetOnCategories then ["categories"] else [])
    + (if settings.facetOnTags then ["tags"] else [])
    + (if settings.facetOnAuthor then ["post_author"] else [])
    + (if settings.facetOnType then ["post_type"] else [])
  }

  /** Every name with `suffix` appended, in order. */
  function Suffixed(names: seq<string>, suffix: string): (r: seq<string>)
    ensures |r| == |names|
    ensures forall k :: 0 <= k < |r| ==> r[k] == names[k] + suffix
  {
    if names == [] then [] else Suffixed(names[..|names| - 1], suffix) + [names[|names| - 1] + suffix]
  }

  predicate CustomFieldFacetsOn(settings: Settings) {
    settings.facetOnCustomFields.Some? && |settings.facetOnCustomFields.value| > 0
  }

  function TaxonomyFacets(settings: Settings, taxonomies: seq<string>): seq<string> {
    if settings.facetOnTaxonomy > 0 then Suffixed(taxonomies, TaxonomySuffix) else []
  }

  function CustomFieldFacets(settings: Settings): seq<string> {
    if CustomFieldFacetsOn(settings) then Suffixed(settings.facetOnCustomFields.value, CustomFieldSuffix) else []
  }

  /** The facet-field list: fixed facets, then one `<t>_taxonomy` per
      non-builtin taxonomy, then one `<f>_str` per configured custom field. */
  function FacetFields(settings: Settings, taxonomies: seq<string>): seq<string> {
    FixedFacets(settings) + TaxonomyFacets(settings, taxonomies) + CustomFieldFacets(settings)
  }

  /** The facet-field list as `master_query` builds it, appending in turn. */
  method CollectFacetFields(settings: Settings, taxonomies: seq<string>) returns (fields: seq<string>)
    ensures fields == FacetFields(settings, taxonomies)
  {
    fields := [];
    if settings.facetOnCategories {
      fields := fields + ["categories"];
    }
    ghost var a := fields;
    if settings.facetOnTags {
      fields := fields + ["tags"];
    }
    assert fields == a + (if settings.facetOnTags then ["tags"] else []);
    ghost var b := fields;
    if settings.facetOnAuthor {
      fields := fields + ["post_author"];
    }
    assert fields == b + (if settings.facetOnAuthor then ["post_author"] else []);
    ghost var c := fields;
    if settings.facetOnType {
      fields := fields + ["post_type"];
    }
    assert fields == c + (if settings.facetOnType then ["post_type"] else []);
    assert fields == FixedFacets(settings);
    ghost var fixed := fields;
    if settings.facetOnTaxonomy > 0 {
      fields := AppendSuffixed(fields, taxonomies, TaxonomySuffix);
    }
    assert fields == fixed + TaxonomyFacets(settings, taxonomies);
    ghost var upToTaxonomies := fields;
    if settings.facetOnCustomFields.Some? && |settings.facetOnCustomFields.value| > 0 {
      fields := AppendSuffixed(fields, settings.facetOnCustomFields.value, CustomFieldSuffix);
    }
    assert fields == upToTaxonomies + CustomFieldFacets(settings);
  }

  /** One `foreach` of `master_query`: append each name with `suffix` to `fields`. */
  method AppendSuffixed(fields: seq<string>, names: seq<string>, suffix: string) returns (r: seq<string>)
    ensures r == fields + Suffixed(names, suffix)
  {
    r := fields;
    var i := 0;
    while i < |names|
      invariant 0 <= i <= |names|
      invariant r == fields + Suffixed(names[..i], suffix)
    {
      assert names[..i + 1][..i] == names[..i];
      r := r + [names[i] + suffix];
      i := i + 1;
    }
    assert names[..|names|] == names;
  }

  // ------------------------------------------------------- facet distinctness

  lemma DistinctConcat(a: seq<string>, b: seq<string>)
    ensures Distinct(a + b) <==> Distinct(a) && Distinct(b) && forall x :: x in a ==> x !in b
  {
    var c := a + b;
    if Distinct(c) {
      forall i, j | 0 <= i < j < |a| ensures a[i] != a[j] {
        assert c[i] == a[i] && c[j] == a[j];
      }
      forall i, j | 0 <= i < j < |b| ensures b[i] != b[j] {
        assert c[|a| + i] == b[i] && c[|a| + j] == b[j];
      }
      forall x | x in a ensures x !in b {
        var i :| 0 <= i < |a| && a[i] == x;
        forall j | 0 <= j < |b| ensures b[j] != x {
          assert c[i] == x && c[|a| + j] == b[j];
        }
      }
    }
    if Distinct(a) && Distinct(b) && (forall x :: x in a ==> x !in b) {
      forall i, j | 0 <= i < j < |c| ensures c[i] != c[j] {
        if j < |a| {
          assert c[i] == a[i] && c[j] == a[j];
        } else if i >= |a| {
          assert c[i] == b[i - |a|] && c[j] == b[j - |a|];
        } else {
          assert c[i] in a && c[j] in b;
        }
      }
    }
  }

  lemma AppendSuffixInjective(a: string, b: string, suffix: string)
    requires a != b
    ensures a + suffix != b + suffix
  {
    assert (a + suffix)[..|a|] == a;
    assert (b + suffix)[..|b|] == b;
  }

  lemma SuffixedDistinct(names: seq<string>, suffix: string)
    ensures Distinct(Suffixed(names, suffix)) <==> Distinct(names)
  {
    var r := Suffixed(names, suffix);
    if Distinct(names) {
      forall i, j | 0 <= i < j < |r| ensures r[i] != r[j] {
        AppendSuffixInjective(names[i], names[j], suffix);
      }
    }
  }

  lemma SuffixedEndsWith(names: seq<string>, suffix: string)
    ensures forall x :: x in Suffixed(names, suffix) ==> EndsWith(x, suffix)
  {
    var r := Suffixed(names, suffix);
    forall x | x in r ensures EndsWith(x, suffix) {
      var k :| 0 <= k < |r| && r[k] == x;
      assert (names[k] + suffix)[|names[k]|..] == suffix;
    }
  }

  lemma FixedFacetsShape(settings: Settings)
    ensures Distinct(FixedFacets(settings))
    ensures forall x :: x in FixedFacets(settings) ==> x in ["categories", "tags", "post_author", "post_type"]
  {
    var a := if settings.facetOnCategories then ["categories"] else [];
    var b := if settings.facetOnTags then ["tags"] else [];
    var c := if settings.facetOnAuthor then ["post_author"] else [];
    var d := if settings.facetOnType then ["post_type"] else [];
    DistinctConcat(a, b);
    DistinctConcat(a + b, c);
    DistinctConcat(a + b + c, d);
  }

  /** A string whose character where the suffix would start differs from the suffix's first does not end with it. */
  lemma NotEndsWith(x: string, suffix: string)
    requires |suffix| > 0 && (|x| < |suffix| || x[|x| - |suffix|] != suffix[0])
    ensures !EndsWith(x, suffix)
  {
    if |suffix| <= |x| {
      assert x[|x| - |suffix|..][0] == x[|x| - |suffix|];
    }
  }

  lemma FixedNamesCarryNoGeneratedSuffix()
    ensures forall x :: x in ["categories", "tags", "post_author", "post_type"] ==>
      !EndsWith(x, TaxonomySuffix) && !EndsWith(x, CustomFieldSuffix)
  {
    NotEndsWith("categories", TaxonomySuffix);
    NotEndsWith("categories", CustomFieldSuffix);
    NotEndsWith("tags", TaxonomySuffix);
    NotEndsWith("tags", CustomFieldSuffix);
    NotEndsWith("post_author", TaxonomySuffix);
    NotEndsWith("post_author", CustomFieldSuffix);
    NotEndsWith("post_type", TaxonomySuffix);
    NotEndsWith("post_type", CustomFieldSuffix);
  }

  lemma DifferentLastChar(x: string, y: string)
    requires EndsWith(x, TaxonomySuffix) && EndsWith(y, CustomFieldSuffix)
    ensures x != y
  {
    assert x[|x| - 1] == x[|x| - |TaxonomySuffix|..][|TaxonomySuffix| - 1] == 'y';
    assert y[|y| - 1] == y[|y| - |CustomFieldSuffix|..][|CustomFieldSuffix| - 1] == 'r';
  }

  /** The facet list has no duplicates exactly when the taxonomy names (if
      taxonomy faceting is on) and the custom field names (if custom-field
      faceting is on) have none: the generated suffixes keep the three groups apart. */
  lemma {:induction false} FacetFieldsDistinct(settings: Settings, taxonomies: seq<string>)
    ensures Distinct(FacetFields(settings, taxonomies)) <==>
      && (settings.facetOnTaxonomy > 0 ==> Distinct(taxonomies))
      && (CustomFieldFacetsOn(settings) ==> Distinct(settings.facetOnCustomFields.value))
  {
    var f := FixedFacets(settings);
    var t := TaxonomyFacets(settings, taxonomies);
    var c := CustomFieldFacets(settings);
    FixedFacetsShape(settings);
    FixedNamesCarryNoGeneratedSuffix();
    SuffixedDistinct(taxonomies, TaxonomySuffix);
    SuffixedEndsWith(taxonomies, TaxonomySuffix);
    if CustomFieldFacetsOn(settings) {
      SuffixedDistinct(settings.facetOnCustomFields.value, CustomFieldSuffix);
      SuffixedEndsWith(settings.facetOnCustomFields.value, CustomFieldSuffix);
    }
    forall x | x in f + t ensures x !in c {
      if x in f {
        assert !EndsWith(x, CustomFieldSuffix);
      } else {
        assert EndsWith(x, TaxonomySuffix);
        forall y | y in c ensures y != x { DifferentLastChar(x, y); }
      }
    }
    DistinctConcat(f, t);
    DistinctConcat(f + t, c);
  }

  lemma FixedFacetsMembers(settings: Settings)
    ensures ("categories" in FixedFacets(settings)) == settings.facetOnCategories
    ensures ("tags" in FixedFacets(settings)) == settings.facetOnTags
    ensures ("post_author" in FixedFacets(settings)) == settings.facetOnAuthor
    ensures ("post_type" in FixedFacets(settings)) == settings.facetOnType
  {
  }

  lemma GeneratedFacetsSuffixes(settings: Settings, taxonomies: seq<string>)
    ensures forall x :: x in TaxonomyFacets(settings, taxonomies) ==> EndsWith(x, TaxonomySuffix)
    ensures forall x :: x in CustomFieldFacets(settings) ==> EndsWith(x, CustomFieldSuffix)
  {
    SuffixedEndsWith(taxonomies, TaxonomySuffix);
    if CustomFieldFacetsOn(settings) {
      SuffixedEndsWith(settings.facetOnCustomFields.value, CustomFieldSuffix);
    }
  }

  /** Which names the facet list holds: a fixed name exactly when its flag is
      set, and `<t>_taxonomy` for a taxonomy `t` exactly when taxonomy faceting is on. */
  lemma {:induction false} FacetFieldsMembers(settings: Settings, taxonomies: seq<string>)
    ensures ("categories" in FacetFields(settings, taxonomies)) == settings.facetOnCategories
    ensures ("tags" in FacetFields(settings, taxonomies)) == settings.facetOnTags
    ensures ("post_author" in FacetFields(settings, taxonomies)) == settings.facetOnAuthor
    ensures ("post_type" in FacetFields(settings, taxonomies)) == settings.facetOnType
    ensures forall t :: t in taxonomies ==> (t + TaxonomySuffix in FacetFields(settings, taxonomies) <==> settings.facetOnTaxonomy > 0)
  {
    var f := FixedFacets(settings);
    var tx := TaxonomyFacets(settings, taxonomies);
    var c := CustomFieldFacets(settings);
    assert FacetFields(settings, taxonomies) == f + tx + c;
    FixedFacetsMembers(settings);
    FixedNamesCarryNoGeneratedSuffix();
    GeneratedFacetsSuffixes(settings, taxonomies);
    forall name | name in ["categories", "tags", "post_author", "post_type"]
      ensures name !in tx + c
    {
    }
    forall t | t in taxonomies
      ensures t + TaxonomySuffix in f + tx + c <==> settings.facetOnTaxonomy > 0
    {
      var k :| 0 <= k < |taxonomies| && taxonomies[k] == t;
      var x := t + TaxonomySuffix;
      assert (t + TaxonomySuffix)[|t|..] == TaxonomySuffix;
      assert x !in f;
      if settings.facetOnTaxonomy > 0 {
        assert tx[k] == x;
      } else {
        forall y | y in c ensures y != x { DifferentLastChar(x, y); }
      }
    }
  }

  // --------------------------------------------------------------- filters

  /** The filter queries built from the entries of `$fq`: every entry other
      than the empty string, with the entry as both key and query text. */
  function Kept(entries: seq<string>): (r: seq<FilterQuery>)
    ensures forall f :: f in r ==> f.key == f.query && f.key != "" && f.key in entries
    ensures forall i :: 0 <= i < |entries| && entries[i] != "" ==> FilterQuery(entries[i], entries[i]) in r
    ensures |r| + multiset(entries)[""] == |entries|
  {
    if entries == [] then []
    else
      var init := entries[..|entries| - 1];
      var last := entries[|entries| - 1];
      assert entries == init + [last];
      Kept(init) + (if last != "" then [FilterQuery(last, last)] else [])
  }

  /** `isset($fq)` guards the loop: an unset list gives no filter queries. */
  function FilterQueries(fq: Option<seq<string>>): seq<FilterQuery> {
    if fq.Some? then Kept(fq.value) else []
  }

  /** Filter queries keep the order of the entries they come from. */
  lemma {:induction false} KeptAppend(a: seq<string>, b: seq<string>)
    ensures Kept(a + b) == Kept(a) + Kept(b)
    decreases |b|
  {
    if b == [] {
      assert a + b == a;
    } else {
      var init := b[..|b| - 1];
      assert (a + b)[..|a + b| - 1] == a + init;
      KeptAppend(a, init);
    }
  }

  /** Only the empty string is dropped: "" vanishes, whitespace survives. */
  lemma KeptExamples()
    ensures Kept(["", "title:foo", ""]) == [FilterQuery("title:foo", "title:foo")]
    ensures Kept([" "]) == [FilterQuery(" ", " ")]
  {
    assert ["", "title:foo", ""][..2] == ["", "title:foo"];
    assert ["", "title:foo"][..1] == [""];
  }

  /** One more entry adds its filter query at the end, unless it is "". */
  lemma KeptStep(entries: seq<string>, i: nat)
    requires i < |entries|
    ensures Kept(entries[..i + 1]) == Kept(entries[..i]) + (if entries[i] != "" then [FilterQuery(entries[i], entries[i])] else [])
  {
    assert entries[..i + 1][..i] == entries[..i];
  }

  /** The filter queries exactly as the loop in `master_query` adds them. */
  method CollectFilterQueries(fq: Option<seq<string>>) returns (filters: seq<FilterQuery>)
    ensures filters == FilterQueries(fq)
  {
    filters := [];
    if fq.Some? {
      var entries := fq.value;
      var i := 0;
      while i < |entries|
        invariant 0 <= i <= |entries|
        invariant filters == Kept(entries[..i])
      {
        KeptStep(entries, i);
        if entries[i] != "" {
          filters := filters + [FilterQuery(entries[i], entries[i])];
        }
        i := i + 1;
      }
      assert entries[..|entries|] == entries;
    }
  }

  // ------------------------------------------------------ the select query

  /** The sort: `post_date desc` when no sort field is given, else the one given. */
  function SortFor(sortBy: string, order: string): Sort {
    if sortBy != "" then Sort(sortBy, order) else Sort("post_date", "desc")
  }

  /** The facet set: min-count 1 always; a limit only when tag faceting is on. */
  function FacetSetFor(fields: seq<string>, settings: Settings): FacetSet {
    FacetSet(fields, 1, if settings.facetOnTags then Some(settings.maxDisplayTags) else None)
  }

  /** The select query `master_query` sends for one request. */
  function SelectFor(qry: string, offset: int, count: int, fq: Option<seq<string>>, sortBy: string, order: string,
                     settings: Settings, taxonomies: seq<string>): SelectQuery
  {
    SelectQuery(qry, "*,score", offset, count, false, SortFor(sortBy, order),
                FacetSetFor(FacetFields(settings, taxonomies), settings), FilterQueries(fq),
                PostContentHighlighting, settings.defaultOperator)
  }

  /** The fixed parts of every select, the sort rule and the facet limit rule. */
  lemma SelectShape(qry: string, offset: int, count: int, fq: Option<seq<string>>, sortBy: string, order: string,
                    settings: Settings, taxonomies: seq<string>)
    ensures var q := SelectFor(qry, offset, count, fq, sortBy, order, settings, taxonomies);
      && q.query == qry && q.fields == "*,score" && q.start == offset && q.rows == count && !q.omitHeader
      && (sortBy == "" ==> q.sort == Sort("post_date", "desc"))
      && (sortBy != "" ==> q.sort == Sort(sortBy, order))
      && q.facets.fields == FacetFields(settings, taxonomies)
      && q.facets.minCount == 1
      && (q.facets.limit.Some? <==> settings.facetOnTags)
      && (settings.facetOnTags ==> q.facets.limit.value == settings.maxDisplayTags)
      && q.filters == FilterQueries(fq)
      && q.highlighting == Highlighting("post_content", "<b>", "</b>", true)
      && q.defaultOperator == settings.defaultOperator
  {
  }

  // ------------------------------------------------------- the status test

  /** PHP's `!` on a status code: true exactly for the falsy code 0. */
  function PhpNot(code: int): bool {
    code == 0
  }

  /** PHP's loose `==` between a boolean and an integer: the integer is read as a boolean. */
  function LooseEqualsBoolInt(b: bool, n: int): bool {
    b == (n != 0)
  }

  /** The guard `! $code == 200`, which PHP parses as `(!$code) == 200`. */
  function DiscardsResponse(code: int): bool {
    LooseEqualsBoolInt(PhpNot(code), 200)
  }

  /** A response is dropped only for the falsy status code 0; a 404 is kept. */
  lemma DiscardsOnlyFalsyStatus(code: int)
    ensures DiscardsResponse(code) <==> code == 0
    ensures !DiscardsResponse(404) && !DiscardsResponse(200) && !DiscardsResponse(500)
  {
  }

  /** What `master_query` returns once the select ran: None after an
      exception or for a falsy status code, otherwise the response itself. */
  function Interpret(outcome: SelectOutcome): (r: Option<Response>)
    ensures r.Some? <==> outcome.Responded? && outcome.response.statusCode != 0
    ensures r.Some? ==> r.value == outcome.response
  {
    match outcome
    case Threw => None
    case Responded(response) => if DiscardsResponse(response.statusCode) then None else Some(response)
  }
}
