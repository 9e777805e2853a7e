/**
 * The resource library: the resource table narrowed by a type filter and a
 * case-insensitive search over title, description and tags.
 */
module ResourcesPage {
  import opened Types
  import opened Seqs
  import opened Text
  import opened MockData

  /** `'all' | 'article' | 'video' | 'podcast' | 'book' | 'website'`. */
  datatype TypeFilter = AllTypes | OnlyType(kind: ResourceType)

  /** The two pieces of page state that decide which resources are listed. */
  datatype Filters = Filters(kind: TypeFilter, query: string)

  /** The state the page opens with, and the one "Reset Filters" returns to. */
  const Defaults: Filters := Filters(AllTypes, "")

  predicate PassesType(f: Filters, r: Resource) {
    f.kind.AllTypes? || r.kind == f.kind.kind
  }

  /** `tags.some(tag => tag.toLowerCase().includes(query))`. */
  predicate SomeTagMatches(tags: seq<string>, query: string) {
    exists tag :: tag in tags && ContainsIgnoringCase(tag, query)
  }

  /** An empty query matches everything; otherwise the title, the description or a tag must contain it, ignoring case. */
  predicate MatchesQuery(query: string, r: Resource) {
    query == "" ||
    ContainsIgnoringCase(r.title, query) ||
    ContainsIgnoringCase(r.description, query) ||
    SomeTagMatches(r.tags, query)
  }

  /** The filter callback: a kept resource has the chosen type; the defaults keep everything. */
  predicate Keeps(f: Filters, r: Resource)
    ensures Keeps(f, r) && f.kind.OnlyType? ==> r.kind == f.kind.kind
    ensures f.kind.AllTypes? && f.query == "" ==> Keeps(f, r)
  {
    PassesType(f, r) && MatchesQuery(f.query, r)
  }

  /** `filteredResources`. */
  function FilteredResources(f: Filters): (res: seq<Resource>)
    ensures forall r :: r in res <==> r in Resources && Keeps(f, r)
    ensures f.kind.OnlyType? ==> forall r :: r in res ==> r.kind == f.kind.kind
    ensures |res| <= |Resources|
  {
    Filter(Resources, (r: Resource) => Keeps(f, r))
  }

  /** The listed resources keep the table's order. */
  lemma FilteredResourcesInOrder(f: Filters)
    ensures SubsequenceOf(FilteredResources(f), Resources)
  {
    FilterIsSubsequence(Resources, (r: Resource) => Keeps(f, r));
  }

  /**
   * Among resources of the selected type, a non-empty query keeps exactly the
   * resources whose lowercased title, description or some lowercased tag has
   * the lowercased query at some position.
   */
  lemma QueryKeepsIff(f: Filters, r: Resource)
    requires PassesType(f, r) && f.query != ""
    ensures Keeps(f, r) <==>
      (exists i: nat :: OccursAt(Lower(r.title), Lower(f.query), i)) ||
      (exists i: nat :: OccursAt(Lower(r.description), Lower(f.query), i)) ||
      (exists tag, i: nat :: tag in r.tags && OccursAt(Lower(tag), Lower(f.query), i))
  {
    IncludesIff(Lower(r.title), Lower(f.query));
    IncludesIff(Lower(r.description), Lower(f.query));
    forall tag | tag in r.tags {
      IncludesIff(Lower(tag), Lower(f.query));
    }
  }

  /** With the type at 'all' and no query the whole table is listed. */
  lemma DefaultsShowAll()
    ensures FilteredResources(Defaults) == Resources
  {
    FilterKeepsAll(Resources, (r: Resource) => Keeps(Defaults, r));
  }

  /** "Reset Filters": type back to 'all' and the query emptied, so every resource is listed again. */
  function Reset(f: Filters): (r: Filters)
    ensures r.kind == AllTypes && r.query == ""
    ensures FilteredResources(r) == Resources
  {
    DefaultsShowAll();
    Defaults
  }

  /** Selecting "podcast" lists resource 2 and nothing else. */
  lemma PodcastFilter()
    ensures FilteredResources(Filters(OnlyType(Podcast), "")) == [Resources[1]]
    ensures Resources[1].id == "2"
  {
    var p := (r: Resource) => Keeps(Filters(OnlyType(Podcast), ""), r);
    assert Resources[0].kind == Article && Resources[1].kind == Podcast && Resources[2].kind == Video;
    assert Resources[3].kind == Website && Resources[4].kind == Book;
    FilterSingle(Resources, p, 1);
  }
}
