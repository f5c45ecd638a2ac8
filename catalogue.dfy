/**
 * The client's views of the service catalogue: the category list the
 * dashboard derives, the order form's category filter and service lookup,
 * and the services page's search.
 */
module Catalogue {
  import opened Wrappers
  import opened Types
  import Seqs
  import Text

  /** `services.map(s => s.category)`. */
  function CategoryColumn(services: seq<Service>): seq<string> {
    seq(|services|, i requires 0 <= i < |services| => services[i].category)
  }

  /**
   * `Array.from(new Set(services.map(s => s.category)))`: each category of
   * some service, listed once.
   */
  function Categories(services: seq<Service>): (cats: seq<string>)
    ensures Seqs.NoDuplicates(cats)
    ensures forall i :: 0 <= i < |cats| ==> exists k :: 0 <= k < |services| && services[k].category == cats[i]
    ensures forall k :: 0 <= k < |services| ==> services[k].category in cats
  {
    var column := CategoryColumn(services);
    var cats := Seqs.Distinct(column);
    assert forall i :: 0 <= i < |cats| ==> exists k :: 0 <= k < |services| && services[k].category == cats[i] by {
      forall i | 0 <= i < |cats| ensures exists k :: 0 <= k < |services| && services[k].category == cats[i] {
        var k :| 0 <= k < |column| && column[k] == cats[i];
        assert services[k].category == cats[i];
      }
    }
    assert forall k :: 0 <= k < |services| ==> column[k] == services[k].category;
    cats
  }

  /**
   * Categories are listed in the order in which services first carry them:
   * an earlier category's first service comes before a later one's.
   */
  lemma CategoriesInFirstOccurrenceOrder(services: seq<Service>, i: nat, j: nat)
    requires i < j < |Categories(services)|
    ensures Categories(services)[i] in CategoryColumn(services)
    ensures Categories(services)[j] in CategoryColumn(services)
    ensures Seqs.FirstIndex(CategoryColumn(services), Categories(services)[i])
          < Seqs.FirstIndex(CategoryColumn(services), Categories(services)[j])
  {
    Seqs.DistinctFirstOccurrenceOrder(CategoryColumn(services), i, j);
  }

  /** `services.filter(s => s.category === category)`. */
  function FilteredServices(services: seq<Service>, category: string): (r: seq<Service>)
    ensures Seqs.IsSubsequence(r, services)
    ensures forall i :: 0 <= i < |r| ==> r[i].category == category
    ensures forall k :: 0 <= k < |services| && services[k].category == category ==> services[k] in r
  {
    var inCategory := (s: Service) => s.category == category;
    Seqs.FilterIsSubsequence(inCategory, services);
    Seqs.Filter(inCategory, services)
  }

  /** The filter keeps every occurrence of a service of the category and nothing else. */
  lemma FilteredServicesCount(services: seq<Service>, category: string, s: Service)
    ensures multiset(FilteredServices(services, category))[s]
         == if s.category == category then multiset(services)[s] else 0
  {
    Seqs.FilterCount((t: Service) => t.category == category, services, s);
  }

  /** `services.find(s => s.service === id)`: the first service with that id, if any. */
  function SelectedService(services: seq<Service>, id: string): (r: Option<Service>)
    ensures r.None? <==> forall k :: 0 <= k < |services| ==> services[k].service != id
    ensures r.Some? ==> r.value.service == id
    ensures r.Some? ==> exists k :: 0 <= k < |services| && services[k] == r.value
                          && forall j :: 0 <= j < k ==> services[j].service != id
  {
    Seqs.Find((s: Service) => s.service == id, services)
  }

  /** The search predicate: the lower-cased term occurs in the lower-cased name or category. */
  predicate MatchesTerm(s: Service, term: string) {
    Text.Contains(Text.Lower(s.name), Text.Lower(term)) || Text.Contains(Text.Lower(s.category), Text.Lower(term))
  }

  /** The services page's `filtered` list. */
  function Search(services: seq<Service>, term: string): (r: seq<Service>)
    ensures Seqs.IsSubsequence(r, services)
    ensures forall i :: 0 <= i < |r| ==> MatchesTerm(r[i], term)
    ensures forall k :: 0 <= k < |services| && MatchesTerm(services[k], term) ==> services[k] in r
  {
    var matches := (s: Service) => MatchesTerm(s, term);
    Seqs.FilterIsSubsequence(matches, services);
    Seqs.Filter(matches, services)
  }

  /** An empty search term keeps every service. */
  lemma SearchEmptyTermKeepsAll(services: seq<Service>)
    ensures Search(services, "") == services
  {
    forall k | 0 <= k < |services| ensures MatchesTerm(services[k], "") {
      Text.ContainsEmpty(Text.Lower(services[k].name));
    }
    Seqs.FilterKeepsAll((s: Service) => MatchesTerm(s, ""), services);
  }

  /** The search keeps every occurrence of a matching service and no occurrence of another. */
  lemma SearchCount(services: seq<Service>, term: string, s: Service)
    ensures multiset(Search(services, term))[s]
         == if MatchesTerm(s, term) then multiset(services)[s] else 0
  {
    Seqs.FilterCount((t: Service) => MatchesTerm(t, term), services, s);
  }

  /** Terms that lower-case alike give the same result. */
  lemma SearchIgnoresCase(services: seq<Service>, term1: string, term2: string)
    requires Text.Lower(term1) == Text.Lower(term2)
    ensures Search(services, term1) == Search(services, term2)
  {
    Seqs.FilterCongruent((s: Service) => MatchesTerm(s, term1), (s: Service) => MatchesTerm(s, term2), services);
  }

  /** Searching for the lower-cased term is the same search. */
  lemma SearchLowerTerm(services: seq<Service>, term: string)
    ensures Search(services, Text.Lower(term)) == Search(services, term)
  {
    Text.LowerIdempotent(term);
    SearchIgnoresCase(services, Text.Lower(term), term);
  }

  /** Searching the result again with the same term returns it unchanged. */
  lemma SearchIdempotent(services: seq<Service>, term: string)
    ensures Search(Search(services, term), term) == Search(services, term)
  {
    Seqs.FilterIdempotent((s: Service) => MatchesTerm(s, term), services);
  }
}
