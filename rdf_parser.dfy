/**
 * DCAT extraction of parsers/rdf_parser.py over an already-parsed RDF graph.
 * A graph is the sequence of its triples in the graph library's iteration
 * order; a term is its string form (the source's `str(...)` coercion).
 */
module RdfParser {
  import opened Datasets

  type Term = string

  datatype Triple = Triple(subj: Term, pred: Term, obj: Term)

  type Graph = seq<Triple>

  /** An RDF graph is a set of triples: no triple occurs twice. */
  predicate NoDuplicates(g: Graph)
  {
    forall i, j :: 0 <= i < j < |g| ==> g[i] != g[j]
  }

  /** The IRIs the parser reads: `rdf:type`, and terms of the W3C DCAT vocabulary and DCMI Metadata Terms. */
  const RdfType := "http://www.w3.org/1999/02/22-rdf-syntax-ns#type"
  const DcatDataset := "http://www.w3.org/ns/dcat#Dataset"
  const DcatKeyword := "http://www.w3.org/ns/dcat#keyword"
  const DcatDistribution := "http://www.w3.org/ns/dcat#distribution"
  const DcatAccessUrl := "http://www.w3.org/ns/dcat#accessURL"
  const DcatDownloadUrl := "http://www.w3.org/ns/dcat#downloadURL"
  const DctTitle := "http://purl.org/dc/terms/title"
  const DctDescription := "http://purl.org/dc/terms/description"

  // ---------------------------------------------------------------------------
  // Graph queries
  // ---------------------------------------------------------------------------

  /** `graph.objects(s, p)`: the objects of the triples with subject `s` and predicate `p`, in graph order. */
  function Objects(g: Graph, s: Term, p: Term): seq<Term>
  {
    if g == [] then []
    else
      (if g[0].subj == s && g[0].pred == p then [g[0].obj] else []) + Objects(g[1..], s, p)
  }

  /** `graph.subjects(p, o)`: the subjects of the triples with predicate `p` and object `o`, in graph order. */
  function Subjects(g: Graph, p: Term, o: Term): seq<Term>
  {
    if g == [] then []
    else
      (if g[0].pred == p && g[0].obj == o then [g[0].subj] else []) + Subjects(g[1..], p, o)
  }

  /** An object query answers exactly the objects of the matching triples. */
  lemma {:induction false} ObjectsMembers(g: Graph, s: Term, p: Term)
    ensures forall o :: o in Objects(g, s, p) <==> Triple(s, p, o) in g
  {
    if g != [] {
      ObjectsMembers(g[1..], s, p);
      assert g == [g[0]] + g[1..];
    }
  }

  /** A subject query answers exactly the subjects of the matching triples. */
  lemma {:induction false} SubjectsMembers(g: Graph, p: Term, o: Term)
    ensures forall s :: s in Subjects(g, p, o) <==> Triple(s, p, o) in g
  {
    if g != [] {
      SubjectsMembers(g[1..], p, o);
      assert g == [g[0]] + g[1..];
    }
  }

  /** Querying a graph made of two parts lists the first part's answers before the second's. */
  lemma {:induction false} ObjectsAppend(g: Graph, h: Graph, s: Term, p: Term)
    ensures Objects(g + h, s, p) == Objects(g, s, p) + Objects(h, s, p)
  {
    if g != [] {
      assert (g + h)[0] == g[0];
      assert (g + h)[1..] == g[1..] + h;
      ObjectsAppend(g[1..], h, s, p);
    } else {
      assert g + h == h;
    }
  }

  /** The subject query preserves graph order in the same sense. */
  lemma {:induction false} SubjectsAppend(g: Graph, h: Graph, p: Term, o: Term)
    ensures Subjects(g + h, p, o) == Subjects(g, p, o) + Subjects(h, p, o)
  {
    if g != [] {
      assert (g + h)[0] == g[0];
      assert (g + h)[1..] == g[1..] + h;
      SubjectsAppend(g[1..], h, p, o);
    } else {
      assert g + h == h;
    }
  }

  /** No value is repeated in a sequence. */
  predicate Distinct(xs: seq<Term>)
  {
    forall i, j :: 0 <= i < j < |xs| ==> xs[i] != xs[j]
  }

  /** In a graph without duplicate triples, an object query lists each object once. */
  lemma {:induction false} ObjectsDistinct(g: Graph, s: Term, p: Term)
    requires NoDuplicates(g)
    ensures Distinct(Objects(g, s, p))
  {
    if g != [] {
      var rest := g[1..];
      assert NoDuplicates(rest) by {
        forall i, j | 0 <= i < j < |rest| ensures rest[i] != rest[j] {
          assert rest[i] == g[i + 1] && rest[j] == g[j + 1];
        }
      }
      ObjectsDistinct(rest, s, p);
      ObjectsMembers(rest, s, p);
      assert g[0] !in rest;
    }
  }

  /** In a graph without duplicate triples, a subject query lists each subject once. */
  lemma {:induction false} SubjectsDistinct(g: Graph, p: Term, o: Term)
    requires NoDuplicates(g)
    ensures Distinct(Subjects(g, p, o))
  {
    if g != [] {
      var rest := g[1..];
      assert NoDuplicates(rest) by {
        forall i, j | 0 <= i < j < |rest| ensures rest[i] != rest[j] {
          assert rest[i] == g[i + 1] && rest[j] == g[j + 1];
        }
      }
      SubjectsDistinct(rest, p, o);
      SubjectsMembers(rest, p, o);
      assert g[0] !in rest;
    }
  }

  // ---------------------------------------------------------------------------
  // Specification of the extraction
  // ---------------------------------------------------------------------------

  /** The subjects typed `dcat:Dataset`, in graph order. */
  function DatasetSubjects(g: Graph): seq<Term>
  {
    Subjects(g, RdfType, DcatDataset)
  }

  /** The distribution nodes of a dataset subject, in graph order. */
  function Distributions(g: Graph, s: Term): seq<Term>
  {
    Objects(g, s, DcatDistribution)
  }

  /** The `p` values of the given distributions, concatenated in order. */
  function UrlsOf(g: Graph, distributions: seq<Term>, p: Term): seq<Term>
  {
    if distributions == [] then []
    else
      var n := |distributions| - 1;
      UrlsOf(g, distributions[..n], p) + Objects(g, distributions[n], p)
  }

  /** The Dataset record the extractor builds for one subject. */
  function DatasetOf(g: Graph, s: Term): Dataset
  {
    var distributions := Distributions(g, s);
    Dataset(
      Objects(g, s, DctTitle),
      Objects(g, s, DctDescription),
      Objects(g, s, DcatKeyword),
      UrlsOf(g, distributions, DcatAccessUrl),
      UrlsOf(g, distributions, DcatDownloadUrl))
  }

  /** Sum over the distributions of how many `p` values each has. */
  function CountOf(g: Graph, distributions: seq<Term>, p: Term): nat
  {
    if distributions == [] then 0
    else
      var n := |distributions| - 1;
      CountOf(g, distributions[..n], p) + |Objects(g, distributions[n], p)|
  }

  /** The URL list holds, for each distribution, as many URLs as that distribution has. */
  lemma {:induction false} UrlsCount(g: Graph, distributions: seq<Term>, p: Term)
    ensures |UrlsOf(g, distributions, p)| == CountOf(g, distributions, p)
  {
    if distributions != [] {
      UrlsCount(g, distributions[..|distributions| - 1], p);
    }
  }

  /**
   * A URL is collected exactly when some listed distribution carries it; a URL
   * on any other node never appears.
   */
  lemma {:induction false} UrlsProvenance(g: Graph, distributions: seq<Term>, p: Term, u: Term)
    ensures u in UrlsOf(g, distributions, p) <==>
      exists dist :: dist in distributions && Triple(dist, p, u) in g
  {
    if distributions != [] {
      var n := |distributions| - 1;
      var front, last := distributions[..n], distributions[n];
      assert distributions == front + [last];
      UrlsProvenance(g, front, p, u);
      ObjectsMembers(g, last, p);
    }
  }

  /** A dataset's fields come from its own triples, and its URLs from its own distributions. */
  lemma DatasetOfFields(g: Graph, s: Term, x: Term)
    ensures x in DatasetOf(g, s).titles <==> Triple(s, DctTitle, x) in g
    ensures x in DatasetOf(g, s).descriptions <==> Triple(s, DctDescription, x) in g
    ensures x in DatasetOf(g, s).keywords <==> Triple(s, DcatKeyword, x) in g
    ensures x in DatasetOf(g, s).accessUrls <==>
      exists dist :: Triple(s, DcatDistribution, dist) in g && Triple(dist, DcatAccessUrl, x) in g
    ensures x in DatasetOf(g, s).downloadUrls <==>
      exists dist :: Triple(s, DcatDistribution, dist) in g && Triple(dist, DcatDownloadUrl, x) in g
  {
    var ds := Distributions(g, s);
    ObjectsMembers(g, s, DctTitle);
    ObjectsMembers(g, s, DctDescription);
    ObjectsMembers(g, s, DcatKeyword);
    ObjectsMembers(g, s, DcatDistribution);
    UrlsProvenance(g, ds, DcatAccessUrl, x);
    UrlsProvenance(g, ds, DcatDownloadUrl, x);
  }

  /** A query without a matching triple has no answers. */
  lemma {:induction false} ObjectsNone(g: Graph, s: Term, p: Term)
    requires forall t :: t in g ==> !(t.subj == s && t.pred == p)
    ensures Objects(g, s, p) == []
  {
    if g != [] {
      assert g[0] in g;
      assert forall t :: t in g[1..] ==> t in g;
      ObjectsNone(g[1..], s, p);
    }
  }

  /** A subject without `dcat:distribution` edges has no access and no download URLs. */
  lemma NoDistributionsNoUrls(g: Graph, s: Term)
    requires forall t :: t in g ==> !(t.subj == s && t.pred == DcatDistribution)
    ensures DatasetOf(g, s).accessUrls == [] && DatasetOf(g, s).downloadUrls == []
  {
    ObjectsNone(g, s, DcatDistribution);
  }

  /**
   * A subject without title, description or keyword triples (whatever else it
   * has) yields empty titles, descriptions and keywords, not an error.
   */
  lemma UndescribedSubjectYieldsEmptyLists(g: Graph, s: Term)
    requires forall t :: t in g && t.subj == s ==> t.pred != DctTitle && t.pred != DctDescription && t.pred != DcatKeyword
    ensures DatasetOf(g, s).titles == []
    ensures DatasetOf(g, s).descriptions == []
    ensures DatasetOf(g, s).keywords == []
  {
    ObjectsNone(g, s, DctTitle);
    ObjectsNone(g, s, DctDescription);
    ObjectsNone(g, s, DcatKeyword);
  }

  /** A subject whose only triples are type triples yields a Dataset with five empty lists. */
  lemma BareSubjectYieldsEmptyDataset(g: Graph, s: Term)
    requires forall t :: t in g && t.subj == s ==> t.pred == RdfType
    ensures DatasetOf(g, s) == Dataset([], [], [], [], [])
  {
    UndescribedSubjectYieldsEmptyLists(g, s);
    NoDistributionsNoUrls(g, s);
  }

  /** A graph without `rdf:type dcat:Dataset` triples has no dataset subjects. */
  lemma DatasetSubjectsEmptyIff(g: Graph)
    ensures DatasetSubjects(g) == [] <==>
      forall t :: t in g ==> !(t.pred == RdfType && t.obj == DcatDataset)
  {
    SubjectsMembers(g, RdfType, DcatDataset);
    forall t | t in g && t.pred == RdfType && t.obj == DcatDataset ensures t.subj in DatasetSubjects(g) {
      assert Triple(t.subj, t.pred, t.obj) == t;
    }
    if DatasetSubjects(g) != [] {
      assert Triple(DatasetSubjects(g)[0], RdfType, DcatDataset) in g;
    }
  }

  // ---------------------------------------------------------------------------
  // The extractor
  // ---------------------------------------------------------------------------

  /**
   * `_extract_distribution_urls`: for each distribution of the subject, append
   * its access URLs and its download URLs.
   */
  method ExtractDistributionUrls(graph: Graph, datasetUri: Term) returns (accessUrls: seq<Term>, downloadUrls: seq<Term>)
    ensures accessUrls == UrlsOf(graph, Distributions(graph, datasetUri), DcatAccessUrl)
    ensures downloadUrls == UrlsOf(graph, Distributions(graph, datasetUri), DcatDownloadUrl)
  {
    var distributions := Objects(graph, datasetUri, DcatDistribution);
    accessUrls, downloadUrls := [], [];
    for i := 0 to |distributions|
      invariant accessUrls == UrlsOf(graph, distributions[..i], DcatAccessUrl)
      invariant downloadUrls == UrlsOf(graph, distributions[..i], DcatDownloadUrl)
    {
      assert distributions[..i + 1][..i] == distributions[..i];
      accessUrls := accessUrls + Objects(graph, distributions[i], DcatAccessUrl);
      downloadUrls := downloadUrls + Objects(graph, distributions[i], DcatDownloadUrl);
    }
    assert distributions[..|distributions|] == distributions;
  }

  /** `_extract_single_dataset`: the subject's titles, descriptions, keywords and distribution URLs. */
  method ExtractSingleDataset(graph: Graph, datasetUri: Term) returns (dataset: Dataset)
    ensures dataset == DatasetOf(graph, datasetUri)
  {
    var titles := Objects(graph, datasetUri, DctTitle);
    var descriptions := Objects(graph, datasetUri, DctDescription);
    var keywords := Objects(graph, datasetUri, DcatKeyword);
    var accessUrls, downloadUrls := ExtractDistributionUrls(graph, datasetUri);
    dataset := Dataset(titles, descriptions, keywords, accessUrls, downloadUrls);
  }

  /** `_extract_datasets`: one Dataset per `dcat:Dataset` subject, in graph order. */
  method ExtractDatasets(graph: Graph) returns (datasets: seq<Dataset>)
    ensures |datasets| == |DatasetSubjects(graph)|
    ensures forall k :: 0 <= k < |datasets| ==> datasets[k] == DatasetOf(graph, DatasetSubjects(graph)[k])
  {
    datasets := [];
    var datasetSubjects := Subjects(graph, RdfType, DcatDataset);
    for i := 0 to |datasetSubjects|
      invariant |datasets| == i
      invariant forall k :: 0 <= k < i ==> datasets[k] == DatasetOf(graph, datasetSubjects[k])
    {
      var dataset := ExtractSingleDataset(graph, datasetSubjects[i]);
      datasets := datasets + [dataset];
    }
  }

  // ---------------------------------------------------------------------------
  // A worked catalog
  // ---------------------------------------------------------------------------

  const AirQuality := "http://x/dataset/air-quality"
  const AirQualityCsv := "http://x/distribution/csv"

  /** One dataset titled "Air Quality 2024" with two keywords and one distribution. */
  const AirQualityGraph: Graph := [
    Triple(AirQuality, RdfType, DcatDataset),
    Triple(AirQuality, DctTitle, "Air Quality 2024"),
    Triple(AirQuality, DcatKeyword, "air"),
    Triple(AirQuality, DcatKeyword, "quality"),
    Triple(AirQuality, DcatDistribution, AirQualityCsv),
    Triple(AirQualityCsv, DcatAccessUrl, "http://x/access")
  ]

  /** An object query on a six-triple graph, answered triple by triple. */
  lemma ObjectsOfSix(g: Graph, s: Term, p: Term)
    requires |g| == 6
    ensures Objects(g, s, p) ==
      Objects([g[0]], s, p) + Objects([g[1]], s, p) + Objects([g[2]], s, p) +
      Objects([g[3]], s, p) + Objects([g[4]], s, p) + Objects([g[5]], s, p)
  {
    assert g == [g[0]] + ([g[1]] + ([g[2]] + ([g[3]] + ([g[4]] + [g[5]]))));
    ObjectsAppend([g[4]], [g[5]], s, p);
    ObjectsAppend([g[3]], [g[4]] + [g[5]], s, p);
    ObjectsAppend([g[2]], [g[3]] + ([g[4]] + [g[5]]), s, p);
    ObjectsAppend([g[1]], [g[2]] + ([g[3]] + ([g[4]] + [g[5]])), s, p);
    ObjectsAppend([g[0]], [g[1]] + ([g[2]] + ([g[3]] + ([g[4]] + [g[5]]))), s, p);
  }

  /** A subject query on a six-triple graph, answered triple by triple. */
  lemma SubjectsOfSix(g: Graph, p: Term, o: Term)
    requires |g| == 6
    ensures Subjects(g, p, o) ==
      Subjects([g[0]], p, o) + Subjects([g[1]], p, o) + Subjects([g[2]], p, o) +
      Subjects([g[3]], p, o) + Subjects([g[4]], p, o) + Subjects([g[5]], p, o)
  {
    assert g == [g[0]] + ([g[1]] + ([g[2]] + ([g[3]] + ([g[4]] + [g[5]]))));
    SubjectsAppend([g[4]], [g[5]], p, o);
    SubjectsAppend([g[3]], [g[4]] + [g[5]], p, o);
    SubjectsAppend([g[2]], [g[3]] + ([g[4]] + [g[5]]), p, o);
    SubjectsAppend([g[1]], [g[2]] + ([g[3]] + ([g[4]] + [g[5]])), p, o);
    SubjectsAppend([g[0]], [g[1]] + ([g[2]] + ([g[3]] + ([g[4]] + [g[5]]))), p, o);
  }

  /** The worked catalog extracts to exactly one Dataset with those values and no download URLs. */
  lemma AirQualityExtraction(g: Graph)
    requires g == AirQualityGraph
    ensures DatasetSubjects(g) == [AirQuality]
    ensures DatasetOf(g, AirQuality) ==
      Dataset(["Air Quality 2024"], [], ["air", "quality"], ["http://x/access"], [])
  {
    assert DatasetSubjects(g) == [AirQuality] by {
      SubjectsOfSix(g, RdfType, DcatDataset);
    }
    var titles := Objects(g, AirQuality, DctTitle);
    assert titles == ["Air Quality 2024"] by {
      ObjectsOfSix(g, AirQuality, DctTitle);
    }
    var descriptions := Objects(g, AirQuality, DctDescription);
    assert descriptions == [] by {
      ObjectsOfSix(g, AirQuality, DctDescription);
    }
    var keywords := Objects(g, AirQuality, DcatKeyword);
    assert keywords == ["air", "quality"] by {
      ObjectsOfSix(g, AirQuality, DcatKeyword);
    }
    assert Distributions(g, AirQuality) == [AirQualityCsv] by {
      ObjectsOfSix(g, AirQuality, DcatDistribution);
    }
    var access := UrlsOf(g, [AirQualityCsv], DcatAccessUrl);
    assert access == ["http://x/access"] by {
      assert [AirQualityCsv][..0] == [];
      assert Objects(g, AirQualityCsv, DcatAccessUrl) == ["http://x/access"] by {
        ObjectsOfSix(g, AirQualityCsv, DcatAccessUrl);
      }
      assert UrlsOf(g, [], DcatAccessUrl) == [];
    }
    var download := UrlsOf(g, [AirQualityCsv], DcatDownloadUrl);
    assert download == [] by {
      assert [AirQualityCsv][..0] == [];
      assert Objects(g, AirQualityCsv, DcatDownloadUrl) == [] by {
        ObjectsOfSix(g, AirQualityCsv, DcatDownloadUrl);
      }
      assert UrlsOf(g, [], DcatDownloadUrl) == [];
    }
  }
}
