/**
 * The Dataset record of models/dataset.py and its mapping to an embeddable
 * text chunk (`to_content`) and a filterable metadata map (`to_metadata`).
 */
module Datasets {
  import opened Wrappers
  import opened Strings

  /** One DCAT catalog entry; every field keeps the graph's order of values. */
  datatype Dataset = Dataset(
    titles: seq<string>,
    descriptions: seq<string>,
    keywords: seq<string>,
    accessUrls: seq<string>,
    downloadUrls: seq<string>)

  // ---------------------------------------------------------------------------
  // primary_title
  // ---------------------------------------------------------------------------

  /** The exception Python raises when an attribute lookup fails. */
  datatype PyError = AttributeError(name: string) | IndexError

  /**
   * Attribute lookup `self.<name>` among the record's five data fields only;
   * a name that is not a data field fails with `AttributeError`. Methods, the
   * `primary_title` property and dunder attributes are outside this lookup.
   */
  function Attribute(d: Dataset, name: string): (r: Result<seq<string>, PyError>)
    ensures r.Failure? <==> name !in {"titles", "descriptions", "keywords", "access_urls", "download_urls"}
    ensures r.Failure? ==> r.error == AttributeError(name)
    ensures name == "titles" ==> r == Success(d.titles)
    ensures name == "descriptions" ==> r == Success(d.descriptions)
    ensures name == "keywords" ==> r == Success(d.keywords)
    ensures name == "access_urls" ==> r == Success(d.accessUrls)
    ensures name == "download_urls" ==> r == Success(d.downloadUrls)
  {
    if name == "titles" then Success(d.titles)
    else if name == "descriptions" then Success(d.descriptions)
    else if name == "keywords" then Success(d.keywords)
    else if name == "access_urls" then Success(d.accessUrls)
    else if name == "download_urls" then Success(d.downloadUrls)
    else Failure(AttributeError(name))
  }

  /** Subscript `xs[0]`, which raises `IndexError` on an empty list. */
  function First(xs: seq<string>): (r: Result<string, PyError>)
    ensures r.Success? <==> xs != []
    ensures r.Success? ==> r.value == xs[0]
  {
    if xs == [] then Failure(IndexError) else Success(xs[0])
  }

  /**
   * `primary_title` as written: its condition reads `self.title`, which is not a
   * field (the field is `titles`), so the property raises before it can answer.
   */
  function PrimaryTitleAsWritten(d: Dataset): Result<Option<string>, PyError>
  {
    match Attribute(d, "title")
    case Failure(e) => Failure(e)
    case Success(cond) =>
      if cond == [] then Success(None)
      else match First(d.titles)
        case Failure(e) => Failure(e)
        case Success(t) => Success(Some(t))
  }

  /** As written, `primary_title` raises `AttributeError` for every dataset. */
  lemma PrimaryTitleAsWrittenAlwaysRaises(d: Dataset)
    ensures PrimaryTitleAsWritten(d) == Failure(AttributeError("title"))
  {
  }

  /**
   * `primary_title` as its docstring describes it: the first title, or None
   * when there are no titles; it never fails.
   */
  function PrimaryTitle(d: Dataset): (r: Option<string>)
    ensures r.None? <==> d.titles == []
    ensures r.Some? ==> r.value == d.titles[0] && r.value in d.titles
  {
    if d.titles != [] then Some(d.titles[0]) else None
  }

  /** A dataset with one title shows the discrepancy: the intent is Some, the code raises. */
  lemma PrimaryTitleDiscrepancy()
    ensures PrimaryTitle(Dataset(["A"], [], [], [], [])) == Some("A")
    ensures PrimaryTitleAsWritten(Dataset(["A"], [], [], [], [])).Failure?
  {
  }

  // ---------------------------------------------------------------------------
  // to_content
  // ---------------------------------------------------------------------------

  /** The labelled sections a content chunk may hold. */
  datatype Section = TitleSection | DescriptionSection | KeywordsSection

  /** The fixed order in which sections appear. */
  const SectionOrder: seq<Section> := [TitleSection, DescriptionSection, KeywordsSection]

  /** Position of a section in SectionOrder. */
  function Rank(s: Section): nat
  {
    match s
    case TitleSection => 0
    case DescriptionSection => 1
    case KeywordsSection => 2
  }

  function Label(s: Section): string
  {
    match s
    case TitleSection => "Title: "
    case DescriptionSection => "Description: "
    case KeywordsSection => "Keywords: "
  }

  /** The separator between a section's values: descriptions and titles use "; ", keywords ", ". */
  function ValueSeparator(s: Section): string
  {
    match s
    case TitleSection => "; "
    case DescriptionSection => "; "
    case KeywordsSection => ", "
  }

  /** The dataset field a section is built from. */
  function Values(d: Dataset, s: Section): seq<string>
  {
    match s
    case TitleSection => d.titles
    case DescriptionSection => d.descriptions
    case KeywordsSection => d.keywords
  }

  /** The text of one section: its label, then its values joined. */
  function Render(d: Dataset, s: Section): (r: string)
    ensures |Label(s)| <= |r| && r[..|Label(s)|] == Label(s)
  {
    Label(s) + Join(Values(d, s), ValueSeparator(s))
  }

  /** The sections of `order` whose field is non-empty, in that order. */
  function Present(d: Dataset, order: seq<Section>): seq<Section>
  {
    if order == [] then []
    else (if Values(d, order[0]) != [] then [order[0]] else []) + Present(d, order[1..])
  }

  /** The sections that appear in the dataset's content chunk. */
  function PresentSections(d: Dataset): seq<Section>
  {
    Present(d, SectionOrder)
  }

  /** The texts of the sections that appear, in order. */
  function Sections(d: Dataset): (r: seq<string>)
    ensures |r| == |PresentSections(d)|
  {
    var ps := PresentSections(d);
    seq(|ps|, i requires 0 <= i < |ps| => Render(d, ps[i]))
  }

  /** The content chunk: the sections that appear, one per line. */
  function Content(d: Dataset): string
  {
    Join(Sections(d), "\n")
  }

  /** True when the dataset has nothing that could appear in its content. */
  predicate Blank(d: Dataset)
  {
    d.titles == [] && d.descriptions == [] && d.keywords == []
  }

  /** No title, description or keyword contains a line break. */
  predicate SingleLine(d: Dataset)
  {
    (forall i :: 0 <= i < |d.titles| ==> '\n' !in d.titles[i]) &&
    (forall i :: 0 <= i < |d.descriptions| ==> '\n' !in d.descriptions[i]) &&
    (forall i :: 0 <= i < |d.keywords| ==> '\n' !in d.keywords[i])
  }

  /** The three sections spelled out: each is present exactly when its field is non-empty. */
  lemma PresentSectionsUnfold(d: Dataset)
    ensures PresentSections(d) ==
      (if d.titles != [] then [TitleSection] else []) +
      (if d.descriptions != [] then [DescriptionSection] else []) +
      (if d.keywords != [] then [KeywordsSection] else [])
  {
    var k := [KeywordsSection];
    var dk := [DescriptionSection, KeywordsSection];
    assert k[1..] == [];
    assert Present(d, k) == (if d.keywords != [] then [KeywordsSection] else []);
    assert dk[1..] == k;
    assert Present(d, dk) == (if d.descriptions != [] then [DescriptionSection] else []) + Present(d, k);
    assert SectionOrder[1..] == dk;
  }

  /**
   * `to_content`: collect the non-empty sections one by one, then join them
   * with line breaks.
   */
  method ToContent(d: Dataset) returns (content: string)
    ensures content == Content(d)
  {
    var contentParts: seq<string> := [];
    if d.titles != [] {
      contentParts := contentParts + ["Title: " + Join(d.titles, "; ")];
    }
    if d.descriptions != [] {
      contentParts := contentParts + ["Description: " + Join(d.descriptions, "; ")];
    }
    if d.keywords != [] {
      contentParts := contentParts + ["Keywords: " + Join(d.keywords, ", ")];
    }
    PresentSectionsUnfold(d);
    assert contentParts == Sections(d);
    content := Join(contentParts, "\n");
  }

  /** A section appears exactly when it is in the given order and its field is non-empty. */
  lemma {:induction false} PresentIff(d: Dataset, order: seq<Section>, s: Section)
    ensures s in Present(d, order) <==> s in order && Values(d, s) != []
  {
    if order != [] {
      PresentIff(d, order[1..], s);
      assert order == [order[0]] + order[1..];
    }
  }

  /** A section appears in the content iff its source list is non-empty. */
  lemma SectionPresentIff(d: Dataset, s: Section)
    ensures s in PresentSections(d) <==> Values(d, s) != []
  {
    PresentIff(d, SectionOrder, s);
  }

  /** Filtering keeps a strictly increasing order. */
  lemma {:induction false} PresentOrdered(d: Dataset, order: seq<Section>)
    requires forall i, j :: 0 <= i < j < |order| ==> Rank(order[i]) < Rank(order[j])
    ensures forall i, j :: 0 <= i < j < |Present(d, order)| ==>
      Rank(Present(d, order)[i]) < Rank(Present(d, order)[j])
  {
    if order != [] {
      var rest := order[1..];
      PresentOrdered(d, rest);
      var p := Present(d, rest);
      forall s | s in p ensures Rank(order[0]) < Rank(s) {
        PresentIff(d, rest, s);
        var k :| 0 <= k < |rest| && rest[k] == s;
        assert order[k + 1] == s;
      }
    }
  }

  /** Sections always appear in the order Title, Description, Keywords. */
  lemma SectionsInOrder(d: Dataset)
    ensures forall i, j :: 0 <= i < j < |PresentSections(d)| ==>
      Rank(PresentSections(d)[i]) < Rank(PresentSections(d)[j])
  {
    PresentOrdered(d, SectionOrder);
  }

  /** The content is empty exactly when titles, descriptions and keywords are all empty. */
  lemma ContentEmptyIff(d: Dataset)
    ensures Content(d) == "" <==> Blank(d)
  {
    PresentSectionsUnfold(d);
    var parts := Sections(d);
    if parts != [] {
      JoinStartsWith(parts, "\n");
      assert |Label(PresentSections(d)[0])| > 0;
    }
  }

  /** Each section of a single-line dataset is itself free of line breaks and non-empty. */
  lemma SectionsSingleLine(d: Dataset)
    requires SingleLine(d)
    ensures forall i :: 0 <= i < |Sections(d)| ==> '\n' !in Sections(d)[i] && Sections(d)[i] != ""
  {
    var ps := PresentSections(d);
    forall i | 0 <= i < |ps| ensures '\n' !in Sections(d)[i] && Sections(d)[i] != "" {
      var s := ps[i];
      var vs := Values(d, s);
      assert forall k :: 0 <= k < |vs| ==> '\n' !in vs[k];
      JoinFree(vs, ValueSeparator(s), '\n');
      assert Sections(d)[i] == Label(s) + Join(vs, ValueSeparator(s));
    }
  }

  /**
   * When no value holds a line break, splitting the content at line breaks
   * gives back exactly the sections that appear.
   */
  lemma ContentSplitsIntoSections(d: Dataset)
    requires SingleLine(d) && !Blank(d)
    ensures Split(Content(d), '\n') == Sections(d)
  {
    PresentSectionsUnfold(d);
    SectionsSingleLine(d);
    SplitJoin(Sections(d), '\n');
  }

  /**
   * When no value holds a line break, the content has one line break fewer
   * than it has sections, and none when it is blank.
   */
  lemma ContentLineBreakCount(d: Dataset)
    requires SingleLine(d)
    ensures multiset(Content(d))['\n'] == if Blank(d) then 0 else |PresentSections(d)| - 1
  {
    if Blank(d) {
      ContentEmptyIff(d);
    } else {
      var c := Content(d);
      assert Split(c, '\n') == Sections(d) by {
        ContentSplitsIntoSections(d);
      }
      assert multiset(c)['\n'] == |Split(c, '\n')| - 1;
    }
  }

  /**
   * Content that is not blank starts with the label of its first section,
   * whatever the values contain, so it never starts with a line break.
   */
  lemma ContentStartsWithLabel(d: Dataset)
    ensures !Blank(d) ==>
      (|PresentSections(d)| > 0
       && |Label(PresentSections(d)[0])| <= |Content(d)|
       && Content(d)[..|Label(PresentSections(d)[0])|] == Label(PresentSections(d)[0]))
    ensures Content(d) != "" ==> Content(d)[0] != '\n'
  {
    ContentEmptyIff(d);
    if !Blank(d) {
      PresentSectionsUnfold(d);
      var parts := Sections(d);
      JoinStartsWith(parts, "\n");
      var c := Content(d);
      var first := PresentSections(d)[0];
      assert parts[0] == Render(d, first);
      assert c[..|Label(first)|] == c[..|parts[0]|][..|Label(first)|];
      assert c[..|Label(first)|][0] == c[0];
    }
  }

  /** When no value holds a line break, the content does not end with one. */
  lemma ContentTrimmed(d: Dataset)
    requires SingleLine(d)
    ensures Content(d) != "" ==> Content(d)[|Content(d)| - 1] != '\n'
  {
    ContentEmptyIff(d);
    if !Blank(d) {
      PresentSectionsUnfold(d);
      var parts := Sections(d);
      SectionsSingleLine(d);
      JoinEndsWith(parts, "\n");
      var c := Content(d);
      var last := parts[|parts| - 1];
      assert c[|c| - |last|..][|last| - 1] == c[|c| - 1];
      assert last[|last| - 1] in last;
    }
  }

  /** With titles and descriptions but no keywords, the content is exactly two lines. */
  lemma TitleAndDescriptionOnly(d: Dataset)
    requires d.titles != [] && d.descriptions != [] && d.keywords == []
    ensures Content(d) == Render(d, TitleSection) + "\n" + Render(d, DescriptionSection)
  {
    var title, description := Render(d, TitleSection), Render(d, DescriptionSection);
    assert Sections(d) == [title, description] by {
      PresentSectionsUnfold(d);
      assert PresentSections(d) == [TitleSection, DescriptionSection];
    }
    assert [title, description][1..] == [description];
    assert Join([title, description], "\n") == title + "\n" + description;
  }

  /** Two titles, one description and no keywords give exactly "Title: A; B\nDescription: D". */
  lemma ContentExample(d: Dataset)
    requires d.titles == ["A", "B"] && d.descriptions == ["D"] && d.keywords == []
    ensures Content(d) == "Title: A; B\nDescription: D"
  {
    TitleAndDescriptionOnly(d);
    assert Render(d, TitleSection) == "Title: A; B" by {
      assert ["A", "B"][1..] == ["B"];
      assert Join(["A", "B"], "; ") == "A; B";
    }
    assert Render(d, DescriptionSection) == "Description: D";
    assert "Title: A; B" + "\n" + "Description: D" == "Title: A; B\nDescription: D";
  }

  // ---------------------------------------------------------------------------
  // to_metadata
  // ---------------------------------------------------------------------------

  /** A metadata value: Python `None`, a string, or a list of strings. */
  datatype MetaValue = Null | Text(text: string) | TextList(items: seq<string>)

  const TitleKey := "title"
  const KeywordsKey := "keywords"

  /**
   * `to_metadata`: the primary title under "title" and the keywords under
   * "keywords". The title is the documented `primary_title` (PrimaryTitle),
   * not the one as written.
   */
  function ToMetadata(d: Dataset): (m: map<string, MetaValue>)
    ensures m.Keys == {TitleKey, KeywordsKey}
    ensures m[KeywordsKey] == TextList(d.keywords)
    ensures m[TitleKey] == Null <==> d.titles == []
    ensures d.titles != [] ==> m[TitleKey] == Text(d.titles[0])
  {
    var title := match PrimaryTitle(d) case Some(t) => Text(t) case None => Null;
    map[TitleKey := title, KeywordsKey := TextList(d.keywords)]
  }

  /** `to_metadata` as written: it reads `primary_title` as written, so it raises whenever that does. */
  function ToMetadataAsWritten(d: Dataset): Result<map<string, MetaValue>, PyError>
  {
    match PrimaryTitleAsWritten(d)
    case Failure(e) => Failure(e)
    case Success(t) =>
      var title := match t case Some(x) => Text(x) case None => Null;
      Success(map[TitleKey := title, KeywordsKey := TextList(d.keywords)])
  }

  /** As written, `to_metadata` raises `AttributeError("title")` for every dataset. */
  lemma ToMetadataAsWrittenAlwaysRaises(d: Dataset)
    ensures ToMetadataAsWritten(d) == Failure(AttributeError("title"))
  {
    PrimaryTitleAsWrittenAlwaysRaises(d);
  }

  /**
   * The metadata map identifies exactly the keywords and the primary title:
   * two datasets get the same map if and only if both agree.
   */
  lemma MetadataEqualIff(d: Dataset, e: Dataset)
    ensures ToMetadata(d) == ToMetadata(e) <==> d.keywords == e.keywords && PrimaryTitle(d) == PrimaryTitle(e)
  {
    var m, n := ToMetadata(d), ToMetadata(e);
    if d.keywords == e.keywords && PrimaryTitle(d) == PrimaryTitle(e) {
      assert m[TitleKey] == n[TitleKey];
      assert m == n;
    }
    if m == n {
      assert TextList(d.keywords) == TextList(e.keywords);
    }
  }

  /** Neither the content nor the metadata depends on the access or download URLs. */
  lemma MappingIgnoresUrls(d: Dataset, e: Dataset)
    requires d.titles == e.titles && d.descriptions == e.descriptions && d.keywords == e.keywords
    ensures Content(d) == Content(e)
    ensures ToMetadata(d) == ToMetadata(e)
  {
    PresentSectionsUnfold(d);
    PresentSectionsUnfold(e);
    assert Sections(d) == Sections(e);
  }
}
