/** The strings a project card derives from its project record. */
module ProjectCard {
  import opened Common
  import opened Ascii
  import opened Lists
  import opened Types
  import opened Data

  /** A category badge: its first character uppercased, the rest unchanged. */
  function BadgeLabel(category: string): (r: string)
    ensures |r| == |category|
    ensures |category| > 0 ==> r[0] == UpperChar(category[0]) && r[1..] == category[1..]
  {
    if category == [] then [] else [UpperChar(category[0])] + category[1..]
  }

  /** Up to case the badge reads as the category, and relabelling a badge changes nothing. */
  lemma BadgeLabelKeepsWord(category: string)
    ensures ToLower(BadgeLabel(category)) == ToLower(category)
    ensures BadgeLabel(BadgeLabel(category)) == BadgeLabel(category)
  {
    if category != [] {
      var r := BadgeLabel(category);
      assert r == [r[0]] + r[1..] && category == [category[0]] + category[1..];
      ToLowerAppend([r[0]], r[1..]);
      ToLowerAppend([category[0]], category[1..]);
    }
  }

  /** The badge colour schemes. */
  datatype Palette = Magenta | Purple | Green | Amber | Teal

  /** The badge palette: the first group containing the category decides, teal otherwise. */
  function CategoryPalette(category: string): (r: Palette)
    ensures r == Magenta <==> category in {"ai", "productivity"}
    ensures r == Purple <==> category in {"blockchain", "fintech", "web3"}
    ensures r == Green <==> category in {"web", "consultancy"}
    ensures r == Amber <==> category in {"real-estate", "career"}
    ensures r == Teal <==> category !in {"ai", "productivity", "blockchain", "fintech", "web3", "web", "consultancy", "real-estate", "career"}
  {
    if category == "ai" || category == "productivity" then Magenta
    else if category == "blockchain" || category == "fintech" || category == "web3" then Purple
    else if category == "web" || category == "consultancy" then Green
    else if category == "real-estate" || category == "career" then Amber
    else Teal
  }

  /** The card's `data-categories` attribute. */
  function DataCategories(categories: seq<string>): string {
    Join(categories, ',')
  }

  /** The attribute can be split back into the categories when none contains a comma. */
  lemma DataCategoriesRoundTrip(categories: seq<string>)
    requires |categories| > 0
    requires forall i :: 0 <= i < |categories| ==> ',' !in categories[i]
    ensures Split(DataCategories(categories), ',') == categories
  {
    SplitJoin(categories, ',');
  }

  /** No catalog category holds a comma, so every card's attribute splits back into its categories. */
  lemma CatalogDataCategoriesRoundTrip(i: nat)
    requires i < |Projects|
    ensures Split(DataCategories(Projects[i].categories), ',') == Projects[i].categories
  {
    CatalogCategories();
    var cats := Projects[i].categories;
    assert ',' !in cats[0] && ',' !in cats[1] && ',' !in cats[2];
    DataCategoriesRoundTrip(cats);
  }

  /** A link is drawn when its URL is present and non-empty. */
  predicate ShowsLink(url: Option<string>) {
    url.Some? && url.value != ""
  }

  /** Every catalog card shows both links (a demo URL of "#" is non-empty). */
  lemma CatalogCardsShowLinks()
    ensures forall p :: p in Projects ==> ShowsLink(p.githubUrl) && ShowsLink(p.demoUrl)
  {
  }

  /** The in-page anchor of a card. */
  function AnchorHref(id: string): (r: string)
    ensures |r| == |id| + 9 && r[..9] == "#project-" && r[9..] == id
  {
    "#project-" + id
  }

  /** The text of the card's link. */
  function LinkText(id: string): (r: string)
    ensures |r| == |id| + 20 && r[..20] == "access_project --id=" && r[20..] == id
  {
    "access_project --id=" + id
  }

  /** Distinct projects get distinct anchors and link texts. */
  lemma CardStringsInjective(a: string, b: string)
    ensures AnchorHref(a) == AnchorHref(b) <==> a == b
    ensures LinkText(a) == LinkText(b) <==> a == b
  {
    if AnchorHref(a) == AnchorHref(b) {
      assert a == AnchorHref(a)[9..];
    }
    if LinkText(a) == LinkText(b) {
      assert a == LinkText(a)[20..];
    }
  }
}
