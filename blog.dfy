/** The `Blog` section (src/components/Blog.jsx): six articles, a row of
    category buttons that starts on 'All', the filtered list, and a colour
    for each article's category badge. */
module Blog {
  import opened CategoryFilter

  datatype Article = Article(id: nat, title: string, category: string)

  const Categories: seq<string> := ["All", "AI/ML", "Web Development", "Design", "Business"]

  const ArticlesData: seq<Article> := [
    Article(1, "The Future of AI in Web Development", "AI/ML"),
    Article(2, "Building Smooth Animations with GSAP", "Web Development"),
    Article(3, "Machine Learning for Personalization", "AI/ML"),
    Article(4, "Next.js 14: What's New and Why It Matters", "Web Development"),
    Article(5, "Three.js Basics: Adding 3D to Your Website", "Web Development"),
    Article(6, "Ethical Considerations in AI Development", "AI/ML")
  ]

  /** The selection the section starts with. */
  const InitialCategory: string := "All"

  function CategoryOf(a: Article): string {
    a.category
  }

  /** The articles shown for a selection. */
  function Shown(selected: string): seq<Article> {
    Filter(ArticlesData, CategoryOf, selected)
  }

  /** At the start every article is shown, in its original order. */
  lemma InitiallyAll()
    ensures Shown(InitialCategory) == ArticlesData
  {
    FilterSpec(ArticlesData, CategoryOf, InitialCategory);
  }

  /** No article is about design or business: those two buttons show an
      empty list, while the AI/ML and Web Development buttons show at least
      one article each. */
  lemma EmptySelections()
    ensures Shown("Design") == [] && Shown("Business") == []
    ensures |Shown("AI/ML")| > 0 && |Shown("Web Development")| > 0
  {
    assert forall i :: 0 <= i < |ArticlesData| ==>
      ArticlesData[i].category == "AI/ML" || ArticlesData[i].category == "Web Development";
    assert "AI/ML" != "Design" && "AI/ML" != "Business" by {
      assert "AI/ML"[0] != "Design"[0] && "AI/ML"[0] != "Business"[0];
    }
    assert "Web Development" != "Design" && "Web Development" != "Business" by {
      assert "Web Development"[0] != "Design"[0] && "Web Development"[0] != "Business"[0];
    }
    MatchingEmptyIff(ArticlesData, CategoryOf, "Design");
    MatchingEmptyIff(ArticlesData, CategoryOf, "Business");
    assert CategoryOf(ArticlesData[0]) == "AI/ML";
    MatchingEmptyIff(ArticlesData, CategoryOf, "AI/ML");
    assert CategoryOf(ArticlesData[1]) == "Web Development";
    MatchingEmptyIff(ArticlesData, CategoryOf, "Web Development");
  }

  // ---------------------------------------------------------------------
  // Badge colours

  const Colors: map<string, string> := map[
    "AI/ML" := "bg-cyan-500/20 text-cyan-400 border-cyan-500/30",
    "Web Development" := "bg-purple-500/20 text-purple-400 border-purple-500/30",
    "Design" := "bg-pink-500/20 text-pink-400 border-pink-500/30",
    "Business" := "bg-orange-500/20 text-orange-400 border-orange-500/30"
  ]

  const DefaultColor: string := "bg-gray-500/20 text-gray-400 border-gray-500/30"

  /** The classes of a category badge: the mapped ones, or grey. */
  function CategoryColor(category: string): string {
    if category in Colors then Colors[category] else DefaultColor
  }

  /** The four known categories get their own classes, any other string the
      grey default; and the result is grey exactly when the category is not
      one of the four. */
  lemma CategoryColorCases(category: string)
    ensures category in Colors ==> CategoryColor(category) == Colors[category]
    ensures category !in Colors ==> CategoryColor(category) == DefaultColor
    ensures CategoryColor(category) == DefaultColor <==> category !in Colors
  {
    // no key of the display overrides another
    assert "AI/ML" != "Web Development" && "AI/ML" != "Design" && "AI/ML" != "Business";
    assert "Web Development" != "Design" && "Web Development" != "Business";
    assert "Design" != "Business";
    // each mapped value differs from grey in its length or in its border hue
    assert |DefaultColor| == 47 && DefaultColor[36] == 'g';
    assert Colors["AI/ML"][36] == 'c';
    assert |Colors["Web Development"]| == 53;
    assert Colors["Design"][36] == 'p';
    assert |Colors["Business"]| == 53;
  }

  /** Every category the buttons offer, except 'All', has its own colour,
      and so does every article's category. */
  lemma EveryCategoryColoured()
    ensures forall i :: 1 <= i < |Categories| ==> CategoryColor(Categories[i]) != DefaultColor
    ensures forall i :: 0 <= i < |ArticlesData| ==> CategoryColor(ArticlesData[i].category) != DefaultColor
  {
    forall c | c in Colors
      ensures CategoryColor(c) != DefaultColor
    {
      CategoryColorCases(c);
    }
  }
}
