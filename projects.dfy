/** The `Projects` section (src/components/Projects.jsx): six projects, a
    row of category buttons that starts on 'All', the filtered grid, and
    cards whose minimum height depends on their place in that grid. */
module Projects {
  import opened CategoryFilter

  datatype Project = Project(id: nat, number: string, title: string, category: string)

  const Categories: seq<string> := ["All", "Web Development", "AI/ML", "UI/UX"]

  const ProjectsData: seq<Project> := [
    Project(1, "01", "AI-Powered Portfolio Builder", "AI/ML"),
    Project(2, "02", "Silicore Technology Platform", "Web Development"),
    Project(3, "03", "Real-time Sentiment Analyzer", "AI/ML"),
    Project(4, "04", "Interactive Data Dashboard", "Web Development"),
    Project(5, "05", "E-commerce Recommendation Engine", "AI/ML"),
    Project(6, "06", "Collaborative Design Tool", "UI/UX")
  ]

  /** The selection the section starts with. */
  const InitialCategory: string := "All"

  function CategoryOf(p: Project): string {
    p.category
  }

  /** The projects shown for a selection. */
  function Shown(selected: string): seq<Project> {
    Filter(ProjectsData, CategoryOf, selected)
  }

  /** At the start every project is shown, in its original order. */
  lemma InitiallyAll()
    ensures Shown(InitialCategory) == ProjectsData
  {
    FilterSpec(ProjectsData, CategoryOf, InitialCategory);
  }

  /** Every button other than 'All' selects at least one project, so no
      selection leaves the grid empty. */
  lemma NoEmptyGrid()
    ensures forall c :: c in Categories ==> |Shown(c)| > 0
  {
    forall c | c in Categories
      ensures |Shown(c)| > 0
    {
      if c != All {
        var i := if c == "Web Development" then 1 else if c == "AI/ML" then 0 else 5;
        assert CategoryOf(ProjectsData[i]) == c;
        MatchingEmptyIff(ProjectsData, CategoryOf, c);
      }
    }
  }

  /** The AI/ML selection shows projects 1, 3 and 5, in that order. */
  lemma AiProjects()
    ensures Shown("AI/ML") == [ProjectsData[0], ProjectsData[2], ProjectsData[4]]
  {
    var p := ProjectsData;
    assert p[..1][..0] == [] && p[..2][..1] == p[..1] && p[..3][..2] == p[..2];
    assert p[..4][..3] == p[..3] && p[..5][..4] == p[..4] && p[..6] == p && p[..6][..5] == p[..5];
    assert Matching(p[..1], CategoryOf, "AI/ML") == [p[0]];
    assert Matching(p[..2], CategoryOf, "AI/ML") == [p[0]];
    assert Matching(p[..3], CategoryOf, "AI/ML") == [p[0], p[2]];
    assert Matching(p[..4], CategoryOf, "AI/ML") == [p[0], p[2]];
    assert Matching(p[..5], CategoryOf, "AI/ML") == [p[0], p[2], p[4]];
  }

  /** The minimum height of the card at position `index` of the grid. */
  function MinHeight(index: nat): string {
    if index % 3 == 0 then "550px" else "500px"
  }

  /** Every third card, starting with the first, is the tall one; the
      pattern repeats every three cards. */
  lemma MinHeightPattern(index: nat)
    ensures MinHeight(index) == "550px" <==> index % 3 == 0
    ensures MinHeight(index) == "500px" <==> index % 3 != 0
    ensures MinHeight(index + 3) == MinHeight(index)
  {
    assert "550px" != "500px" by { assert "550px"[1] != "500px"[1]; }
  }

  /** The heights of the cards of a grid follow their place in the
      filtered list, not the project's own number. */
  function CardHeights(shown: seq<Project>): seq<string> {
    seq(|shown|, k requires 0 <= k < |shown| => MinHeight(k))
  }

  /** The full grid has two tall cards (projects 1 and 4); the AI/ML grid
      has one, project 1, since projects 3 and 5 move to its second and
      third places. */
  lemma AiGridHeights()
    ensures CardHeights(Shown("AI/ML")) == ["550px", "500px", "500px"]
    ensures CardHeights(Shown(All)) == ["550px", "500px", "500px", "550px", "500px", "500px"]
  {
    AiProjects();
  }
}
