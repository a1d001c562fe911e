/** The projects section: the first featured project gets the large card, every project
    that is not featured gets a compact card in the original order, and a compact card
    shows at most five tech tags followed by a "+k" badge for the rest. */
module ProjectsView {
  import opened JsText

  /** A project; `featured` is false when the source leaves the field out. */
  datatype Project = Project(id: int, title: string, tech: seq<string>, featured: bool)

  /** How many tags a compact card lists before the overflow badge. */
  const MaxShownTags: nat := 5

  const Projects: seq<Project> := [
    Project(1, "Full Stack RAG Assistant – LLM Powered Chatbot",
      ["Next.js", "FastAPI", "Redis", "Pinecone", "Cohere", "Google Gemini", "Supabase", "LangChain"], true),
    Project(2, "Prescripto – Full-Stack Healthcare Platform",
      ["React.js", "Spring Boot", "MySQL", "Razorpay", "Docker", "Render", "Tailwind CSS"], false),
    Project(3, "MERN Authentication Microservice",
      ["Express.js", "MongoDB", "Bravo SMTP", "HTTPS-Cookies", "Docker"], false),
    Project(4, "Stock Price Predictor",
      ["Python", "Pandas", "Scikit-Learn", "Numpy", "Matplotlib", "yfinance"], false)
  ]

  /** `projects.find(p => p.featured)`: the first featured project, if any. */
  function FindFeatured(ps: seq<Project>): (r: Option<Project>)
    ensures r.None? <==> forall i :: 0 <= i < |ps| ==> !ps[i].featured
    ensures r.Some? ==> exists i :: (0 <= i < |ps| && ps[i] == r.value && ps[i].featured
      && forall j :: 0 <= j < i ==> !ps[j].featured)
  {
    if ps == [] then None
    else if ps[0].featured then Some(ps[0])
    else
      var r := FindFeatured(ps[1..]);
      assert r.Some? ==> exists i :: (0 <= i < |ps| && ps[i] == r.value && ps[i].featured
        && forall j :: 0 <= j < i ==> !ps[j].featured) by {
        if r.Some? {
          var i :| 0 <= i < |ps[1..]| && ps[1..][i] == r.value && ps[1..][i].featured
            && forall j :: 0 <= j < i ==> !ps[1..][j].featured;
          assert ps[i + 1] == r.value && forall j :: 0 <= j < i + 1 ==> !ps[j].featured;
        }
      }
      r
  }

  /** `projects.filter(p => !p.featured)`. */
  function Rest(ps: seq<Project>): (r: seq<Project>)
    ensures |r| <= |ps|
    ensures |r| == |ps| <==> forall i :: 0 <= i < |ps| ==> !ps[i].featured
    ensures forall p :: p in r <==> p in ps && !p.featured
  {
    if ps == [] then []
    else
      assert ps == [ps[0]] + ps[1..];
      (if ps[0].featured then [] else [ps[0]]) + Rest(ps[1..])
  }

  /** The filter keeps the original order: filtering a concatenation filters each part. */
  lemma {:induction false} RestAppend(a: seq<Project>, b: seq<Project>)
    ensures Rest(a + b) == Rest(a) + Rest(b)
  {
    if a == [] {
      assert a + b == b;
    } else {
      assert (a + b)[0] == a[0] && (a + b)[1..] == a[1..] + b;
      RestAppend(a[1..], b);
    }
  }

  /** The cards the section shows, in order: the featured card (if any), then the grid. */
  function Rendered(ps: seq<Project>): (r: seq<Project>)
    ensures |r| <= |ps|
    ensures r == [] <==> ps == []
  {
    (match FindFeatured(ps) case Some(f) => [f] case None => []) + Rest(ps)
  }

  /** A project is shown exactly when it is the first featured one or is not featured, so a
      second featured project is shown nowhere; only the first card can be a featured one. */
  lemma RenderedMeaning(ps: seq<Project>)
    ensures forall p :: p in Rendered(ps) <==> (p in ps && !p.featured) || FindFeatured(ps) == Some(p)
    ensures forall k :: 0 < k < |Rendered(ps)| ==> !Rendered(ps)[k].featured
  {
    var head := match FindFeatured(ps) case Some(f) => [f] case None => [];
    assert Rendered(ps) == head + Rest(ps);
    forall k | 0 < k < |Rendered(ps)| ensures !Rendered(ps)[k].featured {
      if k >= |head| {
        assert Rendered(ps)[k] == Rest(ps)[k - |head|];
        assert Rest(ps)[k - |head|] in Rest(ps);
      } else {
        assert false;
      }
    }
  }

  /** A featured project after an earlier featured one gets no card (unless an identical
      project comes earlier). */
  lemma SecondFeaturedHidden(ps: seq<Project>, j: nat, i: nat)
    requires j < i < |ps| && ps[j].featured && ps[i].featured
    requires ps[i] !in ps[..i]
    ensures ps[i] !in Rendered(ps)
  {
    RenderedMeaning(ps);
    var i0 :| 0 <= i0 < |ps| && ps[i0] == FindFeatured(ps).value && ps[i0].featured
      && forall k :: 0 <= k < i0 ==> !ps[k].featured;
    assert i0 <= j;
    assert ps[i0] == ps[..i][i0];
  }

  /** `project.tech.slice(0, 5)`. */
  function ShownTags(tech: seq<string>): (r: seq<string>)
    ensures |r| == if |tech| < MaxShownTags then |tech| else MaxShownTags
    ensures r == tech[..|r|]
  {
    Prefix(tech, MaxShownTags)
  }

  /** The "+k" badge: present exactly when there are more than five tags, and then `k` counts
      the tags not listed, so the listed tags and `k` account for every tag. */
  function OverflowBadge(tech: seq<string>): (k: Option<nat>)
    ensures k.Some? <==> |tech| > MaxShownTags
    ensures k.Some? ==> |ShownTags(tech)| + k.value == |tech|
    ensures k.None? ==> ShownTags(tech) == tech
  {
    if |tech| > MaxShownTags then Some(|tech| - MaxShownTags) else None
  }

  /** On the page: the first project is the featured card and the other three are the
      grid, with badges +2, none and +1. */
  lemma ProjectsOnPage()
    ensures FindFeatured(Projects) == Some(Projects[0])
    ensures Rest(Projects) == Projects[1..]
    ensures OverflowBadge(Projects[1].tech) == Some(2)
    ensures OverflowBadge(Projects[2].tech) == None
    ensures OverflowBadge(Projects[3].tech) == Some(1)
  {
    var ps := Projects;
    assert ps[1..][1..][1..][1..] == [];
    assert ps[1..][1..][1..] == [ps[3]];
    assert ps[1..][1..] == [ps[2], ps[3]];
    assert Rest(ps[1..][1..][1..]) == [ps[3]];
    assert Rest(ps[1..][1..]) == [ps[2], ps[3]];
    assert Rest(ps[1..]) == [ps[1], ps[2], ps[3]];
  }
}
