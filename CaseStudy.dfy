/**
  The case-study detail page. The route supplies an id parameter (a string,
  or nothing at all); the page looks for the first record with exactly that
  id and shows it with its tabs, or shows a "not found" view when there is
  none.
 */
module CaseStudy {
  import opened Wrappers

  /** A headline figure; `caption` is the source's `label` (a reserved word here). */
  datatype Metric = Metric(value: string, caption: string)

  datatype Quote = Quote(quote: string, author: string, title: string)

  datatype Study = Study(
    id: string,
    title: string,
    client: string,
    industry: string,
    duration: string,
    description: string,
    testimonial: Quote,
    image: string,
    metrics: seq<Metric>)

  const CaseStudies: seq<Study> := [
    Study("1", "E-commerce Conversion Optimization", "FashionRetail Inc.", "E-commerce / Fashion", "6 months",
      "Increased conversion rate by 45% through data-driven UX improvements",
      Quote("Srinivas transformed our digital presence with data-driven strategies that delivered measurable results. His methodical approach to conversion optimization uncovered insights we had missed for years.",
        "Sarah Johnson", "E-commerce Director, FashionRetail Inc."),
      "/images/case-study-1.jpg",
      [Metric("+45%", "Conversion Rate"), Metric("-28%", "Bounce Rate"), Metric("+$2.4M", "Annual Revenue")])
  ]

  /** The tab selected when a case study is first shown. */
  const DefaultTab: string := "overview"

  /** Whether a record's id equals the route parameter; an absent parameter equals no id. */
  predicate Matches(s: Study, param: Option<string>) {
    param == Some(s.id)
  }

  /** Position of the first record matching the parameter, if any. */
  function FindIndex(studies: seq<Study>, param: Option<string>): (r: Option<nat>)
    ensures r.Some? ==> r.value < |studies| && Matches(studies[r.value], param)
    ensures r.Some? ==> forall j :: 0 <= j < r.value ==> !Matches(studies[j], param)
    ensures r.None? ==> forall j :: 0 <= j < |studies| ==> !Matches(studies[j], param)
  {
    if studies == [] then None
    else if Matches(studies[0], param) then Some(0)
    else match FindIndex(studies[1..], param)
      case None => None
      case Some(i) => Some(i + 1)
  }

  /**
    The first record whose id equals the parameter: one is returned exactly
    when some record matches, and a returned record has the requested id.
   */
  function Find(studies: seq<Study>, param: Option<string>): (r: Option<Study>)
    ensures r.None? <==> forall s :: s in studies ==> !Matches(s, param)
    ensures r.Some? ==> param == Some(r.value.id) && r.value in studies
    ensures r.Some? ==>
      exists i :: 0 <= i < |studies| && studies[i] == r.value && forall j :: 0 <= j < i ==> !Matches(studies[j], param)
  {
    match FindIndex(studies, param)
    case None => None
    case Some(i) => Some(studies[i])
  }

  /** What the page shows. */
  datatype View = NotFound | Detail(study: Study, activeTab: string)

  /** The page for a route parameter: the detail view of the match on the overview tab, else not found. */
  function Page(param: Option<string>): (v: View)
    ensures v.NotFound? <==> forall s :: s in CaseStudies ==> !Matches(s, param)
    ensures v.Detail? ==> param == Some(v.study.id) && v.study in CaseStudies && v.activeTab == DefaultTab
  {
    match Find(CaseStudies, param)
    case None => NotFound
    case Some(s) => Detail(s, DefaultTab)
  }

  /** Id "1" shows the conversion-optimisation study with its three metrics. */
  lemma KnownStudy()
    ensures Page(Some("1")).Detail?
    ensures Page(Some("1")).study.title == "E-commerce Conversion Optimization"
    ensures Page(Some("1")).study.metrics ==
      [Metric("+45%", "Conversion Rate"), Metric("-28%", "Bounce Rate"), Metric("+$2.4M", "Annual Revenue")]
  {
  }

  /** Every other parameter, such as "2", "01" or none at all, shows the not-found view. */
  lemma UnknownStudy(param: Option<string>)
    requires param != Some("1")
    ensures Page(param) == NotFound
  {
  }
}
