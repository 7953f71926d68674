/**
  The experience timeline: a list of positions, each of which the visitor
  can expand to see its achievements and skills. The component keeps the
  list as state and replaces it on every click by a copy in which one
  entry's `expanded` flag is flipped. The flag is optional in the record;
  an entry that has never been toggled carries no flag and reads as
  collapsed.
 */
module ExperienceTimeline {
  import opened Wrappers

  datatype Experience = Experience(
    id: int,
    title: string,
    company: string,
    period: string,
    description: string,
    achievements: seq<string>,
    skills: seq<string>,
    expanded: Option<bool>)

  const InitialExperiences: seq<Experience> := [
    Experience(1, "Senior Digital Marketing Manager", "TechCorp Inc.", "2020 - Present",
      "Leading the digital marketing team in developing and executing comprehensive marketing strategies across multiple channels. Responsible for optimizing conversion rates, managing paid campaigns, and implementing data-driven improvements.",
      ["Increased e-commerce conversion rate by 45% through systematic A/B testing and UX improvements",
       "Reduced customer acquisition cost by 32% while maintaining lead quality",
       "Implemented advanced attribution modeling that improved ROAS by 28%",
       "Led the marketing strategy for two successful product launches"],
      ["Conversion Optimization", "Performance Marketing", "A/B Testing", "Team Leadership", "Marketing Analytics"],
      None),
    Experience(2, "Digital Marketing Specialist", "Growth Marketing Agency", "2017 - 2020",
      "Managed digital marketing campaigns for B2B and B2C clients across various industries. Specialized in lead generation, content marketing, and marketing automation.",
      ["Generated 127% more qualified leads for a SaaS client while reducing cost per lead",
       "Developed content strategy that increased organic traffic by 85% in 12 months",
       "Implemented marketing automation workflows that improved lead nurturing efficiency by 40%",
       "Managed $500K+ in annual digital advertising spend across multiple clients"],
      ["Lead Generation", "Content Marketing", "Marketing Automation", "SEO", "PPC Advertising"],
      None),
    Experience(3, "Marketing Coordinator", "E-commerce Solutions Ltd", "2015 - 2017",
      "Supported the marketing team in executing digital campaigns, managing social media presence, and analyzing marketing performance data.",
      ["Helped increase social media engagement by 65% through targeted content strategy",
       "Assisted in email marketing campaigns that generated $1.2M in revenue",
       "Conducted competitor analysis that informed successful product positioning",
       "Coordinated with design team to improve marketing creative performance"],
      ["Social Media Marketing", "Email Marketing", "Market Research", "Analytics", "Project Coordination"],
      None)
  ]

  /** The truth value of the optional flag: an absent flag is false. */
  predicate IsExpanded(e: Experience) {
    e.expanded == Some(true)
  }

  /** Two records that differ at most in their `expanded` flag. */
  predicate SameExceptExpanded(a: Experience, b: Experience) {
    a.(expanded := None) == b.(expanded := None)
  }

  /** One entry after a click on entry `id`. */
  function ToggleEntry(e: Experience, id: int): Experience {
    if e.id == id then e.(expanded := Some(!IsExpanded(e))) else e
  }

  /**
    The list after a click on entry `id`: same length and order, every field
    but `expanded` kept, the matching entries set to the negation of their
    flag and all other entries untouched.
   */
  function ToggleExpand(xs: seq<Experience>, id: int): (ys: seq<Experience>)
    ensures |ys| == |xs|
    ensures forall i :: 0 <= i < |xs| ==> SameExceptExpanded(xs[i], ys[i])
    ensures forall i :: 0 <= i < |xs| && xs[i].id == id ==>
      ys[i].expanded == Some(!IsExpanded(xs[i]))
    ensures forall i :: 0 <= i < |xs| && xs[i].id != id ==> ys[i] == xs[i]
  {
    if xs == [] then [] else [ToggleEntry(xs[0], id)] + ToggleExpand(xs[1..], id)
  }

  /** A click on an id that names no entry leaves the list as it was. */
  lemma ToggleUnknownId(xs: seq<Experience>, id: int)
    requires forall i :: 0 <= i < |xs| ==> xs[i].id != id
    ensures ToggleExpand(xs, id) == xs
  {
  }

  /** Two clicks on the same entry restore every entry's expanded state. */
  lemma ToggleTwice(xs: seq<Experience>, id: int)
    ensures var zs := ToggleExpand(ToggleExpand(xs, id), id);
      |zs| == |xs| &&
      forall i :: 0 <= i < |xs| ==> SameExceptExpanded(xs[i], zs[i]) && IsExpanded(zs[i]) == IsExpanded(xs[i])
  {
  }

  /** Clicks on two different entries do not interfere: either order gives the same list. */
  lemma ToggleCommutes(xs: seq<Experience>, a: int, b: int)
    requires a != b
    ensures ToggleExpand(ToggleExpand(xs, a), b) == ToggleExpand(ToggleExpand(xs, b), a)
  {
  }

  /** At mount every entry is collapsed with no flag, and the ids are 1, 2, 3. */
  lemma InitiallyCollapsed()
    ensures |InitialExperiences| == 3
    ensures forall i :: 0 <= i < |InitialExperiences| ==>
      InitialExperiences[i].id == i + 1 && InitialExperiences[i].expanded == None && !IsExpanded(InitialExperiences[i])
  {
  }

  /** A first click on an entry of the initial list expands it. */
  lemma FirstToggleExpands(k: int)
    requires 0 <= k < |InitialExperiences|
    ensures IsExpanded(ToggleExpand(InitialExperiences, k + 1)[k])
  {
  }

  datatype Side = Left | Right

  /** What the expanded part of an entry shows. */
  datatype Details = Details(achievements: seq<string>, skills: seq<string>)

  /** One rendered entry: its side of the line, its summary, its chevron and its details if open. */
  datatype EntryView = EntryView(
    side: Side, id: int, title: string, company: string, period: string, description: string,
    chevronUp: bool, details: Option<Details>)

  /** Entry `index` is laid out left of the line when the index is even, right when odd. */
  function SideOf(index: nat): (s: Side)
    ensures s == Left <==> index % 2 == 0
  {
    if index % 2 == 0 then Left else Right
  }

  /** Rendering one entry: achievements and skills appear exactly when it is expanded. */
  function RenderEntry(e: Experience, index: nat): (v: EntryView)
    ensures v.id == e.id && v.side == SideOf(index)
    ensures v.chevronUp == IsExpanded(e)
    ensures v.details.Some? <==> IsExpanded(e)
    ensures v.details.Some? ==> v.details.value.achievements == e.achievements && v.details.value.skills == e.skills
  {
    EntryView(SideOf(index), e.id, e.title, e.company, e.period, e.description, IsExpanded(e),
      if IsExpanded(e) then Some(Details(e.achievements, e.skills)) else None)
  }

  /** The rendered timeline: one view per entry, in order, alternating sides from the left. */
  function Render(xs: seq<Experience>): (vs: seq<EntryView>)
    ensures |vs| == |xs|
    ensures forall i :: 0 <= i < |vs| ==> vs[i].id == xs[i].id && (vs[i].details.Some? <==> IsExpanded(xs[i]))
    ensures |vs| > 0 ==> vs[0].side == Left
    ensures forall i :: 0 <= i < |vs| - 1 ==> vs[i].side != vs[i + 1].side
  {
    seq(|xs|, i requires 0 <= i < |xs| => RenderEntry(xs[i], i))
  }

  class Timeline {
    var experiences: seq<Experience>

    constructor ()
      ensures experiences == InitialExperiences
    {
      experiences := InitialExperiences;
    }

    /** A click on the chevron of entry `id`: the list is replaced by its toggled copy. */
    method Toggle(id: int)
      modifies this
      ensures experiences == ToggleExpand(old(experiences), id)
    {
      experiences := ToggleExpand(experiences, id);
    }
  }
}
